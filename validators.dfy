/** The option validators of the grid assembly: each takes one user-supplied
    setting (already lower-cased by the caller) and returns its canonical
    value, or fails with a message that lists the accepted options. */
module Validators {
  import opened Outcomes
  import opened Text
  import opened Tree

  // ---------------------------------------------------------------------
  // _make_error_msg
  // ---------------------------------------------------------------------

  /** `f"'{x}'"`. */
  function Quoted(x: string): string {
    "'" + x + "'"
  }

  const Separator: string := ", "

  /** `', '.join(f"'{x}'" for x in options)`. */
  function QuotedList(options: seq<string>): (r: string)
    ensures options == [] ==> r == ""
    ensures |options| == 1 ==> r == Quoted(options[0])
  {
    if options == [] then ""
    else if |options| == 1 then Quoted(options[0])
    else Quoted(options[0]) + Separator + QuotedList(options[1..])
  }

  /** The joined list grows at its end: one more option adds a separator
      and that option, quoted. */
  lemma {:induction false} QuotedListSnoc(options: seq<string>, o: string)
    requires options != []
    ensures QuotedList(options + [o]) == QuotedList(options) + Separator + Quoted(o)
    decreases |options|
  {
    var head := Quoted(options[0]) + Separator;
    if |options| == 1 {
      assert (options + [o])[1..] == [o];
      assert QuotedList(options + [o]) == head + Quoted(o);
    } else {
      var rest := options[1..];
      assert (options + [o])[1..] == rest + [o];
      QuotedListSnoc(rest, o);
      calc {
        QuotedList(options + [o]);
        head + QuotedList(rest + [o]);
        head + (QuotedList(rest) + Separator + Quoted(o));
        (head + QuotedList(rest)) + Separator + Quoted(o);
      }
    }
  }

  /** Each option costs its own length, two quotes and, but for the last,
      a two-character separator. */
  lemma {:induction false} QuotedListLength(options: seq<string>)
    requires options != []
    ensures |QuotedList(options)| == TotalLength(options) + 2 * |options| + 2 * (|options| - 1)
    decreases |options|
  {
    if |options| > 1 {
      QuotedListLength(options[1..]);
    }
  }

  /** The summed lengths of the options. */
  function TotalLength(options: seq<string>): nat {
    if options == [] then 0 else |options[0]| + TotalLength(options[1..])
  }

  const MessageHead: string := "Input "

  /** `_make_error_msg(field, input, options)`. */
  function MakeErrorMsg(field: string, input: string, options: seq<string>): (r: string)
    ensures var head := MessageHead + field + " '" + input + "' is invalid. Options are ";
      StartsWith(r, head) && |r| == |head| + |QuotedList(options)| + 1 &&
      r[|head|..|r| - 1] == QuotedList(options) && r[|r| - 1] == '.'
  {
    var head := MessageHead + field + " '" + input + "' is invalid. Options are ";
    var r := head + QuotedList(options) + ".";
    assert r[..|head|] == head;
    assert r[|head|..|r| - 1] == QuotedList(options);
    r
  }

  // ---------------------------------------------------------------------
  // The validators
  // ---------------------------------------------------------------------

  const AutoSizeOptions: seq<string> := ["none", "fit", "fit all"]

  /** `_process_auto_size_mode(mode)`: "none" is 0, a mode mentioning "fit"
      is 2 when it also mentions "all" and 1 otherwise. */
  function ProcessAutoSizeMode(mode: string): (r: Result<int>)
    ensures r.Success? ==> 0 <= r.value <= 2
    ensures r == Success(0) <==> mode == "none"
    ensures r.Failure? <==> mode != "none" && !Contains(mode, "fit")
    ensures mode != "none" && Contains(mode, "fit") ==> r == Success(if Contains(mode, "all") then 2 else 1)
    ensures r.Failure? ==> r.error == Invalid(MakeErrorMsg("Column Auto Size Mode", mode, AutoSizeOptions))
  {
    if mode == "none" then Success(0)
    else if Contains(mode, "fit") then Success(if Contains(mode, "all") then 2 else 1)
    else Failure(Invalid(MakeErrorMsg("Column Auto Size Mode", mode, AutoSizeOptions)))
  }

  const ReturnModeOptions: seq<string> := ["input", "filter", "filter sort"]

  /** `_process_return_mode(mode)`: "input" is 0, a mode mentioning
      "filter" is 2 when it also mentions "sort" and 1 otherwise. */
  function ProcessReturnMode(mode: string): (r: Result<int>)
    ensures r.Success? ==> 0 <= r.value <= 2
    ensures r == Success(0) <==> mode == "input"
    ensures r.Failure? <==> mode != "input" && !Contains(mode, "filter")
    ensures mode != "input" && Contains(mode, "filter") ==> r == Success(if Contains(mode, "sort") then 2 else 1)
    ensures r.Failure? ==> r.error == Invalid(MakeErrorMsg("Return mode", mode, ReturnModeOptions))
  {
    if mode == "input" then Success(0)
    else if Contains(mode, "filter") then Success(if Contains(mode, "sort") then 2 else 1)
    else Failure(Invalid(MakeErrorMsg("Return mode", mode, ReturnModeOptions)))
  }

  const Themes: seq<string> := ["alpine", "balham", "material", "streamlit", "excel", "astro",
                                "alpine-dark", "balham-dark", "streamlit-dark", "astro-dark"]

  /** `_process_theme(theme)`: a listed theme, unchanged. */
  function ProcessTheme(theme: string): (r: Result<string>)
    ensures r.Success? <==> theme in Themes
    ensures r.Success? ==> r.value == theme
    ensures r.Failure? ==> r.error == Invalid(MakeErrorMsg("Theme", theme, Themes))
  {
    if theme !in Themes then Failure(Invalid(MakeErrorMsg("Theme", theme, Themes)))
    else Success(theme)
  }

  const ExcelExportOptions: seq<string> := ["none", "manual", "automatic"]
  const ExcelExportModes: seq<string> := ["NONE", "MANUAL", "TRIGGER"]

  /** `_process_excel_export_mode(mode)`: the three modes, renamed for the
      component. */
  function ProcessExcelExportMode(mode: string): (r: Result<string>)
    ensures r.Success? <==> mode in ExcelExportOptions
    ensures r.Success? ==> r.value in ExcelExportModes
    ensures r.Failure? ==> r.error == Invalid(MakeErrorMsg("Excel export mode", mode, ExcelExportOptions))
  {
    if mode == "none" then Success("NONE")
    else if mode == "manual" then Success("MANUAL")
    else if mode == "automatic" then Success("TRIGGER")
    else Failure(Invalid(MakeErrorMsg("Excel export mode", mode, ExcelExportOptions)))
  }

  function ConversionErrorsMessage(errors: string): string {
    "Error handling '" + errors + "' is invalid, should be 'raise' or 'ignore'"
  }

  /** `_process_conversion_errors(convert, errors)`: the policy matters only
      when conversion is on, and is then "raise" or "ignore". */
  function ProcessConversionErrors(convert: bool, errors: string): (r: Result<string>)
    ensures r.Failure? <==> convert && errors != "raise" && errors != "ignore"
    ensures r.Success? ==> r.value == errors
    ensures r.Failure? ==> r.error == Invalid(ConversionErrorsMessage(errors))
  {
    if convert && errors !in ["raise", "ignore"] then Failure(Invalid(ConversionErrorsMessage(errors)))
    else Success(errors)
  }

  /** The kinds of value `custom_css` can be; a string is given as what
      `json.loads` makes of it, a value of another type by the name of
      that type. */
  datatype CssInput =
    | NoCss
    | CssDict(entries: seq<Entry>)
    | CssText(parsed: Result<Value>)
    | CssOther(typeName: string)

  function CssMessage(typeName: string): string {
    "Custom CSS is neither a dict nor a string by " + typeName
  }

  /** `_process_css(custom_css)`: no CSS is an empty dict, a dict is kept
      as it is, a string is decoded, and any other value is refused. */
  function ProcessCss(css: CssInput): (r: Result<Value>)
    ensures r.Failure? <==> css.CssOther? || (css.CssText? && css.parsed.Failure?)
    ensures css.CssDict? ==> r == Success(Obj(css.entries))
    ensures css.CssText? ==> r == css.parsed
    ensures css.NoCss? ==> r.Success? && r.value.Obj? && r.value.entries == []
  {
    match css
    case NoCss => Success(Obj([]))
    case CssDict(es) => Success(Obj(es))
    case CssText(parsed) => parsed
    case CssOther(t) => Failure(Invalid(CssMessage(t)))
  }

  // ---------------------------------------------------------------------
  // Properties
  // ---------------------------------------------------------------------

  /** Every auto-size option the error message offers is accepted, at its
      position in the list. */
  lemma AutoSizeOptionsAccepted(i: nat)
    requires i < |AutoSizeOptions|
    ensures ProcessAutoSizeMode(AutoSizeOptions[i]) == Success(i)
  {
    if i == 1 {
      assert OccursAt("fit", "fit", 0);
      NotContains("fit", "all");
    } else if i == 2 {
      assert OccursAt("fit all", "fit", 0);
      assert OccursAt("fit all", "all", 4);
    }
  }

  /** Every return-mode option the error message offers is accepted, at
      its position in the list. */
  lemma ReturnModeOptionsAccepted(i: nat)
    requires i < |ReturnModeOptions|
    ensures ProcessReturnMode(ReturnModeOptions[i]) == Success(i)
  {
    if i == 1 {
      assert OccursAt("filter", "filter", 0);
      NotContains("filter", "sort");
    } else if i == 2 {
      assert OccursAt("filter sort", "filter", 0);
      assert OccursAt("filter sort", "sort", 7);
    }
  }

  /** The Excel export options and the modes they become correspond
      position by position. */
  lemma ExcelExportOptionsAccepted(i: nat)
    requires i < |ExcelExportOptions|
    ensures ProcessExcelExportMode(ExcelExportOptions[i]) == Success(ExcelExportModes[i])
  {
  }

  /** The caller lower-cases every mode, so two spellings that differ only
      in case are validated alike. */
  lemma {:induction false} ValidationIgnoresCase(s: string, t: string)
    requires SameUpToCase(s, t)
    ensures ProcessAutoSizeMode(Lower(s)) == ProcessAutoSizeMode(Lower(t))
    ensures ProcessReturnMode(Lower(s)) == ProcessReturnMode(Lower(t))
    ensures ProcessTheme(Lower(s)) == ProcessTheme(Lower(t))
    ensures ProcessExcelExportMode(Lower(s)) == ProcessExcelExportMode(Lower(t))
    ensures ProcessConversionErrors(true, Lower(s)) == ProcessConversionErrors(true, Lower(t))
  {
    LowerIgnoresCase(s, t);
  }
}
