/** GridBuilder: the object the grid component is configured with.
    Creating one validates the mode settings, takes the grid options from
    a builder, a dict or a JSON string (or builds them from the data),
    marks an automatic height when no height is given, and walks the
    options for JsCode values. */
module GridAssembly {
  import opened Outcomes
  import opened Text
  import opened Tree
  import opened OptionsSpec
  import opened OptionsLemmas
  import opened OptionsInvariants
  import opened OptionsWalk
  import opened Validators
  import opened OptionsBuilder

  /** The forms the `grid_options` argument can take. A string is given as
      what `json.loads` makes of it, and a value of any other type by the
      text its type prints as. */
  datatype GridOptionsInput =
    | NoOptions
    | FromBuilder(builder: GridOptionsBuilder)
    | Dict(entries: seq<Entry>)
    | Json(parsed: Result<Value>)
    | Other(typeName: string)
  {
    /** The builder that taking these options may change. */
    function Builders(): set<GridOptionsBuilder> {
      if FromBuilder? then {builder} else {}
    }
  }

  /** The arguments of `GridBuilder(...)`. The data appear twice: as the
      records that serializing them gives (or the error it raises), and as
      the columns `from_data` sees. */
  datatype Args = Args(
    data: Result<seq<Value>>,
    columns: seq<Column>,
    gridOptions: GridOptionsInput,
    height: Option<int>,
    columnsAutoSizeMode: string,
    returnMode: string,
    allowUnsafeJs: bool,
    enableEnterpriseModules: bool,
    licenseKey: Option<string>,
    convertToOriginalTypes: bool,
    errors: string,
    reloadData: bool,
    columnState: Option<seq<Value>>,
    theme: string,
    customCss: CssInput,
    updateOn: Option<seq<Value>>,
    enableQuickSearch: bool,
    excelExportMode: string)

  /** A call that leaves every keyword argument at its default. */
  function DefaultArgs(data: Result<seq<Value>>, columns: seq<Column>): Args {
    Args(data, columns, NoOptions, None, "none", "input", false, true, None, true, "ignore",
         false, None, "streamlit", NoCss, None, false, "none")
  }

  /** The attributes of a GridBuilder. */
  datatype Settings = Settings(
    data: seq<Value>,
    gridOptions: Value,
    height: Option<int>,
    columnsAutoSizeMode: int,
    returnMode: int,
    allowUnsafeJs: bool,
    enableEnterpriseModules: bool,
    licenseKey: Option<string>,
    convertToOriginalTypes: bool,
    errors: string,
    reloadData: bool,
    columnState: Option<seq<Value>>,
    theme: string,
    customCss: Value,
    updateOn: Option<seq<Value>>,
    enableQuickSearch: bool,
    excelExportMode: string)

  /** The class attributes, which an instance shows until it sets its own. */
  const ClassDefaults: Settings :=
    Settings([Obj([])], Null, None, 0, 0, false, true, None, true, "ignore",
             false, None, "streamlit", Null, None, false, "none")

  // ---------------------------------------------------------------------
  // The specification of `GridBuilder.__new__`
  // ---------------------------------------------------------------------

  /** The auto-size mode, the return mode and the conversion error
      policy, checked in that order. */
  function CheckModes(autoSize: string, returnMode: string, convert: bool, errors: string)
    : Result<(int, int, string)>
  {
    var a :- ProcessAutoSizeMode(autoSize);
    var m :- ProcessReturnMode(returnMode);
    var e :- ProcessConversionErrors(convert, errors);
    Success((a, m, e))
  }

  /** The theme, the Excel export mode and the custom CSS, checked in that
      order. */
  function CheckChoices(theme: string, excel: string, css: CssInput): Result<(string, string, Value)> {
    var t :- ProcessTheme(theme);
    var x :- ProcessExcelExportMode(excel);
    var c :- ProcessCss(css);
    Success((t, x, c))
  }

  /** The modes of a call, lower-cased and checked. */
  function Modes(args: Args): Result<(int, int, string)> {
    CheckModes(Lower(args.columnsAutoSizeMode), Lower(args.returnMode), args.convertToOriginalTypes,
               Lower(args.errors))
  }

  /** The theme, the export mode and the CSS of a call, checked. */
  function Choices(args: Args): Result<(string, string, Value)> {
    CheckChoices(Lower(args.theme), Lower(args.excelExportMode), args.customCss)
  }

  /** The attributes after the data are serialized and the settings are
      validated, before the grid options are taken. Every mode string is
      lower-cased first, and the first check that fails decides the
      error. */
  function Cleaned(args: Args): Result<Settings>
  {
    var data :- args.data;
    var modes :- Modes(args);
    var choices :- Choices(args);
    Success(Settings(data, Null, args.height, modes.0, modes.1, args.allowUnsafeJs,
                     args.enableEnterpriseModules, args.licenseKey, args.convertToOriginalTypes,
                     modes.2, args.reloadData, args.columnState, choices.0, choices.2, args.updateOn,
                     args.enableQuickSearch, choices.1))
  }

  /** A call passes the checks exactly when its data serialize and every
      setting is accepted; each checked attribute is then what its
      validator makes of the lower-cased setting. */
  lemma CleanedChecks(args: Args)
    ensures Cleaned(args).Success? <==>
      args.data.Success? &&
      ProcessAutoSizeMode(Lower(args.columnsAutoSizeMode)).Success? &&
      ProcessReturnMode(Lower(args.returnMode)).Success? &&
      ProcessConversionErrors(args.convertToOriginalTypes, Lower(args.errors)).Success? &&
      ProcessTheme(Lower(args.theme)).Success? &&
      ProcessExcelExportMode(Lower(args.excelExportMode)).Success? &&
      ProcessCss(args.customCss).Success?
    ensures Cleaned(args).Success? ==>
      var s := Cleaned(args).value;
      s.data == args.data.value && s.gridOptions == Null &&
      s.columnsAutoSizeMode == ProcessAutoSizeMode(Lower(args.columnsAutoSizeMode)).value &&
      s.returnMode == ProcessReturnMode(Lower(args.returnMode)).value &&
      s.errors == Lower(args.errors) &&
      s.theme == Lower(args.theme) && s.theme in Themes &&
      s.excelExportMode == ProcessExcelExportMode(Lower(args.excelExportMode)).value &&
      s.customCss == ProcessCss(args.customCss).value
  {
  }

  /** The attributes that need no cleaning are stored as given. */
  lemma CleanedKeepsGiven(args: Args)
    requires Cleaned(args).Success?
    ensures var s := Cleaned(args).value;
      s.height == args.height && s.allowUnsafeJs == args.allowUnsafeJs &&
      s.enableEnterpriseModules == args.enableEnterpriseModules && s.licenseKey == args.licenseKey &&
      s.convertToOriginalTypes == args.convertToOriginalTypes && s.reloadData == args.reloadData &&
      s.columnState == args.columnState && s.updateOn == args.updateOn &&
      s.enableQuickSearch == args.enableQuickSearch
  {
  }

  /** The message refusing options of an unknown type; it names the type. */
  function GridOptionsMessage(typeName: string): (m: string)
    ensures StartsWith(m, "Unknown type for grid options: '")
    ensures |m| == |typeName| + 33
    ensures m[|m| - |typeName| - 1..] == typeName + "'"
  {
    var head := "Unknown type for grid options: '";
    var m := head + typeName + "'";
    assert m[..|head|] == head && m[|head|..] == typeName + "'";
    m
  }

  /** The grid options `__new__` takes: none builds them from the data, a
      builder is built, a dict is kept, a string is decoded, and anything
      else is refused. */
  function GridOptionsOf(g: GridOptionsInput, cols: seq<Column>): (r: Result<Value>)
    reads g.Builders()
  {
    match g
    case NoOptions =>
      var opts :- DataOptions(cols);
      var built :- Built(opts);
      Success(Obj(built))
    case FromBuilder(b) =>
      var built :- Built(b.gridOptions);
      Success(Obj(built))
    case Dict(es) => Success(Obj(es))
    case Json(parsed) => parsed
    case Other(t) => Failure(Invalid(GridOptionsMessage(t)))
  }

  /** Without a height, the options are updated with an automatic layout;
      only a dict has `update`. With a height they are left alone. */
  function WithHeight(v: Value, height: Option<int>): (r: Result<Value>)
    ensures height.Some? ==> r == Success(v)
    ensures height.None? ==> (r.Success? <==> v.Obj?)
    ensures height.None? && r.Success? ==>
      r.value.Obj? && Get(r.value.entries, "domLayout") == Some(Str("autoHeight")) &&
      forall k :: k != "domLayout" ==> Get(r.value.entries, k) == Get(v.entries, k)
  {
    if height.Some? then Success(v)
    else
      match v
      case Obj(es) => Success(Obj(Put(es, "domLayout", Str("autoHeight"))))
      case _ => Failure(Crash)
  }

  /** What follows the validation: the options taken (or the error taking
      them raised), the height check, and the walk. */
  function Finished(s: Settings, g: Result<Value>): (r: Result<Settings>)
  {
    var v :- g;
    var h :- WithHeight(v, s.height);
    JsCodeNeverUnwrapped(h);
    var w :- Walk(h, UnwrapCode);
    Success(s.(gridOptions := w))
  }

  /** `GridBuilder(...)`: the attributes of the new object, or the error
      that stops its creation. */
  function Assemble(args: Args): (r: Result<Settings>)
    reads args.gridOptions.Builders()
  {
    var s :- Cleaned(args);
    Finished(s, GridOptionsOf(args.gridOptions, args.columns))
  }

  // ---------------------------------------------------------------------
  // The object
  // ---------------------------------------------------------------------

  class GridBuilder {
    var data: seq<Value>
    var gridOptions: Value
    var height: Option<int>
    var columnsAutoSizeMode: int
    var returnMode: int
    var allowUnsafeJs: bool
    var enableEnterpriseModules: bool
    var licenseKey: Option<string>
    var convertToOriginalTypes: bool
    var errors: string
    var reloadData: bool
    var columnState: Option<seq<Value>>
    var theme: string
    var customCss: Value
    var updateOn: Option<seq<Value>>
    var enableQuickSearch: bool
    var excelExportMode: string

    /** The attributes, as one value. */
    function Snapshot(): Settings
      reads this
    {
      Settings(data, gridOptions, height, columnsAutoSizeMode, returnMode, allowUnsafeJs,
               enableEnterpriseModules, licenseKey, convertToOriginalTypes, errors, reloadData,
               columnState, theme, customCss, updateOn, enableQuickSearch, excelExportMode)
    }

    /** `super().__new__(cls)`: an instance that still shows the class
        attributes. */
    constructor ()
      ensures Snapshot() == ClassDefaults
    {
      data := [Obj([])];
      gridOptions := Null;
      height := None;
      columnsAutoSizeMode := 0;
      returnMode := 0;
      allowUnsafeJs := false;
      enableEnterpriseModules := true;
      licenseKey := None;
      convertToOriginalTypes := true;
      errors := "ignore";
      reloadData := false;
      columnState := None;
      theme := "streamlit";
      customCss := Null;
      updateOn := None;
      enableQuickSearch := false;
      excelExportMode := "none";
    }

    /** `GridBuilder(...)`. When the options come from a builder, that
        builder is built in place once the settings are valid. */
    static method New(args: Args) returns (r: Result<GridBuilder>)
      requires args.gridOptions.FromBuilder? ==> args.gridOptions.builder.Valid()
      modifies args.gridOptions.Builders()
      ensures StatusOf(r) == StatusOf(old(Assemble(args)))
      ensures r.Success? ==> fresh(r.value) && r.value.Snapshot() == old(Assemble(args)).value
      ensures args.gridOptions.FromBuilder? ==> args.gridOptions.builder.Valid()
      ensures args.gridOptions.FromBuilder? ==> (args.gridOptions.builder.gridOptions ==
        if Cleaned(args).Failure? then old(args.gridOptions.builder.gridOptions)
        else Applied(old(args.gridOptions.builder.gridOptions), Built(old(args.gridOptions.builder.gridOptions))).options)
    {
      ghost var spec := Assemble(args);
      var obj := new GridBuilder();
      var cleaned := Cleaned(args);
      if cleaned.Failure? {
        return Failure(cleaned.error);
      }
      obj.Load(cleaned.value);
      var g := TakeGridOptions(args.gridOptions, args.columns);
      var st := obj.Finish(g);
      if st.Raised? {
        return Failure(st.error);
      }
      r := Success(obj);
    }

    /** Every attribute set from `s`. */
    method Load(s: Settings)
      modifies this
      ensures Snapshot() == s
    {
      LoadChecked(s);
      LoadGiven(s);
    }

    /** The data, the options and the checked settings, set from `s`. */
    method LoadChecked(s: Settings)
      modifies this`data, this`gridOptions, this`columnsAutoSizeMode, this`returnMode,
        this`errors, this`theme, this`customCss, this`excelExportMode
      ensures data == s.data && gridOptions == s.gridOptions
      ensures columnsAutoSizeMode == s.columnsAutoSizeMode && returnMode == s.returnMode
      ensures errors == s.errors && theme == s.theme
      ensures customCss == s.customCss && excelExportMode == s.excelExportMode
    {
      data := s.data;
      gridOptions := s.gridOptions;
      columnsAutoSizeMode := s.columnsAutoSizeMode;
      returnMode := s.returnMode;
      errors := s.errors;
      theme := s.theme;
      customCss := s.customCss;
      excelExportMode := s.excelExportMode;
    }

    /** The settings kept as they are given, set from `s`. */
    method LoadGiven(s: Settings)
      modifies this`height, this`allowUnsafeJs, this`enableEnterpriseModules, this`licenseKey,
        this`convertToOriginalTypes, this`reloadData, this`columnState, this`updateOn,
        this`enableQuickSearch
      ensures height == s.height && allowUnsafeJs == s.allowUnsafeJs
      ensures enableEnterpriseModules == s.enableEnterpriseModules && licenseKey == s.licenseKey
      ensures convertToOriginalTypes == s.convertToOriginalTypes && reloadData == s.reloadData
      ensures columnState == s.columnState && updateOn == s.updateOn
      ensures enableQuickSearch == s.enableQuickSearch
    {
      height := s.height;
      allowUnsafeJs := s.allowUnsafeJs;
      enableEnterpriseModules := s.enableEnterpriseModules;
      licenseKey := s.licenseKey;
      convertToOriginalTypes := s.convertToOriginalTypes;
      reloadData := s.reloadData;
      columnState := s.columnState;
      updateOn := s.updateOn;
      enableQuickSearch := s.enableQuickSearch;
    }

    /** The options taken, then the height check and the walk. */
    method Finish(g: Result<Value>) returns (st: Status)
      modifies this`gridOptions
      ensures st == StatusOf(Finished(old(Snapshot()), g))
      ensures st.Done? ==> Snapshot() == Finished(old(Snapshot()), g).value
    {
      if g.Failure? {
        return Raised(g.error);
      }
      gridOptions := g.value;
      st := ApplyHeight();
      if st.Raised? {
        return;
      }
      JsCodeNeverUnwrapped(gridOptions);
      st := WalkOptions();
      assert Snapshot() == old(Snapshot()).(gridOptions := gridOptions);
    }

    /** The height check: no height marks the layout as automatic, in
        place. */
    method ApplyHeight() returns (st: Status)
      modifies this`gridOptions
      ensures st == StatusOf(WithHeight(old(gridOptions), height))
      ensures st.Done? ==> gridOptions == WithHeight(old(gridOptions), height).value
    {
      st := Done;
      if height.None? {
        match gridOptions {
          case Obj(es) => gridOptions := Obj(Put(es, "domLayout", Str("autoHeight")));
          case _ => st := Raised(Crash);
        }
      }
    }

    /** The final walk with the JsCode-unwrapping function. The walk may
        raise; it never changes the options. */
    method WalkOptions() returns (st: Status)
      modifies this`gridOptions
      ensures NonGrowing(UnwrapCode) && st == StatusOf(Walk(old(gridOptions), UnwrapCode))
      ensures gridOptions == old(gridOptions)
    {
      JsCodeNeverUnwrapped(gridOptions);
      var walked := WalkGridOptions(gridOptions, UnwrapCode);
      if walked.Failure? {
        return Raised(walked.error);
      }
      gridOptions := walked.value;
      st := Done;
    }
  }

  /** The `grid_options` dispatch of `__new__`. A builder is built in
      place. */
  method TakeGridOptions(g: GridOptionsInput, cols: seq<Column>) returns (r: Result<Value>)
    requires g.FromBuilder? ==> g.builder.Valid()
    modifies g.Builders()
    ensures r == old(GridOptionsOf(g, cols))
    ensures g.FromBuilder? ==> g.builder.Valid()
    ensures g.FromBuilder? ==>
      g.builder.gridOptions == Applied(old(g.builder.gridOptions), Built(old(g.builder.gridOptions))).options
  {
    match g {
      case NoOptions =>
        var made := GridOptionsBuilder.FromData(cols);
        if made.Failure? {
          return Failure(made.error);
        }
        var built := made.value.Build();
        r := if built.Failure? then Failure(built.error) else Success(Obj(built.value));
      case FromBuilder(b) =>
        var built := b.Build();
        r := if built.Failure? then Failure(built.error) else Success(Obj(built.value));
      case Dict(es) =>
        r := Success(Obj(es));
      case Json(parsed) =>
        r := parsed;
      case Other(t) =>
        r := Failure(Invalid(GridOptionsMessage(t)));
    }
  }

  // ---------------------------------------------------------------------
  // Properties of `GridBuilder.__new__`
  // ---------------------------------------------------------------------

  /** A setting that fails its check is reported before the grid options
      are looked at, whatever they are. */
  lemma SettingsCheckedFirst(args: Args)
    requires Cleaned(args).Failure?
    ensures Assemble(args) == Failure(Cleaned(args).error)
  {
  }

  /** Options of an unknown type are refused with a message naming the
      type, once the settings are valid. */
  lemma UnknownTypeRefused(args: Args)
    requires args.gridOptions.Other? && Cleaned(args).Success?
    ensures Assemble(args) == Failure(Invalid(GridOptionsMessage(args.gridOptions.typeName)))
  {
  }

  /** Without a height, the grid's options are the options taken, with an
      automatic layout and nothing else changed; with a height they are
      exactly the options taken. */
  lemma {:induction false} AssembledOptions(args: Args)
    requires Assemble(args).Success?
    ensures GridOptionsOf(args.gridOptions, args.columns).Success?
    ensures var taken := GridOptionsOf(args.gridOptions, args.columns).value;
      var o := Assemble(args).value.gridOptions;
      if args.height.Some? then o == taken
      else
        taken.Obj? && o.Obj? && Get(o.entries, "domLayout") == Some(Str("autoHeight")) &&
        forall k :: k != "domLayout" ==> Get(o.entries, k) == Get(taken.entries, k)
  {
    var taken := GridOptionsOf(args.gridOptions, args.columns).value;
    var h := WithHeight(taken, args.height).value;
    JsCodeNeverUnwrapped(h);
  }

  /** Without grid options, the options are built from the data: this
      succeeds exactly when every column label is a name and no name
      repeats, and then the column definitions are listed in the order of
      the columns, beside the default column options. */
  lemma {:induction false} DataGridOptions(cols: seq<Column>)
    ensures GridOptionsOf(NoOptions, cols).Success? <==> AllNamed(cols) && Distinct(Names(cols))
    ensures GridOptionsOf(NoOptions, cols).Success? ==>
      var o := GridOptionsOf(NoOptions, cols).value;
      o.Obj? && Get(o.entries, "columnDefs") == Some(List(Values(DataDefs(cols)))) &&
      Get(o.entries, "defaultColDef") == Some(Obj(DefaultColumnOptions))
  {
    DataOptionsSucceed(cols);
    if DataOptions(cols).Success? {
      DataOptionsResult(cols);
      BuildListsColumns(DataOptions(cols).value, DataDefs(cols));
    }
  }

  /** The modes are lower-cased before they are checked, so spellings that
      differ only in case make the same grid. */
  lemma {:induction false} SettingsIgnoreCase(args: Args, other: Args)
    requires SameUpToCase(args.columnsAutoSizeMode, other.columnsAutoSizeMode)
    requires SameUpToCase(args.returnMode, other.returnMode)
    requires SameUpToCase(args.errors, other.errors)
    requires SameUpToCase(args.theme, other.theme)
    requires SameUpToCase(args.excelExportMode, other.excelExportMode)
    requires other.(columnsAutoSizeMode := args.columnsAutoSizeMode, returnMode := args.returnMode,
                    errors := args.errors, theme := args.theme,
                    excelExportMode := args.excelExportMode) == args
    ensures Assemble(args) == Assemble(other)
  {
    LowerIgnoresCase(args.columnsAutoSizeMode, other.columnsAutoSizeMode);
    LowerIgnoresCase(args.returnMode, other.returnMode);
    LowerIgnoresCase(args.errors, other.errors);
    LowerIgnoresCase(args.theme, other.theme);
    LowerIgnoresCase(args.excelExportMode, other.excelExportMode);
    assert Modes(args) == Modes(other) && Choices(args) == Choices(other);
    assert Cleaned(args) == Cleaned(other);
  }

  /** A call with every keyword at its default passes every check; its
      settings are the class attributes, except that the export mode is
      upper-cased and the custom CSS becomes an empty dict. */
  lemma DefaultSettings(data: Result<seq<Value>>, cols: seq<Column>)
    ensures Cleaned(DefaultArgs(data, cols)).Success? <==> data.Success?
    ensures data.Success? ==>
      Cleaned(DefaultArgs(data, cols)).value ==
        ClassDefaults.(data := data.value, excelExportMode := "NONE", customCss := Obj([]))
  {
    DefaultModes();
    DefaultChoices();
  }

  /** The default modes pass their checks. */
  lemma DefaultModes()
    ensures CheckModes(Lower("none"), Lower("input"), true, Lower("ignore")) == Success((0, 0, "ignore"))
  {
    LowerKeepsLowerCase("none");
    LowerKeepsLowerCase("input");
    LowerKeepsLowerCase("ignore");
  }

  /** The default theme, export mode and CSS pass their checks. */
  lemma DefaultChoices()
    ensures CheckChoices(Lower("streamlit"), Lower("none"), NoCss) == Success(("streamlit", "NONE", Obj([])))
  {
    DefaultTheme();
    LowerKeepsLowerCase("none");
  }

  /** The default theme is listed. */
  lemma DefaultTheme()
    ensures ProcessTheme(Lower("streamlit")) == Success("streamlit")
  {
    LowerKeepsLowerCase("streamlit");
    assert Themes[3] == "streamlit";
  }

  /** With every keyword at its default, the grid lists the data's columns
      in order and lays itself out with an automatic height. */
  lemma {:induction false} DefaultGrid(data: Result<seq<Value>>, cols: seq<Column>)
    requires Assemble(DefaultArgs(data, cols)).Success?
    ensures data.Success? && AllNamed(cols) && Distinct(Names(cols))
    ensures var o := Assemble(DefaultArgs(data, cols)).value.gridOptions;
      o.Obj? && Get(o.entries, "columnDefs") == Some(List(Values(DataDefs(cols)))) &&
      Get(o.entries, "domLayout") == Some(Str("autoHeight"))
  {
    DefaultSettings(data, cols);
    DataGridOptions(cols);
    AssembledOptions(DefaultArgs(data, cols));
  }
}
