/** What each GridOptionsBuilder operation does to the options dict, as pure
    functions of the options before the call, with the properties the
    builder promises proved about them. The class in OptionsBuilder applies
    these step by step. */
module OptionsSpec {
  import opened Outcomes
  import opened Text
  import opened Tree

  /** `**options` of a call: distinct names, none of them one of `params`. */
  predicate Kwargs(options: seq<Entry>, params: set<string>) {
    UniqueKeys(options) && forall k :: k in Keys(options) ==> k !in params
  }

  // ---------------------------------------------------------------------
  // _pandas_types
  // ---------------------------------------------------------------------

  /** The test for a numeric dtype: a one-letter integer, unsigned or float
      kind, or a dtype name that mentions int, float or double. */
  predicate IsNumericDtype(d: string) {
    d == "i" || d == "u" || d == "f" || Contains(d, "int") || Contains(d, "float") || Contains(d, "double")
  }

  /** `_pandas_types(d)`: the column type and filter for a dtype string. The
      numeric test comes first, then the exact kinds "m" and "M", and
      anything else is treated as text. */
  function PandasTypes(d: string): (r: seq<Entry>)
    ensures UniqueKeys(r) && Keys(r) <= ["type", "filter"]
    ensures Get(r, "type") == Some(Str("numericColumn")) <==>
      d in {"i", "u", "f"} || (exists i :: OccursAt(d, "int", i)) ||
      (exists i :: OccursAt(d, "float", i)) || (exists i :: OccursAt(d, "double", i))
    ensures Get(r, "type") == Some(Str("timedeltaFormat")) <==> d == "m"
    ensures Get(r, "type") == Some(Str("dateColumn")) <==> d == "M"
    ensures Get(r, "type") == Some(Str("rightAligned")) <==> !IsNumericDtype(d) && d != "m" && d != "M"
    ensures Get(r, "filter").None? <==> d == "m"
    ensures Kwargs(r, ColumnParams)
  {
    if IsNumericDtype(d) then
      [Entry("type", Str("numericColumn")), Entry("filter", Str("numberColumnFilter"))]
    else if d == "m" then
      [Entry("type", Str("timedeltaFormat"))]
    else if d == "M" then
      [Entry("type", Str("dateColumn")), Entry("filter", Str("dateColumnFilter"))]
    else
      [Entry("type", Str("rightAligned")), Entry("filter", Str("textColumnFilter"))]
  }

  // ---------------------------------------------------------------------
  // __init__
  // ---------------------------------------------------------------------

  /** The parameter names of `__init__`. */
  const InitParams: set<string> := {"self", "grid_options"}

  /** The column options a builder starts with. */
  const DefaultColumnOptions: seq<Entry> :=
    [Entry("minWidth", Int(100)), Entry("editable", Bool(false)), Entry("sortable", Bool(true)), Entry("resizable", Bool(true))]

  /** `self.grid_options` after `__init__(grid_options, **kwargs)`: the
      given options (a new dict when there are none), with an empty
      `columnDefs` when it has none, updated with the keyword arguments. */
  function InitialOptions(given: Option<seq<Entry>>, kwargs: seq<Entry>): (r: seq<Entry>)
    requires Kwargs(kwargs, InitParams)
    ensures "columnDefs" in Keys(r)
    ensures forall k :: k in Keys(kwargs) ==> Get(r, k) == Get(kwargs, k)
    ensures forall k :: k !in Keys(kwargs) && k != "columnDefs" ==> Get(r, k) == Get(given.GetOr([]), k)
    ensures "columnDefs" !in Keys(kwargs) ==> Get(r, "columnDefs") == Some(Get(given.GetOr([]), "columnDefs").GetOr(Obj([])))
  {
    var opts := given.GetOr([]);
    var withColumns := if "columnDefs" in Keys(opts) then opts else Put(opts, "columnDefs", Obj([]));
    forall k | k in Keys(kwargs) ensures Get(PutAll(withColumns, kwargs), k) == Get(kwargs, k) {
      PutAllGet(withColumns, kwargs, k);
    }
    PutAll(withColumns, kwargs)
  }

  /** One item of an iterable given to `dict.update`, as the key and the
      value it stores: a two-item list whose first item is a string, a
      two-letter string (its letters), or a dict of two keys (iterating it
      yields its keys). Any other item raises: a wrong length, an item that
      is not iterable, or an unhashable key. */
  function UpdatePair(x: Value): (r: Option<Entry>)
    ensures x.List? && |x.items| == 2 && x.items[0].Str? ==> r == Some(Entry(x.items[0].s, x.items[1]))
    ensures x.Str? && |x.s| == 2 ==> r == Some(Entry(x.s[..1], Str(x.s[1..])))
    ensures x.Obj? && |x.entries| == 2 ==> r == Some(Entry(x.entries[0].key, Str(x.entries[1].key)))
    ensures r.Some? <==>
      (x.List? && |x.items| == 2 && x.items[0].Str?) || (x.Str? && |x.s| == 2) || (x.Obj? && |x.entries| == 2)
  {
    match x
    case List(xs) => if |xs| == 2 && xs[0].Str? then Some(Entry(xs[0].s, xs[1])) else None
    case Str(t) => if |t| == 2 then Some(Entry(t[..1], Str(t[1..]))) else None
    case Obj(es) => if |es| == 2 then Some(Entry(es[0].key, Str(es[1].key))) else None
    case _ => None
  }

  /** The items of an iterable given to `dict.update`, in order, or None
      when one of them raises. */
  function UpdatePairs(xs: seq<Value>): (r: Option<seq<Entry>>)
    ensures r.Some? <==> forall i :: 0 <= i < |xs| ==> UpdatePair(xs[i]).Some?
    ensures r.Some? ==> |r.value| == |xs| && forall i :: 0 <= i < |xs| ==> r.value[i] == UpdatePair(xs[i]).value
  {
    if xs == [] then Some([])
    else match (UpdatePair(xs[0]), UpdatePairs(xs[1..]))
      case (Some(e), Some(rest)) =>
        assert forall i :: 1 <= i < |xs| ==> xs[i] == xs[1..][i - 1];
        Some([e] + rest)
      case (None, _) => None
      case (_, None) =>
        assert forall i :: 1 <= i < |xs| ==> xs[i] == xs[1..][i - 1];
        None
  }

  /** What `d.update(v)` stores, in order, or None where it raises: a dict
      gives its entries; a list gives one pair per item; a string gives its
      letters, which are never pairs, so only the empty string passes; a
      number, a bool, None or a JsCode object is not iterable. */
  function UpdateEntries(v: Value): (r: Option<seq<Entry>>)
    ensures v.Obj? ==> r == Some(v.entries)
    ensures v.List? ==> r == UpdatePairs(v.items)
    ensures v.Str? ==> (r.Some? <==> v.s == "")
    ensures !(v.Obj? || v.List? || v.Str?) ==> r.None?
  {
    match v
    case Obj(es) => Some(es)
    case List(xs) => UpdatePairs(xs)
    case Str(t) => if t == "" then Some([]) else None
    case _ => None
  }

  /** `self.default_options` after `__init__(**kwargs)`: the defaults
      updated with `defaultColDef` when it is given, and with all the
      keyword arguments otherwise. The update stores each entry in turn,
      so a later entry overrides an earlier one with the same key. */
  function InitialDefaults(kwargs: seq<Entry>): (r: Result<seq<Entry>>)
    requires Kwargs(kwargs, InitParams)
    ensures r.Failure? <==>
      "defaultColDef" in Keys(kwargs) && UpdateEntries(Get(kwargs, "defaultColDef").value).None?
    ensures r.Failure? ==> r.error == Crash
    ensures r.Success? ==> forall k :: k in Keys(DefaultColumnOptions) ==> k in Keys(r.value)
    ensures "defaultColDef" !in Keys(kwargs) ==>
      r.Success? && forall k :: Get(r.value, k) == if k in Keys(kwargs) then Get(kwargs, k) else Get(DefaultColumnOptions, k)
    ensures "defaultColDef" in Keys(kwargs) && r.Success? ==>
      var kvs := UpdateEntries(Get(kwargs, "defaultColDef").value).value;
      (forall k :: k !in Keys(kvs) ==> Get(r.value, k) == Get(DefaultColumnOptions, k)) &&
      forall i :: 0 <= i < |kvs| && (forall j :: i < j < |kvs| ==> kvs[j].key != kvs[i].key) ==>
        Get(r.value, kvs[i].key) == Some(kvs[i].value)
  {
    match Get(kwargs, "defaultColDef")
    case None =>
      forall k | k in Keys(kwargs) ensures Get(PutAll(DefaultColumnOptions, kwargs), k) == Get(kwargs, k) {
        PutAllGet(DefaultColumnOptions, kwargs, k);
      }
      Success(PutAll(DefaultColumnOptions, kwargs))
    case Some(v) =>
      match UpdateEntries(v)
      case None => Failure(Crash)
      case Some(kvs) =>
        forall i | 0 <= i < |kvs| && (forall j :: i < j < |kvs| ==> kvs[j].key != kvs[i].key)
          ensures Get(PutAll(DefaultColumnOptions, kvs), kvs[i].key) == Some(kvs[i].value)
        {
          PutAllLast(DefaultColumnOptions, kvs, i);
        }
        Success(PutAll(DefaultColumnOptions, kvs))
  }

  // ---------------------------------------------------------------------
  // from_data
  // ---------------------------------------------------------------------

  /** A column label of the data frame: a name, or the position pandas
      gives to the columns of an unlabelled array. */
  datatype Label = Name(name: string) | Position(index: int)

  /** A column of the data, as `from_data` sees it: its label and
      `str(dtype)`. */
  datatype Column = Column(heading: Label, dtype: string)

  /** The options `from_data` starts from: those of `GridOptionsBuilder(grid_options=dict())`
      with the default column options as `defaultColDef`. */
  const DataStart: seq<Entry> := [Entry("columnDefs", Obj([])), Entry("defaultColDef", Obj(DefaultColumnOptions))]

  /** The options with dotted field paths turned off when the column name
      `n` has a dot. */
  function DotMarked(opts: seq<Entry>, n: string): (r: seq<Entry>)
    ensures forall k :: k != "suppressFieldDotNotation" ==> Get(r, k) == Get(opts, k)
    ensures Get(r, "suppressFieldDotNotation") ==
      if Contains(n, ".") then Some(Bool(true)) else Get(opts, "suppressFieldDotNotation")
  {
    if Contains(n, ".") then Put(opts, "suppressFieldDotNotation", Bool(true)) else opts
  }

  /** One pass of the loop of `from_data`, for the column `c`. A name with
      a dot first turns off dotted field paths; a label that is not a
      string cannot be searched for a dot. */
  function AddDataColumn(opts: seq<Entry>, c: Column): Result<seq<Entry>> {
    match c.heading
    case Position(_) => Failure(Crash)
    case Name(n) => WithColumn(DotMarked(opts, n), n, Some(n), PandasTypes(c.dtype))
  }

  /** The loop of `from_data` over `cols`, from the options `opts`. */
  function AddDataColumns(opts: seq<Entry>, cols: seq<Column>): Result<seq<Entry>>
    decreases |cols|
  {
    if cols == [] then Success(opts)
    else
      var next :- AddDataColumn(opts, cols[0]);
      AddDataColumns(next, cols[1..])
  }

  /** `from_data(data).grid_options` for data with the columns `cols`. */
  function DataOptions(cols: seq<Column>): Result<seq<Entry>> {
    AddDataColumns(DataStart, cols)
  }

  predicate AllNamed(cols: seq<Column>) {
    forall i :: 0 <= i < |cols| ==> cols[i].heading.Name?
  }

  function Names(cols: seq<Column>): (ns: seq<string>)
    requires AllNamed(cols)
    ensures |ns| == |cols| && forall i :: 0 <= i < |cols| ==> ns[i] == cols[i].heading.name
  {
    if cols == [] then [] else [cols[0].heading.name] + Names(cols[1..])
  }

  /** The definition `from_data` makes for a column named `n`. */
  function DataDef(n: string, dtype: string): Entry {
    Entry(n, Obj(ColumnDef(n, Some(n), PandasTypes(dtype))))
  }

  /** The column definitions `from_data` makes for `cols`, in order. */
  function DataDefs(cols: seq<Column>): (r: seq<Entry>)
    requires AllNamed(cols)
    ensures Keys(r) == Names(cols)
  {
    if cols == [] then []
    else
      [DataDef(cols[0].heading.name, cols[0].dtype)] + DataDefs(cols[1..])
  }

  /** Some name of `cols` contains a dot. */
  predicate AnyDotted(cols: seq<Column>) {
    exists i :: 0 <= i < |cols| && cols[i].heading.Name? && Contains(cols[i].heading.name, ".")
  }

  // ---------------------------------------------------------------------
  // add_column and update_column
  // ---------------------------------------------------------------------

  /** The parameter names of `add_column` and `update_column`; a keyword
      argument cannot take one of these names. */
  const ColumnParams: set<string> := {"self", "field", "header"}

  /** Python's `field in c` for the value stored under "columnDefs": a key
      of a dict, an element of a list, a substring of a string. Any other
      value raises a TypeError, which is None here. */
  function PyContains(c: Value, field: string): (r: Option<bool>)
    ensures c.Obj? ==> r == Some(field in Keys(c.entries))
    ensures r.None? <==> !(c.Obj? || c.List? || c.Str?)
  {
    match c
    case Obj(es) => Some(field in Keys(es))
    case List(xs) => Some(Str(field) in xs)
    case Str(t) => Some(Contains(t, field))
    case _ => None
  }

  function ColumnExists(field: string): string {
    "Field '" + field + "' exists in options; use `update_column` instead."
  }

  function ColumnMissing(field: string): string {
    "Field '" + field + "' does not exist in options; use `add_column` instead."
  }

  /** The definition `add_column` stores: `headerName` and `field`, then the
      options merged over them. `options` is always a dict, so the default
      options are never used here. */
  function ColumnDef(field: string, header: Option<string>, options: seq<Entry>): (r: seq<Entry>)
    requires Kwargs(options, ColumnParams)
    ensures Get(r, "field") == Some(Str(field))
    ensures Get(r, "headerName") ==
      if "headerName" in Keys(options) then Get(options, "headerName")
      else Some(Str(if header.None? then field else header.value))
    ensures forall k :: k in Keys(options) ==> Get(r, k) == Get(options, k)
    ensures forall k :: k in Keys(r) <==> k == "headerName" || k == "field" || k in Keys(options)
  {
    var headerName := if header.None? then field else header.value;
    var defs := [Entry("headerName", Str(headerName)), Entry("field", Str(field))];
    assert Keys(defs) == ["headerName", "field"];
    assert Get(defs, "field") == Some(Str(field));
    assert Get(defs, "headerName") == Some(Str(headerName));
    var r := PutAll(defs, options);
    assert "field" !in Keys(options);
    forall k | k in Keys(options) ensures Get(r, k) == Get(options, k) {
      PutAllGet(defs, options, k);
    }
    r
  }

  /** `add_column(field, header, **options)` on the options `opts`. */
  function WithColumn(opts: seq<Entry>, field: string, header: Option<string>, options: seq<Entry>): Result<seq<Entry>>
    requires Kwargs(options, ColumnParams)
  {
    match Get(opts, "columnDefs")
    case None => Failure(Crash)
    case Some(cds) =>
      match PyContains(cds, field)
      case None => Failure(Crash)
      case Some(true) => Failure(Invalid(ColumnExists(field)))
      case Some(false) =>
        if cds.Obj? then
          Success(Put(opts, "columnDefs", Obj(Put(cds.entries, field, Obj(ColumnDef(field, header, options))))))
        else
          Failure(Crash)
  }

  /** `header if header else field`: an empty or missing header falls back
      to the field. */
  function HeaderOrField(header: Option<string>, field: string): (r: string)
    ensures r == field || (header.Some? && r == header.value)
    ensures r == field <== header.None? || header.value == ""
  {
    if header.Some? && header.value != "" then header.value else field
  }

  /** The definition after `update_column`: the header set, then the options
      merged over it. */
  function UpdatedDef(defs: seq<Entry>, field: string, header: Option<string>, options: seq<Entry>): (r: seq<Entry>)
    requires Kwargs(options, ColumnParams)
    ensures Get(r, "headerName") ==
      if "headerName" in Keys(options) then Get(options, "headerName")
      else Some(Str(HeaderOrField(header, field)))
    ensures forall k :: k in Keys(options) ==> Get(r, k) == Get(options, k)
    ensures forall k :: k != "headerName" && k !in Keys(options) ==> Get(r, k) == Get(defs, k)
  {
    var named := Put(defs, "headerName", Str(HeaderOrField(header, field)));
    forall k | k in Keys(options) ensures Get(PutAll(named, options), k) == Get(options, k) {
      PutAllGet(named, options, k);
    }
    PutAll(named, options)
  }

  /** `update_column(field, header, **options)` on the options `opts`. */
  function WithColumnUpdated(opts: seq<Entry>, field: string, header: Option<string>, options: seq<Entry>): Result<seq<Entry>>
    requires Kwargs(options, ColumnParams)
  {
    match Get(opts, "columnDefs")
    case None => Failure(Crash)
    case Some(cds) =>
      match PyContains(cds, field)
      case None => Failure(Crash)
      case Some(false) => Failure(Invalid(ColumnMissing(field)))
      case Some(true) =>
        if !cds.Obj? then Failure(Crash)
        else
          var defs := Get(cds.entries, field).value;
          if !defs.Obj? then Failure(Crash)
          else Success(Put(opts, "columnDefs", Obj(Put(cds.entries, field, Obj(UpdatedDef(defs.entries, field, header, options))))))
  }

  // ---------------------------------------------------------------------
  // add_sidebar
  // ---------------------------------------------------------------------

  function ToolPanel(id: string, caption: string, icon: string, panel: string): Value {
    Obj([Entry("id", Str(id)), Entry("labelDefault", Str(caption)), Entry("labelKey", Str(id)),
         Entry("iconKey", Str(icon)), Entry("toolPanel", Str(panel))])
  }

  const FiltersPanel: Value := ToolPanel("filters", "Filters", "filter", "agFiltersToolPanel")
  const ColumnsPanel: Value := ToolPanel("columns", "Columns", "columns", "agColumnsToolPanel")

  /** The side bar used when the options have none. */
  const DefaultSideBar: Value := Obj([Entry("toolPanels", List([])), Entry("defaultToolPanel", Str(""))])

  /** Python's `len(v)`, or None where `len` raises a TypeError. */
  function Len(v: Value): (r: Option<nat>)
    ensures r.None? <==> !(v.List? || v.Str? || v.Obj?)
    ensures v.List? ==> r == Some(|v.items|)
  {
    match v
    case List(xs) => Some(|xs|)
    case Str(t) => Some(|t|)
    case Obj(es) => Some(|es|)
    case _ => None
  }

  /** One `if` of `add_sidebar`: an empty `toolPanels` becomes `[panel]`,
      a non-empty one has `panel` appended. */
  function AppendPanel(sideBar: Value, panel: Value): (r: Result<Value>)
    ensures r.Success? ==> sideBar.Obj? && r.value.Obj? && Keys(r.value.entries) == Keys(sideBar.entries)
    ensures sideBar.Obj? && Get(sideBar.entries, "toolPanels").Some? && Get(sideBar.entries, "toolPanels").value.List? ==>
      r == Success(Obj(Put(sideBar.entries, "toolPanels", List(Get(sideBar.entries, "toolPanels").value.items + [panel]))))
  {
    if !sideBar.Obj? then Failure(Crash)
    else
      match Get(sideBar.entries, "toolPanels")
      case None => Failure(Crash)
      case Some(panels) =>
        match Len(panels)
        case None => Failure(Crash)
        case Some(n) =>
          if n == 0 then
            assert panels.List? ==> panels.items + [panel] == [panel];
            Success(Obj(Put(sideBar.entries, "toolPanels", List([panel]))))
          else if panels.List? then Success(Obj(Put(sideBar.entries, "toolPanels", List(panels.items + [panel]))))
          else Failure(Crash)
  }

  /** The side bar after both `if`s of `add_sidebar`. */
  function PanelsAdded(sideBar: Value, filters: bool, columns: bool): Result<Value> {
    var withFilters :- if filters then AppendPanel(sideBar, FiltersPanel) else Success(sideBar);
    if columns then AppendPanel(withFilters, ColumnsPanel) else Success(withFilters)
  }

  /** `add_sidebar(filters, columns)` on the options `opts`. */
  function WithSidebar(opts: seq<Entry>, filters: bool, columns: bool): Result<seq<Entry>> {
    var sideBar :- PanelsAdded(Get(opts, "sideBar").GetOr(DefaultSideBar), filters, columns);
    Success(Put(opts, "sideBar", sideBar))
  }

  /** The tool panels the two flags ask for, filters first. */
  function RequestedPanels(filters: bool, columns: bool): seq<Value> {
    (if filters then [FiltersPanel] else []) + (if columns then [ColumnsPanel] else [])
  }

  // ---------------------------------------------------------------------
  // add_grid_selection
  // ---------------------------------------------------------------------

  /** The arguments of `add_grid_selection`; `preSelectedRows` is whatever
      the caller passed, `Null` by default. */
  datatype SelectionArgs = SelectionArgs(
    mode: string,
    useCheckbox: bool,
    useHeaderCheckbox: bool,
    useHeaderCheckboxFiltered: bool,
    clearCheckboxOnReload: bool,
    preSelectedRows: Value,
    multiSelectWithClick: bool,
    suppressDeselection: bool,
    suppressClickSelection: bool,
    groupSelectsChildren: bool,
    groupSelectsFiltered: bool)

  /** The arguments of a call that passes none. */
  const DefaultSelection: SelectionArgs :=
    SelectionArgs("single", false, false, false, false, Null, false, false, false, true, true)

  /** The keys a disabled selection pops. The second is misspelled in the
      source, so `rowMultiSelectWithClick` is never removed. */
  const DisabledKeys: set<string> := {
    "rowSelection", "rowMultiSeletWithClick", "suppressRowDeselection",
    "suppressRowClickSelection", "groupSelectsChildren", "groupSelectsFiltered"
  }

  /** The flags merged into the first column when `use_checkbox` is set. */
  function CheckboxEntries(a: SelectionArgs): seq<Entry> {
    [Entry("checkboxSelection", Bool(true)),
     Entry("headerCheckboxSelection", Bool(a.useHeaderCheckbox)),
     Entry("headerCheckboxSelectionFilteredOnly", Bool(a.useHeaderCheckboxFiltered)),
     Entry("clearCheckboxOnReload", Bool(a.clearCheckboxOnReload))]
  }

  /** The `rowSelection` a mode asks for. */
  function RowSelection(mode: string): (r: string)
    ensures r == "single" || r == "multiple"
    ensures r == "single" <==> |mode| >= 2 && Lower(mode)[..2] == "si"
  {
    if StartsWith(Lower(mode), "si") then "single" else "multiple"
  }

  /** The keys every enabled selection sets last. */
  const SelectionKeys: set<string> := {
    "rowSelection", "rowMultiSelectWithClick", "suppressRowDeselection", "suppressRowClickSelection",
    "groupSelectsChildren", "groupSelectsFiltered", "preSelectAllRows"
  }

  /** The dict of the final `update` of an enabled selection. */
  function SelectionEntries(a: SelectionArgs): seq<Entry> {
    [Entry("rowSelection", Str(RowSelection(a.mode))),
     Entry("rowMultiSelectWithClick", Bool(a.multiSelectWithClick)),
     Entry("suppressRowDeselection", Bool(a.suppressDeselection)),
     Entry("suppressRowClickSelection", Bool(a.suppressClickSelection || a.useCheckbox)),
     Entry("groupSelectsChildren", Bool(a.groupSelectsChildren)),
     Entry("groupSelectsFiltered", Bool(a.groupSelectsFiltered)),
     Entry("preSelectAllRows", Bool(false))]
  }

  /** The checkbox step: the flags are merged into the first column only.
      An empty `columnDefs` makes `next` raise StopIteration. */
  function WithCheckboxes(opts: seq<Entry>, a: SelectionArgs): (r: Result<seq<Entry>>)
    ensures r.Success? ==> Keys(r.value) == Keys(opts)
  {
    match Get(opts, "columnDefs")
    case None => Failure(Crash)
    case Some(cds) =>
      if !cds.Obj? || cds.entries == [] || !cds.entries[0].value.Obj? then Failure(Crash)
      else
        var first := cds.entries[0];
        Success(Put(opts, "columnDefs",
          Obj(Put(cds.entries, first.key, Obj(PutAll(first.value.entries, CheckboxEntries(a)))))))
  }

  /** The options after a call, and how the call ended. */
  datatype Outcome = Outcome(options: seq<Entry>, status: Status)

  /** The outcome of a call that either raises, leaving the options `opts`
      as they were, or replaces them with what `r` holds. */
  function Applied(opts: seq<Entry>, r: Result<seq<Entry>>): (o: Outcome)
    ensures o.status == StatusOf(r)
    ensures o.options == if r.Success? then r.value else opts
  {
    match r
    case Success(next) => Outcome(next, Done)
    case Failure(e) => Outcome(opts, Raised(e))
  }

  /** `add_grid_selection(...)` on the options `opts`. The call can raise
      after the checkbox step has already changed the options. */
  function WithSelection(opts: seq<Entry>, a: SelectionArgs): Outcome {
    if a.mode == "disabled" then
      Outcome(Without(opts, DisabledKeys), Done)
    else
      match (if a.useCheckbox then WithCheckboxes(opts, a) else Success(opts))
      case Failure(e) => Outcome(opts, Raised(e))
      case Success(checked) =>
        match Len(a.preSelectedRows)
        case None => Outcome(checked, Raised(Crash))
        case Some(n) =>
          var rows := if n > 0 then Put(checked, "preSelectedRows", a.preSelectedRows) else checked;
          Outcome(PutAll(rows, SelectionEntries(a)), Done)
  }

  // ---------------------------------------------------------------------
  // add_pagination, remove_pagination
  // ---------------------------------------------------------------------

  const PaginationKeys: set<string> := {"pagination", "paginationAutoPageSize", "paginationPageSize"}

  function PaginationEntries(auto: bool, pageSize: int): seq<Entry> {
    if auto then [Entry("pagination", Bool(true)), Entry("paginationAutoPageSize", Bool(true))]
    else [Entry("pagination", Bool(true)), Entry("paginationPageSize", Int(pageSize))]
  }

  /** `add_pagination(auto_page_size, page_size)`. */
  function WithPagination(opts: seq<Entry>, auto: bool, pageSize: int): (r: seq<Entry>)
    ensures Get(r, "pagination") == Some(Bool(true))
    ensures auto ==> Get(r, "paginationAutoPageSize") == Some(Bool(true))
    ensures !auto ==> Get(r, "paginationPageSize") == Some(Int(pageSize))
    ensures auto ==> Get(r, "paginationPageSize") == Get(opts, "paginationPageSize")
    ensures !auto ==> Get(r, "paginationAutoPageSize") == Get(opts, "paginationAutoPageSize")
    ensures forall k :: k !in PaginationKeys ==> Get(r, k) == Get(opts, k)
  {
    var kvs := PaginationEntries(auto, pageSize);
    assert Keys(kvs) == if auto then ["pagination", "paginationAutoPageSize"] else ["pagination", "paginationPageSize"];
    PutAllGet(opts, kvs, "pagination");
    PutAllGet(opts, kvs, if auto then "paginationAutoPageSize" else "paginationPageSize");
    PutAll(opts, kvs)
  }

  /** `remove_pagination()`. */
  function WithoutPagination(opts: seq<Entry>): (r: seq<Entry>)
    ensures forall k :: Get(r, k) == if k in PaginationKeys then None else Get(opts, k)
  {
    Without(opts, PaginationKeys)
  }

  // ---------------------------------------------------------------------
  // build
  // ---------------------------------------------------------------------

  /** `build()`: a dict of column definitions becomes the list of its
      values; a list stays; anything else has no `values` and raises. */
  function Built(opts: seq<Entry>): (r: Result<seq<Entry>>)
    ensures r.Success? ==> Keys(r.value) == Keys(opts)
    ensures r.Success? ==> forall k :: k != "columnDefs" ==> Get(r.value, k) == Get(opts, k)
    ensures r.Success? <==> Get(opts, "columnDefs").Some? && (Get(opts, "columnDefs").value.List? || Get(opts, "columnDefs").value.Obj?)
    ensures r.Success? ==> Get(r.value, "columnDefs").Some? && Get(r.value, "columnDefs").value.List?
  {
    match Get(opts, "columnDefs")
    case None => Failure(Crash)
    case Some(cds) =>
      if cds.List? then Success(opts)
      else if cds.Obj? then Success(Put(opts, "columnDefs", List(Values(cds.entries))))
      else Failure(Crash)
  }

}
