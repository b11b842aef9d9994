/** The invariant every GridOptionsBuilder keeps: each dict of its options
    (and of its default column options) has distinct keys, as a Python dict
    does, and the options always hold `columnDefs`. Each lemma shows that
    one operation of OptionsSpec keeps it. */
module OptionsInvariants {
  import opened Outcomes
  import opened Text
  import opened Tree
  import opened OptionsSpec
  import opened OptionsLemmas

  /** The builder's invariant on one options dict. */
  ghost predicate Holds(opts: seq<Entry>) {
    WellFormed(Obj(opts)) && "columnDefs" in Keys(opts)
  }

  /** Every value of `kvs` is well formed: what any Python keyword
      arguments are. */
  ghost predicate WellFormedValues(kvs: seq<Entry>) {
    forall e :: e in kvs ==> WellFormed(e.value)
  }

  /** The value stored under `k` in a well-formed dict is well formed. */
  lemma GetWellFormed(es: seq<Entry>, k: string)
    requires WellFormed(Obj(es)) && k in Keys(es)
    ensures WellFormed(Get(es, k).value)
  {
    GetIn(es, k);
  }

  /** `d[k] = v`, `d.update(kvs)` and `d.pop(k)` keep the invariant, as
      long as `columnDefs` is not popped. */
  lemma PutHolds(opts: seq<Entry>, k: string, v: Value)
    requires Holds(opts) && WellFormed(v)
    ensures Holds(Put(opts, k, v))
  {
    PutWellFormed(opts, k, v);
  }

  lemma PutAllHolds(opts: seq<Entry>, kvs: seq<Entry>)
    requires Holds(opts) && WellFormedValues(kvs)
    ensures Holds(PutAll(opts, kvs))
  {
    PutAllWellFormed(opts, kvs);
  }

  lemma WithoutHolds(opts: seq<Entry>, ks: set<string>)
    requires Holds(opts) && "columnDefs" !in ks
    ensures Holds(Without(opts, ks))
  {
    WithoutWellFormed(opts, ks);
    assert Get(Without(opts, ks), "columnDefs").Some?;
  }

  lemma DefaultColumnOptionsWellFormed()
    ensures WellFormed(Obj(DefaultColumnOptions))
  {
    assert Keys(DefaultColumnOptions) == ["minWidth", "editable", "sortable", "resizable"];
  }

  // ---------------------------------------------------------------------
  // __init__ and from_data
  // ---------------------------------------------------------------------

  /** `__init__` makes options that keep the invariant, from well-formed
      arguments. */
  lemma InitialOptionsHold(given: Option<seq<Entry>>, kwargs: seq<Entry>)
    requires Kwargs(kwargs, InitParams) && WellFormedValues(kwargs)
    requires given.Some? ==> WellFormed(Obj(given.value))
    ensures Holds(InitialOptions(given, kwargs))
  {
    var opts := given.GetOr([]);
    assert WellFormed(Obj(opts));
    if "columnDefs" in Keys(opts) {
      PutAllHolds(opts, kwargs);
    } else {
      PutWellFormed(opts, "columnDefs", Obj([]));
      PutAllHolds(Put(opts, "columnDefs", Obj([])), kwargs);
    }
  }

  /** `__init__` makes well-formed default column options, when it
      returns. */
  lemma InitialDefaultsWellFormed(kwargs: seq<Entry>)
    requires Kwargs(kwargs, InitParams) && WellFormedValues(kwargs)
    requires InitialDefaults(kwargs).Success?
    ensures WellFormed(Obj(InitialDefaults(kwargs).value))
  {
    DefaultColumnOptionsWellFormed();
    match Get(kwargs, "defaultColDef")
    case None =>
      PutAllWellFormed(DefaultColumnOptions, kwargs);
    case Some(v) =>
      GetWellFormed(kwargs, "defaultColDef");
      UpdateEntriesWellFormed(v);
      PutAllWellFormed(DefaultColumnOptions, UpdateEntries(v).value);
  }

  /** What an update takes from a well-formed value is well formed. */
  lemma UpdateEntriesWellFormed(v: Value)
    requires WellFormed(v) && UpdateEntries(v).Some?
    ensures WellFormedValues(UpdateEntries(v).value)
  {
    if v.List? {
      var kvs := UpdateEntries(v).value;
      forall e | e in kvs ensures WellFormed(e.value) {
        var i :| 0 <= i < |kvs| && kvs[i] == e;
        assert v.items[i] in v.items;
        if v.items[i].List? {
          assert v.items[i].items[1] in v.items[i].items;
        }
      }
    }
  }

  /** The definition `add_column` makes is well formed. */
  lemma ColumnDefWellFormed(field: string, header: Option<string>, options: seq<Entry>)
    requires Kwargs(options, ColumnParams) && WellFormedValues(options)
    ensures WellFormed(Obj(ColumnDef(field, header, options)))
  {
    var defs := [Entry("headerName", Str(if header.None? then field else header.value)), Entry("field", Str(field))];
    assert Keys(defs) == ["headerName", "field"];
    PutAllWellFormed(defs, options);
  }

  /** `add_column` keeps the invariant. */
  lemma WithColumnHolds(opts: seq<Entry>, field: string, header: Option<string>, options: seq<Entry>)
    requires Kwargs(options, ColumnParams) && WellFormedValues(options)
    requires WellFormed(Obj(opts)) && WithColumn(opts, field, header, options).Success?
    ensures Holds(WithColumn(opts, field, header, options).value)
  {
    var cds := Get(opts, "columnDefs").value;
    GetWellFormed(opts, "columnDefs");
    ColumnDefWellFormed(field, header, options);
    PutWellFormed(cds.entries, field, Obj(ColumnDef(field, header, options)));
    PutWellFormed(opts, "columnDefs", Obj(Put(cds.entries, field, Obj(ColumnDef(field, header, options)))));
  }

  /** The values `_pandas_types` gives are strings. */
  lemma PandasTypesWellFormed(d: string)
    ensures WellFormedValues(PandasTypes(d))
  {
  }

  /** The loop of `from_data` keeps the invariant. */
  lemma {:induction false} DataColumnsHold(opts: seq<Entry>, cols: seq<Column>)
    requires Holds(opts) && AddDataColumns(opts, cols).Success?
    ensures Holds(AddDataColumns(opts, cols).value)
    decreases |cols|
  {
    if cols != [] {
      var n := cols[0].heading.name;
      PutWellFormed(opts, "suppressFieldDotNotation", Bool(true));
      PandasTypesWellFormed(cols[0].dtype);
      WithColumnHolds(DotMarked(opts, n), n, Some(n), PandasTypes(cols[0].dtype));
      DataColumnsHold(AddDataColumn(opts, cols[0]).value, cols[1..]);
    }
  }

  /** `from_data` makes options that keep the invariant. */
  lemma DataOptionsHold(cols: seq<Column>)
    requires DataOptions(cols).Success?
    ensures Holds(DataOptions(cols).value)
  {
    DataStartOptions();
    DefaultColumnOptionsWellFormed();
    assert Keys(DataStart) == ["columnDefs", "defaultColDef"];
    DataColumnsHold(DataStart, cols);
  }

  // ---------------------------------------------------------------------
  // update_column, add_sidebar
  // ---------------------------------------------------------------------

  /** `update_column` keeps the invariant. */
  lemma WithColumnUpdatedHolds(opts: seq<Entry>, field: string, header: Option<string>, options: seq<Entry>)
    requires Kwargs(options, ColumnParams) && WellFormedValues(options)
    requires WellFormed(Obj(opts)) && WithColumnUpdated(opts, field, header, options).Success?
    ensures Holds(WithColumnUpdated(opts, field, header, options).value)
  {
    var cds := Get(opts, "columnDefs").value;
    GetWellFormed(opts, "columnDefs");
    var defs := Get(cds.entries, field).value;
    GetWellFormed(cds.entries, field);
    var named := Put(defs.entries, "headerName", Str(HeaderOrField(header, field)));
    PutWellFormed(defs.entries, "headerName", Str(HeaderOrField(header, field)));
    PutAllWellFormed(named, options);
    var updated := Obj(UpdatedDef(defs.entries, field, header, options));
    PutWellFormed(cds.entries, field, updated);
    PutWellFormed(opts, "columnDefs", Obj(Put(cds.entries, field, updated)));
  }

  lemma ToolPanelWellFormed(id: string, caption: string, icon: string, panel: string)
    ensures WellFormed(ToolPanel(id, caption, icon, panel))
  {
    KeysAt(ToolPanel(id, caption, icon, panel).entries);
    assert Keys(ToolPanel(id, caption, icon, panel).entries) == ["id", "labelDefault", "labelKey", "iconKey", "toolPanel"];
  }

  /** Appending a well-formed panel keeps the side bar well formed. */
  lemma AppendPanelWellFormed(sideBar: Value, panel: Value)
    requires WellFormed(sideBar) && WellFormed(panel) && AppendPanel(sideBar, panel).Success?
    ensures WellFormed(AppendPanel(sideBar, panel).value)
  {
    var panels := Get(sideBar.entries, "toolPanels").value;
    GetWellFormed(sideBar.entries, "toolPanels");
    if panels.List? {
      assert forall x :: x in panels.items + [panel] ==> x in panels.items || x == panel;
      PutWellFormed(sideBar.entries, "toolPanels", List(panels.items + [panel]));
    }
    PutWellFormed(sideBar.entries, "toolPanels", List([panel]));
  }

  /** Both steps of `add_sidebar` keep the side bar well formed. */
  lemma PanelsAddedWellFormed(sideBar: Value, filters: bool, columns: bool)
    requires WellFormed(sideBar) && PanelsAdded(sideBar, filters, columns).Success?
    ensures WellFormed(PanelsAdded(sideBar, filters, columns).value)
  {
    ToolPanelWellFormed("filters", "Filters", "filter", "agFiltersToolPanel");
    ToolPanelWellFormed("columns", "Columns", "columns", "agColumnsToolPanel");
    var withFilters := if filters then AppendPanel(sideBar, FiltersPanel) else Success(sideBar);
    if filters {
      AppendPanelWellFormed(sideBar, FiltersPanel);
    }
    if columns {
      AppendPanelWellFormed(withFilters.value, ColumnsPanel);
    }
  }

  /** `add_sidebar` keeps the invariant. */
  lemma WithSidebarHolds(opts: seq<Entry>, filters: bool, columns: bool)
    requires Holds(opts) && WithSidebar(opts, filters, columns).Success?
    ensures Holds(WithSidebar(opts, filters, columns).value)
  {
    var sideBar := Get(opts, "sideBar").GetOr(DefaultSideBar);
    if "sideBar" in Keys(opts) {
      GetWellFormed(opts, "sideBar");
    } else {
      assert Keys(DefaultSideBar.entries) == ["toolPanels", "defaultToolPanel"];
    }
    PanelsAddedWellFormed(sideBar, filters, columns);
    PutHolds(opts, "sideBar", PanelsAdded(sideBar, filters, columns).value);
  }

  // ---------------------------------------------------------------------
  // add_grid_selection, pagination, build
  // ---------------------------------------------------------------------

  /** The checkbox step keeps the invariant. */
  lemma WithCheckboxesHolds(opts: seq<Entry>, a: SelectionArgs)
    requires Holds(opts) && WithCheckboxes(opts, a).Success?
    ensures Holds(WithCheckboxes(opts, a).value)
  {
    var cds := Get(opts, "columnDefs").value;
    GetWellFormed(opts, "columnDefs");
    var first := cds.entries[0];
    assert first in cds.entries;
    PutAllWellFormed(first.value.entries, CheckboxEntries(a));
    var marked := Obj(PutAll(first.value.entries, CheckboxEntries(a)));
    PutWellFormed(cds.entries, first.key, marked);
    PutWellFormed(opts, "columnDefs", Obj(Put(cds.entries, first.key, marked)));
  }

  /** The final update of an enabled selection keeps the invariant. */
  lemma SelectionEntriesHold(opts: seq<Entry>, a: SelectionArgs)
    requires Holds(opts)
    ensures Holds(PutAll(opts, SelectionEntries(a)))
  {
    PutAllHolds(opts, SelectionEntries(a));
  }

  /** An enabled `add_grid_selection` that gets past the checkbox step
      keeps the invariant. */
  lemma EnabledSelectionHolds(checked: seq<Entry>, a: SelectionArgs, n: nat)
    requires Holds(checked) && WellFormed(a.preSelectedRows)
    ensures Holds(PutAll(if n > 0 then Put(checked, "preSelectedRows", a.preSelectedRows) else checked, SelectionEntries(a)))
  {
    if n > 0 {
      PutHolds(checked, "preSelectedRows", a.preSelectedRows);
    }
    SelectionEntriesHold(if n > 0 then Put(checked, "preSelectedRows", a.preSelectedRows) else checked, a);
  }

  /** `add_grid_selection` keeps the invariant, whether it returns or
      raises. */
  lemma WithSelectionHolds(opts: seq<Entry>, a: SelectionArgs)
    requires Holds(opts) && WellFormed(a.preSelectedRows)
    ensures Holds(WithSelection(opts, a).options)
  {
    if a.mode == "disabled" {
      WithoutHolds(opts, DisabledKeys);
    } else {
      var checked := if a.useCheckbox then WithCheckboxes(opts, a) else Success(opts);
      if checked.Success? {
        if a.useCheckbox {
          WithCheckboxesHolds(opts, a);
        }
        if Len(a.preSelectedRows).Some? {
          EnabledSelectionHolds(checked.value, a, Len(a.preSelectedRows).value);
        }
      }
    }
  }

  /** `add_pagination` keeps the invariant. */
  lemma WithPaginationHolds(opts: seq<Entry>, auto: bool, pageSize: int)
    requires Holds(opts)
    ensures Holds(WithPagination(opts, auto, pageSize))
  {
    PutAllHolds(opts, PaginationEntries(auto, pageSize));
  }

  /** `remove_pagination` keeps the invariant. */
  lemma WithoutPaginationHolds(opts: seq<Entry>)
    requires Holds(opts)
    ensures Holds(WithoutPagination(opts))
  {
    WithoutHolds(opts, PaginationKeys);
  }

  /** `build` keeps the invariant. */
  lemma BuiltHolds(opts: seq<Entry>)
    requires Holds(opts) && Built(opts).Success?
    ensures Holds(Built(opts).value)
  {
    var cds := Get(opts, "columnDefs").value;
    GetWellFormed(opts, "columnDefs");
    if cds.Obj? {
      var vs := Values(cds.entries);
      forall x | x in vs ensures WellFormed(x) {
        var i :| 0 <= i < |vs| && vs[i] == x;
        assert cds.entries[i] in cds.entries;
      }
      PutWellFormed(opts, "columnDefs", List(vs));
    }
  }
}
