/** GridOptionsBuilder: a builder that owns one grid options dict and
    changes it in place, one method call at a time. Each method is proved
    against the function of OptionsSpec that states what the call does, and
    keeps the invariant of OptionsInvariants. Python's methods return
    `self` or raise; here they return the `Status` of the call. */
module OptionsBuilder {
  import opened Outcomes
  import opened Text
  import opened Tree
  import opened OptionsSpec
  import opened OptionsLemmas
  import opened OptionsInvariants

  class GridOptionsBuilder {
    var gridOptions: seq<Entry>
    var defaultOptions: seq<Entry>

    /** Every dict the builder holds has distinct keys, and the options
        hold `columnDefs`. */
    ghost predicate Valid()
      reads this
    {
      Holds(gridOptions) && WellFormed(Obj(defaultOptions))
    }

    /** The part of `__init__` that cannot raise: the options, and the
        default column options before their update. */
    constructor (given: Option<seq<Entry>>, kwargs: seq<Entry>)
      requires Kwargs(kwargs, InitParams) && WellFormedValues(kwargs)
      requires given.Some? ==> WellFormed(Obj(given.value))
      ensures Valid()
      ensures gridOptions == InitialOptions(given, kwargs)
      ensures defaultOptions == DefaultColumnOptions
    {
      DefaultColumnOptionsWellFormed();
      var opts := given.GetOr([]);
      if "columnDefs" !in Keys(opts) {
        opts := Put(opts, "columnDefs", Obj([]));
      }
      InitStep(given, kwargs, opts);
      gridOptions := PutAll(opts, kwargs);
      defaultOptions := DefaultColumnOptions;
    }

    /** `GridOptionsBuilder(grid_options, **kwargs)`. */
    static method New(given: Option<seq<Entry>>, kwargs: seq<Entry>) returns (r: Result<GridOptionsBuilder>)
      requires Kwargs(kwargs, InitParams) && WellFormedValues(kwargs)
      requires given.Some? ==> WellFormed(Obj(given.value))
      ensures r.Failure? ==> r.error == Crash && InitialDefaults(kwargs) == Failure(Crash)
      ensures r.Success? ==> InitialDefaults(kwargs) == Success(r.value.defaultOptions)
      ensures r.Success? ==> fresh(r.value) && r.value.Valid() && r.value.gridOptions == InitialOptions(given, kwargs)
    {
      var b := new GridOptionsBuilder(given, kwargs);
      var st := b.UpdateDefaults(kwargs);
      r := if st.Raised? then Failure(st.error) else Success(b);
    }

    /** The update of the default column options at the end of
        `__init__`. */
    method UpdateDefaults(kwargs: seq<Entry>) returns (st: Status)
      requires Valid() && Kwargs(kwargs, InitParams) && WellFormedValues(kwargs)
      requires defaultOptions == DefaultColumnOptions
      modifies this`defaultOptions
      ensures Valid()
      ensures st.Raised? ==> st.error == Crash && InitialDefaults(kwargs) == Failure(Crash)
      ensures st.Done? ==> InitialDefaults(kwargs) == Success(defaultOptions)
    {
      match Get(kwargs, "defaultColDef") {
        case None =>
          defaultOptions := PutAll(defaultOptions, kwargs);
        case Some(v) =>
          var kvs := UpdateEntries(v);
          if kvs.None? {
            return Raised(Crash);
          }
          defaultOptions := PutAll(defaultOptions, kvs.value);
      }
      InitialDefaultsWellFormed(kwargs);
      st := Done;
    }

    /** The first two statements of `from_data`: a builder made with an
        empty dict, whose default column options are pushed into its
        options as `defaultColDef`. */
    static method DataStartBuilder() returns (b: GridOptionsBuilder)
      ensures fresh(b) && b.Valid()
      ensures b.gridOptions == DataStart && b.defaultOptions == DefaultColumnOptions
    {
      NoArguments();
      var made := New(Some([]), []);
      assert made.Success? by {
        DataStartFromInit();
      }
      b := made.value;
      DataStartStep(b.gridOptions, b.defaultOptions);
      b.gridOptions := Put(b.gridOptions, "defaultColDef", Obj(b.defaultOptions));
    }

    /** `GridOptionsBuilder.from_data(data)` for data with the columns
        `cols`. */
    static method FromData(cols: seq<Column>) returns (r: Result<GridOptionsBuilder>)
      ensures r.Success? <==> DataOptions(cols).Success?
      ensures r.Failure? ==> r.error == DataOptions(cols).error
      ensures r.Success? ==> fresh(r.value) && r.value.Valid()
      ensures r.Success? ==> r.value.gridOptions == DataOptions(cols).value
      ensures r.Success? ==> r.value.defaultOptions == DefaultColumnOptions
    {
      var b := DataStartBuilder();
      var i := 0;
      while i < |cols|
        invariant 0 <= i <= |cols|
        invariant fresh(b) && b.Valid()
        invariant b.defaultOptions == DefaultColumnOptions
        invariant DataOptions(cols) == AddDataColumns(b.gridOptions, cols[i..])
      {
        AddDataColumnsCons(b.gridOptions, cols[i..]);
        assert cols[i..][1..] == cols[i + 1..];
        var st := b.AddDataColumn(cols[i]);
        if st.Raised? {
          return Failure(st.error);
        }
        i := i + 1;
      }
      assert cols[i..] == [];
      r := Success(b);
    }

    /** One pass of the loop of `from_data`, for the column `c`. */
    method AddDataColumn(c: Column) returns (st: Status)
      requires Valid()
      modifies this`gridOptions
      ensures Valid()
      ensures st == StatusOf(OptionsSpec.AddDataColumn(old(gridOptions), c))
      ensures st.Done? ==> gridOptions == OptionsSpec.AddDataColumn(old(gridOptions), c).value
    {
      match c.heading
      case Position(_) =>
        return Raised(Crash);
      case Name(n) =>
        if Contains(n, ".") {
          PutHolds(gridOptions, "suppressFieldDotNotation", Bool(true));
          gridOptions := Put(gridOptions, "suppressFieldDotNotation", Bool(true));
        }
        assert gridOptions == DotMarked(old(gridOptions), n);
        PandasTypesWellFormed(c.dtype);
        st := AddColumn(n, Some(n), PandasTypes(c.dtype));
    }

    /** `add_column(field, header, **options)`. */
    method AddColumn(field: string, header: Option<string>, options: seq<Entry>) returns (st: Status)
      requires Valid() && Kwargs(options, ColumnParams) && WellFormedValues(options)
      modifies this`gridOptions
      ensures Valid()
      ensures Outcome(gridOptions, st) == Applied(old(gridOptions), WithColumn(old(gridOptions), field, header, options))
    {
      var cds := Get(gridOptions, "columnDefs").value;
      var present := PyContains(cds, field);
      if present.None? {
        st := Raised(Crash);
      } else if present.value {
        st := Raised(Invalid(ColumnExists(field)));
      } else if !cds.Obj? {
        st := Raised(Crash);
      } else {
        ColumnAddedStep(gridOptions, field, header, options, cds.entries);
        gridOptions := Put(gridOptions, "columnDefs", Obj(Put(cds.entries, field, Obj(ColumnDef(field, header, options)))));
        st := Done;
      }
    }

    /** `update_column(field, header, **options)`. */
    method UpdateColumn(field: string, header: Option<string>, options: seq<Entry>) returns (st: Status)
      requires Valid() && Kwargs(options, ColumnParams) && WellFormedValues(options)
      modifies this`gridOptions
      ensures Valid()
      ensures Outcome(gridOptions, st) == Applied(old(gridOptions), WithColumnUpdated(old(gridOptions), field, header, options))
    {
      var cds := Get(gridOptions, "columnDefs").value;
      var present := PyContains(cds, field);
      if present.None? {
        st := Raised(Crash);
      } else if !present.value {
        st := Raised(Invalid(ColumnMissing(field)));
      } else if !cds.Obj? || !Get(cds.entries, field).value.Obj? {
        st := Raised(Crash);
      } else {
        var defs := Get(cds.entries, field).value;
        ColumnUpdatedStep(gridOptions, field, header, options, cds.entries, defs.entries);
        var updated := Put(defs.entries, "headerName", Str(HeaderOrField(header, field)));
        updated := PutAll(updated, options);
        gridOptions := Put(gridOptions, "columnDefs", Obj(Put(cds.entries, field, Obj(updated))));
        st := Done;
      }
    }

    /** `add_sidebar(filters, columns)`. */
    method AddSidebar(filters: bool, columns: bool) returns (st: Status)
      requires Valid()
      modifies this`gridOptions
      ensures Valid()
      ensures Outcome(gridOptions, st) == Applied(old(gridOptions), WithSidebar(old(gridOptions), filters, columns))
    {
      var sideBar := PanelsAdded(Get(gridOptions, "sideBar").GetOr(DefaultSideBar), filters, columns);
      if sideBar.Failure? {
        return Raised(sideBar.error);
      }
      SidebarStep(gridOptions, filters, columns);
      gridOptions := Put(gridOptions, "sideBar", sideBar.value);
      st := Done;
    }

    /** `add_grid_selection(...)`. A call that raises after the checkbox
        step keeps the checkbox flags it has already set. */
    method AddGridSelection(a: SelectionArgs) returns (st: Status)
      requires Valid() && WellFormed(a.preSelectedRows)
      modifies this`gridOptions
      ensures Valid()
      ensures Outcome(gridOptions, st) == WithSelection(old(gridOptions), a)
    {
      if a.mode == "disabled" {
        DisableSelection();
        return Done;
      }
      if a.useCheckbox {
        st := MarkCheckboxes(a);
        if st.Raised? {
          return;
        }
      }
      st := EnableSelection(a);
    }

    /** The six pops of a disabled selection. */
    method DisableSelection()
      requires Valid()
      modifies this`gridOptions
      ensures Valid()
      ensures gridOptions == Without(old(gridOptions), DisabledKeys)
    {
      DisabledPops(gridOptions);
      DisabledHolds(gridOptions);
      gridOptions := Without(gridOptions, {"rowSelection"});
      gridOptions := Without(gridOptions, {"rowMultiSeletWithClick"});
      gridOptions := Without(gridOptions, {"suppressRowDeselection"});
      gridOptions := Without(gridOptions, {"suppressRowClickSelection"});
      gridOptions := Without(gridOptions, {"groupSelectsChildren"});
      gridOptions := Without(gridOptions, {"groupSelectsFiltered"});
    }

    /** The checkbox step of an enabled selection: the flags are merged
        into the first column definition. */
    method MarkCheckboxes(a: SelectionArgs) returns (st: Status)
      requires Valid()
      modifies this`gridOptions
      ensures Valid()
      ensures Outcome(gridOptions, st) == Applied(old(gridOptions), WithCheckboxes(old(gridOptions), a))
    {
      match Get(gridOptions, "columnDefs") {
        case Some(Obj(cds)) =>
          if cds != [] && cds[0].value.Obj? {
            CheckboxStep(gridOptions, a, cds);
            gridOptions := Put(gridOptions, "columnDefs", Obj(Put(cds, cds[0].key, Obj(PutAll(cds[0].value.entries, CheckboxEntries(a))))));
            return Done;
          }
        case _ =>
      }
      st := Raised(Crash);
    }

    /** The rest of an enabled selection: the pre-selected rows, when there
        are any, then the selection flags. */
    method EnableSelection(a: SelectionArgs) returns (st: Status)
      requires Valid() && WellFormed(a.preSelectedRows)
      modifies this`gridOptions
      ensures Valid()
      ensures st == (if Len(a.preSelectedRows).None? then Raised(Crash) else Done)
      ensures Len(a.preSelectedRows).Some? ==> gridOptions == PutAll(
        if Len(a.preSelectedRows).value > 0 then Put(old(gridOptions), "preSelectedRows", a.preSelectedRows) else old(gridOptions),
        SelectionEntries(a))
      ensures Len(a.preSelectedRows).None? ==> gridOptions == old(gridOptions)
    {
      var n := Len(a.preSelectedRows);
      if n.None? {
        return Raised(Crash);
      }
      EnabledSelectionHolds(gridOptions, a, n.value);
      if n.value > 0 {
        gridOptions := Put(gridOptions, "preSelectedRows", a.preSelectedRows);
      }
      gridOptions := PutAll(gridOptions, SelectionEntries(a));
      st := Done;
    }

    /** `add_pagination(auto_page_size, page_size)`. */
    method AddPagination(auto: bool, pageSize: int)
      requires Valid()
      modifies this`gridOptions
      ensures Valid()
      ensures gridOptions == WithPagination(old(gridOptions), auto, pageSize)
    {
      PaginationStep(gridOptions, auto, pageSize);
      gridOptions := PutAll(gridOptions, PaginationEntries(auto, pageSize));
    }

    /** `remove_pagination()`. */
    method RemovePagination()
      requires Valid()
      modifies this`gridOptions
      ensures Valid()
      ensures gridOptions == WithoutPagination(old(gridOptions))
    {
      UnpaginatedStep(gridOptions);
      gridOptions := Without(gridOptions, {"pagination"});
      gridOptions := Without(gridOptions, {"paginationAutoPageSize"});
      gridOptions := Without(gridOptions, {"paginationPageSize"});
    }

    /** `build()`: the options, with a dict of column definitions turned
        into the list of its values, in place. */
    method Build() returns (r: Result<seq<Entry>>)
      requires Valid()
      modifies this`gridOptions
      ensures Valid()
      ensures r == Built(old(gridOptions))
      ensures gridOptions == if r.Success? then r.value else old(gridOptions)
    {
      var cds := Get(gridOptions, "columnDefs").value;
      if !cds.List? {
        if !cds.Obj? {
          return Failure(Crash);
        }
        BuiltHolds(gridOptions);
        gridOptions := Put(gridOptions, "columnDefs", List(Values(cds.entries)));
      }
      r := Success(gridOptions);
    }
  }

  // Each step lemma below states, for the term a method assigns, that it
  // is what the specification function computes and that it keeps the
  // invariant.

  lemma InitStep(given: Option<seq<Entry>>, kwargs: seq<Entry>, opts: seq<Entry>)
    requires Kwargs(kwargs, InitParams) && WellFormedValues(kwargs)
    requires given.Some? ==> WellFormed(Obj(given.value))
    requires opts == if "columnDefs" in Keys(given.GetOr([])) then given.GetOr([])
                     else Put(given.GetOr([]), "columnDefs", Obj([]))
    ensures InitialOptions(given, kwargs) == PutAll(opts, kwargs)
    ensures Holds(PutAll(opts, kwargs))
  {
    InitialOptionsHold(given, kwargs);
  }

  lemma DataStartStep(opts: seq<Entry>, defaults: seq<Entry>)
    requires opts == InitialOptions(Some([]), []) && InitialDefaults([]) == Success(defaults)
    ensures defaults == DefaultColumnOptions
    ensures Put(opts, "defaultColDef", Obj(defaults)) == DataStart
    ensures Holds(Put(opts, "defaultColDef", Obj(defaults)))
  {
    DataStartFromInit();
    DataOptionsHoldStart();
  }

  lemma ColumnAddedStep(opts: seq<Entry>, field: string, header: Option<string>, options: seq<Entry>, cds: seq<Entry>)
    requires Holds(opts) && Kwargs(options, ColumnParams) && WellFormedValues(options)
    requires Get(opts, "columnDefs") == Some(Obj(cds)) && field !in Keys(cds)
    ensures WithColumn(opts, field, header, options)
      == Success(Put(opts, "columnDefs", Obj(Put(cds, field, Obj(ColumnDef(field, header, options))))))
    ensures Holds(Put(opts, "columnDefs", Obj(Put(cds, field, Obj(ColumnDef(field, header, options))))))
  {
    WithColumnHolds(opts, field, header, options);
  }

  lemma ColumnUpdatedStep(opts: seq<Entry>, field: string, header: Option<string>, options: seq<Entry>,
                          cds: seq<Entry>, defs: seq<Entry>)
    requires Holds(opts) && Kwargs(options, ColumnParams) && WellFormedValues(options)
    requires Get(opts, "columnDefs") == Some(Obj(cds)) && Get(cds, field) == Some(Obj(defs))
    ensures UpdatedDef(defs, field, header, options) == PutAll(Put(defs, "headerName", Str(HeaderOrField(header, field))), options)
    ensures WithColumnUpdated(opts, field, header, options)
      == Success(Put(opts, "columnDefs", Obj(Put(cds, field, Obj(UpdatedDef(defs, field, header, options))))))
    ensures Holds(Put(opts, "columnDefs", Obj(Put(cds, field, Obj(UpdatedDef(defs, field, header, options))))))
  {
    WithColumnUpdatedHolds(opts, field, header, options);
  }

  lemma SidebarStep(opts: seq<Entry>, filters: bool, columns: bool)
    requires Holds(opts) && PanelsAdded(Get(opts, "sideBar").GetOr(DefaultSideBar), filters, columns).Success?
    ensures WithSidebar(opts, filters, columns)
      == Success(Put(opts, "sideBar", PanelsAdded(Get(opts, "sideBar").GetOr(DefaultSideBar), filters, columns).value))
    ensures Holds(Put(opts, "sideBar", PanelsAdded(Get(opts, "sideBar").GetOr(DefaultSideBar), filters, columns).value))
  {
    WithSidebarHolds(opts, filters, columns);
  }

  lemma DisabledHolds(opts: seq<Entry>)
    requires Holds(opts)
    ensures Holds(Without(opts, DisabledKeys))
  {
    WithoutHolds(opts, DisabledKeys);
  }

  lemma CheckboxStep(opts: seq<Entry>, a: SelectionArgs, cds: seq<Entry>)
    requires Holds(opts) && Get(opts, "columnDefs") == Some(Obj(cds)) && cds != [] && cds[0].value.Obj?
    ensures WithCheckboxes(opts, a)
      == Success(Put(opts, "columnDefs", Obj(Put(cds, cds[0].key, Obj(PutAll(cds[0].value.entries, CheckboxEntries(a)))))))
    ensures Holds(Put(opts, "columnDefs", Obj(Put(cds, cds[0].key, Obj(PutAll(cds[0].value.entries, CheckboxEntries(a)))))))
  {
    WithCheckboxesHolds(opts, a);
  }

  lemma PaginationStep(opts: seq<Entry>, auto: bool, pageSize: int)
    requires Holds(opts)
    ensures WithPagination(opts, auto, pageSize) == PutAll(opts, PaginationEntries(auto, pageSize))
    ensures Holds(PutAll(opts, PaginationEntries(auto, pageSize)))
  {
    WithPaginationHolds(opts, auto, pageSize);
  }

  lemma UnpaginatedStep(opts: seq<Entry>)
    requires Holds(opts)
    ensures Without(Without(Without(opts, {"pagination"}), {"paginationAutoPageSize"}), {"paginationPageSize"})
      == WithoutPagination(opts)
    ensures Holds(WithoutPagination(opts))
  {
    PaginationPops(opts);
    WithoutPaginationHolds(opts);
  }

  /** The six pops of a disabled selection, one key at a time, pop the
      disabled keys. */
  lemma DisabledPops(es: seq<Entry>)
    ensures Without(Without(Without(Without(Without(Without(es, {"rowSelection"}), {"rowMultiSeletWithClick"}),
      {"suppressRowDeselection"}), {"suppressRowClickSelection"}), {"groupSelectsChildren"}), {"groupSelectsFiltered"})
      == Without(es, DisabledKeys)
  {
    var s1 := {"rowSelection"};
    var e2 := PopNext(es, s1, Without(es, s1), "rowMultiSeletWithClick");
    var s2 := s1 + {"rowMultiSeletWithClick"};
    var e3 := PopNext(es, s2, e2, "suppressRowDeselection");
    var s3 := s2 + {"suppressRowDeselection"};
    var e4 := PopNext(es, s3, e3, "suppressRowClickSelection");
    var s4 := s3 + {"suppressRowClickSelection"};
    var e5 := PopNext(es, s4, e4, "groupSelectsChildren");
    var s5 := s4 + {"groupSelectsChildren"};
    var e6 := PopNext(es, s5, e5, "groupSelectsFiltered");
    DisabledKeysInOrder();
  }

  /** The disabled keys, in the order `add_grid_selection` pops them. */
  lemma DisabledKeysInOrder()
    ensures {"rowSelection"} + {"rowMultiSeletWithClick"} + {"suppressRowDeselection"}
      + {"suppressRowClickSelection"} + {"groupSelectsChildren"} + {"groupSelectsFiltered"} == DisabledKeys
  {
  }

  /** One more pop after the keys of `popped`. */
  lemma PopNext(es: seq<Entry>, popped: set<string>, prev: seq<Entry>, k: string) returns (next: seq<Entry>)
    requires prev == Without(es, popped)
    ensures next == Without(prev, {k}) == Without(es, popped + {k})
  {
    WithoutWithout(es, popped, {k});
    next := Without(prev, {k});
  }

  /** The empty arguments of `GridOptionsBuilder({})` meet the requirements
      of `__init__`. */
  lemma NoArguments()
    ensures Kwargs([], InitParams) && WellFormedValues([]) && WellFormed(Obj([]))
  {
    assert Keys([]) == [];
  }

  /** The three pops of `remove_pagination` pop the pagination keys. */
  lemma PaginationPops(es: seq<Entry>)
    ensures Without(Without(Without(es, {"pagination"}), {"paginationAutoPageSize"}), {"paginationPageSize"})
      == WithoutPagination(es)
  {
    WithoutWithout(es, {"pagination"}, {"paginationAutoPageSize"});
    WithoutWithout(es, {"pagination"} + {"paginationAutoPageSize"}, {"paginationPageSize"});
    assert {"pagination"} + {"paginationAutoPageSize"} + {"paginationPageSize"} == PaginationKeys;
  }

  /** The options `from_data` starts its loop from keep the invariant. */
  lemma DataOptionsHoldStart()
    ensures Holds(DataStart)
  {
    DefaultColumnOptionsWellFormed();
    assert Keys(DataStart) == ["columnDefs", "defaultColDef"];
  }
}
