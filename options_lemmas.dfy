/** The properties GridOptionsBuilder promises, proved about the functions
    of OptionsSpec. */
module OptionsLemmas {
  import opened Outcomes
  import opened Text
  import opened Tree
  import opened OptionsSpec

  /** Pandas names its integer and float dtypes after their kind, so these
      are numeric. */
  lemma NumericDtypeNames()
    ensures Get(PandasTypes("int64"), "type") == Some(Str("numericColumn"))
    ensures Get(PandasTypes("uint8"), "type") == Some(Str("numericColumn"))
    ensures Get(PandasTypes("float32"), "type") == Some(Str("numericColumn"))
  {
    assert OccursAt("int64", "int", 0);
    assert OccursAt("uint8", "int", 1);
    assert OccursAt("float32", "float", 0);
  }

  /** The letters `a` and `b` never appear side by side in `s`. */
  predicate NoPair(s: string, a: char, b: char) {
    forall i :: 0 <= i < |s| - 1 ==> !(s[i] == a && s[i + 1] == b)
  }

  /** A dtype name in which none of "in", "fl" and "do" appears is not
      numeric. */
  lemma NotNumericDtype(d: string)
    requires |d| > 1 && NoPair(d, 'i', 'n') && NoPair(d, 'f', 'l') && NoPair(d, 'd', 'o')
    ensures !IsNumericDtype(d)
  {
    NotContains(d, "int");
    NotContains(d, "float");
    NotContains(d, "double");
  }

  /** `str(dtype)` of a datetime column is never the one-letter kind "M",
      so such a column is classified as text. */
  lemma DatetimeDtypeIsText()
    ensures Get(PandasTypes("datetime64[ns]"), "type") == Some(Str("rightAligned"))
  {
    NotNumericDtype("datetime64[ns]");
  }

  /** Likewise a timedelta column is never the kind "m", so it is text. */
  lemma TimedeltaDtypeIsText()
    ensures Get(PandasTypes("timedelta64[ns]"), "type") == Some(Str("rightAligned"))
  {
    NotNumericDtype("timedelta64[ns]");
  }

  /** Adding a field that is already a column fails with its message. */
  lemma AddExistingColumnFails(opts: seq<Entry>, field: string, header: Option<string>, options: seq<Entry>)
    requires Kwargs(options, ColumnParams)
    requires Get(opts, "columnDefs").Some? && Get(opts, "columnDefs").value.Obj?
    requires field in Keys(Get(opts, "columnDefs").value.entries)
    ensures WithColumn(opts, field, header, options) == Failure(Invalid(ColumnExists(field)))
  {
  }

  /** Adding a new field appends its definition after the existing columns
      and changes nothing else. */
  lemma AddNewColumnAppends(opts: seq<Entry>, cds: seq<Entry>, field: string, header: Option<string>, options: seq<Entry>)
    requires Kwargs(options, ColumnParams)
    requires Get(opts, "columnDefs") == Some(Obj(cds)) && field !in Keys(cds)
    ensures WithColumn(opts, field, header, options) ==
      Success(Put(opts, "columnDefs", Obj(cds + [Entry(field, Obj(ColumnDef(field, header, options)))])))
    ensures var r := WithColumn(opts, field, header, options).value;
      Keys(r) == Keys(opts) &&
      Get(r, "columnDefs") == Some(Obj(cds + [Entry(field, Obj(ColumnDef(field, header, options)))])) &&
      forall k :: k != "columnDefs" ==> Get(r, k) == Get(opts, k)
  {
    PutNew(cds, field, Obj(ColumnDef(field, header, options)));
  }

  /** Updating a field that is not a column fails with its message. */
  lemma UpdateMissingColumnFails(opts: seq<Entry>, field: string, header: Option<string>, options: seq<Entry>)
    requires Kwargs(options, ColumnParams)
    requires Get(opts, "columnDefs").Some? && Get(opts, "columnDefs").value.Obj?
    requires field !in Keys(Get(opts, "columnDefs").value.entries)
    ensures WithColumnUpdated(opts, field, header, options) == Failure(Invalid(ColumnMissing(field)))
  {
  }

  /** Updating a column keeps the fields and their order, changes no other
      column and no other option, and stores the updated definition. */
  lemma UpdateColumnKeepsColumns(opts: seq<Entry>, cds: seq<Entry>, field: string, header: Option<string>,
                                 options: seq<Entry>, defs: seq<Entry>)
    requires Kwargs(options, ColumnParams)
    requires Get(opts, "columnDefs") == Some(Obj(cds)) && Get(cds, field) == Some(Obj(defs))
    ensures WithColumnUpdated(opts, field, header, options).Success?
    ensures var r := WithColumnUpdated(opts, field, header, options).value;
      Keys(r) == Keys(opts) &&
      (forall k :: k != "columnDefs" ==> Get(r, k) == Get(opts, k)) &&
      Get(r, "columnDefs").Some? && Get(r, "columnDefs").value.Obj? &&
      var cds' := Get(r, "columnDefs").value.entries;
      Keys(cds') == Keys(cds) &&
      Get(cds', field) == Some(Obj(UpdatedDef(defs, field, header, options))) &&
      forall c :: c != field ==> Get(cds', c) == Get(cds, c)
  {
  }

  /** A side bar holding a list of tool panels keeps them and gets the
      requested panels appended, filters first. */
  lemma PanelsAppended(sideBar: seq<Entry>, panels: seq<Value>, filters: bool, columns: bool)
    requires Get(sideBar, "toolPanels") == Some(List(panels))
    ensures PanelsAdded(Obj(sideBar), filters, columns)
         == Success(Obj(Put(sideBar, "toolPanels", List(panels + RequestedPanels(filters, columns)))))
  {
    var afterFilters := panels + (if filters then [FiltersPanel] else []);
    var sb1 := if filters then Put(sideBar, "toolPanels", List(afterFilters)) else sideBar;
    if !filters {
      assert afterFilters == panels;
    }
    assert Get(sb1, "toolPanels") == Some(List(afterFilters));
    assert afterFilters + (if columns then [ColumnsPanel] else []) == panels + RequestedPanels(filters, columns);
    assert (if filters then AppendPanel(Obj(sideBar), FiltersPanel) else Success(Obj(sideBar))) == Success(Obj(sb1));
    if columns {
      assert AppendPanel(Obj(sb1), ColumnsPanel) == Success(Obj(Put(sb1, "toolPanels", List(afterFilters + [ColumnsPanel]))));
      if filters {
        PutPut(sideBar, "toolPanels", List(afterFilters), List(afterFilters + [ColumnsPanel]));
      }
    } else if !filters {
      assert panels + RequestedPanels(filters, columns) == panels;
      PutSame(sideBar, "toolPanels");
    } else {
      assert afterFilters == panels + RequestedPanels(filters, columns);
      assert PanelsAdded(Obj(sideBar), filters, columns) == Success(Obj(sb1));
    }
  }

  /** With a side bar holding a list of tool panels, or none at all,
      `add_sidebar` keeps the existing panels and appends the requested ones
      in order, so the list grows by the number of true flags. No other
      option changes. */
  lemma SidebarAppendsPanels(opts: seq<Entry>, sideBar: seq<Entry>, panels: seq<Value>, filters: bool, columns: bool)
    requires Get(opts, "sideBar") == Some(Obj(sideBar)) || (Get(opts, "sideBar").None? && sideBar == DefaultSideBar.entries)
    requires Get(sideBar, "toolPanels") == Some(List(panels))
    ensures WithSidebar(opts, filters, columns).Success?
    ensures var r := WithSidebar(opts, filters, columns).value;
      (forall k :: k != "sideBar" ==> Get(r, k) == Get(opts, k)) &&
      Get(r, "sideBar").Some? && Get(r, "sideBar").value.Obj? &&
      var sideBar' := Get(r, "sideBar").value.entries;
      Keys(sideBar') == Keys(sideBar) &&
      Get(sideBar', "toolPanels") == Some(List(panels + RequestedPanels(filters, columns))) &&
      |panels + RequestedPanels(filters, columns)| == |panels| + (if filters then 1 else 0) + (if columns then 1 else 0) &&
      forall k :: k != "toolPanels" ==> Get(sideBar', k) == Get(sideBar, k)
  {
    PanelsAppended(sideBar, panels, filters, columns);
  }

  /** The final `update` of an enabled selection stores `rowSelection`. */
  lemma SelectionSetsRowSelection(opts: seq<Entry>, a: SelectionArgs)
    ensures Get(PutAll(opts, SelectionEntries(a)), "rowSelection") == Some(Str(RowSelection(a.mode)))
  {
    PutAllLast(opts, SelectionEntries(a), 0);
  }

  /** ... and `rowMultiSelectWithClick`. */
  lemma SelectionSetsMultiSelectWithClick(opts: seq<Entry>, a: SelectionArgs)
    ensures Get(PutAll(opts, SelectionEntries(a)), "rowMultiSelectWithClick") == Some(Bool(a.multiSelectWithClick))
  {
    PutAllLast(opts, SelectionEntries(a), 1);
  }

  /** ... and `suppressRowClickSelection`, forced by checkboxes. */
  lemma SelectionSetsClickSelection(opts: seq<Entry>, a: SelectionArgs)
    ensures Get(PutAll(opts, SelectionEntries(a)), "suppressRowClickSelection") ==
      Some(Bool(a.suppressClickSelection || a.useCheckbox))
  {
    PutAllLast(opts, SelectionEntries(a), 3);
  }

  /** ... and `preSelectAllRows`, always false. */
  lemma SelectionSetsPreSelectAll(opts: seq<Entry>, a: SelectionArgs)
    ensures Get(PutAll(opts, SelectionEntries(a)), "preSelectAllRows") == Some(Bool(false))
  {
    PutAllLast(opts, SelectionEntries(a), 6);
  }

  /** The final `update` changes no key outside the selection keys. */
  lemma SelectionKeepsOthers(opts: seq<Entry>, a: SelectionArgs)
    ensures forall k :: k !in SelectionKeys ==> Get(PutAll(opts, SelectionEntries(a)), k) == Get(opts, k)
  {
    var kvs := SelectionEntries(a);
    KeysAt(kvs);
    forall k | k in Keys(kvs) ensures k in SelectionKeys {
      var j :| 0 <= j < |kvs| && Keys(kvs)[j] == k;
    }
  }

  /** A disabled selection removes exactly the popped keys, including the
      misspelled one, and leaves `rowMultiSelectWithClick` in place. */
  lemma DisabledSelectionRemovesKeys(opts: seq<Entry>, a: SelectionArgs)
    requires a.mode == "disabled"
    ensures WithSelection(opts, a).status == Done
    ensures forall k :: Get(WithSelection(opts, a).options, k) == if k in DisabledKeys then None else Get(opts, k)
    ensures Get(WithSelection(opts, a).options, "rowMultiSelectWithClick") == Get(opts, "rowMultiSelectWithClick")
  {
  }

  /** Without checkboxes, an enabled selection whose rows have a length
      ends with the final `update`. */
  lemma EnabledSelectionUpdates(opts: seq<Entry>, a: SelectionArgs)
    requires a.mode != "disabled" && !a.useCheckbox && Len(a.preSelectedRows).Some?
    ensures var n := Len(a.preSelectedRows).value;
      var rows := if n > 0 then Put(opts, "preSelectedRows", a.preSelectedRows) else opts;
      WithSelection(opts, a) == Outcome(PutAll(rows, SelectionEntries(a)), Done)
  {
  }

  lemma CapitalDisabledRowSelection(mode: string)
    requires mode == "Disabled"
    ensures RowSelection(mode) == "multiple"
  {
    assert Lower("Disabled")[..2] == "di";
  }

  /** The final `update` keeps `preSelectedRows`. */
  lemma SelectionKeepsPreSelectedRows(opts: seq<Entry>, a: SelectionArgs)
    ensures Get(PutAll(opts, SelectionEntries(a)), "preSelectedRows") == Get(opts, "preSelectedRows")
  {
    SelectionKeepsOthers(opts, a);
    assert "preSelectedRows" !in SelectionKeys;
  }

  /** The mode test is exact and case-sensitive: "Disabled" enables a
      multiple selection. */
  lemma CapitalDisabledSelectsMultiple(opts: seq<Entry>, a: SelectionArgs)
    requires a.mode == "Disabled" && !a.useCheckbox && a.preSelectedRows == List([])
    ensures WithSelection(opts, a).status == Done
    ensures Get(WithSelection(opts, a).options, "rowSelection") == Some(Str("multiple"))
  {
    EnabledSelectionUpdates(opts, a);
    CapitalDisabledRowSelection(a.mode);
    SelectionSetsRowSelection(opts, a);
  }

  /** Called with its defaults, `add_grid_selection` raises at
      `len(None)`. */
  lemma DefaultSelectionFails(opts: seq<Entry>)
    ensures WithSelection(opts, DefaultSelection) == Outcome(opts, Raised(Crash))
  {
  }

  /** `use_checkbox` with no columns raises, and nothing changes. */
  lemma CheckboxWithoutColumnsFails(opts: seq<Entry>, a: SelectionArgs)
    requires a.mode != "disabled" && a.useCheckbox && Get(opts, "columnDefs") == Some(Obj([]))
    ensures WithSelection(opts, a) == Outcome(opts, Raised(Crash))
  {
  }

  /** The checkbox flags go to the first column only. */
  lemma CheckboxesOnFirstColumn(opts: seq<Entry>, cds: seq<Entry>, a: SelectionArgs)
    requires Get(opts, "columnDefs") == Some(Obj(cds)) && UniqueKeys(cds)
    requires cds != [] && cds[0].value.Obj?
    ensures WithCheckboxes(opts, a).Success?
    ensures var r := WithCheckboxes(opts, a).value;
      (forall k :: k != "columnDefs" ==> Get(r, k) == Get(opts, k)) &&
      Get(r, "columnDefs").Some? && Get(r, "columnDefs").value.Obj? &&
      var cds' := Get(r, "columnDefs").value.entries;
      Keys(cds') == Keys(cds) &&
      Get(cds', cds[0].key) == Some(Obj(PutAll(cds[0].value.entries, CheckboxEntries(a)))) &&
      forall c :: c != cds[0].key ==> Get(cds', c) == Get(cds, c)
  {
    assert cds[0].key in Keys(cds) by { assert Keys(cds)[0] == cds[0].key; }
  }

  /** An enabled selection without checkboxes completes when the rows
      have a length: it sets `rowSelection` from the lower-cased mode and
      `suppressRowClickSelection` as asked, stores `preSelectedRows` only
      when there are some, and keeps every other option it does not set. */
  lemma EnabledSelectionSets(opts: seq<Entry>, a: SelectionArgs)
    requires a.mode != "disabled" && !a.useCheckbox && Len(a.preSelectedRows).Some?
    ensures WithSelection(opts, a).status == Done
    ensures var r := WithSelection(opts, a).options;
      Get(r, "rowSelection") == Some(Str(if StartsWith(Lower(a.mode), "si") then "single" else "multiple")) &&
      Get(r, "suppressRowClickSelection") == Some(Bool(a.suppressClickSelection)) &&
      Get(r, "preSelectAllRows") == Some(Bool(false)) &&
      Get(r, "preSelectedRows") ==
        (if Len(a.preSelectedRows).value > 0 then Some(a.preSelectedRows) else Get(opts, "preSelectedRows")) &&
      forall k :: k !in SelectionKeys && k != "preSelectedRows" ==> Get(r, k) == Get(opts, k)
  {
    var n := Len(a.preSelectedRows).value;
    var rows := if n > 0 then Put(opts, "preSelectedRows", a.preSelectedRows) else opts;
    EnabledSelectionUpdates(opts, a);
    SelectionSetsRowSelection(rows, a);
    SelectionSetsClickSelection(rows, a);
    SelectionSetsPreSelectAll(rows, a);
    SelectionKeepsOthers(rows, a);
    SelectionKeepsPreSelectedRows(rows, a);
  }

  /** With checkboxes that could be marked, an enabled selection whose
      rows have a length ends with the final update over the marked
      options. */
  lemma CheckboxSelectionUpdates(opts: seq<Entry>, a: SelectionArgs)
    requires a.mode != "disabled" && a.useCheckbox && Len(a.preSelectedRows).Some?
    requires WithCheckboxes(opts, a).Success?
    ensures var checked := WithCheckboxes(opts, a).value;
      var rows := if Len(a.preSelectedRows).value > 0 then Put(checked, "preSelectedRows", a.preSelectedRows) else checked;
      WithSelection(opts, a) == Outcome(PutAll(rows, SelectionEntries(a)), Done)
  {
  }

  /** With checkboxes, on a dict of columns whose first definition is a
      dict, an enabled selection whose rows have a length completes:
      clicking no longer selects a row, `rowSelection` follows the mode,
      and every option the call does not set is kept
      (CheckboxSelectionColumns states what happens to the columns). */
  lemma CheckboxSelectionSets(opts: seq<Entry>, cds: seq<Entry>, a: SelectionArgs)
    requires a.mode != "disabled" && a.useCheckbox && Len(a.preSelectedRows).Some?
    requires Get(opts, "columnDefs") == Some(Obj(cds)) && UniqueKeys(cds)
    requires cds != [] && cds[0].value.Obj?
    ensures WithSelection(opts, a).status == Done
    ensures var r := WithSelection(opts, a).options;
      Get(r, "rowSelection") == Some(Str(RowSelection(a.mode))) &&
      Get(r, "suppressRowClickSelection") == Some(Bool(true)) &&
      Get(r, "preSelectAllRows") == Some(Bool(false)) &&
      Get(r, "preSelectedRows") ==
        (if Len(a.preSelectedRows).value > 0 then Some(a.preSelectedRows) else Get(opts, "preSelectedRows")) &&
      forall k :: k !in SelectionKeys && k != "preSelectedRows" && k != "columnDefs" ==> Get(r, k) == Get(opts, k)
  {
    CheckboxesOnFirstColumn(opts, cds, a);
    CheckboxSelectionUpdates(opts, a);
    var checked := WithCheckboxes(opts, a).value;
    var rows := if Len(a.preSelectedRows).value > 0 then Put(checked, "preSelectedRows", a.preSelectedRows) else checked;
    SelectionSetsRowSelection(rows, a);
    SelectionSetsClickSelection(rows, a);
    SelectionSetsPreSelectAll(rows, a);
    SelectionKeepsOthers(rows, a);
    SelectionKeepsPreSelectedRows(rows, a);
  }

  /** ... and the checkbox flags go to the first column only: the columns
      and their order are kept, and every other definition is unchanged. */
  lemma CheckboxSelectionColumns(opts: seq<Entry>, cds: seq<Entry>, a: SelectionArgs)
    requires a.mode != "disabled" && a.useCheckbox && Len(a.preSelectedRows).Some?
    requires Get(opts, "columnDefs") == Some(Obj(cds)) && UniqueKeys(cds)
    requires cds != [] && cds[0].value.Obj?
    ensures var r := WithSelection(opts, a).options;
      Get(r, "columnDefs").Some? && Get(r, "columnDefs").value.Obj? &&
      var cds' := Get(r, "columnDefs").value.entries;
      Keys(cds') == Keys(cds) &&
      Get(cds', cds[0].key) == Some(Obj(PutAll(cds[0].value.entries, CheckboxEntries(a)))) &&
      forall c :: c != cds[0].key ==> Get(cds', c) == Get(cds, c)
  {
    CheckboxesOnFirstColumn(opts, cds, a);
    CheckboxSelectionKeepsMarks(opts, a);
  }

  /** After the checkbox step, an enabled selection leaves the columns as
      that step marked them. */
  lemma CheckboxSelectionKeepsMarks(opts: seq<Entry>, a: SelectionArgs)
    requires a.mode != "disabled" && a.useCheckbox && Len(a.preSelectedRows).Some?
    requires WithCheckboxes(opts, a).Success?
    ensures Get(WithSelection(opts, a).options, "columnDefs") == Get(WithCheckboxes(opts, a).value, "columnDefs")
  {
    CheckboxSelectionUpdates(opts, a);
    var checked := WithCheckboxes(opts, a).value;
    var rows := if Len(a.preSelectedRows).value > 0 then Put(checked, "preSelectedRows", a.preSelectedRows) else checked;
    assert Get(rows, "columnDefs") == Get(checked, "columnDefs") by {
      assert "preSelectedRows" != "columnDefs" by { assert "preSelectedRows"[0] != "columnDefs"[0]; }
    }
    SelectionKeepsColumns(rows, a);
  }

  /** The final `update` of a selection leaves `columnDefs` alone. */
  lemma SelectionKeepsColumns(opts: seq<Entry>, a: SelectionArgs)
    ensures Get(PutAll(opts, SelectionEntries(a)), "columnDefs") == Get(opts, "columnDefs")
  {
    SelectionKeepsOthers(opts, a);
    assert "columnDefs" !in SelectionKeys;
  }

  /** The mode is compared after lower-casing, so its case does not matter
      beyond the exact "disabled" test. */
  lemma SelectionIgnoresCase(m1: string, m2: string)
    requires SameUpToCase(m1, m2)
    ensures RowSelection(m1) == RowSelection(m2)
  {
    LowerIgnoresCase(m1, m2);
  }

  /** Removing pagination twice is removing it once. */
  lemma RemovePaginationIdempotent(opts: seq<Entry>)
    ensures WithoutPagination(WithoutPagination(opts)) == WithoutPagination(opts)
  {
    WithoutWithout(opts, PaginationKeys, PaginationKeys);
    assert PaginationKeys + PaginationKeys == PaginationKeys;
  }

  /** Removing pagination undoes any `add_pagination`, whichever variant
      it set. */
  lemma RemoveUndoesAdd(opts: seq<Entry>, auto: bool, pageSize: int)
    ensures WithoutPagination(WithPagination(opts, auto, pageSize)) == WithoutPagination(opts)
  {
    var kvs := PaginationEntries(auto, pageSize);
    assert Keys(kvs) == if auto then ["pagination", "paginationAutoPageSize"] else ["pagination", "paginationPageSize"];
    WithoutPutAll(opts, kvs, PaginationKeys);
  }

  /** `add_pagination` never clears the other variant: a page size set
      earlier survives switching to automatic page sizes. */
  lemma AutoKeepsPageSize(opts: seq<Entry>, pageSize: int)
    ensures var r := WithPagination(WithPagination(opts, false, pageSize), true, 10);
      Get(r, "paginationPageSize") == Some(Int(pageSize)) &&
      Get(r, "paginationAutoPageSize") == Some(Bool(true))
  {
  }

  /** The built column list holds the definitions in insertion order. */
  lemma BuildListsColumns(opts: seq<Entry>, cds: seq<Entry>)
    requires Get(opts, "columnDefs") == Some(Obj(cds))
    ensures Built(opts).Success?
    ensures var defs := Get(Built(opts).value, "columnDefs").value.items;
      |defs| == |cds| && forall i :: 0 <= i < |cds| ==> defs[i] == cds[i].value
  {
  }

  /** Building twice is building once. */
  lemma BuildIdempotent(opts: seq<Entry>)
    requires Built(opts).Success?
    ensures Built(Built(opts).value) == Built(opts)
  {
  }

  // ---------------------------------------------------------------------
  // from_data
  // ---------------------------------------------------------------------

  /** One pass of the loop of `from_data` on a named column: a name that
      is already a column raises, any other is appended to the columns. */
  lemma DataColumnStep(opts: seq<Entry>, cds: seq<Entry>, c: Column)
    requires Get(opts, "columnDefs") == Some(Obj(cds)) && c.heading.Name?
    ensures c.heading.name in Keys(cds) ==> AddDataColumn(opts, c) == Failure(Invalid(ColumnExists(c.heading.name)))
    ensures c.heading.name !in Keys(cds) ==>
      AddDataColumn(opts, c) ==
      Success(Put(DotMarked(opts, c.heading.name), "columnDefs", Obj(cds + [DataDef(c.heading.name, c.dtype)])))
  {
    var n := c.heading.name;
    if n in Keys(cds) {
      AddExistingColumnFails(DotMarked(opts, n), n, Some(n), PandasTypes(c.dtype));
    } else {
      AddNewColumnAppends(DotMarked(opts, n), cds, n, Some(n), PandasTypes(c.dtype));
    }
  }

  lemma AllNamedStep(cols: seq<Column>)
    requires cols != []
    ensures AllNamed(cols) <==> cols[0].heading.Name? && AllNamed(cols[1..])
  {
    if cols[0].heading.Name? && AllNamed(cols[1..]) {
      forall i | 0 <= i < |cols| ensures cols[i].heading.Name? {
        if i > 0 { assert cols[i] == cols[1..][i - 1]; }
      }
    }
  }

  /** The names after `ks` are distinct from them and from each other
      exactly when the first is new and the rest are, after `ks` and it. */
  lemma DistinctNamesStep(ks: seq<string>, cols: seq<Column>)
    requires cols != [] && AllNamed(cols)
    ensures AllNamed(cols[1..])
    ensures Distinct(ks + Names(cols)) <==>
      cols[0].heading.name !in ks && Distinct((ks + [cols[0].heading.name]) + Names(cols[1..]))
  {
    AllNamedStep(cols);
    var n := cols[0].heading.name;
    assert Names(cols) == [n] + Names(cols[1..]);
    assert ks + Names(cols) == (ks + [n]) + Names(cols[1..]);
    if n in ks {
      var i :| 0 <= i < |ks| && ks[i] == n;
      assert (ks + Names(cols))[i] == (ks + Names(cols))[|ks|];
    }
  }

  /** The loop of `from_data` after its first pass. */
  lemma DataColumnsUnfold(opts: seq<Entry>, cds: seq<Entry>, cols: seq<Column>)
    requires Get(opts, "columnDefs") == Some(Obj(cds)) && cols != []
    ensures !cols[0].heading.Name? ==> AddDataColumns(opts, cols).Failure?
    ensures cols[0].heading.Name? && cols[0].heading.name in Keys(cds) ==> AddDataColumns(opts, cols).Failure?
    ensures cols[0].heading.Name? && cols[0].heading.name !in Keys(cds) ==>
      var n := cols[0].heading.name;
      AddDataColumns(opts, cols) == AddDataColumns(Put(DotMarked(opts, n), "columnDefs", Obj(cds + [DataDef(n, cols[0].dtype)])), cols[1..])
  {
    if cols[0].heading.Name? {
      DataColumnStep(opts, cds, cols[0]);
    }
  }

  /** The options after the first column of `cols` when its name is new:
      the recursion goes on from there with one more column definition. */
  lemma DataColumnsNext(opts: seq<Entry>, cds: seq<Entry>, cols: seq<Column>) returns (next: seq<Entry>, cds': seq<Entry>)
    requires Get(opts, "columnDefs") == Some(Obj(cds)) && cols != []
    requires cols[0].heading.Name? && cols[0].heading.name !in Keys(cds)
    ensures Get(next, "columnDefs") == Some(Obj(cds'))
    ensures cds' == cds + [DataDef(cols[0].heading.name, cols[0].dtype)]
    ensures Keys(cds') == Keys(cds) + [cols[0].heading.name]
    ensures next == Put(DotMarked(opts, cols[0].heading.name), "columnDefs", Obj(cds'))
    ensures AddDataColumns(opts, cols) == AddDataColumns(next, cols[1..])
  {
    DataColumnsUnfold(opts, cds, cols);
    var d := DataDef(cols[0].heading.name, cols[0].dtype);
    cds' := cds + [d];
    KeysSnoc(cds, d);
    next := Put(DotMarked(opts, cols[0].heading.name), "columnDefs", Obj(cds'));
  }

  /** Every label of `cols` is a name not met before: neither in `ks` nor
      earlier in `cols`. */
  predicate FreshNames(ks: seq<string>, cols: seq<Column>)
    decreases |cols|
  {
    cols == [] ||
    (cols[0].heading.Name? && cols[0].heading.name !in ks && FreshNames(ks + [cols[0].heading.name], cols[1..]))
  }

  /** Fresh names are distinct names. */
  lemma {:induction false} FreshNamesDistinct(ks: seq<string>, cols: seq<Column>)
    requires Distinct(ks)
    ensures FreshNames(ks, cols) <==> AllNamed(cols) && Distinct(ks + Names(cols))
    decreases |cols|
  {
    if cols == [] {
      assert ks + Names(cols) == ks;
    } else {
      AllNamedStep(cols);
      if AllNamed(cols) {
        DistinctNamesStep(ks, cols);
      }
      if cols[0].heading.Name? && cols[0].heading.name !in ks {
        DistinctSnoc(ks, cols[0].heading.name);
        FreshNamesDistinct(ks + [cols[0].heading.name], cols[1..]);
      }
    }
  }

  /** The loop of `from_data` succeeds exactly on fresh names. */
  lemma {:induction false} DataColumnsFresh(opts: seq<Entry>, cds: seq<Entry>, cols: seq<Column>)
    requires Get(opts, "columnDefs") == Some(Obj(cds))
    ensures AddDataColumns(opts, cols).Success? <==> FreshNames(Keys(cds), cols)
    decreases |cols|
  {
    if cols != [] {
      DataColumnsUnfold(opts, cds, cols);
      if cols[0].heading.Name? && cols[0].heading.name !in Keys(cds) {
        var next, cds' := DataColumnsNext(opts, cds, cols);
        DataColumnsFresh(next, cds', cols[1..]);
      }
    }
  }

  /** `from_data` succeeds exactly when every label is a name and no name
      repeats one met before. */
  lemma DataColumnsSucceed(opts: seq<Entry>, cds: seq<Entry>, cols: seq<Column>)
    requires Get(opts, "columnDefs") == Some(Obj(cds)) && UniqueKeys(cds)
    ensures AddDataColumns(opts, cols).Success? <==> AllNamed(cols) && Distinct(Keys(cds) + Names(cols))
  {
    DataColumnsFresh(opts, cds, cols);
    FreshNamesDistinct(Keys(cds), cols);
  }

  /** The first column's step of `AnyDotted`. */
  lemma AnyDottedStep(cols: seq<Column>)
    requires cols != []
    ensures AnyDotted(cols) <==>
      (cols[0].heading.Name? && Contains(cols[0].heading.name, ".")) || AnyDotted(cols[1..])
  {
    if AnyDotted(cols[1..]) {
      var i :| 0 <= i < |cols[1..]| && cols[1..][i].heading.Name? && Contains(cols[1..][i].heading.name, ".");
      assert cols[i + 1] == cols[1..][i];
    }
    if AnyDotted(cols) && !(cols[0].heading.Name? && Contains(cols[0].heading.name, ".")) {
      var i :| 0 <= i < |cols| && cols[i].heading.Name? && Contains(cols[i].heading.name, ".");
      assert cols[1..][i - 1] == cols[i];
    }
  }

  /** The definitions of the columns: the first column's, then the rest. */
  lemma DataDefsStep(cols: seq<Column>)
    requires cols != [] && AllNamed(cols)
    ensures AllNamed(cols[1..])
    ensures DataDefs(cols) == [DataDef(cols[0].heading.name, cols[0].dtype)] + DataDefs(cols[1..])
  {
    AllNamedStep(cols);
  }

  /** When `from_data`'s loop succeeds every label is a name, and the
      definitions of the columns follow the existing ones, in order. */
  lemma {:induction false} DataColumnsDefs(opts: seq<Entry>, cds: seq<Entry>, cols: seq<Column>)
    requires Get(opts, "columnDefs") == Some(Obj(cds))
    requires AddDataColumns(opts, cols).Success?
    ensures AllNamed(cols)
    ensures Get(AddDataColumns(opts, cols).value, "columnDefs") == Some(Obj(cds + DataDefs(cols)))
    decreases |cols|
  {
    if cols == [] {
      assert cds + DataDefs(cols) == cds;
    } else {
      DataColumnsUnfold(opts, cds, cols);
      var next, cds' := DataColumnsNext(opts, cds, cols);
      DataColumnsDefs(next, cds', cols[1..]);
      AllNamedStep(cols);
      DataDefsStep(cols);
      AppendEntries(cds, DataDef(cols[0].heading.name, cols[0].dtype), DataDefs(cols[1..]), DataDefs(cols));
    }
  }

  /** When `from_data`'s loop succeeds, dotted field paths are off exactly
      when some name has a dot (or they were off before), and no option
      but the column definitions changes otherwise. */
  lemma {:induction false} DataColumnsOthers(opts: seq<Entry>, cds: seq<Entry>, cols: seq<Column>)
    requires Get(opts, "columnDefs") == Some(Obj(cds))
    requires AddDataColumns(opts, cols).Success?
    ensures Get(AddDataColumns(opts, cols).value, "suppressFieldDotNotation") ==
      if AnyDotted(cols) then Some(Bool(true)) else Get(opts, "suppressFieldDotNotation")
    ensures forall k :: k != "columnDefs" && k != "suppressFieldDotNotation" ==>
      Get(AddDataColumns(opts, cols).value, k) == Get(opts, k)
    decreases |cols|
  {
    if cols != [] {
      DataColumnsUnfold(opts, cds, cols);
      var next, cds' := DataColumnsNext(opts, cds, cols);
      DataColumnsOthers(next, cds', cols[1..]);
      AnyDottedStep(cols);
    }
  }

  /** What `from_data` starts from: no columns, the default column
      options, and dotted field paths left on. */
  lemma DataStartOptions()
    ensures Get(DataStart, "columnDefs") == Some(Obj([]))
    ensures Get(DataStart, "defaultColDef") == Some(Obj(DefaultColumnOptions))
    ensures Get(DataStart, "suppressFieldDotNotation") == None
  {
    assert DataStart[1..][1..] == [];
  }

  /** `from_data` builds its options from those of a builder made with an
      empty dict and no keyword arguments, with the builder's default
      column options stored as `defaultColDef`. */
  lemma DataStartFromInit()
    ensures InitialOptions(Some([]), []) == [Entry("columnDefs", Obj([]))]
    ensures InitialDefaults([]) == Success(DefaultColumnOptions)
    ensures Put(InitialOptions(Some([]), []), "defaultColDef", Obj(DefaultColumnOptions)) == DataStart
  {
    assert Put([], "columnDefs", Obj([])) == [Entry("columnDefs", Obj([]))];
  }

  /** A dict given as `defaultColDef` overrides the default column
      options it names and keeps the others. */
  lemma DictDefaultColDef(kwargs: seq<Entry>, d: seq<Entry>)
    requires Kwargs(kwargs, InitParams) && Get(kwargs, "defaultColDef") == Some(Obj(d)) && UniqueKeys(d)
    ensures InitialDefaults(kwargs).Success?
    ensures forall k :: Get(InitialDefaults(kwargs).value, k) ==
                        if k in Keys(d) then Get(d, k) else Get(DefaultColumnOptions, k)
  {
    var r := InitialDefaults(kwargs).value;
    KeysAt(d);
    forall k ensures Get(r, k) == if k in Keys(d) then Get(d, k) else Get(DefaultColumnOptions, k) {
      if k in Keys(d) {
        var i :| 0 <= i < |d| && Keys(d)[i] == k;
        GetAt(d, i);
      }
    }
  }

  /** `update` also takes a list of pairs: `defaultColDef=[[k, v]]` sets
      the default column option `k` to `v` and keeps the others. */
  lemma PairListDefaultColDef(kwargs: seq<Entry>, k: string, v: Value)
    requires Kwargs(kwargs, InitParams) && Get(kwargs, "defaultColDef") == Some(List([List([Str(k), v])]))
    ensures InitialDefaults(kwargs).Success?
    ensures Get(InitialDefaults(kwargs).value, k) == Some(v)
    ensures forall k' :: k' != k ==> Get(InitialDefaults(kwargs).value, k') == Get(DefaultColumnOptions, k')
  {
    var kvs := UpdateEntries(List([List([Str(k), v])])).value;
    assert kvs == [Entry(k, v)];
  }

  /** A two-letter string in that list is a pair of its letters:
      `defaultColDef=["ab"]` sets the option "a" to "b". */
  lemma LetterPairDefaultColDef(kwargs: seq<Entry>, a: char, b: char)
    requires Kwargs(kwargs, InitParams) && Get(kwargs, "defaultColDef") == Some(List([Str([a, b])]))
    ensures InitialDefaults(kwargs).Success?
    ensures Get(InitialDefaults(kwargs).value, [a]) == Some(Str([b]))
  {
    var kvs := UpdateEntries(List([Str([a, b])])).value;
    assert [a, b][..1] == [a] && [a, b][1..] == [b];
    assert kvs == [Entry([a], Str([b]))];
  }

  /** A non-empty string as `defaultColDef` raises: its letters are not
      pairs. */
  lemma TextDefaultColDefFails(kwargs: seq<Entry>, t: string)
    requires Kwargs(kwargs, InitParams) && Get(kwargs, "defaultColDef") == Some(Str(t)) && t != ""
    ensures InitialDefaults(kwargs) == Failure(Crash)
  {
  }

  /** The loop of `from_data` stops at the first column that fails, and
      otherwise goes on from the options that column leaves. */
  lemma AddDataColumnsCons(opts: seq<Entry>, cols: seq<Column>)
    requires cols != []
    ensures AddDataColumn(opts, cols[0]).Failure? ==>
      AddDataColumns(opts, cols) == Failure(AddDataColumn(opts, cols[0]).error)
    ensures AddDataColumn(opts, cols[0]).Success? ==>
      AddDataColumns(opts, cols) == AddDataColumns(AddDataColumn(opts, cols[0]).value, cols[1..])
  {
  }

  /** `from_data` on data with the columns `cols` succeeds exactly when
      every label is a name and no name repeats. */
  lemma DataOptionsSucceed(cols: seq<Column>)
    ensures DataOptions(cols).Success? <==> AllNamed(cols) && Distinct(Names(cols))
  {
    DataStartOptions();
    DataColumnsSucceed(DataStart, [], cols);
    if AllNamed(cols) {
      assert Keys([]) + Names(cols) == Names(cols);
    }
  }

  /** The options of a successful `from_data`: one definition per column,
      in order, the default column options, and dotted field paths turned
      off exactly when some name has a dot. */
  lemma DataOptionsResult(cols: seq<Column>)
    requires DataOptions(cols).Success?
    ensures AllNamed(cols)
    ensures Get(DataOptions(cols).value, "columnDefs") == Some(Obj(DataDefs(cols)))
    ensures Get(DataOptions(cols).value, "defaultColDef") == Some(Obj(DefaultColumnOptions))
    ensures Get(DataOptions(cols).value, "suppressFieldDotNotation") ==
      if AnyDotted(cols) then Some(Bool(true)) else None
  {
    DataStartOptions();
    DataColumnsDefs(DataStart, [], cols);
    DataColumnsOthers(DataStart, [], cols);
    assert [] + DataDefs(cols) == DataDefs(cols);
  }
}
