# streamlit-aggrid-redux: the grid options builder and the grid assembly

This project models, in Dafny, the two modules that turn user input into the
configuration of an AgGrid table in streamlit-aggrid-redux.

- **`GridOptionsBuilder`** owns one grid-options dict. It has a constructor,
  `from_data`, `add_column`, `update_column`, `add_sidebar`,
  `add_grid_selection`, `add_pagination`, `remove_pagination` and `build`.
  Each of these changes the dict in place.
- **`walk_grid_options`** is the in-place recursive walk that applies a
  function to every leaf of an options tree.
- **`GridBuilder.__new__`**, with its validators and `_make_error_msg`, checks
  and normalises every argument. It then picks or derives the grid options,
  flags `domLayout` when no height is given, and walks the result.

An options dict is a `Tree.Value`: null, bool, int, string, JsCode, list or
dict. A dict is a sequence of entries, so the order of insertion is kept.
Python's dict operations are `Get` (`d.get`), `Put` (`d[k] = v`), `Without`
(`pop`) and `PutAll` (`update`).

Each operation appears in two forms:

- a pure function in `OptionsSpec`, `OptionsWalk` or `GridAssembly`;
- a class method or loop method that updates the state in place and is proved
  equal to that function.

The lemmas in `OptionsLemmas`, `OptionsWalk`, `Validators` and `GridAssembly`
state what the source promises about the functions.

Every `raise` becomes an `Outcomes.Error`:

- `Invalid(message)` stands for the source's own raises and carries the
  message the source formats.
- `Crash` stands for exceptions that Python raises itself: `TypeError`,
  `KeyError`, `StopIteration`, and a JSON decode error.

Both modules import `GridBuilderError` and `GridOptionsBuilderError`, but
`streamlit_aggrid_redux/errors.py` defines `AgGridBuilderError` and
`AgGridOptionsBuilderError`. So the import itself fails. The model follows the
evident intent: each `raise` is an error carrying its message.

Modules:

- `Outcomes`: Option, Result, Status.
- `Text`: substring test and ASCII lower-casing.
- `Tree`: the options tree and the dict operations.
- `OptionsSpec`: what each builder call does to the dict.
- `OptionsInvariants`: the builder's invariant, which requires distinct keys in
  every dict and a `columnDefs` key.
- `OptionsLemmas`: the promised properties.
- `OptionsBuilder`: the `GridOptionsBuilder` class.
- `OptionsWalk`: `walk_grid_options`.
- `Validators`: the `_process_*` functions and `_make_error_msg`.
- `GridAssembly`: `GridBuilder`.

## Model

| member | source | states |
|---|---|---|
| OptionsSpec.PandasTypes | streamlit_aggrid_redux/grid_options_builder.py:12-25 | the type is numericColumn exactly for numeric dtypes ("i", "u", "f" or a name mentioning int/float/double), timedeltaFormat exactly for "m" (with no filter), dateColumn exactly for "M", and rightAligned for everything else; only the keys type and filter |
| OptionsLemmas.NumericDtypeNames | streamlit_aggrid_redux/grid_options_builder.py:14-16 | "int64", "uint8" and "float32" are numeric columns |
| OptionsLemmas.NotNumericDtype | streamlit_aggrid_redux/grid_options_builder.py:14 | a dtype name longer than one letter that never contains "in", "fl" or "do" is not numeric |
| OptionsLemmas.DatetimeDtypeIsText | streamlit_aggrid_redux/grid_options_builder.py:17-25 | "datetime64[ns]", the str() of a datetime dtype, is never "M", so it falls through to a right-aligned text column |
| OptionsLemmas.TimedeltaDtypeIsText | streamlit_aggrid_redux/grid_options_builder.py:17-25 | likewise "timedelta64[ns]" becomes a text column, not timedeltaFormat |
| OptionsSpec.InitialOptions | streamlit_aggrid_redux/grid_options_builder.py:34-45 | after `__init__` the options hold columnDefs; every keyword argument overrides; every other key is the given dict's; columnDefs is the given one, or an empty dict when neither the dict nor the keywords provide one |
| OptionsSpec.InitialDefaults | streamlit_aggrid_redux/grid_options_builder.py:47-57 | with no `defaultColDef`, the default column options are minWidth/editable/sortable/resizable overridden by every keyword argument; with one, `dict.update` runs on it: it raises exactly when it is not a dict, a list whose every item is a pair, or the empty string; otherwise the last value given for each key wins and every other key keeps its default |
| OptionsSpec.UpdatePair | streamlit_aggrid_redux/grid_options_builder.py:54-55 | an item of the sequence given to `dict.update` is a key-value pair exactly when it is a two-item list with a text key, a two-letter string, or a two-key dict, and then gives that key and value |
| OptionsSpec.UpdatePairs | streamlit_aggrid_redux/grid_options_builder.py:54-55 | a list gives pairs exactly when every item is a pair, and then gives one pair per item, in order |
| OptionsSpec.UpdateEntries | streamlit_aggrid_redux/grid_options_builder.py:54-55 | `dict.update` takes a dict's entries and a list's pairs; a string works only when it is empty; any other value raises |
| OptionsInvariants.InitialOptionsHold | streamlit_aggrid_redux/grid_options_builder.py:34-45 | the options after `__init__` have distinct keys everywhere and a columnDefs key |
| OptionsBuilder.GridOptionsBuilder.constructor | streamlit_aggrid_redux/grid_options_builder.py:34-53 | the builder starts valid, with the options of InitialOptions and the four default column options |
| OptionsBuilder.GridOptionsBuilder.New | streamlit_aggrid_redux/grid_options_builder.py:34-57 | `GridOptionsBuilder(grid_options, **kwargs)` fails exactly when InitialDefaults does; otherwise a fresh valid builder with InitialOptions and InitialDefaults |
| OptionsBuilder.GridOptionsBuilder.UpdateDefaults | streamlit_aggrid_redux/grid_options_builder.py:54-57 | the final update of the default options yields InitialDefaults, or raises exactly when it fails |
| OptionsBuilder.GridOptionsBuilder.DataStartBuilder | streamlit_aggrid_redux/grid_options_builder.py:78-81 | a builder made from an empty dict, with defaultColDef set to its default options |
| OptionsLemmas.DataStartFromInit | streamlit_aggrid_redux/grid_options_builder.py:78-81 | `GridOptionsBuilder(grid_options=dict())` holds only an empty columnDefs, and adding defaultColDef gives the starting options of `from_data` |
| OptionsLemmas.DataStartOptions | streamlit_aggrid_redux/grid_options_builder.py:78-81 | `from_data` starts with no columns, the default column options, and no suppressFieldDotNotation |
| OptionsSpec.DotMarked | streamlit_aggrid_redux/grid_options_builder.py:86-87 | suppressFieldDotNotation becomes true exactly for a name containing a dot; every other key is unchanged |
| OptionsBuilder.GridOptionsBuilder.AddDataColumn | streamlit_aggrid_redux/grid_options_builder.py:85-88 | one pass of the loop of `from_data` ends as the spec's pass does, and leaves its options when it succeeds |
| OptionsBuilder.GridOptionsBuilder.FromData | streamlit_aggrid_redux/grid_options_builder.py:60-90 | the loop over the columns succeeds exactly when DataOptions does, fails with its error otherwise, and on success returns a fresh valid builder holding DataOptions and the default column options |
| OptionsLemmas.DataColumnStep | streamlit_aggrid_redux/grid_options_builder.py:85-88 | a column whose name already exists fails with the add_column message; a new one is dot-marked and appended |
| OptionsLemmas.DataColumnsFresh | streamlit_aggrid_redux/grid_options_builder.py:85-88 | the loop succeeds exactly when every label is a name not seen before |
| OptionsLemmas.FreshNamesDistinct | streamlit_aggrid_redux/grid_options_builder.py:85-88 | names never seen before are exactly names that are distinct from each other and from the existing columns |
| OptionsLemmas.DataColumnsSucceed | streamlit_aggrid_redux/grid_options_builder.py:85-88 | the loop succeeds exactly when all labels are names and, with the existing columns, all distinct |
| OptionsLemmas.DataColumnsDefs | streamlit_aggrid_redux/grid_options_builder.py:85-88 | a successful loop appends one definition per column, in column order |
| OptionsLemmas.DataColumnsOthers | streamlit_aggrid_redux/grid_options_builder.py:85-88 | after a successful loop, suppressFieldDotNotation is true exactly when some name is dotted, and nothing else but columnDefs changes |
| OptionsLemmas.DictDefaultColDef | streamlit_aggrid_redux/grid_options_builder.py:54-55 | a dict `defaultColDef` with distinct keys succeeds: its keys take its values and every other key keeps its default |
| OptionsLemmas.PairListDefaultColDef | streamlit_aggrid_redux/grid_options_builder.py:54-55 | a list holding one `[key, value]` pair succeeds and sets that key, keeping every other default |
| OptionsLemmas.LetterPairDefaultColDef | streamlit_aggrid_redux/grid_options_builder.py:54-55 | a list holding one two-letter string sets the first letter to the second |
| OptionsLemmas.TextDefaultColDefFails | streamlit_aggrid_redux/grid_options_builder.py:54-55 | a non-empty string `defaultColDef` raises |
| OptionsLemmas.AddDataColumnsCons | streamlit_aggrid_redux/grid_options_builder.py:85-88 | the loop stops at the first column that fails, with its error |
| OptionsLemmas.DataOptionsSucceed | streamlit_aggrid_redux/grid_options_builder.py:60-90 | `from_data` succeeds exactly when every column label is a name and the names are distinct |
| OptionsLemmas.DataOptionsResult | streamlit_aggrid_redux/grid_options_builder.py:78-90 | a successful `from_data` has one definition per column in order, defaultColDef the default options, and suppressFieldDotNotation exactly when some name has a dot |
| OptionsInvariants.DataOptionsHold | streamlit_aggrid_redux/grid_options_builder.py:60-90 | the options of `from_data` keep the builder invariant |
| OptionsSpec.PyContains | streamlit_aggrid_redux/grid_options_builder.py:116 | `field in columnDefs` is key membership for a dict, and raises for anything that is not a dict, list or string |
| OptionsSpec.ColumnDef | streamlit_aggrid_redux/grid_options_builder.py:121-127 | a new definition holds field, headerName (the header or the field) and the options, the options taking precedence, and no other key |
| OptionsBuilder.GridOptionsBuilder.AddColumn | streamlit_aggrid_redux/grid_options_builder.py:92-130 | `add_column` leaves the options and status of WithColumn, and keeps the invariant |
| OptionsLemmas.AddExistingColumnFails | streamlit_aggrid_redux/grid_options_builder.py:116-119 | adding an existing field raises "Field '…' exists in options; use `update_column` instead." |
| OptionsLemmas.AddNewColumnAppends | streamlit_aggrid_redux/grid_options_builder.py:116-130 | a new field's definition goes after the existing columns; nothing but columnDefs changes |
| OptionsInvariants.WithColumnHolds | streamlit_aggrid_redux/grid_options_builder.py:116-130 | `add_column` keeps the builder invariant |
| OptionsSpec.HeaderOrField | streamlit_aggrid_redux/grid_options_builder.py:165 | the header when non-empty, else the field |
| OptionsSpec.UpdatedDef | streamlit_aggrid_redux/grid_options_builder.py:162-171 | an updated definition has headerName set, the options applied over it, and every other key kept |
| OptionsBuilder.GridOptionsBuilder.UpdateColumn | streamlit_aggrid_redux/grid_options_builder.py:132-172 | `update_column` leaves the options and status of WithColumnUpdated, and keeps the invariant |
| OptionsLemmas.UpdateMissingColumnFails | streamlit_aggrid_redux/grid_options_builder.py:156-159 | updating a missing field raises "Field '…' does not exist in options; use `add_column` instead." |
| OptionsLemmas.UpdateColumnKeepsColumns | streamlit_aggrid_redux/grid_options_builder.py:156-172 | updating keeps the columns and their order, changes only that column's definition, and changes no other key |
| OptionsInvariants.WithColumnUpdatedHolds | streamlit_aggrid_redux/grid_options_builder.py:156-172 | `update_column` keeps the builder invariant |
| OptionsSpec.Len | streamlit_aggrid_redux/grid_options_builder.py:207 | Python's `len`: the length of a list; raises for values without a length |
| OptionsSpec.AppendPanel | streamlit_aggrid_redux/grid_options_builder.py:207-210 | a side bar whose toolPanels is a list gets the panel appended, keeping its keys |
| OptionsLemmas.PanelsAppended | streamlit_aggrid_redux/grid_options_builder.py:196-227 | the filters panel, then the columns panel, are appended after the existing panels, each only when requested |
| OptionsBuilder.GridOptionsBuilder.AddSidebar | streamlit_aggrid_redux/grid_options_builder.py:174-228 | `add_sidebar` leaves the options and status of WithSidebar, and keeps the invariant |
| OptionsLemmas.SidebarAppendsPanels | streamlit_aggrid_redux/grid_options_builder.py:196-228 | with an existing or the default side bar, `add_sidebar` succeeds, appends the requested panels and changes no other key |
| OptionsInvariants.WithSidebarHolds | streamlit_aggrid_redux/grid_options_builder.py:196-228 | `add_sidebar` keeps the builder invariant |
| OptionsBuilder.GridOptionsBuilder.AddGridSelection | streamlit_aggrid_redux/grid_options_builder.py:230-344 | `add_grid_selection` leaves the options and status of WithSelection, including a raise after the checkbox update |
| OptionsBuilder.GridOptionsBuilder.DisableSelection | streamlit_aggrid_redux/grid_options_builder.py:304-311 | the six pops remove exactly the disabled keys |
| OptionsBuilder.GridOptionsBuilder.MarkCheckboxes | streamlit_aggrid_redux/grid_options_builder.py:314-326 | the checkbox step leaves the options and status of WithCheckboxes |
| OptionsBuilder.GridOptionsBuilder.EnableSelection | streamlit_aggrid_redux/grid_options_builder.py:329-343 | it raises exactly when the rows have no length; otherwise it stores non-empty pre-selected rows and then the selection keys |
| OptionsSpec.RowSelection | streamlit_aggrid_redux/grid_options_builder.py:335 | "single" exactly when the lower-cased mode starts with "si", else "multiple" |
| OptionsSpec.WithCheckboxes | streamlit_aggrid_redux/grid_options_builder.py:314-326 | the checkbox step keeps the top-level keys |
| OptionsLemmas.CheckboxesOnFirstColumn | streamlit_aggrid_redux/grid_options_builder.py:314-326 | the checkbox flags are merged into the first column only; the other columns and keys are unchanged |
| OptionsLemmas.CheckboxWithoutColumnsFails | streamlit_aggrid_redux/grid_options_builder.py:318 | `use_checkbox` with no columns raises and changes nothing |
| OptionsLemmas.SelectionSetsRowSelection | streamlit_aggrid_redux/grid_options_builder.py:333-343 | the final update stores rowSelection from the mode |
| OptionsLemmas.SelectionSetsMultiSelectWithClick | streamlit_aggrid_redux/grid_options_builder.py:333-343 | the final update stores rowMultiSelectWithClick |
| OptionsLemmas.SelectionSetsClickSelection | streamlit_aggrid_redux/grid_options_builder.py:314-343 | suppressRowClickSelection is true when asked for or when checkboxes are used |
| OptionsLemmas.SelectionSetsPreSelectAll | streamlit_aggrid_redux/grid_options_builder.py:333-343 | preSelectAllRows is always false |
| OptionsLemmas.SelectionKeepsOthers | streamlit_aggrid_redux/grid_options_builder.py:333-343 | the final update changes no key outside the selection keys |
| OptionsLemmas.SelectionKeepsPreSelectedRows | streamlit_aggrid_redux/grid_options_builder.py:333-343 | the final update keeps preSelectedRows |
| OptionsLemmas.DisabledSelectionRemovesKeys | streamlit_aggrid_redux/grid_options_builder.py:304-311 | "disabled" removes exactly the popped keys; the misspelled pop leaves rowMultiSelectWithClick in place |
| OptionsLemmas.EnabledSelectionUpdates | streamlit_aggrid_redux/grid_options_builder.py:329-343 | without checkboxes, an enabled selection stores non-empty pre-selected rows and then the selection keys |
| OptionsLemmas.EnabledSelectionSets | streamlit_aggrid_redux/grid_options_builder.py:314-343 | an enabled selection without checkboxes completes, with rowSelection, suppressRowClickSelection, preSelectAllRows and preSelectedRows set, and every other key unchanged |
| OptionsLemmas.CheckboxSelectionUpdates | streamlit_aggrid_redux/grid_options_builder.py:314-343 | with checkboxes, once the first column takes its checkbox settings, the selection finishes with the same final update as without |
| OptionsLemmas.CheckboxSelectionSets | streamlit_aggrid_redux/grid_options_builder.py:314-343 | an enabled selection with checkboxes on a non-empty column dict completes, with rowSelection, suppressRowClickSelection, preSelectAllRows and preSelectedRows set, and every other key except columnDefs unchanged |
| OptionsLemmas.CheckboxSelectionColumns | streamlit_aggrid_redux/grid_options_builder.py:314-326 | with checkboxes, columnDefs keeps its keys, its first column is updated with the checkbox settings and every other column is unchanged |
| OptionsLemmas.CheckboxSelectionKeepsMarks | streamlit_aggrid_redux/grid_options_builder.py:326-343 | the steps after the checkbox marks leave columnDefs as the marks made it |
| OptionsLemmas.CapitalDisabledRowSelection | streamlit_aggrid_redux/grid_options_builder.py:304-335 | "Disabled" is not the disabled mode, and asks for "multiple" |
| OptionsLemmas.CapitalDisabledSelectsMultiple | streamlit_aggrid_redux/grid_options_builder.py:304-343 | with "Disabled" the selection is enabled, with rowSelection "multiple" |
| OptionsLemmas.DefaultSelectionFails | streamlit_aggrid_redux/grid_options_builder.py:236-329 | called with its defaults, `add_grid_selection` raises at `len(None)` and changes nothing |
| OptionsLemmas.SelectionIgnoresCase | streamlit_aggrid_redux/grid_options_builder.py:335 | two modes that differ only in case give the same rowSelection |
| OptionsInvariants.WithSelectionHolds | streamlit_aggrid_redux/grid_options_builder.py:304-344 | `add_grid_selection` keeps the builder invariant, even when it raises |
| OptionsSpec.WithPagination | streamlit_aggrid_redux/grid_options_builder.py:368-381 | pagination is on; the auto flag or the page size is set, the other key is kept, and nothing else changes |
| OptionsBuilder.GridOptionsBuilder.AddPagination | streamlit_aggrid_redux/grid_options_builder.py:346-382 | `add_pagination` leaves WithPagination and keeps the invariant |
| OptionsLemmas.AutoKeepsPageSize | streamlit_aggrid_redux/grid_options_builder.py:368-381 | a page size set earlier survives a later automatic `add_pagination` |
| OptionsSpec.WithoutPagination | streamlit_aggrid_redux/grid_options_builder.py:392-394 | the three pagination keys are gone and every other key is unchanged |
| OptionsBuilder.GridOptionsBuilder.RemovePagination | streamlit_aggrid_redux/grid_options_builder.py:384-395 | `remove_pagination` leaves WithoutPagination and keeps the invariant |
| OptionsLemmas.RemovePaginationIdempotent | streamlit_aggrid_redux/grid_options_builder.py:392-394 | removing pagination twice is removing it once |
| OptionsLemmas.RemoveUndoesAdd | streamlit_aggrid_redux/grid_options_builder.py:368-394 | removing pagination after either variant of adding it is removing it from the original options |
| OptionsSpec.Built | streamlit_aggrid_redux/grid_options_builder.py:406-413 | `build` succeeds exactly when columnDefs is a dict or a list, after which columnDefs is a list; the keys and every other value are unchanged |
| OptionsBuilder.GridOptionsBuilder.Build | streamlit_aggrid_redux/grid_options_builder.py:397-413 | `build` returns Built of the options and stores it |
| OptionsLemmas.BuildListsColumns | streamlit_aggrid_redux/grid_options_builder.py:406-411 | the built list holds the column definitions in insertion order |
| OptionsLemmas.BuildIdempotent | streamlit_aggrid_redux/grid_options_builder.py:406-413 | building twice is building once |
| OptionsInvariants.BuiltHolds | streamlit_aggrid_redux/grid_options_builder.py:406-413 | `build` keeps the builder invariant |
| OptionsWalk.PyIndex | streamlit_aggrid_redux/grid_options_builder.py:436 | an int or bool element used as an index lands inside the list |
| OptionsWalk.Walk | streamlit_aggrid_redux/grid_options_builder.py:420-442 | the walk ends because it never makes a tree larger (a termination fact); what the walk keeps is stated by WalkKeepsKeys and WalkFixed |
| OptionsWalk.WalkEntries | streamlit_aggrid_redux/grid_options_builder.py:434-442 | the walk of a dict keeps its keys in order |
| OptionsWalk.WalkElems | streamlit_aggrid_redux/grid_options_builder.py:438-440 | the walk of a list slot keeps its length |
| OptionsWalk.WalkIndexed | streamlit_aggrid_redux/grid_options_builder.py:434-442 | the walk of a list, element by element used as an index, keeps its length |
| OptionsWalk.WalkGridOptions | streamlit_aggrid_redux/grid_options_builder.py:420-442 | the recursive walk with loops computes Walk |
| OptionsWalk.WalkDict | streamlit_aggrid_redux/grid_options_builder.py:434-442 | the loop over a dict's keys computes WalkEntries |
| OptionsWalk.WalkList | streamlit_aggrid_redux/grid_options_builder.py:434-442 | the loop over a list, reading each slot as it is at that moment, computes WalkIndexed |
| OptionsWalk.VisitSlot | streamlit_aggrid_redux/grid_options_builder.py:436-442 | one loop body computes WalkSlot |
| OptionsWalk.WalkElements | streamlit_aggrid_redux/grid_options_builder.py:438-440 | the inner loop over a list slot computes WalkElems |
| OptionsWalk.WalkKeepsKeys | streamlit_aggrid_redux/grid_options_builder.py:434-442 | the walk never adds, removes or reorders a key of a dict it visits |
| OptionsWalk.WalkFixed | streamlit_aggrid_redux/grid_options_builder.py:434-442 | a walk with a function that returns every list unchanged changes nothing |
| OptionsWalk.WalkSucceeds | streamlit_aggrid_redux/grid_options_builder.py:434-442 | walking a dict with no list directly inside a list always succeeds |
| OptionsWalk.NestedListOfStringsFails | streamlit_aggrid_redux/grid_options_builder.py:434-442 | a list of strings inside a list raises, because its elements are used as indices |
| OptionsWalk.UnwrapCode | streamlit_aggrid_redux/grid_builder.py:200 | a JsCode value becomes its code; every other value is unchanged |
| OptionsWalk.JsCodeNeverUnwrapped | streamlit_aggrid_redux/grid_builder.py:197-201 | the walk GridBuilder runs leaves the options exactly as they were, because its function only ever sees lists |
| OptionsWalk.JsCodeRendererStays | streamlit_aggrid_redux/grid_builder.py:197-201 | a JsCode cell renderer is still JsCode after the walk |
| Validators.QuotedList | streamlit_aggrid_redux/grid_builder.py:20 | no options give an empty list, and one option is just that option quoted |
| Validators.QuotedListSnoc | streamlit_aggrid_redux/grid_builder.py:20 | one more option adds ", " and the quoted option at the end |
| Validators.QuotedListLength | streamlit_aggrid_redux/grid_builder.py:20 | the joined list is the options, two quotes each, and a two-character separator between them |
| Validators.MakeErrorMsg | streamlit_aggrid_redux/grid_builder.py:18-21 | the message is "Input {field} '{input}' is invalid. Options are ", then the quoted options, then "." |
| Validators.ProcessAutoSizeMode | streamlit_aggrid_redux/grid_builder.py:38-47 | "none" is exactly 0; anything else fails exactly when it does not contain "fit", and otherwise is 2 when it also contains "all" and 1 when not; the error carries the message |
| Validators.AutoSizeOptionsAccepted | streamlit_aggrid_redux/grid_builder.py:38-47 | each option the message offers maps to its position: none 0, fit 1, fit all 2 |
| Validators.ProcessReturnMode | streamlit_aggrid_redux/grid_builder.py:50-59 | "input" is exactly 0; anything else fails exactly when it does not contain "filter", and otherwise is 2 when it also contains "sort" and 1 when not; the error carries the message |
| Validators.ReturnModeOptionsAccepted | streamlit_aggrid_redux/grid_builder.py:50-59 | each option the message offers maps to its position |
| Validators.ProcessTheme | streamlit_aggrid_redux/grid_builder.py:62-68 | succeeds exactly for the ten listed themes, returning the theme; the error carries the message |
| Validators.ProcessExcelExportMode | streamlit_aggrid_redux/grid_builder.py:71-82 | succeeds exactly for none/manual/automatic, with a result among NONE/MANUAL/TRIGGER; the error carries the message |
| Validators.ExcelExportOptionsAccepted | streamlit_aggrid_redux/grid_builder.py:71-82 | none, manual and automatic become NONE, MANUAL and TRIGGER |
| Validators.ProcessConversionErrors | streamlit_aggrid_redux/grid_builder.py:85-90 | fails exactly when conversion is on and the policy is neither "raise" nor "ignore"; otherwise returns the policy unchanged |
| Validators.ProcessCss | streamlit_aggrid_redux/grid_builder.py:93-104 | no CSS is an empty dict, a dict is kept and a string gives the value it decodes to; it fails exactly for another type or a string that is not valid JSON |
| Validators.ValidationIgnoresCase | streamlit_aggrid_redux/grid_builder.py:153-157 | since the caller lower-cases, two spellings differing only in case validate alike |
| Text.Lower | streamlit_aggrid_redux/grid_builder.py:153-157 | lower-casing keeps the length |
| Text.LowerIgnoresCase | streamlit_aggrid_redux/grid_builder.py:153-157 | strings equal up to case lower-case to the same string |
| Text.Contains | streamlit_aggrid_redux/grid_builder.py:42 | Python's `in` on strings: true exactly when the pattern occurs somewhere |
| GridAssembly.CleanedChecks | streamlit_aggrid_redux/grid_builder.py:151-169 | the arguments pass exactly when the data serialises and all six validators accept the lower-cased inputs; then the data is the serialised records, the grid options are unset, each checked attribute is what its validator makes of the lower-cased setting (the CSS: of the setting as given), and the theme is listed |
| GridAssembly.CleanedKeepsGiven | streamlit_aggrid_redux/grid_builder.py:151-169 | the attributes that are not checked (height, unsafe JavaScript, enterprise modules and licence key, type conversion, reload, column state, update events, quick search) are stored as given |
| GridAssembly.SettingsIgnoreCase | streamlit_aggrid_redux/grid_builder.py:153-157 | the five mode strings are compared without case: changing their case changes nothing in the result |
| GridAssembly.SettingsCheckedFirst | streamlit_aggrid_redux/grid_builder.py:151-158 | a rejected argument raises its own error before the grid options are looked at |
| GridAssembly.GridOptionsMessage | streamlit_aggrid_redux/grid_builder.py:184-187 | the message starts with "Unknown type for grid options: '" and ends with the type name and a quote |
| GridAssembly.UnknownTypeRefused | streamlit_aggrid_redux/grid_builder.py:184-187 | once the arguments pass, grid options of any other type raise with that message |
| GridAssembly.TakeGridOptions | streamlit_aggrid_redux/grid_builder.py:171-183 | the grid options come from `from_data(data).build()`, the builder's `build()`, the dict, or the parsed JSON; a given builder is left built and valid |
| GridAssembly.DataGridOptions | streamlit_aggrid_redux/grid_builder.py:172-174 | without grid options, they exist exactly when the columns have distinct names, and then list one definition per column with the default column options |
| GridAssembly.WithHeight | streamlit_aggrid_redux/grid_builder.py:189-195 | with a height the options are unchanged; without one, domLayout becomes "autoHeight", every other key is kept, and a non-dict raises |
| GridAssembly.AssembledOptions | streamlit_aggrid_redux/grid_builder.py:171-201 | a successful assembly keeps the chosen options, apart from domLayout "autoHeight" when no height is given |
| GridAssembly.GridBuilder.constructor | streamlit_aggrid_redux/grid_builder.py:110-127 | a fresh object holds the class defaults |
| GridAssembly.GridBuilder.Load | streamlit_aggrid_redux/grid_builder.py:152-169 | the object holds the validated settings |
| GridAssembly.GridBuilder.LoadChecked | streamlit_aggrid_redux/grid_builder.py:152-158 | the cleaned fields hold their validated values |
| GridAssembly.GridBuilder.LoadGiven | streamlit_aggrid_redux/grid_builder.py:161-169 | the plain fields hold the arguments as given |
| GridAssembly.GridBuilder.ApplyHeight | streamlit_aggrid_redux/grid_builder.py:189-195 | the grid options become WithHeight of the old ones, or the call raises as WithHeight fails |
| GridAssembly.GridBuilder.WalkOptions | streamlit_aggrid_redux/grid_builder.py:197-201 | the walk ends as Walk does and leaves the options as they were |
| GridAssembly.GridBuilder.Finish | streamlit_aggrid_redux/grid_builder.py:171-201 | storing the options, the height step and the walk end as Finished does |
| GridAssembly.GridBuilder.New | streamlit_aggrid_redux/grid_builder.py:129-203 | `GridBuilder(...)` raises exactly when Assemble fails, with its error; otherwise it returns a fresh object holding Assemble's settings; a given builder is built |
| GridAssembly.DefaultSettings | streamlit_aggrid_redux/grid_builder.py:129-158 | with default arguments only the data can fail; the settings are the class defaults, with the data, export mode "NONE" and an empty CSS dict |
| GridAssembly.DefaultGrid | streamlit_aggrid_redux/grid_builder.py:129-201 | `GridBuilder(data)` with defaults succeeds only for distinct named columns, listing their definitions with domLayout "autoHeight" |
| Tree.Get | streamlit_aggrid_redux/grid_options_builder.py:196 | `d.get(k)` finds a value exactly when the key is present |
| Tree.Put | streamlit_aggrid_redux/grid_options_builder.py:129 | `d[k] = v`: an existing key keeps its place, a new key goes last, `k` maps to `v`, and no other key changes |
| Tree.Without | streamlit_aggrid_redux/grid_options_builder.py:392-394 | `pop(k, None)` removes exactly the given keys |
| Tree.PutAll | streamlit_aggrid_redux/grid_options_builder.py:45 | `update`: keys outside the update are unchanged, and the keys are the old ones plus the new ones |

## Left out

- Data serialisation is not part of this model. This covers `_serialize_data`
  (grid_builder.py:24-35) and `convert_anything_to_df` in `from_data`. Serialisation is given as a `Result`
  of records, and a frame is given as its column labels with their dtype strings.
- `json.loads` of a grid-options string or a CSS string is given as the parsed
  `Result`. `__str__` and `json.dumps` are not modelled.
- `type(x)` in the two "unknown type" messages is given as a text argument.
- Aliasing is not captured: every dict is a value. These effects are not
  modelled:
  - `__init__` mutates the dict the caller passes;
  - `from_data` shares `default_options` with the `defaultColDef` entry;
  - after `build()`, the builder and `GridBuilder` share one dict, so the
    `domLayout` update and the walk also reach the builder;
  - a dict passed as `grid_options` is updated in place.
- `process_deprecated` and `**kwargs` of `GridBuilder.__new__` are ignored,
  because that method returns the object unchanged.
- `GridBuilder.New` sets the fields after every argument check passes, not one
  by one. The difference cannot be observed, because the object is discarded
  when a check raises.
- `OptionsBuilder.GridOptionsBuilder`: its methods return a `Status` instead of
  `self`, so calls are not chained.
- `OptionsBuilder.GridOptionsBuilder`: the invariant `Valid()` (distinct keys
  and a `columnDefs` key) is a precondition of its methods. A dict given by
  the caller that breaks it is outside the model.
- `OptionsWalk.Walk` requires that its function never makes a list larger.
  Python's walk over a list that grows may not terminate. The only caller's
  function meets the requirement.
- `OptionsSpec.InitialDefaults`: a pair in a `defaultColDef` list whose key is an
  int, a bool or `None` is accepted by Python but raises here, because option
  keys are text in this model.
- `Text.Lower` is ASCII only. Unicode case mapping is not modelled.
- JsCode unwrapping is modelled as written, so it never takes effect; see
  `OptionsWalk.JsCodeNeverUnwrapped`.
- The exception classes that `errors.py` does not define are modelled as the
  errors their messages name.
- Not part of this model: `streamlit_aggrid_redux/__init__.py`
  (the `ag_grid` component call), `grid_return.py`, `code.py`, `html.py`,
  `version.py`, `types.py` and `setup.py`.
