# pylastic core, modelled in Dafny

pylastic is a desktop client for Elasticsearch. The user lists the
indices of a cluster and ticks some of them, lists their fields and ticks
some of those, and runs a `multi_match` search. The hits come back as a
pandas table whose columns can be sorted by clicking their headings. This
project models the logic of `main.py` behind that: the search body, the
selection checklists, flattening of the mapping and of the hits, the
result table, and the heading state machine of the result grid. It proves
what each of those promises.

Modules, one per file, following the program's structure:

- `Text` (`text.dfy`): string helpers for `split`, `join`, `startswith` and string ordering.
- `Json` (`json.dfy`): parsed JSON values, with objects as insertion-ordered member lists. It also models Python's `dict` and `list` access, with exceptions returned as `Result` errors.
- `Request` (`request.dfy`): `request_builder`.
- `Mapping` (`mapping.dfy`): the loop of `index_field_names`.
- `Hits` (`hits.dfy`): the loop of `simple_query_search`, covering hit flattening and `DataFrame.append`.
- `Sorting` (`sorting.dfy`): `sort_values(kind="mergesort")` on one column.
- `Checklist` (`checklist.dfy`): the `ScrollingChecklist` class.
- `Grid` (`grid.dfy`): the `ResultsGrid` class and its heading commands.
- `Builder` (`builder.dfy`): the `SearchBuilder` class, covering the index and field lists, the "All" sentinels and the search.

Code that works step by step is modelled as methods with loops, each proved against a specification function:

- the flattening loops, the checklist loops, `populate`, and the listing loops of `SearchBuilder`;
- the widgets whose state is updated in place (`ScrollingChecklist`, `ResultsGrid`, `SearchBuilder`), which are classes.

The properties are proved as lemmas over those functions.

Three behaviours of the code that a reader might not expect, and that the model keeps:

- **Column order.** Each row's new keys are added after the existing columns, in the order `DataFrame.append` gives them. The row's new labels come from `Index.difference`, and the model takes them in the sorted order that its default `sort=None` produces (`Hits.AppendRow`, `Hits.AddColumnsSpec`). That order depends on the pandas release; see `Hits.AddColumns` under "## Left out".
- **Duplicate fields.** The field list is not deduplicated: two indices with the same field list it twice (`Mapping.DuplicatesExample`).
- **Flattening depth.** Both flattening loops stop at a fixed depth (`Mapping.DepthExample`, `Hits.GrandchildLands`). The source's own comments (main.py:47-48, main.py:68-69) say a recursive version is still to be written.

## Model

| member | source | states |
|---|---|---|
| Request.BodyShape | main.py:18-28 | The body has exactly the keys `_source`, `size`, `query`, in that order. `size` is 100, the `multi_match` query text is the search term, and `_source` is `fields.split(',')`. |
| Request.RequestBuilder | main.py:18-28 | The body is a dict whose keys are `_source`, `size` and `query`, in that order. `size` is 100, and `_source` is the list of the comma-separated pieces of `fields`. |
| Request.SourceRoundTrip | main.py:24 | A comma-joined list of one or more names that contain no comma reaches `_source` as those names, in order. |
| Request.SentinelSources | main.py:24 | `"*"` gives `_source == ["*"]`, and `""` gives `[""]`, not an empty list. |
| Text.SplitJoin | main.py:24 | Splitting a join of one or more comma-free parts gives the parts back. |
| Text.JoinSplit | main.py:24 | Joining the pieces of a split gives the string back. |
| Checklist.ScrollingChecklist.UncheckRest | main.py:222-226 | An empty list raises `IndexError` and is left unchanged. Otherwise the boxes become `UncheckedRest`: with "All" ticked, every other box is unticked and "All" stays ticked; with "All" unticked, nothing changes. |
| Checklist.UncheckedRest | main.py:222-226 | The number of boxes, the first box and every caption are kept. A later box ends ticked exactly when "All" was unticked and that box was ticked. |
| Checklist.UncheckRestSelectsNothing | main.py:222-234 | After `uncheck_rest` with "All" ticked, "All" is still ticked and `return_checked` gives `""`. |
| Checklist.UncheckRestIdempotent | main.py:222-226 | `uncheck_rest` keeps the number of boxes and every caption, and running it twice equals running it once. |
| Checklist.ScrollingChecklist.ReturnChecked | main.py:228-234 | The result is the comma-join of the captions of the ticked boxes after the first, in list order. |
| Checklist.Checked | main.py:228-234 | At most one name per box. When the last box is ticked, its caption is the last name; which names are listed is stated by `Checklist.CheckedMembers`. |
| Checklist.CheckedMembers | main.py:231-233 | A caption is among the checked names exactly when some box with that caption is ticked. |
| Checklist.CheckedAppend | main.py:231-233 | The checked names of a concatenation are the checked names of each part, in order. |
| Checklist.ReturnCheckedRoundTrip | main.py:228-234 | When at least one box after the first is ticked and no caption holds a comma, splitting what `return_checked` gives yields the ticked names back. |
| Checklist.ScrollingChecklist.Clear | main.py:241-244 | Every box is removed. |
| Checklist.ScrollingChecklist.constructor | main.py:201-206 | A fresh checklist holds no boxes. |
| Checklist.ScrollingChecklist.Add | main.py:374-383 | An unticked box with the caption is appended at the bottom. |
| Checklist.ScrollingChecklist.SetSelected | main.py:222-226 | `state(['selected'])` or `state(['!selected'])` sets box `i`'s tick and keeps its caption; no other box changes. |
| Mapping.Dotted | main.py:51-52 | Each child name `sf` becomes `f.sf`, in order, one per child. |
| Mapping.FieldContribution | main.py:49-54 | A property raises `AttributeError` exactly when it is not a dict, or its `properties` is present and not a dict; no other error arises. A property without `properties` contributes its own name. |
| Mapping.IndexFieldNames | main.py:44-55 | The loop returns exactly `FieldNames(response)`, including its errors. |
| Mapping.AppendChildren | main.py:51-52 | The innermost loop appends `f.sf` for each child `sf`, in order, after what `fieldlist` already held. |
| Mapping.AppendField | main.py:50-54 | One property appends exactly its `FieldContribution` to `fieldlist`, or fails with that contribution's error. |
| Mapping.AppendProperties | main.py:49-54 | The loop over one index's `properties` appends exactly `MembersFields` of them to `fieldlist`, or fails with its first error. |
| Mapping.AppendIndex | main.py:46-54 | One index entry appends exactly `IndexFields(entry)` to `fieldlist`, or fails with `IndexFields`' error. |
| Mapping.FieldNames | main.py:44-55 | A response that is not a dict raises `AttributeError`. Otherwise the call fails exactly when the entry of some index fails. |
| Mapping.ContributionShape | main.py:49-54 | A property without `properties` is listed as its own name. A property with `properties` is never listed itself; it lists `f.sf` for each direct child. |
| Mapping.FieldCount | main.py:49-54 | One index's list is as long as the sum of its properties' contributions. |
| Mapping.IndicesFailIff | main.py:45-47 | The call fails exactly when the entry of some index fails. |
| Mapping.MissingPropertiesFails | main.py:46-47 | An index entry without `mappings` or without `properties` makes the whole call fail. |
| Mapping.IndicesAppend | main.py:45-55 | The list for a response is the list of its first indices followed by the list of the rest, in response order. |
| Mapping.SchemaExample | main.py:44-55 | One schema with a leaf and a group lists the leaf, then the group's dotted children. |
| Mapping.DepthExample | main.py:50-52 | Only one nested level is unrolled: a grandchild group is listed as `a.b`, and its own children are not visited. |
| Mapping.DuplicatesExample | main.py:44-55 | Two indices with the same field list that field twice. |
| Hits.AssignGrand | main.py:76-77 | The innermost loop performs exactly the `f.sf.ssf` assignments, in order. |
| Hits.AssignChild | main.py:75-79 | One child performs exactly its assignments: its entries one level down when it is a dict, otherwise the child itself at `f.sf`. |
| Hits.AssignChildren | main.py:74-79 | The loop over a dict value performs exactly its children's assignments, in order. |
| Hits.AssignField | main.py:73-81 | One top-level entry performs exactly its assignments. |
| Hits.FlattenHit | main.py:67-81 | The flat dict of a hit is `Flatten(source)`. |
| Hits.Flatten | main.py:72-81 | The flat dict of a `_source` has no key twice. |
| Hits.FlattenKeys | main.py:72-81 | The flat keys are the assigned paths in order of first assignment, without duplicates. A key is present exactly when some assignment names it. |
| Hits.FlattenLookup | main.py:72-81 | On collisions the last assignment's value wins, and no error is raised. |
| Hits.TopLevelLands | main.py:80-81 | A value that is not a dict, including a list, lands at its top-level key as it is. |
| Hits.ChildLands | main.py:78-79 | A non-dict child `sf` of a dict at `f` lands at `f.sf`. |
| Hits.GrandchildLands | main.py:75-77 | An entry of a dict grandchild lands at `f.sf.ssf` with its value stored as it is, even when that value is a dict. |
| Hits.EmptyDictVanishes | main.py:73-77 | An empty nested dict contributes no key, at either depth. |
| Hits.FlatSourceUnchanged | main.py:72-81 | A `_source` without nested dicts flattens to itself. |
| Hits.NestedExample | main.py:75-79 | `{"a": {"b": 1}}` flattens to `{"a.b": 1}`. |
| Hits.CollisionExample | main.py:72-81 | `{"a.b": 1, "a": {"b": 2}}` flattens to `{"a.b": 2}`. The key keeps its first position and takes the later value. |
| Hits.NewKeys | main.py:82 | The new column labels are exactly the row's keys not already among the columns, without duplicates. |
| Hits.AddColumns | main.py:82 | The old columns stay in front, in place, and the labels added after them are in sorted order. |
| Hits.AppendRow | main.py:82 | The row is added last. The old columns stay in front, in place, and the labels added after them are in sorted order. |
| Hits.AddColumnsSpec | main.py:82 | Appending a row keeps the old columns in place, adds exactly the row's new keys in sorted order, and keeps the labels free of duplicates. |
| Hits.TabulateSnoc | main.py:82 | Appending a row to the table built from some rows gives the table built from those rows plus that row. |
| Hits.ColumnsNoDup | main.py:82 | No column label occurs twice. |
| Hits.ColumnsSeen | main.py:82 | The columns are exactly the keys seen in some row. |
| Hits.SimpleQuerySearch | main.py:65-83 | The loop over the hits returns exactly `SearchResults(response)`, including its errors. |
| Hits.SearchResults | main.py:65-83 | A successful search has one row per hit and no column label twice. |
| Hits.SourcesSpec | main.py:66-72 | One source per hit, in order; each is that hit's `_source` dict. |
| Hits.SearchRows | main.py:66-82 | A successful search has one row per hit, in response order, and row `i` is the flattened `_source` of hit `i`. |
| Hits.SearchColumns | main.py:82 | Every flattened key becomes a column exactly once, and nothing else does. |
| Hits.AbsentCell | main.py:66-82 | In a successful search, row `i` has a cell in column `c` exactly when hit `i`'s flattened `_source` produced the key `c`, and every such key is a column. |
| Hits.SearchFails | main.py:66-72 | The search fails exactly when `hits.hits` is missing or not iterable, or some hit is not a dict with a dict `_source`. |
| Hits.MissingSourceFails | main.py:72 | A hit without `_source` makes the whole search fail. |
| Hits.EmptyHits | main.py:65-83 | An empty hit list gives a table with no rows and no columns. |
| Hits.TwoHitsExample | main.py:65-83 | A two-hit response gives two rows in order, with the column of the first hit followed by the column of the second. |
| Sorting.CellSpec | main.py:295-296 | A row has a cell in a column exactly when the column is one of its keys and the value there is not `null`. |
| Sorting.SortEntriesSorted | main.py:295-296 | The sorted present cells are ordered by the cell comparison in the chosen direction, with ties in row order. |
| Sorting.SortEntriesPositions | main.py:295-296 | Sorting the present cells permutes their row positions. |
| Sorting.OrderPermutation | main.py:295-296 | The new row order is a permutation of `0..n-1`. |
| Sorting.OrderDistinct | main.py:295-296 | The new row order has no repeated position. |
| Sorting.SortPermutation | main.py:295-296 | Sorted row `k` is old row `order[k]`. The row count is kept, and the rows are a permutation of the old ones. |
| Sorting.SortRowsAt | main.py:295-296 | Row `k` of the sorted table and its cell are those of old row `order[k]`. |
| Sorting.SortMissingLast | main.py:295-296 | Rows without the cell (column missing or `null`) all come last, in both directions. |
| Sorting.SortOrdered | main.py:295-304 | Rows with the cell come out ascending (`column_sort_asc`) or descending (`column_sort_desc`) by it. |
| Sorting.SortStable | main.py:295-304 | `kind="mergesort"`: rows whose cells compare equal, and rows that both lack the cell, keep their previous relative order. |
| Sorting.SortTable | main.py:295-304 | Sorting on a label that is not a column raises `KeyError(label)`. Otherwise the columns are kept and the rows are a permutation of the old ones. |
| Grid.Armed | main.py:287-289 | Every heading is bound to `column_sort_asc`, and nothing else is bound. |
| Grid.SortClick | main.py:293-306 | A sort click fails exactly when the heading is not a column. Otherwise it keeps the columns and permutes the rows. |
| Grid.Click | main.py:287-306 | A click fails exactly when the heading is not a column. Otherwise it keeps the columns, permutes the rows, and binds the heading to the direction opposite to the one it ran. |
| Grid.ClickSpec | main.py:282-306 | On a valid screen a heading click never fails and keeps the screen valid. It sorts the rows on that column in the bound direction, binds the heading to the other direction, and re-arms every other heading to ascending. |
| Grid.ClickTwice | main.py:293-306 | Two clicks on the same heading sort one way and then the other, and leave the heading bound as it was. |
| Grid.OtherHeadingAscending | main.py:287-299 | After a click on one heading, a click on any other heading sorts ascending. |
| Grid.FreshHeadings | main.py:287-299 | Just after `populate`, the first click on a heading sorts ascending and binds it to descending. |
| Grid.ClickUnknown | main.py:295 | A heading that is not a column raises `KeyError`. |
| Grid.ResultsGrid.constructor | main.py:249-254 | A fresh grid holds an empty table. |
| Grid.ResultsGrid.Populate | main.py:282-291 | The table is unchanged, the headings are its columns, every heading is bound to ascending, and the shown lines are the rows' values. |
| Grid.ResultsGrid.ColumnSort | main.py:293-306 | The grid's new state is `SortClick` of its old state. A failing sort changes nothing. |
| Grid.ResultsGrid.ClickHeading | main.py:287-306 | A click runs the command bound to the heading: the grid's new state is `Click` of its old state. After a successful click the headings are the table's columns and the shown lines are its rows; a failing click leaves the table, bindings, headings and lines unchanged. |
| Builder.ListIndices | main.py:375-383 | Every listed box is unticked and its name does not start with `.`. The only possible error is `AttributeError`. |
| Builder.ListIndicesAppend | main.py:375-383 | Listing a concatenation lists the first part, then the second unless the first stopped early. |
| Builder.ListIndicesFails | main.py:376 | Listing stops early exactly when some entry is not a string. |
| Builder.ListedNames | main.py:375-376 | When every entry is a string, a name is listed exactly when it is an entry and does not start with `.`. |
| Builder.AliasesList | main.py:30-36 | `list()` of an `_alias` response object gives its keys, and listing them never stops early. |
| Builder.FieldBoxes | main.py:395-408 | One unticked box per field name, in order. Names starting with `@` get the same caption. |
| Builder.Selector | main.py:413-420 | The selector fails with `IndexError` exactly when the list is empty. |
| Builder.SelectedSources | main.py:413-420 | The field list reaches `_source` as `["*"]` when "All" is ticked and as `[""]` when nothing is ticked. Otherwise it arrives as the ticked names after the first, in order, provided no caption holds a comma. |
| Builder.ClicksKeepCaptions | main.py:370-405 | A click, as written or as intended, keeps every caption and the length of both lists, and keeps the lists wired. |
| Builder.ClickAsWritten | main.py:378-405 | The clicked box flips. A click on "All" leaves its list as `UncheckedRest` of the toggled list and the other list alone. A click on a name box unticks the "All" box of whichever list `self.all` names at that moment, and every other box of both lists is unchanged. |
| Builder.ClickIntended | main.py:378-405 | The clicked box flips and the other list is left alone. A click on "All" leaves its list as `UncheckedRest` of the toggled list. A click on a name box unticks the "All" box of its own list and leaves every other name box of that list as it was. |
| Builder.ClickAllSelectsAll | main.py:413-420 | Ticking "All" makes the selector the sentinel and leaves no other box of that list ticked. |
| Builder.ClickNameSelectsNames | main.py:378-405 | With the intended wiring, clicking a name box flips it, unticks that list's "All", and leaves the other list alone. The selector becomes the explicit ticked names, which are the names ticked before the click with the clicked box flipped. |
| Builder.ClickAgrees | main.py:378-405 | The written and intended clicks agree on "All" boxes, and on name boxes of the list `self.all` currently names. |
| Builder.LateBoundAll | main.py:378-416 | After "Get Fields", ticking an index box unticks the field list's "All" and leaves the index list's "All" ticked, so the search still goes to `_all`. The intended click sends the ticked index. |
| Builder.SearchBuilder.constructor | main.py:316-365 | A fresh panel has empty lists, an empty grid and "Get Fields" disabled. |
| Builder.SearchBuilder.PackIndices | main.py:375-382 | The boxes packed below "All" are `ListIndices` of the listing, and the error is the listing's. |
| Builder.SearchBuilder.PackFields | main.py:395-408 | The boxes packed below "All" are `FieldBoxes` of the field names. |
| Builder.SearchBuilder.GetIndexNames | main.py:367-383 | The index list is cleared and gets "All" first, and `self.all` becomes its box. A non-iterable response raises `TypeError`. Otherwise the index boxes are `ListIndices` of the entries. "Get Fields" becomes active only when the whole listing went through, and the field list is untouched. |
| Builder.SearchBuilder.GetFieldNames | main.py:385-409 | The field list is cleared and gets "All" before the request, and `self.all` becomes its box. The request path uses `return_checked()` of the index list. A failing mapping leaves only "All"; otherwise one unticked box per field follows it. The index list is untouched. |
| Builder.SearchBuilder.ClickBox | main.py:370-405 | A click on a box moves the panel as `ClickAsWritten` says. |
| Builder.SearchBuilder.ClickBoxIntended | main.py:370-405 | A click on a box moves the panel as `ClickIntended` says. |
| Builder.SearchBuilder.SimpleQuerySearch | main.py:411-425 | An empty list raises `IndexError`. Otherwise the path is `/<index selector>/_search` and the body is `request_builder(term, field selector)`. A failing response leaves the grid as it was; otherwise the grid shows `SearchResults(response)` with every heading bound to ascending. |

## Left out

- HTTP transport (main.py:30-43, 57-64): the connections are I/O. Each operation takes the engine's parsed response as a parameter. The `protocol` flag is unused by the code and is not modelled.
- JSON text: `json.dumps` and `json.loads` are library calls. The model works on the parsed structure, and `Request.RequestBuilder` returns the dict before it is serialised.
- Tk widgets and layout: frames, labels, entries, buttons, scroll areas (`set_scroll_area`), `Treeview` rows and styles are UI. A checkbox is modelled as its caption and its `selected` state. The difference between a ttk state flag and its Tk variable is not modelled.
- `PandasSession` and the console button (main.py:91-179, 308-316): an interactive console.
- The Excel export (main.py:264-268): file I/O.
- Pandas internals and floating point: dtype inference, NaN and the comparison of mixed cell types are a library that is not part of this model. `sort_values` is abstracted as a stable sort under a given comparison `le` on cell values. The ordering lemmas assume `le` is a total preorder.
- `ignore_index=True` (main.py:296, 304): a table is a sequence of rows, so row labels are always `0..n-1` and renumbering is implicit.
- The unused name `'internal_' + entry.strip('@')` (main.py:397): it is computed and never used. Both branches of the `@` test pack the same box, so `Builder.FieldBoxes` has one case.
- Hits.AddColumns: the order of each row's new columns follows pandas releases in which `Index.difference` sorts its result under the default `sort=None` in every case, the first append to an empty `pd.DataFrame()` included. Some later 1.x releases skip that sort when the other index is empty (pandas issue 24959). There the first hit's keys keep their own order, so a single hit `{"b": 1, "a": 2}` gives columns `b, a` where the model gives `a, b`. The model does not capture that variant.
- Grid.RowValues: the shown values are the row's cells by column. `tolist()` turning a missing value into `NaN` is not modelled, and an absent cell shows as `None`.

## Findings

| source | as written | input that shows it | evidently intended | confidence | as-written member | corrected member |
|---|---|---|---|---|---|---|
| main.py:378-405 | Each name box's command is `lambda: self.all.state(['!selected'])`. `self.all` is read when the box is clicked, and `get_index_names` and `get_field_names` both rebind it. So after "Get Fields" an index box unticks the field list's "All" box. | Index list `[All ✓, logs]`, field list `[All ✓, msg]`, "Get Fields" pressed last. Ticking `logs` leaves index "All" ticked, so the search goes to `_all`, and it unticks the field list's "All" (`Builder.LateBoundAll`). | A name box unticks the "All" box of its own list, so the index selector becomes `logs` (`Builder.ClickNameSelectsNames`). | not executed | Builder.ClickAsWritten | Builder.ClickIntended |
