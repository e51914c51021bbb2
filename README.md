# pandex layout core in Dafny

pandex writes pandas data frames into spreadsheet worksheets. This project
models its two cooperating pieces of integer coordinate logic and proves
what they compute.

- **Table writing** (`pandex/table.py`). A `Table` writes a data frame at a
  shared, mutable `Cursor`. `TableHeader` writes the column labels one row
  per level. `TableIndex` writes the row labels one column per level.
  `TableData` writes the data block. On a hierarchical axis, each level
  groups consecutive positions by their leading labels, as
  `itertools.groupby` does. Each run gets one single-cell write or one
  merged range, and its first cell goes into the writer's cell mapping.
  Each writer moves the cursor past what it wrote.
- **Layout** (`pandex/sheet.py`). A `Sheet` keeps a frontier cursor. That
  is the component-wise maximum of every group end reported to it.
  `create_shape` hands out a `Group` anchored to the right of, or below,
  the frontier. `Group.add` writes an element right of or below the group's
  end. The group end then becomes the cursor where the element finished,
  and that cursor is folded into the frontier.

Modules:

- `Grid` (grid.dfy): coordinates, the `Cursor` class and the worksheet.
  The worksheet is a class holding a ghost, append-only log of the
  `write`/`merge_range` calls made on it.
- `Runs` (runs.dfy): run-length grouping of a key sequence and its
  properties.
- `AxisMapping` (axis.dfy): data frame axes. It also holds the reference
  functions that give, for any axis and start cell, the expected cell
  mapping and worksheet calls.
- `AxisProperties` (axis_props.dfy): lemmas about those reference
  functions.
- `Tables` (table.dfy): the imperative writer classes. Each is proved to
  produce the reference mapping, the reference calls and the stated cursor
  move.
- `Sheets` (sheet.dfy): the `Sheet` and `Group` classes and the placement
  arithmetic.
- `Scenarios` (scenarios.dfy): the concrete expectations of the
  repository's unit tests, proved about the model.

## Model

| member | source | states |
|---|---|---|
| Grid.Worksheet.constructor | pandex/sheet.py:81 | a new worksheet has received no calls |
| Grid.Worksheet.WriteLabel | pandex/table.py:93 | a label write appends exactly one single-cell write to the call log |
| Grid.Worksheet.MergeRange | pandex/table.py:95-96 | a merge appends exactly one merged-range call to the log |
| Grid.Worksheet.WriteValue | pandex/table.py:183 | a data-cell write appends one call naming the frame cell (i, j) and where it lands |
| Grid.Cursor.constructor | pandex/sheet.py:11-13 | a cursor starts at the given row and column, (0, 0) by default |
| Runs.RunEnd | pandex/table.py:87-88 | the end of the run that starts at j lies between j and the end of the keys |
| Runs.RunEndSpec | pandex/table.py:87-88 | every key from j up to the run end equals the run key, and the key at the end (if any) differs |
| Runs.RunEndUnique | pandex/table.py:87-88 | any end with that property is the run end, so the run is maximal and unique |
| Runs.RunsFrom | pandex/table.py:87 | the runs of a suffix are no more than its positions, none only for an empty suffix, and the first starts at the suffix with its key |
| Runs.RunsAreGroups | pandex/table.py:87-88 | the runs tile the keys in order: the first at the start, each next one where the previous ends, the last at the end; each non-empty, all positions in a run share its key, neighbouring runs have different keys |
| Runs.GroupsOfCons | pandex/table.py:87-88 | a maximal run at the front followed by a tiling of the rest tiles the whole |
| Runs.RunStartIff | pandex/table.py:87 | a position starts a run exactly when it is the first one or its key differs from the previous key |
| Runs.GroupStartIff | pandex/table.py:87 | the same for all the keys: p is a run start iff p is in range and is 0 or has a new key |
| Runs.StartsAtLeast | pandex/table.py:87 | no run of a suffix starts before the suffix |
| Runs.StartsWithin | pandex/table.py:87 | every run start of a suffix is a position of that suffix |
| Runs.ScanRun | pandex/table.py:87-88 | the loop that measures a run returns its maximal end: past the start, equal keys up to it, a different key at it |
| Runs.RunCountAntitone | pandex/table.py:87 | a shorter suffix has no more runs |
| Runs.RefinedHasMoreRuns | pandex/table.py:85-87 | grouping by finer keys never gives fewer runs than grouping by coarser keys |
| Runs.DistinctNeighboursAreSingletons | pandex/table.py:87-88 | when neighbouring keys always differ, each position is its own run of length 1 |
| Runs.RunEndShift | pandex/table.py:87-88 | a run scan that starts after a prefix finds the same end as in the keys alone, moved by the prefix length |
| Runs.RunCountShift | pandex/table.py:87-88 | the keys after a prefix form as many runs as they do alone |
| AxisProperties.FlatEntriesAt | pandex/table.py:45-48 | a flat mapping has one entry per label, entry j being the j-th cell along the line |
| AxisProperties.DataBlockAt | pandex/table.py:179-190 | the data mapping has m rows of n entries, entry [i][j] at (row + i, col + j) |
| AxisProperties.RunEntriesAt | pandex/table.py:98 | entry k of a level is the cell where run k starts |
| AxisProperties.RunEntriesMember | pandex/table.py:98 | a cell on the line is an entry iff its offset is a run start |
| AxisProperties.LevelEntriesTile | pandex/table.py:85-100 | a level has one entry per maximal run of equal leading labels, in order; the first at the base, each next one the previous start plus that run's length, the last run ending at the axis end |
| AxisProperties.LevelEventsTile | pandex/table.py:87-96 | one worksheet call per run, in order: a run of one gets a single-cell write at its start, a longer run one merged range from its first to its last cell; both carry the level's label, which all tuples of the run share |
| AxisProperties.LevelCallAt | pandex/table.py:146-155 | call k of a level in either direction (so also down an index column): a single-cell write at the start of run k when it has one position, otherwise one merged range from its first to its last cell, labelled with the level's component |
| AxisProperties.RunSharesLabel | pandex/table.py:87-91 | every tuple in a run of a level has the same label at that level, so the run's label is well defined |
| AxisProperties.LevelEntryIff | pandex/table.py:146-157 | a cell is a level entry iff its position is 0 or its leading labels differ from the previous position's |
| AxisProperties.AxisLevelsShape | pandex/table.py:53-105 | a written axis has one mapping level per axis level; every level-L entry lies on line `line0 + L`; a flat axis has entry j at offset base + j |
| AxisProperties.KeysRefine | pandex/table.py:87 | keys of level L+1 refine those of level L: equal deeper keys have equal shallower keys |
| AxisProperties.DeeperLevelHasMoreEntries | pandex/table.py:85-98 | a deeper level never has fewer entries than a shallower one |
| AxisProperties.DeeperLevelCoversEntries | pandex/table.py:85-98 | every level-L entry's offset is also an entry offset of level L+1 |
| AxisProperties.DeeperLevelCoversOffset | pandex/table.py:85-98 | the same for a single offset |
| AxisProperties.DistinctTuplesOneEntryEach | pandex/table.py:85-98 | at full depth, with no two neighbouring tuples equal, the deepest level has one entry per position |
| AxisProperties.KeysAtFullDepth | pandex/table.py:87 | grouping by all labels of a tuple uses the whole tuple as key |
| AxisProperties.SingletonRunEntries | pandex/table.py:98 | runs that start at 0, 1, 2, … have entries equal to a flat mapping |
| AxisProperties.AxisSpan | pandex/table.py:34-105 | a well-formed header has one mapping level per column level; every level-L entry is in row `row + L` and within the header's column range; flat entry j is at base + j |
| AxisProperties.HeaderAlignsWithData | pandex/table.py:227-243 | the header entries lie in the data block's columns: flat entry j is exactly in data column j, and every entry of level L is in row `at.row + L` |
| AxisProperties.DeepestHeaderMeetsData | pandex/table.py:85-100 | over a hierarchical header whose neighbouring column tuples differ, the last header row has one entry per data column, entry j exactly above data column j |
| Tables.WriteRun | pandex/table.py:89-96 | writing one run makes the reference call for that run |
| Tables.WriteRuns | pandex/table.py:86-100 | the run loop returns the start cell of every run and makes the reference call per run, in order |
| Tables.WriteLevel | pandex/table.py:86-100 | writing level L of the tuples gives that level's reference mapping and calls |
| Tables.FillLevel | pandex/table.py:85-103 | one pass of the level loop fills mapping slot L and appends that level's calls |
| Tables.WriteLevels | pandex/table.py:85-103 | the level loop yields the reference mapping of all levels and their calls, level by level |
| Tables.AppendToFirst | pandex/table.py:44-47 | appending a level and extending it puts the entries in slot 0 and leaves the other slots intact |
| Tables.WriteNames | pandex/table.py:38-41 | the index names are written one per column from the cursor column, and the column moves past them |
| Tables.MergeNames | pandex/table.py:62-64 | each index name is merged down over the header rows in its own column, and the column moves past them |
| Tables.TableHeader.constructor | pandex/table.py:7-22 | a new header holds the axes and an empty mapping |
| Tables.TableHeader.Write | pandex/table.py:28-32 | the header writes the reference mapping (appended to an existing one on a flat header) and calls; the cursor row moves by the number of column levels and the column stays |
| Tables.TableHeader.WriteFlatHeader | pandex/table.py:34-51 | one mapping level with entry j at (row, col + index names + j); index names then labels written along the row; row + 1, column unchanged |
| Tables.TableHeader.WriteMultiHeader | pandex/table.py:53-105 | a mapping level per column level, from the column right of the index names; names merged down, then per-level calls; row + levels, column unchanged |
| Tables.TableIndex.constructor | pandex/table.py:109-112 | a new index holds the axis and an empty mapping |
| Tables.TableIndex.Write | pandex/table.py:118-122 | the index writes the reference mapping and calls; the column moves by the number of index levels and the row stays |
| Tables.TableIndex.WriteFlatIndex | pandex/table.py:124-133 | one level whose entry i is (row + i, col); labels written down the column; column + 1, row unchanged |
| Tables.TableIndex.WriteMultiIndex | pandex/table.py:135-163 | level L in column col + L, row starts advancing by run length; column + levels, row unchanged |
| Tables.TableData.constructor | pandex/table.py:167-170 | a new data writer holds the frame and an empty mapping |
| Tables.TableData.Write | pandex/table.py:176-193 | appends m rows of n entries [i][j] = (row + i, col + j) and writes every cell row by row; cursor moves by m rows and n columns |
| Tables.Table.constructor | pandex/table.py:207-213 | a new table holds its frame and no writers yet |
| Tables.Table.WriteHeader | pandex/table.py:232-233 | a fresh header writes the header and leaves the cursor at the index origin |
| Tables.Table.WriteIndex | pandex/table.py:235-236 | a fresh index writes from below the header and leaves the cursor at the data origin |
| Tables.Table.WriteData | pandex/table.py:238-239 | a fresh data writer writes the block and leaves the cursor at the table's far corner |
| Tables.Table.WriteBody | pandex/table.py:235-239 | the index then the data block, with the cursor at the far corner |
| Tables.Table.Write | pandex/table.py:227-243 | header, index and data mappings are the reference ones for the start cell; the calls are header, index and data calls in that order; the same cursor ends at start + (header levels + rows, index levels + columns) and is returned |
| Sheets.Join | pandex/sheet.py:93-95 | the component-wise maximum dominates both arguments and takes each component from one of them |
| Sheets.JoinLeast | pandex/sheet.py:93-95 | anything that dominates both arguments dominates their join, so the join is the least upper bound |
| Sheets.JoinIdempotent | pandex/sheet.py:93-95 | folding the same cursor in twice equals folding it in once |
| Sheets.JoinSelf | pandex/sheet.py:93-95 | folding in the frontier itself leaves it unchanged |
| Sheets.FrontierBounds | pandex/sheet.py:79-95 | the frontier dominates the origin and every end ever reported |
| Sheets.FrontierLeast | pandex/sheet.py:79-95 | any cell dominating the origin and all reported ends dominates the frontier |
| Sheets.FrontierGrows | pandex/sheet.py:93-95 | reporting more ends never moves the frontier back |
| Sheets.ShapeClearsEnds | pandex/sheet.py:101-115 | with non-negative margins a new group starts right of (Right) or below (Bottom) every reported end |
| Sheets.AnchorKeepsOrder | pandex/sheet.py:53-67 | with non-negative margins a table is anchored at or after the group start and right of (Right) or below (Bottom) the end, and finishes at or after the start |
| Sheets.ExtentIsForward | pandex/table.py:227-243 | writing a table never moves the cursor up or left |
| Sheets.Sheet.constructor | pandex/sheet.py:79-83 | a new sheet has a fresh worksheet with no calls and its frontier at the origin |
| Sheets.Sheet.UpdateCursor | pandex/sheet.py:93-95 | the frontier becomes the component-wise maximum of itself and the argument, and the argument is recorded as reported |
| Sheets.Sheet.CreateShape | pandex/sheet.py:85-91 | succeeds iff the side is Right or Bottom, failing otherwise with ValueError; a fresh group whose start is anchored against the frontier and whose end is a separate cursor at the same cell |
| Sheets.Sheet.AddRight | pandex/sheet.py:101-107 | a fresh group at (margin rows, frontier column + margin columns), end equal to start but a different object |
| Sheets.Sheet.AddBottom | pandex/sheet.py:109-115 | a fresh group at (frontier row + margin rows, margin columns), end equal to start but a different object |
| Sheets.Group.constructor | pandex/sheet.py:36-40 | the start is the given cursor, the end a fresh copy of it |
| Sheets.Group.GetCursors | pandex/sheet.py:50-51 | returns the start and end cursors themselves |
| Sheets.Group.Add | pandex/sheet.py:42-48 | done iff the side is Right or Bottom; otherwise a TypeError with nothing written and no cursor moved; on success the end is the cursor where the table finished, the frontier takes it in, the worksheet gets the table's calls at the anchor, the table holds its header, index and data mappings for the anchor, and the start is unchanged |
| Sheets.Group.AddRight | pandex/sheet.py:53-59 | the table is written at (start row + margin rows, end column + margin columns): its mappings, calls and final cursor are those for that anchor |
| Sheets.Group.AddBottom | pandex/sheet.py:61-67 | the table is written at (end row + margin rows, start column + margin columns): its mappings, calls and final cursor are those for that anchor |
| Sheets.Group.WriteObject | pandex/sheet.py:69-71 | the table writes at the given cursor and holds the header, index and data mappings for it; that cursor, advanced past the table, becomes the group end and is reported to the sheet |
| Sheets.Group.UpdateCursorEnd | pandex/sheet.py:73-75 | the end is the given cursor itself (the last write wins, no maximum), and the sheet frontier is the maximum of the old frontier and it |
| Scenarios.ProductKeys | pandex/tests/test_table.py:13-19 | the first-level keys of the two-by-three product are three of the first label, then three of the second |
| Scenarios.ProductRuns | pandex/tests/test_table.py:13-19 | those keys form two runs of three |
| Scenarios.ProductLevel0 | pandex/tests/test_table.py:36-39 | level 0 of the product has entries at offsets 0 and 3 |
| Scenarios.ProductLevel1 | pandex/tests/test_table.py:36-39 | level 1 of the product has entries at offsets 0 to 5 |
| Scenarios.ProductLevels | pandex/tests/test_table.py:36-39 | the two-level mapping of the product along any line |
| Scenarios.FromProductLength | pandex/tests/test_table.py:13-19 | a product of `a` outer and `b` inner labels has `a * b` tuples |
| Scenarios.FromProductKeys | pandex/tests/test_table.py:13-19 | every product tuple has two labels, and the level-0 keys are each outer label repeated `b` times |
| Scenarios.OuterKeysRuns | pandex/table.py:87-88 | with neighbouring outer labels distinct, those keys form exactly one run per outer label |
| Scenarios.ProductLevel0Count | pandex/tests/test_table.py:13-19 | for any `a` by `b` product (b ≥ 1, neighbouring outer labels distinct), level 0 has `a` entries |
| Scenarios.FromProductNeighbours | pandex/tests/test_table.py:13-19 | when neither outer nor inner labels repeat a neighbour, no two neighbouring product tuples are equal |
| Scenarios.ProductLevel1Count | pandex/tests/test_table.py:13-19 | when inner labels also differ from their neighbours, level 1 is one cell per position, like a flat axis, so it has `a * b` entries |
| Scenarios.ProductHeaderLevels | pandex/tests/test_table.py:36-39 | the product header over a one-level index maps to [[(r,c+1),(r,c+4)], [(r+1,c+1) … (r+1,c+6)]] |
| Scenarios.ProductIndexLevels | pandex/tests/test_table.py:70-73 | the product index maps to [[(r,c),(r+3,c)], [(r,c+1) … (r+5,c+1)]] |
| Scenarios.SmallBlock | pandex/tests/test_table.py:96-99 | the 3 by 3 data mapping from (0, 0) |
| Scenarios.MultiHeaders | pandex/tests/test_table.py:30-42 | the header test: mapping [[0,1],[0,4]], [[1,1]..[1,6]] and cursor (2, 0) |
| Scenarios.MultiIndex | pandex/tests/test_table.py:64-76 | the index test: mapping [[0,0],[3,0]], [[0,1]..[5,1]] and cursor (0, 2) |
| Scenarios.Data | pandex/tests/test_table.py:90-102 | the data test: the 3 by 3 mapping and cursor (3, 3) |
| Scenarios.WholeTable | pandex/tests/test_table.py:117-124 | a 3 by 3 table from (0, 0) ends at (4, 4) |
| Scenarios.AddTable | pandex/sheet.py:42-75 | adding a 3 by 3 table moves the group end four rows and four columns past the anchor, and the frontier takes it in |
| Scenarios.GroupOneTable | pandex/tests/test_group.py:23-34 | one table in a new group: end (4, 4) |
| Scenarios.GroupTwoAcross | pandex/tests/test_group.py:36-50 | two tables added Right: end (4, 8) |
| Scenarios.GroupTwoDown | pandex/tests/test_group.py:52-66 | Right then Bottom: end (8, 4) |
| Scenarios.SheetOneTable | pandex/tests/test_sheet.py:23-32 | one table: sheet frontier (4, 4) |
| Scenarios.SecondGroup | pandex/tests/test_sheet.py:34-46 | after one table, a second group starts and ends at (0, 4) |
| Scenarios.SheetTwoGroups | pandex/tests/test_sheet.py:34-58 | second group at (0, 4); frontier (4, 8) after a Right add, (8, 8) after a Bottom add |
| Scenarios.TwoShapes | pandex/sheet.py:85-115 | two shapes created with no add in between start at the same cell, and both succeed iff the side is Right or Bottom |

## Left out

- Worksheet effects: `write`, `merge_range`, `add_format`, `add_worksheet` and the workbook are foreign I/O. The worksheet keeps only a ghost log of label writes, merges and data-cell writes. Cell formats (`_get_format`, the `cells_format` table) are not modelled.
- Cell values are opaque. A data write records which frame cell (i, j) went where, not the number.
- Label display: `u'%s'`, `str()` and the plain `level_name` written for a single cell are all the same label here. A missing (None) index name is the empty label. `LabelAt` returns the empty label for a key too short to have one, which a well-formed axis never produces.
- pandas internals: `MultiIndex`, `levels`, `get_values` and `itertuples` become an `Axis` (flat labels, or tuples with level names) and a `Frame` (two axes). The level count is the number of level names.
- Tables.TableHeader.Write: requires every column tuple to have a label for each declared level. pandas guarantees it, so the source's failure on a short tuple is not modelled.
- Tables.TableIndex.Write: requires the same of the index tuples, for the same reason.
- Tables.Table.Write: requires it of both axes, for the same reason.
- `write_table_title` and `set_columns_width` are no-ops in the source, so `Table.Write` writes nothing for them. Subclass overrides of these hooks and of `header_class`/`index_class`/`data_class` are not modelled.
- The loops of the source are split into helper methods (`WriteRun`, `WriteRuns`, `WriteLevel`, `FillLevel`, `WriteNames`, `MergeNames`, and `Table.WriteHeader`/`WriteIndex`/`WriteData`/`WriteBody`). They perform the same calls in the same order.
- `Side`: `Other` stands for an argument that is neither `Side.RIGHT` nor `Side.BOTTOM` and that Python's `%` formatting does not treat as a mapping: an int, a string, None or a non-empty tuple. A list, a dict, bytes or `()` passed as the side is not modelled.
- Sheets.Group.Add: the message format at pandex/sheet.py:48 has no placeholder. For the arguments `Other` stands for, formatting the message raises TypeError before the ValueError written there is built. The model follows the code and returns TypeError. A list, dict, bytes or `()` argument would format cleanly and raise the ValueError; those arguments are not modelled. `create_shape` raises ValueError.
- Sheets.Group.Add: the element is a `Table`. `Group` has no `write` method, so groups cannot be nested and nesting is not modelled.
- pandex/chart.py (charts, styling and its fixed cursor bump), `Cursor.__str__`, setup.py and examples/line_charts.py are not part of this model.
- The layout scenarios hold for any frame whose two axes are flat with three labels each. The tests' random cell values play no part. The multi-level tests use the product of two and three distinct labels.
