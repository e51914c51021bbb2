/** The table writers: header, index and data block, each a class that
    writes its part of a data frame at a shared cursor, records the cells it
    wrote in its cell mapping and advances the cursor past them; and the
    table that runs them one after the other. */
module Tables {
  import opened Grid
  import opened Runs
  import opened AxisMapping

  /** The entries and worksheet calls of runs are those of the first run
      followed by those of the others. */
  lemma RunsCons(rs: seq<Run<seq<Label>>>, level: nat, d: Direction, line: int, base: int)
    requires rs != []
    ensures RunEntries(rs, d, line, base) == [Place(d, line, base + rs[0].start)] + RunEntries(rs[1..], d, line, base)
    ensures RunEvents(rs, level, d, line, base) == [RunEvent(rs[0], level, d, line, base)] + RunEvents(rs[1..], level, d, line, base)
  {
  }

  /** The run a forward scan finds at `i` is the first run of `ks[i..]`. */
  lemma ScannedRun<K>(ks: seq<K>, i: nat, j: nat)
    requires i < j <= |ks|
    requires forall p :: i <= p < j ==> ks[p] == ks[i]
    requires j < |ks| ==> ks[j] != ks[i]
    ensures RunsFrom(ks, i)[0] == Run(ks[i], i, j - i)
    ensures RunsFrom(ks, i)[1..] == RunsFrom(ks, j)
  {
    var e := RunEnd(ks, i + 1, ks[i]);
    RunEndUnique(ks, i + 1, ks[i], j);
    assert e == j;
    var rs := RunsFrom(ks, i);
    assert rs == [Run(ks[i], i, e - i)] + RunsFrom(ks, e);
  }

  /** One step of the loop of `WriteRuns`: the run a forward scan finds at
      `i`, ending before `j`, is written first and recorded at `current`,
      which leaves the runs from `j` to go. */
  lemma RunStep(ks: seq<seq<Label>>, i: nat, j: nat, level: nat, d: Direction, line: int, base: int, current: int,
                entries: seq<Coord>, log: seq<Event>, allEntries: seq<Coord>, allEvents: seq<Event>)
    requires i < j <= |ks|
    requires forall p :: i <= p < j ==> ks[p] == ks[i]
    requires j < |ks| ==> ks[j] != ks[i]
    requires current == base + i
    requires entries + RunEntries(RunsFrom(ks, i), d, line, base) == allEntries
    requires log + RunEvents(RunsFrom(ks, i), level, d, line, base) == allEvents
    ensures (entries + [Place(d, line, current)]) + RunEntries(RunsFrom(ks, j), d, line, base) == allEntries
    ensures (log + [RunEvent(Run(ks[i], i, j - i), level, d, line, base)]) + RunEvents(RunsFrom(ks, j), level, d, line, base) == allEvents
  {
    ScannedRun(ks, i, j);
    var rs := RunsFrom(ks, i);
    RunsCons(rs, level, d, line, base);
    var restEntries := RunEntries(rs[1..], d, line, base);
    var restEvents := RunEvents(rs[1..], level, d, line, base);
    var head := Place(d, line, base + rs[0].start);
    var event := RunEvent(rs[0], level, d, line, base);
    assert (entries + [head]) + restEntries == entries + ([head] + restEntries);
    assert (log + [event]) + restEvents == log + ([event] + restEvents);
  }

  /** Writes one run of `len` equal keys whose first cell is at offset
      `first` and last at `last`: a plain write for a single cell, a merged
      range otherwise, labelled with the key's label at `level`. */
  method WriteRun(ws: Worksheet, key: seq<Label>, level: nat, d: Direction, line: int, base: int,
                  start: nat, len: nat, first: int, last: int)
    requires level < |key|
    requires first == base + start && last == first + (len - 1)
    modifies ws
    ensures ws.log == old(ws.log) + [RunEvent(Run(key, start, len), level, d, line, base)]
  {
    var levelName := key[level];
    if first == last {
      ws.WriteLabel(Place(d, line, first), levelName);
    } else {
      ws.MergeRange(Place(d, line, first), Place(d, line, last), levelName);
    }
  }

  /** The loop of `WriteLevel` over the grouping keys `ks`: one write or
      merge per run, and the cell where each run starts. */
  method WriteRuns(ws: Worksheet, ks: seq<seq<Label>>, level: nat, d: Direction, line: int, base: int)
    returns (entries: seq<Coord>)
    requires forall p :: 0 <= p < |ks| ==> level < |ks[p]|
    modifies ws
    ensures entries == RunEntries(GroupBy(ks), d, line, base)
    ensures ws.log == old(ws.log) + RunEvents(GroupBy(ks), level, d, line, base)
  {
    ghost var allEntries := RunEntries(GroupBy(ks), d, line, base);
    ghost var allEvents := old(ws.log) + RunEvents(GroupBy(ks), level, d, line, base);
    entries := [];
    var i := 0;
    var current := base;
    while i < |ks|
      invariant 0 <= i <= |ks|
      invariant current == base + i
      invariant entries + RunEntries(RunsFrom(ks, i), d, line, base) == allEntries
      invariant ws.log + RunEvents(RunsFrom(ks, i), level, d, line, base) == allEvents
      decreases |ks| - i
    {
      var j := ScanRun(ks, i);
      RunStep(ks, i, j, level, d, line, base, current, entries, ws.log, allEntries, allEvents);
      var groupCount := j - i;
      var last := current + (groupCount - 1);
      WriteRun(ws, ks[i], level, d, line, base, i, groupCount, current, last);
      entries := entries + [Place(d, line, current)];
      current := last + 1;
      i := j;
    }
  }

  /** Write one level of a hierarchical axis on `line`: group consecutive
      positions by their first `level + 1` labels, write each group as one
      cell or as one merged range labelled with its label at `level`, and
      return the cell where each group starts. */
  method WriteLevel(ws: Worksheet, tuples: seq<seq<Label>>, level: nat, d: Direction, line: int, base: int)
    returns (entries: seq<Coord>)
    requires TuplesReach(tuples, level + 1)
    modifies ws
    ensures entries == LevelEntries(tuples, level, d, line, base)
    ensures ws.log == old(ws.log) + LevelEvents(tuples, level, d, line, base)
  {
    forall p | 0 <= p < |tuples|
      ensures level < |Keys(tuples, level)[p]|
    {
      assert tuples[p] in tuples;
    }
    entries := WriteRuns(ws, Keys(tuples, level), level, d, line, base);
  }

  /** One pass of the level loop: write level `level` on `line` and fill
      its row of the mapping. */
  method FillLevel(ws: Worksheet, tuples: seq<seq<Label>>, n: nat, level: nat, d: Direction, line0: int, line: int, base: int,
                   m: seq<seq<Coord>>, ghost log0: seq<Event>)
    returns (m': seq<seq<Coord>>)
    requires TuplesReach(tuples, n) && level < n && line == line0 + level
    requires m == MultiLevels(tuples, level, d, line0, base) + Empties(n - level)
    requires ws.log == log0 + MultiEvents(tuples, level, d, line0, base)
    modifies ws
    ensures m' == MultiLevels(tuples, level + 1, d, line0, base) + Empties(n - (level + 1))
    ensures ws.log == log0 + MultiEvents(tuples, level + 1, d, line0, base)
  {
    var entries := WriteLevel(ws, tuples, level, d, line, base);
    LevelLoopStep(tuples, n, level, d, line0, line, base, m, log0, ws.log, entries);
    m' := m[level := entries];
  }

  /** The level loop of a hierarchical writer: level after level, from
      line `line0` on, write the level and fill its row of the mapping,
      which starts as `n` empty levels. */
  method WriteLevels(ws: Worksheet, tuples: seq<seq<Label>>, n: nat, d: Direction, line0: int, base: int)
    returns (m: seq<seq<Coord>>)
    requires TuplesReach(tuples, n)
    modifies ws
    ensures m == MultiLevels(tuples, n, d, line0, base)
    ensures ws.log == old(ws.log) + MultiEvents(tuples, n, d, line0, base)
  {
    m := Empties(n);
    var line := line0;
    for level := 0 to n
      invariant line == line0 + level
      invariant m == MultiLevels(tuples, level, d, line0, base) + Empties(n - level)
      invariant ws.log == old(ws.log) + MultiEvents(tuples, level, d, line0, base)
    {
      m := FillLevel(ws, tuples, n, level, d, line0, line, base, m, old(ws.log));
      line := line + 1;
    }
    assert Empties(0) == [];
  }

  /** `cell_mapping.append([])` followed by appending each entry to
      `cell_mapping[0]`: on a fresh writer this is the one-level mapping
      `[entries]`, and otherwise the entries join the first level. */
  function AppendToFirst(m: seq<seq<Coord>>, entries: seq<Coord>): (r: seq<seq<Coord>>)
    ensures |r| == |m| + 1
    ensures m == [] ==> r == [entries]
    ensures m != [] ==> r[0] == m[0] + entries && r[1..] == m[1..] + [[]]
  {
    var m' := m + [[]];
    assert m == [] ==> m'[0] + entries == entries;
    m'[0 := m'[0] + entries]
  }

  /** Appending nothing is `cell_mapping.append([])`; appending one more
      entry to the first level extends the entries by it. */
  lemma AppendToFirstStep(m: seq<seq<Coord>>, entries: seq<Coord>, c: Coord)
    ensures AppendToFirst(m, []) == m + [[]]
    ensures AppendToFirst(m, entries)[0 := AppendToFirst(m, entries)[0] + [c]] == AppendToFirst(m, entries + [c])
  {
    var a := AppendToFirst(m, []);
    assert |a| == |m + [[]]|;
    forall p | 0 <= p < |a|
      ensures a[p] == (m + [[]])[p]
    {
    }
    var b := AppendToFirst(m, entries);
    var lhs := b[0 := b[0] + [c]];
    var rhs := AppendToFirst(m, entries + [c]);
    assert |lhs| == |rhs|;
    forall p | 0 <= p < |lhs|
      ensures lhs[p] == rhs[p]
    {
      if p == 0 {
        assert (m + [[]])[0] + entries + [c] == (m + [[]])[0] + (entries + [c]);
      }
    }
  }

  /** `k` empty levels, as `[[] for _ in range(k)]`. */
  function Empties(k: nat): seq<seq<Coord>>
  {
    seq(k, _ => [])
  }

  /** Filling the first still-empty level moves one level from the empty
      tail to the written head. */
  lemma FillNext(written: seq<seq<Coord>>, k: nat, entries: seq<Coord>)
    ensures (written + Empties(k + 1))[|written| := entries] == written + [entries] + Empties(k)
  {
    var lhs := (written + Empties(k + 1))[|written| := entries];
    var rhs := written + [entries] + Empties(k);
    assert |lhs| == |rhs|;
    forall p | 0 <= p < |lhs|
      ensures lhs[p] == rhs[p]
    {
    }
  }

  /** The mapping of the first `level + 1` levels extends that of the first
      `level` by the entries of `level`. */
  lemma MultiLevelsStep(tuples: seq<seq<Label>>, level: nat, d: Direction, line0: int, line: int, base: int)
    requires TuplesReach(tuples, level + 1) && line == line0 + level
    ensures MultiLevels(tuples, level + 1, d, line0, base)
         == MultiLevels(tuples, level, d, line0, base) + [LevelEntries(tuples, level, d, line, base)]
  {
    var lhs := MultiLevels(tuples, level + 1, d, line0, base);
    var rhs := MultiLevels(tuples, level, d, line0, base) + [LevelEntries(tuples, level, d, line, base)];
    assert |lhs| == |rhs|;
    forall l | 0 <= l < |lhs|
      ensures lhs[l] == rhs[l]
    {
    }
  }

  /** The calls for the first `level + 1` levels are those for the first
      `level` followed by those of `level`. */
  lemma MultiEventsStep(tuples: seq<seq<Label>>, level: nat, d: Direction, line0: int, line: int, base: int)
    requires TuplesReach(tuples, level + 1) && line == line0 + level
    ensures MultiEvents(tuples, level + 1, d, line0, base)
         == MultiEvents(tuples, level, d, line0, base) + LevelEvents(tuples, level, d, line, base)
  {
  }

  /** Filling the next empty level: when `next` is `prev` followed by
      `entries` and `nextCalls` is `prevCalls` followed by `calls`, putting
      `entries` in the first of `k` empty levels after `prev` and `calls`
      after `prevCalls` in the log gives `next` and `nextCalls`. */
  lemma FillStep(m: seq<seq<Coord>>, k: nat, k': nat, prev: seq<seq<Coord>>, next: seq<seq<Coord>>, entries: seq<Coord>,
                 log0: seq<Event>, log: seq<Event>, prevCalls: seq<Event>, nextCalls: seq<Event>, calls: seq<Event>)
    requires k == k' + 1
    requires m == prev + Empties(k)
    requires next == prev + [entries]
    requires log == log0 + prevCalls + calls
    requires nextCalls == prevCalls + calls
    ensures m[|prev| := entries] == next + Empties(k')
    ensures log == log0 + nextCalls
  {
    FillNext(prev, k', entries);
  }

  /** One step of the level loop of a hierarchical writer: filling level
      `level` with its entries and appending its worksheet calls carries the
      mapping and the log from the first `level` levels to the first
      `level + 1`. */
  lemma LevelLoopStep(tuples: seq<seq<Label>>, n: nat, level: nat, d: Direction, line0: int, line: int, base: int,
                      m: seq<seq<Coord>>, log0: seq<Event>, log: seq<Event>, entries: seq<Coord>)
    requires TuplesReach(tuples, n) && level < n && line == line0 + level
    requires m == MultiLevels(tuples, level, d, line0, base) + Empties(n - level)
    requires log == log0 + MultiEvents(tuples, level, d, line0, base) + LevelEvents(tuples, level, d, line, base)
    requires entries == LevelEntries(tuples, level, d, line, base)
    ensures m[level := entries] == MultiLevels(tuples, level + 1, d, line0, base) + Empties(n - (level + 1))
    ensures log == log0 + MultiEvents(tuples, level + 1, d, line0, base)
  {
    MultiLevelsStep(tuples, level, d, line0, line, base);
    MultiEventsStep(tuples, level, d, line0, line, base);
    FillStep(m, n - level, n - (level + 1), MultiLevels(tuples, level, d, line0, base), MultiLevels(tuples, level + 1, d, line0, base), entries,
             log0, log, MultiEvents(tuples, level, d, line0, base), MultiEvents(tuples, level + 1, d, line0, base),
             LevelEvents(tuples, level, d, line, base));
  }

  /** The index names of a flat header, one plain write per name along
      row `row` from column `col` on; returns the column after the last
      name. */
  method WriteNames(ws: Worksheet, names: seq<Label>, row: int, col: int) returns (next: int)
    modifies ws
    ensures next == col + |names|
    ensures ws.log == old(ws.log) + FlatEvents(names, |names|, Across, row, col)
  {
    next := col;
    for i := 0 to |names|
      invariant next == col + i
      invariant ws.log == old(ws.log) + FlatEvents(names, i, Across, row, col)
    {
      ws.WriteLabel(Coord(row, next), names[i]);
      next := next + 1;
    }
  }

  /** The index names above a hierarchical header, each merged down over
      the `height` header rows, from column `col` on; returns the column
      after the last name. */
  method MergeNames(ws: Worksheet, names: seq<Label>, row: int, col: int, height: int) returns (next: int)
    modifies ws
    ensures next == col + |names|
    ensures ws.log == old(ws.log) + NameMerges(names, |names|, row, col, height)
  {
    next := col;
    for i := 0 to |names|
      invariant next == col + i
      invariant ws.log == old(ws.log) + NameMerges(names, i, row, col, height)
    {
      ws.MergeRange(Coord(row, next), Coord(row + (height - 1), next), names[i]);
      next := next + 1;
    }
  }

  class TableHeader {
    const index: Axis
    const columns: Axis
    var cellMapping: seq<seq<Coord>>

    constructor(index: Axis, columns: Axis)
      ensures this.index == index && this.columns == columns && cellMapping == []
    {
      this.index := index;
      this.columns := columns;
      cellMapping := [];
    }

    /** The header rows: the index names, then the column labels to their
        right; one row for a flat axis, one row per level for a
        hierarchical one. The cursor moves down past them. */
    method Write(ws: Worksheet, cursor: Cursor)
      requires columns.Writable()
      modifies this, ws, cursor
      ensures columns.Multi? ==> cellMapping == HeaderLevels(index, columns, old(cursor.Position()))
      ensures columns.Flat? ==>
                cellMapping == AppendToFirst(old(cellMapping), HeaderLevels(index, columns, old(cursor.Position()))[0])
      ensures old(cellMapping) == [] ==> cellMapping == HeaderLevels(index, columns, old(cursor.Position()))
      ensures ws.log == old(ws.log) + HeaderEvents(index, columns, old(cursor.Position()))
      ensures cursor.row == old(cursor.row) + columns.Levels() && cursor.col == old(cursor.col)
    {
      if columns.Multi? {
        WriteMultiHeader(ws, cursor);
      } else {
        WriteFlatHeader(ws, cursor);
      }
    }

    method WriteFlatHeader(ws: Worksheet, cursor: Cursor)
      requires columns.Flat?
      modifies this, ws, cursor
      ensures cellMapping
           == AppendToFirst(old(cellMapping), FlatEntries(Across, old(cursor.row), old(cursor.col) + |index.names|, |columns.labels|))
      ensures ws.log == old(ws.log) + FlatEvents(index.names, |index.names|, Across, old(cursor.row), old(cursor.col))
                      + FlatEvents(columns.labels, |columns.labels|, Across, old(cursor.row), old(cursor.col) + |index.names|)
      ensures cursor.row == old(cursor.row) + 1 && cursor.col == old(cursor.col)
    {
      var row, col := cursor.row, cursor.col;
      var colIndex := WriteNames(ws, index.names, row, col);
      ghost var logged := ws.log;

      var labels := columns.labels;
      var base := colIndex;
      ghost var m0 := cellMapping;
      cellMapping := cellMapping + [[]];
      var first: seq<Coord> := [];
      AppendToFirstStep(m0, first, Coord(row, col));
      for j := 0 to |labels|
        invariant colIndex == base + j
        invariant first == FlatEntries(Across, row, base, j)
        invariant cellMapping == AppendToFirst(m0, first)
        invariant ws.log == logged + FlatEvents(labels, j, Across, row, base)
        modifies this, ws
      {
        ws.WriteLabel(Coord(row, colIndex), labels[j]);
        AppendToFirstStep(m0, first, Coord(row, colIndex));
        cellMapping := cellMapping[0 := cellMapping[0] + [Coord(row, colIndex)]];
        first := first + [Coord(row, colIndex)];
        colIndex := colIndex + 1;
      }
      cursor.row := row + 1;
    }

    method WriteMultiHeader(ws: Worksheet, cursor: Cursor)
      requires columns.Multi? && columns.Writable()
      modifies this, ws, cursor
      ensures cellMapping
           == MultiLevels(columns.tuples, |columns.names|, Across, old(cursor.row), old(cursor.col) + |index.names|)
      ensures ws.log == old(ws.log) + NameMerges(index.names, |index.names|, old(cursor.row), old(cursor.col), |columns.names|)
                      + MultiEvents(columns.tuples, |columns.names|, Across, old(cursor.row), old(cursor.col) + |index.names|)
      ensures cursor.row == old(cursor.row) + |columns.names| && cursor.col == old(cursor.col)
    {
      var levelsCount := |columns.names|;
      cellMapping := Empties(levelsCount);
      var row, col := cursor.row, cursor.col;
      var rowIndex := row;
      var colIndex := col;

      colIndex := MergeNames(ws, index.names, rowIndex, colIndex, levelsCount);
      cellMapping := WriteLevels(ws, columns.tuples, levelsCount, Across, rowIndex, colIndex);
      cursor.row := row + levelsCount;
    }
  }

  class TableIndex {
    const index: Axis
    var cellMapping: seq<seq<Coord>>

    constructor(index: Axis)
      ensures this.index == index && cellMapping == []
    {
      this.index := index;
      cellMapping := [];
    }

    /** The index columns: one column for a flat axis, one per level for a
        hierarchical one, rows from the cursor down. The cursor moves right
        past them. */
    method Write(ws: Worksheet, cursor: Cursor)
      requires index.Writable()
      modifies this, ws, cursor
      ensures index.Multi? ==> cellMapping == IndexLevels(index, old(cursor.Position()))
      ensures index.Flat? ==> cellMapping == AppendToFirst(old(cellMapping), IndexLevels(index, old(cursor.Position()))[0])
      ensures old(cellMapping) == [] ==> cellMapping == IndexLevels(index, old(cursor.Position()))
      ensures ws.log == old(ws.log) + IndexEvents(index, old(cursor.Position()))
      ensures cursor.col == old(cursor.col) + index.Levels() && cursor.row == old(cursor.row)
    {
      if index.Multi? {
        WriteMultiIndex(ws, cursor);
      } else {
        WriteFlatIndex(ws, cursor);
      }
    }

    method WriteFlatIndex(ws: Worksheet, cursor: Cursor)
      requires index.Flat?
      modifies this, ws, cursor
      ensures cellMapping == AppendToFirst(old(cellMapping), FlatEntries(Down, old(cursor.col), old(cursor.row), |index.labels|))
      ensures ws.log == old(ws.log) + FlatEvents(index.labels, |index.labels|, Down, old(cursor.col), old(cursor.row))
      ensures cursor.col == old(cursor.col) + 1 && cursor.row == old(cursor.row)
    {
      var row, col := cursor.row, cursor.col;
      var rowIndex := row;
      ghost var m0 := cellMapping;
      cellMapping := cellMapping + [[]];
      var first: seq<Coord> := [];
      AppendToFirstStep(m0, first, Coord(row, col));
      var labels := index.labels;
      for i := 0 to |labels|
        invariant rowIndex == row + i
        invariant first == FlatEntries(Down, col, row, i)
        invariant cellMapping == AppendToFirst(m0, first)
        invariant ws.log == old(ws.log) + FlatEvents(labels, i, Down, col, row)
        modifies this, ws
      {
        ws.WriteLabel(Coord(rowIndex, col), labels[i]);
        AppendToFirstStep(m0, first, Coord(rowIndex, col));
        cellMapping := cellMapping[0 := cellMapping[0] + [Coord(rowIndex, col)]];
        first := first + [Coord(rowIndex, col)];
        rowIndex := rowIndex + 1;
      }
      cursor.col := col + 1;
    }

    method WriteMultiIndex(ws: Worksheet, cursor: Cursor)
      requires index.Multi? && index.Writable()
      modifies this, ws, cursor
      ensures cellMapping == MultiLevels(index.tuples, |index.names|, Down, old(cursor.col), old(cursor.row))
      ensures ws.log == old(ws.log) + MultiEvents(index.tuples, |index.names|, Down, old(cursor.col), old(cursor.row))
      ensures cursor.col == old(cursor.col) + |index.names| && cursor.row == old(cursor.row)
    {
      var levelsCount := |index.names|;
      cellMapping := Empties(levelsCount);
      var row, col := cursor.row, cursor.col;
      var rowIndex := row;
      var colIndex := col;

      cellMapping := WriteLevels(ws, index.tuples, levelsCount, Down, colIndex, rowIndex);
      cursor.col := col + levelsCount;
    }
  }

  class TableData {
    const frame: Frame
    var cellMapping: seq<seq<Coord>>

    constructor(frame: Frame)
      ensures this.frame == frame && cellMapping == []
    {
      this.frame := frame;
      cellMapping := [];
    }

    /** The data block, row by row from the cursor; each row's mapping is
        appended to the cell mapping. The cursor moves below the last row
        and right of the last column. */
    method Write(ws: Worksheet, cursor: Cursor)
      modifies this, ws, cursor
      ensures cellMapping == old(cellMapping) + DataBlock(old(cursor.Position()), frame.Rows(), frame.Cols())
      ensures ws.log == old(ws.log) + DataEvents(old(cursor.Position()), frame.Rows(), frame.Cols())
      ensures cursor.row == old(cursor.row) + frame.Rows() && cursor.col == old(cursor.col) + frame.Cols()
    {
      var row, col := cursor.row, cursor.col;
      var rowIndex := row;
      var m, n := frame.Rows(), frame.Cols();
      for i := 0 to m
        invariant rowIndex == row + i
        invariant cellMapping == old(cellMapping) + DataBlock(Coord(row, col), i, n)
        invariant ws.log == old(ws.log) + DataEvents(Coord(row, col), i, n)
        modifies this, ws
      {
        var currentCol := col;
        var mappingRow := [];
        ghost var logged := ws.log;
        for j := 0 to n
          invariant currentCol == col + j
          invariant mappingRow == FlatEntries(Across, rowIndex, col, j)
          invariant ws.log == logged + RowEvents(rowIndex, col, i, j)
          modifies ws
        {
          ws.WriteValue(Coord(rowIndex, currentCol), i, j);
          mappingRow := mappingRow + [Coord(rowIndex, currentCol)];
          currentCol := currentCol + 1;
        }
        cellMapping := cellMapping + [mappingRow];
        rowIndex := rowIndex + 1;
      }
      cursor.row := rowIndex;
      cursor.col := col + n;
    }
  }

  /** A data frame placed on the grid: the header, the index below the
      header and the data block to the right of the index. */
  class Table {
    const frame: Frame
    var header: TableHeader?
    var index: TableIndex?
    var data: TableData?

    constructor(frame: Frame)
      ensures this.frame == frame
      ensures header == null && index == null && data == null
    {
      this.frame := frame;
      header, index, data := null, null, null;
    }

    /** `self._header = TableHeader(df.index, df.columns)` and its write,
        for a table written from `at`. */
    method WriteHeader(ws: Worksheet, cursor: Cursor, ghost at: Coord)
      requires frame.columns.Writable()
      requires cursor.Position() == at
      modifies this, ws, cursor
      ensures header != null && fresh(header) && index == old(index) && data == old(data)
      ensures header.cellMapping == HeaderLevels(frame.index, frame.columns, at)
      ensures ws.log == old(ws.log) + HeaderEvents(frame.index, frame.columns, at)
      ensures cursor.Position() == IndexOrigin(frame, at)
    {
      var h := new TableHeader(frame.index, frame.columns);
      h.Write(ws, cursor);
      header := h;
    }

    /** `self._index = TableIndex(df.index)` and its write. */
    method WriteIndex(ws: Worksheet, cursor: Cursor, ghost at: Coord)
      requires frame.index.Writable()
      requires cursor.Position() == IndexOrigin(frame, at)
      modifies this, ws, cursor
      ensures index != null && fresh(index) && header == old(header) && data == old(data)
      ensures index.cellMapping == IndexLevels(frame.index, IndexOrigin(frame, at))
      ensures ws.log == old(ws.log) + IndexEvents(frame.index, IndexOrigin(frame, at))
      ensures cursor.Position() == DataOrigin(frame, at)
    {
      var x := new TableIndex(frame.index);
      x.Write(ws, cursor);
      index := x;
    }

    /** `self._data = TableData(df)` and its write. */
    method WriteData(ws: Worksheet, cursor: Cursor, ghost at: Coord)
      requires cursor.Position() == DataOrigin(frame, at)
      modifies this, ws, cursor
      ensures data != null && fresh(data) && header == old(header) && index == old(index)
      ensures data.cellMapping == DataBlock(DataOrigin(frame, at), frame.Rows(), frame.Cols())
      ensures ws.log == old(ws.log) + DataEvents(DataOrigin(frame, at), frame.Rows(), frame.Cols())
      ensures cursor.Position() == Reach(at, Extent(frame))
    {
      var d := new TableData(frame);
      d.Write(ws, cursor);
      data := d;
    }

    /** The index below the header and the data block to its right. */
    method WriteBody(ws: Worksheet, cursor: Cursor, ghost at: Coord)
      requires frame.index.Writable()
      requires cursor.Position() == IndexOrigin(frame, at)
      modifies this, ws, cursor
      ensures index != null && data != null && fresh(index) && fresh(data) && header == old(header)
      ensures index.cellMapping == IndexLevels(frame.index, IndexOrigin(frame, at))
      ensures data.cellMapping == DataBlock(DataOrigin(frame, at), frame.Rows(), frame.Cols())
      ensures ws.log == old(ws.log) + IndexEvents(frame.index, IndexOrigin(frame, at))
                      + DataEvents(DataOrigin(frame, at), frame.Rows(), frame.Cols())
      ensures cursor.Position() == Reach(at, Extent(frame))
    {
      WriteIndex(ws, cursor, at);
      WriteData(ws, cursor, at);
    }

    /** Writes the whole table from the cursor and leaves the cursor at the
        corner below and right of it. The title and column-width hooks are
        no-ops and write nothing. */
    method Write(ws: Worksheet, cursor: Cursor) returns (result: Cursor)
      requires frame.Writable()
      modifies this, ws, cursor
      ensures result == cursor
      ensures header != null && index != null && data != null
      ensures fresh(header) && fresh(index) && fresh(data)
      ensures header.cellMapping == HeaderLevels(frame.index, frame.columns, old(cursor.Position()))
      ensures index.cellMapping == IndexLevels(frame.index, IndexOrigin(frame, old(cursor.Position())))
      ensures data.cellMapping == DataBlock(DataOrigin(frame, old(cursor.Position())), frame.Rows(), frame.Cols())
      ensures cursor.Position() == Reach(old(cursor.Position()), Extent(frame))
      ensures ws.log == old(ws.log) + HeaderEvents(frame.index, frame.columns, old(cursor.Position()))
                      + IndexEvents(frame.index, IndexOrigin(frame, old(cursor.Position())))
                      + DataEvents(DataOrigin(frame, old(cursor.Position())), frame.Rows(), frame.Cols())
    {
      ghost var at := cursor.Position();
      WriteHeader(ws, cursor, at);
      WriteBody(ws, cursor, at);
      result := cursor;
    }
  }
}
