/** What the table writers produce, as functions of their input: the label
    axes of a data frame, the per-level cell mapping written for an axis,
    and the worksheet calls made while writing it. The imperative writers in
    module Tables are proved to produce exactly these. */
module AxisMapping {
  import opened Grid
  import opened Runs

  /** A label axis of a data frame. `names` are the level names (a missing
      name is the empty label); a flat axis has one label per position, a
      hierarchical one a tuple with one label per level. */
  datatype Axis =
    | Flat(names: seq<Label>, labels: seq<Label>)
    | Multi(names: seq<Label>, tuples: seq<seq<Label>>)
  {
    function Length(): nat
    {
      if Flat? then |labels| else |tuples|
    }

    /** How many header rows or index columns the axis occupies. */
    function Levels(): nat
    {
      if Flat? then 1 else |names|
    }

    /** What the writers need of an axis: every tuple has a label for each
        level the axis declares. */
    predicate Writable()
    {
      Multi? ==> forall t :: t in tuples ==> |names| <= |t|
    }

    /** What the data frame library guarantees of an axis: a flat axis has
        one (possibly empty) name, a hierarchical one at least one level and
        tuples of exactly that many labels. */
    predicate WellFormed()
    {
      match this
      case Flat(names, _) => |names| == 1
      case Multi(names, tuples) => 1 <= |names| && forall t :: t in tuples ==> |t| == |names|
    }
  }

  /** A data frame reduced to its two axes: its cells are `Rows()` by
      `Cols()` opaque values. */
  datatype Frame = Frame(index: Axis, columns: Axis)
  {
    predicate Writable()
    {
      index.Writable() && columns.Writable()
    }

    predicate WellFormed()
    {
      index.WellFormed() && columns.WellFormed()
    }

    function Rows(): nat
    {
      index.Length()
    }

    function Cols(): nat
    {
      columns.Length()
    }
  }

  /** A header lays its labels across a row, one row per level; an index
      lays them down a column, one column per level. */
  datatype Direction = Across | Down

  /** The cell at `offset` along the line `line` (a row when `Across`, a
      column when `Down`). */
  function Place(d: Direction, line: int, offset: int): Coord
  {
    match d
    case Across => Coord(line, offset)
    case Down => Coord(offset, line)
  }

  function LineOf(d: Direction, c: Coord): int
  {
    match d
    case Across => c.row
    case Down => c.col
  }

  function OffsetOf(d: Direction, c: Coord): int
  {
    match d
    case Across => c.col
    case Down => c.row
  }

  predicate TuplesReach(tuples: seq<seq<Label>>, n: nat)
  {
    forall t :: t in tuples ==> n <= |t|
  }

  /** The grouping key of each position at `level`: its first `level + 1`
      labels. */
  function Keys(tuples: seq<seq<Label>>, level: nat): seq<seq<Label>>
    requires TuplesReach(tuples, level + 1)
  {
    seq(|tuples|, i requires 0 <= i < |tuples| => tuples[i][..level + 1])
  }

  /** The label of a grouping key at `level`: every key of that level has
      one (the empty label stands in where it would be missing). */
  function LabelAt(key: seq<Label>, level: nat): Label
  {
    if level < |key| then key[level] else ""
  }

  /** The mapping entry of each run: the cell where it starts. */
  function RunEntries(rs: seq<Run<seq<Label>>>, d: Direction, line: int, base: int): seq<Coord>
  {
    if rs == [] then [] else [Place(d, line, base + rs[0].start)] + RunEntries(rs[1..], d, line, base)
  }

  /** The worksheet call for one run: a plain write for a run of one cell,
      a merged range over the run otherwise, labelled with the run's label
      at `level`. */
  function RunEvent(r: Run<seq<Label>>, level: nat, d: Direction, line: int, base: int): Event
  {
    var first := base + r.start;
    var last := first + (r.len - 1);
    if first == last then Write(Place(d, line, first), LabelAt(r.key, level))
    else Merge(Place(d, line, first), Place(d, line, last), LabelAt(r.key, level))
  }

  function RunEvents(rs: seq<Run<seq<Label>>>, level: nat, d: Direction, line: int, base: int): seq<Event>
  {
    if rs == [] then [] else [RunEvent(rs[0], level, d, line, base)] + RunEvents(rs[1..], level, d, line, base)
  }

  /** The mapping of one level of a hierarchical axis written on `line`
      from offset `base`. */
  function LevelEntries(tuples: seq<seq<Label>>, level: nat, d: Direction, line: int, base: int): seq<Coord>
    requires TuplesReach(tuples, level + 1)
  {
    RunEntries(GroupBy(Keys(tuples, level)), d, line, base)
  }

  function LevelEvents(tuples: seq<seq<Label>>, level: nat, d: Direction, line: int, base: int): seq<Event>
    requires TuplesReach(tuples, level + 1)
  {
    RunEvents(GroupBy(Keys(tuples, level)), level, d, line, base)
  }

  /** The mapping of a flat axis of `n` labels: one entry per label. */
  function FlatEntries(d: Direction, line: int, base: int, n: nat): seq<Coord>
  {
    if n == 0 then [] else FlatEntries(d, line, base, n - 1) + [Place(d, line, base + n - 1)]
  }

  /** One plain write per label, in order, for the first `n` labels. */
  function FlatEvents(labels: seq<Label>, n: nat, d: Direction, line: int, base: int): seq<Event>
    requires n <= |labels|
  {
    if n == 0 then [] else FlatEvents(labels, n - 1, d, line, base) + [Write(Place(d, line, base + (n - 1)), labels[n - 1])]
  }

  /** The first `n` index names above a hierarchical header: each merged
      down over the `height` header rows, in its own column. */
  function NameMerges(names: seq<Label>, n: nat, row: int, col: int, height: int): seq<Event>
    requires n <= |names|
  {
    if n == 0 then []
    else NameMerges(names, n - 1, row, col, height) + [Merge(Coord(row, col + (n - 1)), Coord(row + (height - 1), col + (n - 1)), names[n - 1])]
  }

  /** The mapping of the first `n` levels of a hierarchical axis. */
  function MultiLevels(tuples: seq<seq<Label>>, n: nat, d: Direction, line0: int, base: int): seq<seq<Coord>>
    requires TuplesReach(tuples, n)
  {
    seq(n, level requires 0 <= level < n => LevelEntries(tuples, level, d, line0 + level, base))
  }

  /** The worksheet calls for the first `n` levels, level after level. */
  function MultiEvents(tuples: seq<seq<Label>>, n: nat, d: Direction, line0: int, base: int): seq<Event>
    requires TuplesReach(tuples, n)
  {
    if n == 0 then []
    else MultiEvents(tuples, n - 1, d, line0, base) + LevelEvents(tuples, n - 1, d, line0 + (n - 1), base)
  }

  /** The cell mapping written for an axis whose first level lies on
      `line0` and whose first position is at offset `base`. */
  function AxisLevels(axis: Axis, d: Direction, line0: int, base: int): seq<seq<Coord>>
    requires axis.Writable()
  {
    match axis
    case Flat(_, labels) => [FlatEntries(d, line0, base, |labels|)]
    case Multi(names, tuples) => MultiLevels(tuples, |names|, d, line0, base)
  }

  function AxisEvents(axis: Axis, d: Direction, line0: int, base: int): seq<Event>
    requires axis.Writable()
  {
    match axis
    case Flat(_, labels) => FlatEvents(labels, |labels|, d, line0, base)
    case Multi(names, tuples) => MultiEvents(tuples, |names|, d, line0, base)
  }

  // ---- the blocks of a table written from the cell `at` ----

  /** The header mapping: the column labels start to the right of the
      index-name cells. */
  function HeaderLevels(index: Axis, columns: Axis, at: Coord): seq<seq<Coord>>
    requires columns.Writable()
  {
    AxisLevels(columns, Across, at.row, at.col + |index.names|)
  }

  /** The header's worksheet calls: the index names (plain writes over a
      flat header, merged down over the header rows of a hierarchical one),
      then the column labels. */
  function HeaderEvents(index: Axis, columns: Axis, at: Coord): seq<Event>
    requires columns.Writable()
  {
    var names := index.names;
    (if columns.Flat? then FlatEvents(names, |names|, Across, at.row, at.col)
     else NameMerges(names, |names|, at.row, at.col, columns.Levels()))
    + AxisEvents(columns, Across, at.row, at.col + |names|)
  }

  /** The index mapping: level L in column `at.col + L`, from row `at.row`. */
  function IndexLevels(index: Axis, at: Coord): seq<seq<Coord>>
    requires index.Writable()
  {
    AxisLevels(index, Down, at.col, at.row)
  }

  function IndexEvents(index: Axis, at: Coord): seq<Event>
    requires index.Writable()
  {
    AxisEvents(index, Down, at.col, at.row)
  }

  /** The data mapping of the first `m` rows of `n` cells written from
      `at`: one row of the mapping per data row. */
  function DataBlock(at: Coord, m: nat, n: nat): seq<seq<Coord>>
  {
    if m == 0 then [] else DataBlock(at, m - 1, n) + [FlatEntries(Across, at.row + (m - 1), at.col, n)]
  }

  /** The writes of data row `i`'s first `n` cells, written on `row`. */
  function RowEvents(row: int, col: int, i: nat, n: nat): seq<Event>
  {
    if n == 0 then [] else RowEvents(row, col, i, n - 1) + [Value(Coord(row, col + (n - 1)), i, n - 1)]
  }

  /** The writes of the first `m` data rows of `n` cells, row after row. */
  function DataEvents(at: Coord, m: nat, n: nat): seq<Event>
  {
    if m == 0 then [] else DataEvents(at, m - 1, n) + RowEvents(at.row + (m - 1), at.col, m - 1, n)
  }

  /** How far a table moves the cursor: header rows and data rows down,
      index columns and data columns across. */
  function Extent(frame: Frame): Coord
  {
    Coord(frame.columns.Levels() + frame.Rows(), frame.index.Levels() + frame.Cols())
  }

  /** The cell `delta` rows and columns away from `c`. */
  function Reach(c: Coord, delta: Coord): Coord
  {
    Coord(c.row + delta.row, c.col + delta.col)
  }

  /** Where the index of a table written from `at` starts: below the
      header. */
  function IndexOrigin(frame: Frame, at: Coord): Coord
  {
    Coord(at.row + frame.columns.Levels(), at.col)
  }

  /** Where the data block of a table written from `at` starts: below the
      header and right of the index. */
  function DataOrigin(frame: Frame, at: Coord): Coord
  {
    Coord(at.row + frame.columns.Levels(), at.col + frame.index.Levels())
  }
}
