module Scenarios {
  import opened Grid
  import opened Runs
  import opened AxisMapping
  import opened AxisProperties
  import opened Tables
  import opened Sheets

  /** The tuples of `MultiIndex.from_product([[a, b], [x, y, z]])`. */
  function Product(a: Label, b: Label, x: Label, y: Label, z: Label): seq<seq<Label>>
  {
    [[a, x], [a, y], [a, z], [b, x], [b, y], [b, z]]
  }

  /** Every test tuple has both levels. */
  lemma ProductReach(a: Label, b: Label, x: Label, y: Label, z: Label)
    ensures TuplesReach(Product(a, b, x, y, z), 2)
  {
  }

  /** Grouping by the first label keeps only the first label. */
  lemma ProductKeys(a: Label, b: Label, x: Label, y: Label, z: Label)
    ensures TuplesReach(Product(a, b, x, y, z), 1)
    ensures Keys(Product(a, b, x, y, z), 0) == [[a], [a], [a], [b], [b], [b]]
  {
    var t := Product(a, b, x, y, z);
    ProductReach(a, b, x, y, z);
    var ks := Keys(t, 0);
    assert |ks| == 6;
    assert ks[0] == [a] && ks[1] == [a] && ks[2] == [a];
    assert ks[3] == [b] && ks[4] == [b] && ks[5] == [b];
  }

  /** The first level has two runs of three. */
  lemma ProductRuns(a: Label, b: Label, x: Label, y: Label, z: Label)
    requires a != b
    ensures TuplesReach(Product(a, b, x, y, z), 1)
    ensures GroupBy(Keys(Product(a, b, x, y, z), 0)) == [Run([a], 0, 3), Run([b], 3, 3)]
  {
    ProductKeys(a, b, x, y, z);
    var ks := Keys(Product(a, b, x, y, z), 0);
    ScannedRun(ks, 0, 3);
    ScannedRun(ks, 3, 6);
  }

  lemma ProductLevel0(a: Label, b: Label, x: Label, y: Label, z: Label, d: Direction, line: int, base: int)
    requires a != b
    ensures TuplesReach(Product(a, b, x, y, z), 1)
    ensures LevelEntries(Product(a, b, x, y, z), 0, d, line, base) == [Place(d, line, base), Place(d, line, base + 3)]
  {
    ProductRuns(a, b, x, y, z);
    RunEntriesAt([Run([a], 0, 3), Run([b], 3, 3)], d, line, base);
  }

  lemma ProductLevel1(a: Label, b: Label, x: Label, y: Label, z: Label, d: Direction, line: int, base: int)
    requires a != b && x != y && y != z && z != x
    ensures TuplesReach(Product(a, b, x, y, z), 2)
    ensures LevelEntries(Product(a, b, x, y, z), 1, d, line, base)
         == [Place(d, line, base), Place(d, line, base + 1), Place(d, line, base + 2),
             Place(d, line, base + 3), Place(d, line, base + 4), Place(d, line, base + 5)]
  {
    var t := Product(a, b, x, y, z);
    ProductReach(a, b, x, y, z);
    DistinctTuplesOneEntryEach(t, 2, d, line, base);
    FlatEntriesAt(d, line, base, 6);
  }

  /** Both levels of the test tuples, the first on `line0`. */
  lemma ProductLevels(a: Label, b: Label, x: Label, y: Label, z: Label, d: Direction, line0: int, base: int)
    requires a != b && x != y && y != z && z != x
    ensures TuplesReach(Product(a, b, x, y, z), 2)
    ensures MultiLevels(Product(a, b, x, y, z), 2, d, line0, base)
         == [[Place(d, line0, base), Place(d, line0, base + 3)],
             [Place(d, line0 + 1, base), Place(d, line0 + 1, base + 1), Place(d, line0 + 1, base + 2),
              Place(d, line0 + 1, base + 3), Place(d, line0 + 1, base + 4), Place(d, line0 + 1, base + 5)]]
  {
    var t := Product(a, b, x, y, z);
    ProductLevel0(a, b, x, y, z, d, line0, base);
    ProductLevel1(a, b, x, y, z, d, line0 + 1, base);
    var m := MultiLevels(t, 2, d, line0, base);
    assert m[0] == LevelEntries(t, 0, d, line0, base);
    assert m[1] == LevelEntries(t, 1, d, line0 + 1, base);
  }

  /** The tuples of `MultiIndex.from_product([outer, inner])`: each outer
      label paired with every inner label in turn. */
  function FromProduct(outer: seq<Label>, inner: seq<Label>): seq<seq<Label>>
  {
    if outer == [] then []
    else seq(|inner|, j requires 0 <= j < |inner| => [outer[0], inner[j]]) + FromProduct(outer[1..], inner)
  }

  /** `x` repeated `n` times. */
  function Repeated<K>(x: K, n: nat): seq<K>
  {
    seq(n, _ => x)
  }

  /** The level-0 keys of a product: each outer label, as a one-label key,
      `n` times in a row. */
  function OuterKeys(outer: seq<Label>, n: nat): seq<seq<Label>>
  {
    if outer == [] then [] else Repeated([outer[0]], n) + OuterKeys(outer[1..], n)
  }

  /** A product has one tuple per pair of labels. */
  lemma {:induction false} FromProductLength(outer: seq<Label>, inner: seq<Label>)
    ensures |FromProduct(outer, inner)| == |outer| * |inner|
  {
    if outer != [] {
      FromProductLength(outer[1..], inner);
      assert |outer| * |inner| == |inner| + |outer[1..]| * |inner|;
    }
  }

  /** Every product tuple has both levels, and grouping it by its first
      label gives the outer keys. */
  lemma {:induction false} FromProductKeys(outer: seq<Label>, inner: seq<Label>)
    ensures forall t :: t in FromProduct(outer, inner) ==> |t| == 2
    ensures TuplesReach(FromProduct(outer, inner), 2)
    ensures Keys(FromProduct(outer, inner), 0) == OuterKeys(outer, |inner|)
  {
    if outer != [] {
      FromProductKeys(outer[1..], inner);
      var block := seq(|inner|, j requires 0 <= j < |inner| => [outer[0], inner[j]]);
      var rest := FromProduct(outer[1..], inner);
      var t := FromProduct(outer, inner);
      assert t == block + rest;
      var ks := Keys(t, 0);
      var expected := OuterKeys(outer, |inner|);
      assert expected == Repeated([outer[0]], |inner|) + OuterKeys(outer[1..], |inner|);
      forall p | 0 <= p < |ks|
        ensures ks[p] == expected[p]
      {
        if p >= |inner| {
          assert t[p] == rest[p - |inner|];
        }
      }
    }
  }

  /** A block of equal keys followed by keys that start differently adds
      exactly one run. */
  lemma BlockAddsOneRun<K>(x: K, n: nat, ks: seq<K>)
    requires 1 <= n
    requires ks != [] ==> ks[0] != x
    ensures |GroupBy(Repeated(x, n) + ks)| == 1 + |GroupBy(ks)|
  {
    var all := Repeated(x, n) + ks;
    if ks != [] {
      assert all[n] == ks[0];
    }
    ScannedRun(all, 0, n);
    RunCountShift(Repeated(x, n), ks, 0);
  }

  /** With neighbouring outer labels distinct, the outer keys form one run
      per outer label. */
  lemma {:induction false} OuterKeysRuns(outer: seq<Label>, n: nat)
    requires 1 <= n
    requires forall p :: 0 < p < |outer| ==> outer[p - 1] != outer[p]
    ensures |GroupBy(OuterKeys(outer, n))| == |outer|
  {
    if outer != [] {
      var tail := outer[1..];
      OuterKeysRuns(tail, n);
      var rest := OuterKeys(tail, n);
      if tail != [] {
        assert rest == Repeated([tail[0]], n) + OuterKeys(tail[1..], n);
        assert rest[0] == [outer[1]];
        assert outer[0] != outer[1];
      }
      BlockAddsOneRun([outer[0]], n, rest);
    }
  }

  /** The first header row (or index column) of an `a` by `b` product has
      `a` entries: one merged run per outer label. */
  lemma ProductLevel0Count(outer: seq<Label>, inner: seq<Label>, d: Direction, line: int, base: int)
    requires 1 <= |inner|
    requires forall p :: 0 < p < |outer| ==> outer[p - 1] != outer[p]
    ensures TuplesReach(FromProduct(outer, inner), 1)
    ensures |LevelEntries(FromProduct(outer, inner), 0, d, line, base)| == |outer|
  {
    FromProductKeys(outer, inner);
    OuterKeysRuns(outer, |inner|);
    RunEntriesAt(GroupBy(Keys(FromProduct(outer, inner), 0)), d, line, base);
  }

  /** No two neighbouring product tuples are equal when neither the outer
      nor the inner labels repeat a neighbour. */
  lemma {:induction false} FromProductNeighbours(outer: seq<Label>, inner: seq<Label>)
    requires 1 <= |inner|
    requires forall p :: 0 < p < |outer| ==> outer[p - 1] != outer[p]
    requires forall p :: 0 < p < |inner| ==> inner[p - 1] != inner[p]
    ensures forall p :: 0 < p < |FromProduct(outer, inner)| ==> FromProduct(outer, inner)[p - 1] != FromProduct(outer, inner)[p]
  {
    if outer != [] {
      var tail := outer[1..];
      FromProductNeighbours(tail, inner);
      var block := seq(|inner|, j requires 0 <= j < |inner| => [outer[0], inner[j]]);
      var rest := FromProduct(tail, inner);
      var t := FromProduct(outer, inner);
      assert t == block + rest;
      forall p | 0 < p < |t|
        ensures t[p - 1] != t[p]
      {
        if p < |block| {
          assert t[p - 1][1] == inner[p - 1] && t[p][1] == inner[p];
        } else if p == |block| {
          assert rest == seq(|inner|, j requires 0 <= j < |inner| => [tail[0], inner[j]]) + FromProduct(tail[1..], inner);
          assert t[p - 1][0] == outer[0] && t[p][0] == outer[1];
        } else {
          assert t[p - 1] == rest[p - 1 - |block|] && t[p] == rest[p - |block|];
        }
      }
    }
  }

  /** The second header row (or index column) of an `a` by `b` product has
      `a * b` entries, one cell per position, as a flat axis would. */
  lemma ProductLevel1Count(outer: seq<Label>, inner: seq<Label>, d: Direction, line: int, base: int)
    requires 1 <= |inner|
    requires forall p :: 0 < p < |outer| ==> outer[p - 1] != outer[p]
    requires forall p :: 0 < p < |inner| ==> inner[p - 1] != inner[p]
    ensures TuplesReach(FromProduct(outer, inner), 2)
    ensures LevelEntries(FromProduct(outer, inner), 1, d, line, base)
         == FlatEntries(d, line, base, |FromProduct(outer, inner)|)
    ensures |LevelEntries(FromProduct(outer, inner), 1, d, line, base)| == |outer| * |inner|
  {
    var t := FromProduct(outer, inner);
    FromProductKeys(outer, inner);
    FromProductNeighbours(outer, inner);
    DistinctTuplesOneEntryEach(t, 2, d, line, base);
    FlatEntriesAt(d, line, base, |t|);
    FromProductLength(outer, inner);
  }

  /** The axes of the test frames. */
  function Cities(): seq<seq<Label>>
  {
    Product("Moscow", "Krasnoyarsk", "Population", "Young", "Old")
  }

  function Letters(): Axis
  {
    Flat([""], ["a", "b", "c", "d", "e"])
  }

  /** A 3 by 3 frame with flat, unnamed axes. */
  function Small(): Frame
  {
    Frame(Flat([""], ["1", "2", "3"]), Flat([""], ["a", "b", "c"]))
  }

  /** A two-level header of the product tuples over an index with one name,
      from `at`: two runs on the first row and six single cells on the
      second, both from the column right of the index name. */
  lemma ProductHeaderLevels(a: Label, b: Label, x: Label, y: Label, z: Label, index: Axis, names: seq<Label>, at: Coord)
    requires a != b && x != y && y != z && z != x
    requires |index.names| == 1 && |names| == 2
    ensures Multi(names, Product(a, b, x, y, z)).Writable()
    ensures var row, col := at.row, at.col + 1;
      HeaderLevels(index, Multi(names, Product(a, b, x, y, z)), at)
         == [[Coord(row, col), Coord(row, col + 3)],
             [Coord(row + 1, col), Coord(row + 1, col + 1), Coord(row + 1, col + 2),
              Coord(row + 1, col + 3), Coord(row + 1, col + 4), Coord(row + 1, col + 5)]]
  {
    var col := at.col + |index.names|;
    assert col == at.col + 1;
    var tuples := Product(a, b, x, y, z);
    ProductLevels(a, b, x, y, z, Across, at.row, col);
    assert HeaderLevels(index, Multi(names, tuples), at) == MultiLevels(tuples, |names|, Across, at.row, col);
  }

  /** A two-level index of the product tuples from `at`: two runs down the
      first column and six single cells down the second. */
  lemma ProductIndexLevels(a: Label, b: Label, x: Label, y: Label, z: Label, names: seq<Label>, at: Coord)
    requires a != b && x != y && y != z && z != x
    requires |names| == 2
    ensures Multi(names, Product(a, b, x, y, z)).Writable()
    ensures var row, col := at.row, at.col;
      IndexLevels(Multi(names, Product(a, b, x, y, z)), at)
         == [[Coord(row, col), Coord(row + 3, col)],
             [Coord(row, col + 1), Coord(row + 1, col + 1), Coord(row + 2, col + 1),
              Coord(row + 3, col + 1), Coord(row + 4, col + 1), Coord(row + 5, col + 1)]]
  {
    ProductLevels(a, b, x, y, z, Down, at.col, at.row);
  }

  /** What the data test expects of a 3 by 3 block from the origin. */
  lemma SmallBlock()
    ensures DataBlock(Coord(0, 0), 3, 3)
         == [[Coord(0, 0), Coord(0, 1), Coord(0, 2)],
             [Coord(1, 0), Coord(1, 1), Coord(1, 2)],
             [Coord(2, 0), Coord(2, 1), Coord(2, 2)]]
  {
    var b := DataBlock(Coord(0, 0), 3, 3);
    DataBlockAt(Coord(0, 0), 3, 3);
    assert b[0] == [Coord(0, 0), Coord(0, 1), Coord(0, 2)];
    assert b[1] == [Coord(1, 0), Coord(1, 1), Coord(1, 2)];
    assert b[2] == [Coord(2, 0), Coord(2, 1), Coord(2, 2)];
  }

  /** A two-level header over a flat index, written from the origin: two
      runs on the first row, six single cells on the second, both starting
      right of the one index-name column; the cursor ends two rows down. */
  method MultiHeaders() returns (mapping: seq<seq<Coord>>, at: Coord)
    ensures mapping == [[Coord(0, 1), Coord(0, 4)],
                        [Coord(1, 1), Coord(1, 2), Coord(1, 3), Coord(1, 4), Coord(1, 5), Coord(1, 6)]]
    ensures at == Coord(2, 0)
  {
    var ws := new Worksheet();
    var cursor := new Cursor();
    var index, columns := Letters(), Multi(["location", "stats"], Cities());
    ProductHeaderLevels("Moscow", "Krasnoyarsk", "Population", "Young", "Old", index, columns.names, cursor.Position());
    var header := new TableHeader(index, columns);
    header.Write(ws, cursor);
    mapping, at := header.cellMapping, cursor.Position();
  }

  /** A two-level index written from the origin: two runs down the first
      column, six single cells down the second; the cursor ends two
      columns across. */
  method MultiIndex() returns (mapping: seq<seq<Coord>>, at: Coord)
    ensures mapping == [[Coord(0, 0), Coord(3, 0)],
                        [Coord(0, 1), Coord(1, 1), Coord(2, 1), Coord(3, 1), Coord(4, 1), Coord(5, 1)]]
    ensures at == Coord(0, 2)
  {
    var ws := new Worksheet();
    var cursor := new Cursor();
    var axis := Multi(["location", "stats"], Cities());
    ProductIndexLevels("Moscow", "Krasnoyarsk", "Population", "Young", "Old", axis.names, cursor.Position());
    var index := new TableIndex(axis);
    index.Write(ws, cursor);
    mapping, at := index.cellMapping, cursor.Position();
  }

  /** A 3 by 3 data block written from the origin. */
  method Data() returns (mapping: seq<seq<Coord>>, at: Coord)
    ensures mapping == [[Coord(0, 0), Coord(0, 1), Coord(0, 2)],
                        [Coord(1, 0), Coord(1, 1), Coord(1, 2)],
                        [Coord(2, 0), Coord(2, 1), Coord(2, 2)]]
    ensures at == Coord(3, 3)
  {
    SmallBlock();
    var ws := new Worksheet();
    var cursor := new Cursor();
    var data := new TableData(Small());
    data.Write(ws, cursor);
    mapping, at := data.cellMapping, cursor.Position();
  }

  /** A whole 3 by 3 table from the origin ends at (4, 4). */
  method WholeTable() returns (at: Coord)
    ensures at == Coord(4, 4)
  {
    var ws := new Worksheet();
    var cursor := new Cursor();
    var table := new Table(Small());
    var _ := table.Write(ws, cursor);
    at := cursor.Position();
  }

  /** A frame of 3 rows and 3 columns with flat axes, as in the layout
      tests; its cell values play no part. */
  predicate ThreeByThree(frame: Frame)
  {
    frame.index.Flat? && frame.columns.Flat? && frame.Rows() == 3 && frame.Cols() == 3
  }

  /** `group.add(Table(frame), side)` for a 3 by 3 frame: the group end
      moves to where the table finished, four rows and four columns past
      its anchor, and the frontier takes it in. */
  method AddTable(group: Group, frame: Frame, side: Side)
    requires group.Valid() && ThreeByThree(frame) && side != Other
    modifies group, group.sheet, group.sheet.cursor, group.sheet.worksheet
    ensures group.Valid()
    ensures group.start.Position() == old(group.start.Position())
    ensures group.end.Position() == Reach(Anchor(side, old(group.start.Position()), old(group.end.Position()), 0, 0), Coord(4, 4))
    ensures group.sheet.cursor.Position() == Join(old(group.sheet.cursor.Position()), group.end.Position())
  {
    var table := new Table(frame);
    var status := group.Add(table, side);
  }

  /** One 3 by 3 table in a new group: the group end is where the table
      finished. */
  method GroupOneTable(frame: Frame) returns (end: Coord)
    requires ThreeByThree(frame)
    ensures end == Coord(4, 4)
  {
    var sheet := new Sheet();
    var r := sheet.CreateShape();
    var group := r.value;
    AddTable(group, frame, Right);
    end := group.end.Position();
  }

  /** A second table to the right of the first. */
  method GroupTwoAcross(frame: Frame) returns (end: Coord)
    requires ThreeByThree(frame)
    ensures end == Coord(4, 8)
  {
    var sheet := new Sheet();
    var r := sheet.CreateShape();
    var group := r.value;
    AddTable(group, frame, Right);
    AddTable(group, frame, Right);
    end := group.end.Position();
  }

  /** A second table below the first: the end is where the second table
      finished, not the farthest corner of the group. */
  method GroupTwoDown(frame: Frame) returns (end: Coord)
    requires ThreeByThree(frame)
    ensures end == Coord(8, 4)
  {
    var sheet := new Sheet();
    var r := sheet.CreateShape();
    var group := r.value;
    AddTable(group, frame, Right);
    AddTable(group, frame, Bottom);
    end := group.end.Position();
  }

  /** The sheet's frontier after one table. */
  method SheetOneTable(frame: Frame) returns (frontier: Coord)
    requires ThreeByThree(frame)
    ensures frontier == Coord(4, 4)
  {
    var sheet := new Sheet();
    var r := sheet.CreateShape();
    var group := r.value;
    AddTable(group, frame, Right);
    frontier := sheet.cursor.Position();
  }

  /** After one table in a first group, a second group created to the
      right starts level with the top, right of that table. */
  method SecondGroup(frame: Frame) returns (sheet: Sheet, group: Group)
    requires ThreeByThree(frame)
    ensures fresh(sheet) && fresh(sheet.cursor) && fresh(sheet.worksheet) && fresh(group)
    ensures group.Valid() && group.sheet == sheet
    ensures sheet.cursor.Position() == Coord(4, 4)
    ensures group.start.Position() == group.end.Position() == Coord(0, 4)
  {
    sheet := new Sheet();
    var r := sheet.CreateShape();
    var firstGroup := r.value;
    AddTable(firstGroup, frame, Right);
    r := sheet.CreateShape();
    group := r.value;
  }

  /** A second group starts right of the first one's table; a table in it
      moves the frontier across, and one below that moves it down. */
  method SheetTwoGroups(frame: Frame) returns (secondStart: Coord, afterRight: Coord, afterBottom: Coord)
    requires ThreeByThree(frame)
    ensures secondStart == Coord(0, 4)
    ensures afterRight == Coord(4, 8)
    ensures afterBottom == Coord(8, 8)
  {
    var sheet, group := SecondGroup(frame);
    var _, end := group.GetCursors();
    secondStart := end.Position();
    AddTable(group, frame, Right);
    afterRight := sheet.cursor.Position();
    AddTable(group, frame, Bottom);
    afterBottom := sheet.cursor.Position();
  }

  /** Creating a shape does not move the frontier, so two shapes created
      one after the other start at the same cell. */
  method TwoShapes(sheet: Sheet, side: Side, marginRows: int, marginCols: int) returns (first: Result<Coord>, second: Result<Coord>)
    requires sheet.Valid()
    ensures first == second
    ensures first.Success? <==> side != Other
  {
    var r := sheet.CreateShape(side, marginRows, marginCols);
    first := if r.Success? then Success(r.value.start.Position()) else Failure(r.error);
    r := sheet.CreateShape(side, marginRows, marginCols);
    second := if r.Success? then Success(r.value.start.Position()) else Failure(r.error);
  }
}
