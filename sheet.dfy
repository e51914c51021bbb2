/** The layout engine. A sheet keeps a frontier cursor: the component-wise
    maximum of the origin and of every group end reported to it. It hands
    out groups anchored to the right of or below that frontier. A group
    places each element to the right of or below its own end, and its end
    becomes the cursor the element finished at: the last write wins, it is
    not a maximum over the group's elements. */
module Sheets {
  import opened Grid
  import opened AxisMapping
  import opened Tables

  /** Where a new element goes. `Other` stands for an argument that is
      neither enum member and that `%` does not treat as a mapping (an int,
      a string, a non-empty tuple, None), which the layout rejects. */
  datatype Side = Right | Bottom | Other

  /** The exception a rejected side raises. */
  datatype Error = ValueError | TypeError

  datatype Result<T> = Success(value: T) | Failure(error: Error)

  /** The outcome of an operation that returns nothing on success. */
  datatype Status = Done | Failed(error: Error)

  /** `a` is at or below `b` and at or right of it. */
  predicate Dominates(a: Coord, b: Coord)
  {
    a.row >= b.row && a.col >= b.col
  }

  /** Python's `max` on two integers. */
  function Max(a: int, b: int): int
  {
    if a >= b then a else b
  }

  /** The frontier `f` after reporting the cursor `c`: it lies at or past
      both, and each of its components is one of theirs, so it is their
      least upper bound. */
  function Join(f: Coord, c: Coord): (r: Coord)
    ensures Dominates(r, f) && Dominates(r, c)
    ensures (r.row == f.row || r.row == c.row) && (r.col == f.col || r.col == c.col)
  {
    Coord(Max(f.row, c.row), Max(f.col, c.col))
  }

  /** Anything at or past both `f` and `c` is at or past their join. */
  lemma JoinLeast(f: Coord, c: Coord, u: Coord)
    requires Dominates(u, f) && Dominates(u, c)
    ensures Dominates(u, Join(f, c))
  {
  }

  /** Reporting the same cursor twice moves the frontier only once. */
  lemma JoinIdempotent(f: Coord, c: Coord)
    ensures Join(Join(f, c), c) == Join(f, c)
  {
  }

  /** Reporting the cursor that is already the frontier changes nothing. */
  lemma JoinSelf(f: Coord)
    ensures Join(f, f) == f
  {
  }

  /** The frontier of a fresh sheet, `Cursor()`. */
  const Origin := Coord(0, 0)

  /** The frontier after the sheet has been told of `ends`, in order. */
  ghost function Frontier(ends: seq<Coord>): Coord
  {
    if ends == [] then Origin else Join(Frontier(ends[..|ends| - 1]), ends[|ends| - 1])
  }

  /** The frontier lies at or past the origin and every end reported. */
  lemma {:induction false} FrontierBounds(ends: seq<Coord>)
    ensures Dominates(Frontier(ends), Origin)
    ensures forall k :: 0 <= k < |ends| ==> Dominates(Frontier(ends), ends[k])
  {
    if ends != [] {
      var prefix := ends[..|ends| - 1];
      FrontierBounds(prefix);
      forall k | 0 <= k < |ends| - 1
        ensures Dominates(Frontier(ends), ends[k])
      {
        assert ends[k] == prefix[k];
      }
    }
  }

  /** The frontier is the least such cell: anything at or past the origin
      and every end reported is at or past it. */
  lemma {:induction false} FrontierLeast(ends: seq<Coord>, u: Coord)
    requires Dominates(u, Origin)
    requires forall k :: 0 <= k < |ends| ==> Dominates(u, ends[k])
    ensures Dominates(u, Frontier(ends))
  {
    if ends != [] {
      var prefix := ends[..|ends| - 1];
      forall k | 0 <= k < |prefix|
        ensures Dominates(u, prefix[k])
      {
        assert prefix[k] == ends[k];
      }
      FrontierLeast(prefix, u);
      JoinLeast(Frontier(prefix), ends[|ends| - 1], u);
    }
  }

  /** Reporting more ends never moves the frontier back. */
  lemma FrontierGrows(ends: seq<Coord>, more: seq<Coord>)
    ensures Dominates(Frontier(ends + more), Frontier(ends))
  {
    var all := ends + more;
    FrontierBounds(all);
    forall k | 0 <= k < |ends|
      ensures Dominates(Frontier(all), ends[k])
    {
      assert all[k] == ends[k];
    }
    FrontierLeast(ends, Frontier(all));
  }

  /** Where `create_shape` starts a new group: on the first row, right of
      the frontier, or in the first column, below it; then moved by the
      margins. */
  function ShapeOrigin(side: Side, frontier: Coord, marginRows: int, marginCols: int): Coord
    requires side != Other
  {
    match side
    case Right => Coord(0 + marginRows, frontier.col + marginCols)
    case Bottom => Coord(frontier.row + marginRows, 0 + marginCols)
  }

  /** With margins that are not negative, a new group starts right of
      every element end reported so far (`Right`) or below every one of
      them (`Bottom`). */
  lemma ShapeClearsEnds(ends: seq<Coord>, side: Side, marginRows: int, marginCols: int)
    requires side != Other && marginRows >= 0 && marginCols >= 0
    ensures var at := ShapeOrigin(side, Frontier(ends), marginRows, marginCols);
      && Dominates(at, Origin)
      && (side == Right ==> forall k :: 0 <= k < |ends| ==> at.col >= ends[k].col)
      && (side == Bottom ==> forall k :: 0 <= k < |ends| ==> at.row >= ends[k].row)
  {
    FrontierBounds(ends);
  }

  /** Where `add` writes an element: level with the group's start and
      right of its end, or below its end and in line with its start; then
      moved by the margins. */
  function Anchor(side: Side, start: Coord, end: Coord, marginRows: int, marginCols: int): Coord
    requires side != Other
  {
    match side
    case Right => Coord(start.row + marginRows, end.col + marginCols)
    case Bottom => Coord(end.row + marginRows, start.col + marginCols)
  }

  /** With margins that are not negative and a group end at or past its
      start, a table written at the anchor ends at or past the start again,
      and lands on the requested side of the old end: its first column is
      at or right of the end (`Right`), its first row at or below it
      (`Bottom`). */
  lemma AnchorKeepsOrder(side: Side, start: Coord, end: Coord, marginRows: int, marginCols: int, frame: Frame)
    requires side != Other && marginRows >= 0 && marginCols >= 0
    requires Dominates(end, start)
    ensures var at := Anchor(side, start, end, marginRows, marginCols);
      && Dominates(at, start)
      && Dominates(Reach(at, Extent(frame)), start)
      && (side == Right ==> at.col >= end.col)
      && (side == Bottom ==> at.row >= end.row)
  {
    ExtentIsForward(frame);
  }

  /** How far any table moves the cursor is never negative. */
  lemma ExtentIsForward(frame: Frame)
    ensures Dominates(Extent(frame), Origin)
  {
  }

  /** A worksheet with a frontier cursor. `reported` is the ghost history
      of every cursor passed to `UpdateCursor`. */
  class Sheet {
    const worksheet: Worksheet
    const cursor: Cursor
    ghost var reported: seq<Coord>

    /** The frontier is the join of everything reported. */
    ghost predicate Valid()
      reads this, cursor
    {
      cursor.Position() == Frontier(reported)
    }

    /** A new sheet: a fresh worksheet (the workbook call that adds it is
        foreign) and a cursor at the origin. */
    constructor()
      ensures Valid() && reported == []
      ensures fresh(worksheet) && fresh(cursor) && worksheet.log == []
      ensures cursor.Position() == Origin
    {
      worksheet := new Worksheet();
      cursor := new Cursor();
      reported := [];
    }

    /** Moves the frontier to its join with `c`. */
    method UpdateCursor(c: Cursor)
      requires Valid()
      modifies this, cursor
      ensures Valid()
      ensures reported == old(reported) + [old(c.Position())]
      ensures cursor.Position() == Join(old(cursor.Position()), old(c.Position()))
    {
      ghost var p := c.Position();
      cursor.row := Max(cursor.row, c.row);
      cursor.col := Max(cursor.col, c.col);
      reported := reported + [p];
      assert reported[..|reported| - 1] == old(reported);
    }

    /** A new group whose start (and end) is `ShapeOrigin(side, ...)` for
        the current frontier; a side that is neither member is a
        `ValueError`. The sheet itself does not change. */
    method CreateShape(side: Side := Right, marginRows: int := 0, marginCols: int := 0) returns (r: Result<Group>)
      requires Valid()
      ensures r.Success? <==> side != Other
      ensures r.Failure? ==> r.error == ValueError
      ensures r.Success? ==>
                && fresh(r.value) && fresh(r.value.start) && fresh(r.value.end)
                && r.value.sheet == this && r.value.Valid()
                && r.value.start.Position() == ShapeOrigin(side, cursor.Position(), marginRows, marginCols)
                && r.value.end.Position() == r.value.start.Position()
    {
      if side == Right {
        var g := AddRight(marginRows, marginCols);
        r := Success(g);
      } else if side == Bottom {
        var g := AddBottom(marginRows, marginCols);
        r := Success(g);
      } else {
        r := Failure(ValueError);
      }
    }

    /** A new group on the first row, right of the frontier. */
    method AddRight(marginRows: int, marginCols: int) returns (g: Group)
      requires Valid()
      ensures fresh(g) && fresh(g.start) && fresh(g.end) && g.sheet == this && g.Valid()
      ensures g.start.Position() == ShapeOrigin(Right, cursor.Position(), marginRows, marginCols)
      ensures g.end.Position() == g.start.Position()
    {
      var c := new Cursor(0 + marginRows, cursor.col + marginCols);
      g := new Group(this, c);
    }

    /** A new group in the first column, below the frontier. */
    method AddBottom(marginRows: int, marginCols: int) returns (g: Group)
      requires Valid()
      ensures fresh(g) && fresh(g.start) && fresh(g.end) && g.sheet == this && g.Valid()
      ensures g.start.Position() == ShapeOrigin(Bottom, cursor.Position(), marginRows, marginCols)
      ensures g.end.Position() == g.start.Position()
    {
      var c := new Cursor(cursor.row + marginRows, 0 + marginCols);
      g := new Group(this, c);
    }
  }

  /** Elements laid out together on a sheet, from a start cursor. The end
      cursor is where the last element finished. */
  class Group {
    const sheet: Sheet
    const start: Cursor
    var end: Cursor

    /** The sheet is consistent, and neither group cursor is the sheet's
        frontier or the other one: the end is a copy of the start, not an
        alias, and no write moves the start. */
    ghost predicate Valid()
      reads this, sheet, sheet.cursor
    {
      && sheet.Valid()
      && start != sheet.cursor && end != sheet.cursor && start != end
    }

    /** A group on `sheet` starting at `cursor`; the end starts as a copy. */
    constructor(sheet: Sheet, cursor: Cursor)
      requires sheet.Valid() && cursor != sheet.cursor
      ensures this.sheet == sheet && start == cursor && fresh(end)
      ensures end.Position() == cursor.Position()
      ensures Valid()
    {
      this.sheet := sheet;
      start := cursor;
      end := new Cursor(cursor.row, cursor.col);
    }

    /** The start and end cursors, themselves and not copies. */
    method GetCursors() returns (s: Cursor, e: Cursor)
      ensures s == start && e == end
    {
      s, e := start, end;
    }

    /** Writes `obj` at `Anchor(side, start, end, ...)`; the group end
        becomes the cursor the table finished at and the sheet's frontier
        takes it in. A side that is neither member fails before anything
        is written or moved (`TypeError`: for the arguments `Other` stands
        for, the message formatting fails before the intended `ValueError`
        is built). */
    method Add(obj: Table, side: Side := Right, marginRows: int := 0, marginCols: int := 0) returns (r: Status)
      requires Valid() && obj.frame.Writable()
      modifies this, sheet, sheet.cursor, sheet.worksheet, obj
      ensures Valid()
      ensures r.Done? <==> side != Other
      ensures r.Failed? ==> r.error == TypeError
      ensures r.Failed? ==>
                && end == old(end)
                && unchanged(sheet, sheet.cursor, sheet.worksheet, obj)
      ensures r.Done? ==>
                var at := Anchor(side, old(start.Position()), old(end.Position()), marginRows, marginCols);
                && fresh(end)
                && end.Position() == Reach(at, Extent(obj.frame))
                && sheet.reported == old(sheet.reported) + [end.Position()]
                && sheet.cursor.Position() == Join(old(sheet.cursor.Position()), end.Position())
                && sheet.worksheet.log == old(sheet.worksheet.log)
                     + HeaderEvents(obj.frame.index, obj.frame.columns, at)
                     + IndexEvents(obj.frame.index, IndexOrigin(obj.frame, at))
                     + DataEvents(DataOrigin(obj.frame, at), obj.frame.Rows(), obj.frame.Cols())
                && obj.header != null && obj.index != null && obj.data != null
                && obj.header.cellMapping == HeaderLevels(obj.frame.index, obj.frame.columns, at)
                && obj.index.cellMapping == IndexLevels(obj.frame.index, IndexOrigin(obj.frame, at))
                && obj.data.cellMapping == DataBlock(DataOrigin(obj.frame, at), obj.frame.Rows(), obj.frame.Cols())
      ensures start.Position() == old(start.Position())
    {
      if side == Right {
        AddRight(obj, marginRows, marginCols);
        r := Done;
      } else if side == Bottom {
        AddBottom(obj, marginRows, marginCols);
        r := Done;
      } else {
        r := Failed(TypeError);
      }
    }

    /** Writes `obj` level with the start, right of the end. */
    method AddRight(obj: Table, marginRows: int, marginCols: int)
      requires Valid() && obj.frame.Writable()
      modifies this, sheet, sheet.cursor, sheet.worksheet, obj
      ensures Valid()
      ensures var at := Anchor(Right, old(start.Position()), old(end.Position()), marginRows, marginCols);
                && fresh(end)
                && end.Position() == Reach(at, Extent(obj.frame))
                && sheet.reported == old(sheet.reported) + [end.Position()]
                && sheet.cursor.Position() == Join(old(sheet.cursor.Position()), end.Position())
                && sheet.worksheet.log == old(sheet.worksheet.log)
                     + HeaderEvents(obj.frame.index, obj.frame.columns, at)
                     + IndexEvents(obj.frame.index, IndexOrigin(obj.frame, at))
                     + DataEvents(DataOrigin(obj.frame, at), obj.frame.Rows(), obj.frame.Cols())
                && obj.header != null && obj.index != null && obj.data != null
                && obj.header.cellMapping == HeaderLevels(obj.frame.index, obj.frame.columns, at)
                && obj.index.cellMapping == IndexLevels(obj.frame.index, IndexOrigin(obj.frame, at))
                && obj.data.cellMapping == DataBlock(DataOrigin(obj.frame, at), obj.frame.Rows(), obj.frame.Cols())
      ensures start.Position() == old(start.Position())
    {
      var objCursor := new Cursor(start.row + marginRows, end.col + marginCols);
      WriteObject(objCursor, obj);
    }

    /** Writes `obj` below the end, in line with the start. */
    method AddBottom(obj: Table, marginRows: int, marginCols: int)
      requires Valid() && obj.frame.Writable()
      modifies this, sheet, sheet.cursor, sheet.worksheet, obj
      ensures Valid()
      ensures var at := Anchor(Bottom, old(start.Position()), old(end.Position()), marginRows, marginCols);
                && fresh(end)
                && end.Position() == Reach(at, Extent(obj.frame))
                && sheet.reported == old(sheet.reported) + [end.Position()]
                && sheet.cursor.Position() == Join(old(sheet.cursor.Position()), end.Position())
                && sheet.worksheet.log == old(sheet.worksheet.log)
                     + HeaderEvents(obj.frame.index, obj.frame.columns, at)
                     + IndexEvents(obj.frame.index, IndexOrigin(obj.frame, at))
                     + DataEvents(DataOrigin(obj.frame, at), obj.frame.Rows(), obj.frame.Cols())
                && obj.header != null && obj.index != null && obj.data != null
                && obj.header.cellMapping == HeaderLevels(obj.frame.index, obj.frame.columns, at)
                && obj.index.cellMapping == IndexLevels(obj.frame.index, IndexOrigin(obj.frame, at))
                && obj.data.cellMapping == DataBlock(DataOrigin(obj.frame, at), obj.frame.Rows(), obj.frame.Cols())
      ensures start.Position() == old(start.Position())
    {
      var objCursor := new Cursor(end.row + marginRows, start.col + marginCols);
      WriteObject(objCursor, obj);
    }

    /** Writes `element` from `objCursor`, which the write advances, and
        makes that cursor the group end. */
    method WriteObject(objCursor: Cursor, element: Table)
      requires Valid() && element.frame.Writable()
      requires objCursor != sheet.cursor && objCursor != start
      modifies this, sheet, sheet.cursor, sheet.worksheet, element, objCursor
      ensures Valid()
      ensures end == objCursor
      ensures var at := old(objCursor.Position());
                && end.Position() == Reach(at, Extent(element.frame))
                && sheet.reported == old(sheet.reported) + [end.Position()]
                && sheet.cursor.Position() == Join(old(sheet.cursor.Position()), end.Position())
                && sheet.worksheet.log == old(sheet.worksheet.log)
                     + HeaderEvents(element.frame.index, element.frame.columns, at)
                     + IndexEvents(element.frame.index, IndexOrigin(element.frame, at))
                     + DataEvents(DataOrigin(element.frame, at), element.frame.Rows(), element.frame.Cols())
                && element.header != null && element.index != null && element.data != null
                && element.header.cellMapping == HeaderLevels(element.frame.index, element.frame.columns, at)
                && element.index.cellMapping == IndexLevels(element.frame.index, IndexOrigin(element.frame, at))
                && element.data.cellMapping == DataBlock(DataOrigin(element.frame, at), element.frame.Rows(), element.frame.Cols())
      ensures start.Position() == old(start.Position())
    {
      var _ := element.Write(sheet.worksheet, objCursor);
      UpdateCursorEnd(objCursor);
    }

    /** The group end becomes `objCursor` itself, whatever it was before,
        and the sheet's frontier takes it in. */
    method UpdateCursorEnd(objCursor: Cursor)
      requires sheet.Valid() && objCursor != sheet.cursor && objCursor != start && start != sheet.cursor
      modifies this, sheet, sheet.cursor
      ensures Valid()
      ensures end == objCursor && objCursor.Position() == old(objCursor.Position())
      ensures sheet.reported == old(sheet.reported) + [objCursor.Position()]
      ensures sheet.cursor.Position() == Join(old(sheet.cursor.Position()), objCursor.Position())
    {
      end := objCursor;
      sheet.UpdateCursor(end);
    }
  }
}
