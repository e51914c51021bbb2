/** The grid every element is written onto: cell coordinates, the mutable
    cursor threaded through a write, and the worksheet it writes to.

    The worksheet is the spreadsheet writer's object; its effect on the
    document is foreign I/O, so the model keeps only a ghost, append-only
    log of the calls made on it, in call order. */
module Grid {

  type Label = string

  /** A cell position, as the `[row, col]` pairs the mappings hold. */
  datatype Coord = Coord(row: int, col: int)

  /** One call on the worksheet. `Value` is a write of the data cell at
      position (i, j) of the frame: numeric cell contents are opaque here,
      only where they land matters. */
  datatype Event =
    | Write(at: Coord, text: Label)
    | Merge(first: Coord, last: Coord, text: Label)
    | Value(at: Coord, i: nat, j: nat)

  class Worksheet {
    ghost var log: seq<Event>

    constructor()
      ensures log == []
    {
      log := [];
    }

    /** `worksheet.write(row, col, label, fmt)` for a label cell. */
    method WriteLabel(at: Coord, text: Label)
      modifies this
      ensures log == old(log) + [Event.Write(at, text)]
    {
      log := log + [Event.Write(at, text)];
    }

    /** `worksheet.merge_range(r1, c1, r2, c2, label, fmt)`. */
    method MergeRange(first: Coord, last: Coord, text: Label)
      modifies this
      ensures log == old(log) + [Merge(first, last, text)]
    {
      log := log + [Merge(first, last, text)];
    }

    /** `worksheet.write(row, col, value, fmt)` for the data cell (i, j). */
    method WriteValue(at: Coord, i: nat, j: nat)
      modifies this
      ensures log == old(log) + [Value(at, i, j)]
    {
      log := log + [Value(at, i, j)];
    }
  }

  /** The next free cell of a write in progress; every writer of one
      element advances the same instance. */
  class Cursor {
    var row: int
    var col: int

    constructor(row: int := 0, col: int := 0)
      ensures this.row == row && this.col == col
    {
      this.row := row;
      this.col := col;
    }

    function Position(): Coord
      reads this
    {
      Coord(row, col)
    }
  }
}
