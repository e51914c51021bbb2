/** Properties of the cell mappings: how many levels and entries they have,
    where the entries lie, and which axis positions they stand for. */
module AxisProperties {
  import opened Grid
  import opened Runs
  import opened AxisMapping

  /** Entry j of a flat mapping is the j-th cell along the line. */
  lemma {:induction false} FlatEntriesAt(d: Direction, line: int, base: int, n: nat)
    ensures |FlatEntries(d, line, base, n)| == n
    ensures forall j :: 0 <= j < n ==> FlatEntries(d, line, base, n)[j] == Place(d, line, base + j)
  {
    if n > 0 {
      FlatEntriesAt(d, line, base, n - 1);
    }
  }

  /** The data mapping has `m` rows of `n` entries, entry [i][j] being the
      cell i rows below and j columns right of the block's corner. */
  lemma {:induction false} DataBlockAt(at: Coord, m: nat, n: nat)
    ensures |DataBlock(at, m, n)| == m
    ensures forall i :: 0 <= i < m ==> |DataBlock(at, m, n)[i]| == n
    ensures forall i, j :: 0 <= i < m && 0 <= j < n ==> DataBlock(at, m, n)[i][j] == Coord(at.row + i, at.col + j)
  {
    if m > 0 {
      DataBlockAt(at, m - 1, n);
      FlatEntriesAt(Across, at.row + (m - 1), at.col, n);
    }
  }

  /** Entry k of a level is the cell where its k-th run starts. */
  lemma {:induction false} RunEntriesAt(rs: seq<Run<seq<Label>>>, d: Direction, line: int, base: int)
    ensures |RunEntries(rs, d, line, base)| == |rs|
    ensures forall k :: 0 <= k < |rs| ==> RunEntries(rs, d, line, base)[k] == Place(d, line, base + rs[k].start)
  {
    if rs != [] {
      RunEntriesAt(rs[1..], d, line, base);
      var es := RunEntries(rs, d, line, base);
      forall k | 0 < k < |rs|
        ensures es[k] == Place(d, line, base + rs[k].start)
      {
        assert es[k] == RunEntries(rs[1..], d, line, base)[k - 1];
      }
    }
  }

  lemma {:induction false} RunEntriesMember(rs: seq<Run<seq<Label>>>, d: Direction, line: int, base: int, p: int)
    ensures Place(d, line, base + p) in RunEntries(rs, d, line, base) <==> p in Starts(rs)
  {
    if rs != [] {
      RunEntriesMember(rs[1..], d, line, base, p);
    }
  }

  /** The mapping of a level has one entry per run of equal keys, in order:
      entry k is the start of run k, the first run starts at `base`, each
      next run starts where the previous one ends, and the last one ends at
      `base` plus the axis length. */
  lemma LevelEntriesTile(tuples: seq<seq<Label>>, level: nat, d: Direction, line: int, base: int)
    requires TuplesReach(tuples, level + 1)
    ensures var rs := GroupBy(Keys(tuples, level));
      && GroupsOf(Keys(tuples, level), 0, rs)
      && |LevelEntries(tuples, level, d, line, base)| == |rs|
      && forall k :: 0 <= k < |rs| ==> LevelEntries(tuples, level, d, line, base)[k] == Place(d, line, base + rs[k].start)
  {
    RunsAreGroups(Keys(tuples, level), 0);
    RunEntriesAt(GroupBy(Keys(tuples, level)), d, line, base);
  }

  /** Call k of a level is the worksheet call for its k-th run. */
  lemma {:induction false} RunEventsAt(rs: seq<Run<seq<Label>>>, level: nat, d: Direction, line: int, base: int)
    ensures |RunEvents(rs, level, d, line, base)| == |rs|
    ensures forall k :: 0 <= k < |rs| ==> RunEvents(rs, level, d, line, base)[k] == RunEvent(rs[k], level, d, line, base)
  {
    if rs != [] {
      RunEventsAt(rs[1..], level, d, line, base);
      var es := RunEvents(rs, level, d, line, base);
      forall k | 0 < k < |rs|
        ensures es[k] == RunEvent(rs[k], level, d, line, base)
      {
        assert es[k] == RunEvents(rs[1..], level, d, line, base)[k - 1];
      }
    }
  }

  /** The worksheet calls of a level, one per run of equal keys and in
      order: a run of one position gets a single-cell write at its start, a
      longer run one merged range from its first to its last cell on the
      line; either way labelled with the level's component of the tuples
      in the run. */
  lemma LevelEventsTile(tuples: seq<seq<Label>>, level: nat, d: Direction, line: int, base: int)
    requires TuplesReach(tuples, level + 1)
    ensures var rs := GroupBy(Keys(tuples, level));
      var es := LevelEvents(tuples, level, d, line, base);
      && GroupsOf(Keys(tuples, level), 0, rs)
      && |es| == |rs|
      && (forall k :: 0 <= k < |rs| && rs[k].len == 1 ==>
            es[k] == Write(Place(d, line, base + rs[k].start), tuples[rs[k].start][level]))
      && (forall k :: 0 <= k < |rs| && rs[k].len > 1 ==>
            es[k] == Merge(Place(d, line, base + rs[k].start), Place(d, line, base + rs[k].start + rs[k].len - 1),
                           tuples[rs[k].start][level]))
      && (forall k, p :: 0 <= k < |rs| && rs[k].start <= p < rs[k].start + rs[k].len ==>
            tuples[p][level] == tuples[rs[k].start][level])
  {
    var ks := Keys(tuples, level);
    var rs := GroupBy(ks);
    var es := LevelEvents(tuples, level, d, line, base);
    RunsAreGroups(ks, 0);
    RunEventsAt(rs, level, d, line, base);
    forall k | 0 <= k < |rs|
      ensures rs[k].len == 1 ==> es[k] == Write(Place(d, line, base + rs[k].start), tuples[rs[k].start][level])
      ensures rs[k].len > 1 ==>
                es[k] == Merge(Place(d, line, base + rs[k].start), Place(d, line, base + rs[k].start + rs[k].len - 1),
                               tuples[rs[k].start][level])
    {
      LevelCallAt(tuples, level, d, line, base, k);
    }
    RunSharesLabel(tuples, level);
  }

  /** All tuples of a run of level `level` have the same label at that level. */
  lemma RunSharesLabel(tuples: seq<seq<Label>>, level: nat)
    requires TuplesReach(tuples, level + 1)
    ensures var rs := GroupBy(Keys(tuples, level));
      && GroupsOf(Keys(tuples, level), 0, rs)
      && forall k, p :: 0 <= k < |rs| && rs[k].start <= p < rs[k].start + rs[k].len ==>
           tuples[p][level] == tuples[rs[k].start][level]
  {
    var ks := Keys(tuples, level);
    var rs := GroupBy(ks);
    RunsAreGroups(ks, 0);
    forall k, p | 0 <= k < |rs| && rs[k].start <= p < rs[k].start + rs[k].len
      ensures tuples[p][level] == tuples[rs[k].start][level]
    {
      assert ks[p] == rs[k].key == ks[rs[k].start];
      assert tuples[p][level] == ks[p][level];
    }
  }

  /** Call k of a level, for either direction (so also down an index
      column): a single-cell write at the start of run k when the run has
      one position, otherwise a merged range from its first to its last
      cell, labelled with the level's component of the run's first tuple. */
  lemma LevelCallAt(tuples: seq<seq<Label>>, level: nat, d: Direction, line: int, base: int, k: nat)
    requires TuplesReach(tuples, level + 1)
    requires k < |GroupBy(Keys(tuples, level))|
    ensures var r := GroupBy(Keys(tuples, level))[k];
      var es := LevelEvents(tuples, level, d, line, base);
      && k < |es| && r.start < |tuples|
      && (r.len == 1 ==> es[k] == Write(Place(d, line, base + r.start), tuples[r.start][level]))
      && (r.len > 1 ==> es[k] == Merge(Place(d, line, base + r.start), Place(d, line, base + r.start + r.len - 1),
                                       tuples[r.start][level]))
  {
    var rs := GroupBy(Keys(tuples, level));
    RunsAreGroups(Keys(tuples, level), 0);
    RunEventsAt(rs, level, d, line, base);
    RunLabel(tuples, level, rs, k);
    RunCall(rs[k], tuples[rs[k].start][level], level, d, line, base);
  }

  /** The call for one run whose label is `text`. */
  lemma RunCall(r: Run<seq<Label>>, text: Label, level: nat, d: Direction, line: int, base: int)
    requires LabelAt(r.key, level) == text
    ensures r.len == 1 ==> RunEvent(r, level, d, line, base) == Write(Place(d, line, base + r.start), text)
    ensures r.len > 1 ==>
              RunEvent(r, level, d, line, base) == Merge(Place(d, line, base + r.start), Place(d, line, base + r.start + r.len - 1), text)
  {
  }

  lemma RunLabel(tuples: seq<seq<Label>>, level: nat, rs: seq<Run<seq<Label>>>, k: nat)
    requires TuplesReach(tuples, level + 1)
    requires rs == GroupBy(Keys(tuples, level)) && GroupsOf(Keys(tuples, level), 0, rs)
    requires k < |rs|
    ensures LabelAt(rs[k].key, level) == tuples[rs[k].start][level]
  {
    assert Keys(tuples, level)[rs[k].start] == rs[k].key;
  }

  /** A cell of the line is in the mapping of a level exactly when it is at
      the offset of a position whose first `level + 1` labels differ from
      those of the position before it (or of the first position). */
  lemma LevelEntryIff(tuples: seq<seq<Label>>, level: nat, d: Direction, line: int, base: int, p: int)
    requires TuplesReach(tuples, level + 1)
    ensures Place(d, line, base + p) in LevelEntries(tuples, level, d, line, base)
        <==> 0 <= p < |tuples| && (p == 0 || tuples[p - 1][..level + 1] != tuples[p][..level + 1])
  {
    var ks := Keys(tuples, level);
    RunEntriesMember(GroupBy(ks), d, line, base, p);
    GroupStartIff(ks, p);
  }

  /** Every entry of a mapping lies on its level's line. */
  lemma {:induction false} AxisLevelsShape(axis: Axis, d: Direction, line0: int, base: int)
    requires axis.Writable()
    ensures |AxisLevels(axis, d, line0, base)| == axis.Levels()
    ensures forall level, k :: 0 <= level < axis.Levels() && 0 <= k < |AxisLevels(axis, d, line0, base)[level]| ==>
              LineOf(d, AxisLevels(axis, d, line0, base)[level][k]) == line0 + level
    ensures axis.Flat? ==>
              && |AxisLevels(axis, d, line0, base)[0]| == |axis.labels|
              && (forall j :: 0 <= j < |axis.labels| ==> AxisLevels(axis, d, line0, base)[0][j] == Place(d, line0, base + j))
  {
    var m := AxisLevels(axis, d, line0, base);
    match axis
    case Flat(_, labels) =>
      FlatEntriesAt(d, line0, base, |labels|);
    case Multi(names, tuples) =>
      forall level, k | 0 <= level < |names| && 0 <= k < |m[level]|
        ensures LineOf(d, m[level][k]) == line0 + level
      {
        assert m[level] == LevelEntries(tuples, level, d, line0 + level, base);
        RunEntriesAt(GroupBy(Keys(tuples, level)), d, line0 + level, base);
      }
  }

  /** Positions with the same first `level + 2` labels have the same first
      `level + 1` labels. */
  lemma KeysRefine(tuples: seq<seq<Label>>, level: nat)
    requires TuplesReach(tuples, level + 2)
    ensures Refines(Keys(tuples, level + 1), Keys(tuples, level))
  {
    var coarse := Keys(tuples, level);
    var fine := Keys(tuples, level + 1);
    forall p, q | 0 <= p < |fine| && 0 <= q < |fine| && fine[p] == fine[q]
      ensures coarse[p] == coarse[q]
    {
      assert coarse[p] == fine[p][..level + 1];
      assert coarse[q] == fine[q][..level + 1];
    }
  }

  /** Grouping by one more label can only split runs, so the next level has
      at least as many entries. */
  lemma DeeperLevelHasMoreEntries(tuples: seq<seq<Label>>, level: nat, d: Direction, line: int, line': int, base: int)
    requires TuplesReach(tuples, level + 2)
    ensures |LevelEntries(tuples, level, d, line, base)| <= |LevelEntries(tuples, level + 1, d, line', base)|
  {
    KeysRefine(tuples, level);
    RefinedHasMoreRuns(Keys(tuples, level + 1), Keys(tuples, level), 0);
    RunEntriesAt(GroupBy(Keys(tuples, level)), d, line, base);
    RunEntriesAt(GroupBy(Keys(tuples, level + 1)), d, line', base);
  }

  /** Every entry of a level has an entry at the same offset on the next
      level: a merged cell is never split across the cells below it. */
  lemma DeeperLevelCoversEntries(tuples: seq<seq<Label>>, level: nat, d: Direction, line: int, line': int, base: int)
    requires TuplesReach(tuples, level + 2)
    ensures forall c :: c in LevelEntries(tuples, level, d, line, base) ==>
              Place(d, line', OffsetOf(d, c)) in LevelEntries(tuples, level + 1, d, line', base)
  {
    RunEntriesAt(GroupBy(Keys(tuples, level)), d, line, base);
    forall c | c in LevelEntries(tuples, level, d, line, base)
      ensures Place(d, line', OffsetOf(d, c)) in LevelEntries(tuples, level + 1, d, line', base)
    {
      var p := OffsetOf(d, c) - base;
      assert c == Place(d, line, base + p);
      DeeperLevelCoversOffset(tuples, level, d, line, line', base, p);
    }
  }

  /** A level with an entry at offset `p` has one at `p` on the next level
      too. */
  lemma DeeperLevelCoversOffset(tuples: seq<seq<Label>>, level: nat, d: Direction, line: int, line': int, base: int, p: int)
    requires TuplesReach(tuples, level + 2)
    ensures Place(d, line, base + p) in LevelEntries(tuples, level, d, line, base) ==>
            Place(d, line', base + p) in LevelEntries(tuples, level + 1, d, line', base)
  {
    LevelEntryIff(tuples, level, d, line, base, p);
    LevelEntryIff(tuples, level + 1, d, line', base, p);
    if 0 < p < |tuples| {
      assert tuples[p - 1] in tuples && tuples[p] in tuples;
      PrefixAgrees(tuples[p - 1], tuples[p], level);
    }
  }

  /** Sequences that agree on their first `n + 2` elements agree on their
      first `n + 1`. */
  lemma PrefixAgrees(s: seq<Label>, t: seq<Label>, n: nat)
    requires n + 2 <= |s| && n + 2 <= |t|
    ensures s[..n + 2] == t[..n + 2] ==> s[..n + 1] == t[..n + 1]
  {
    if s[..n + 2] == t[..n + 2] {
      assert s[..n + 1] == s[..n + 2][..n + 1];
      assert t[..n + 1] == t[..n + 2][..n + 1];
    }
  }

  /** When no two neighbouring tuples are equal, the deepest level has one
      entry per position, exactly as a flat axis of the same length. */
  lemma DistinctTuplesOneEntryEach(tuples: seq<seq<Label>>, depth: nat, d: Direction, line: int, base: int)
    requires 1 <= depth && forall t :: t in tuples ==> |t| == depth
    requires forall p :: 0 < p < |tuples| ==> tuples[p - 1] != tuples[p]
    ensures LevelEntries(tuples, depth - 1, d, line, base) == FlatEntries(d, line, base, |tuples|)
  {
    KeysAtFullDepth(tuples, depth);
    SingletonStarts(tuples);
    SingletonRunEntries(GroupBy(tuples), d, line, base);
  }

  /** With no two neighbours equal, run k of a grouping starts at k. */
  lemma SingletonStarts<K>(ks: seq<K>)
    requires forall p :: 0 < p < |ks| ==> ks[p - 1] != ks[p]
    ensures |GroupBy(ks)| == |ks|
    ensures forall k :: 0 <= k < |GroupBy(ks)| ==> GroupBy(ks)[k].start == k
  {
    DistinctNeighboursAreSingletons(ks, 0);
    var rs := GroupBy(ks);
    forall k | 0 <= k < |rs|
      ensures rs[k].start == k
    {
      assert rs[k] == Run(ks[0 + k], 0 + k, 1);
    }
  }

  /** Grouping by all `depth` labels groups by the whole tuple. */
  lemma KeysAtFullDepth(tuples: seq<seq<Label>>, depth: nat)
    requires 1 <= depth && forall t :: t in tuples ==> |t| == depth
    ensures Keys(tuples, depth - 1) == tuples
  {
    var ks := Keys(tuples, depth - 1);
    forall p | 0 <= p < |tuples|
      ensures ks[p] == tuples[p]
    {
      assert tuples[p] in tuples;
      assert tuples[p][..depth] == tuples[p];
    }
  }

  /** Runs that each start at their own position have the entries of a
      flat axis of that many labels. */
  lemma {:induction false} SingletonRunEntries(rs: seq<Run<seq<Label>>>, d: Direction, line: int, base: int)
    requires forall k :: 0 <= k < |rs| ==> rs[k].start == k
    ensures RunEntries(rs, d, line, base) == FlatEntries(d, line, base, |rs|)
  {
    var es := RunEntries(rs, d, line, base);
    var fs := FlatEntries(d, line, base, |rs|);
    RunEntriesAt(rs, d, line, base);
    FlatEntriesAt(d, line, base, |rs|);
    forall k | 0 <= k < |rs|
      ensures es[k] == fs[k]
    {
    }
  }

  /** Every entry of a mapping written across from `base` lies on its
      level's row and within the axis's columns; a flat axis has entry j at
      column `base + j`. */
  lemma AxisSpan(axis: Axis, row: int, base: int)
    requires axis.WellFormed()
    ensures var h := AxisLevels(axis, Across, row, base);
      && |h| == axis.Levels()
      && (axis.Flat? ==>
            |h[0]| == axis.Length() && forall j :: 0 <= j < axis.Length() ==> h[0][j] == Coord(row, base + j))
      && (forall level: int, c: Coord :: 0 <= level < |h| && c in h[level] ==>
            c.row == row + level && base <= c.col < base + axis.Length())
  {
    var h := AxisLevels(axis, Across, row, base);
    AxisLevelsShape(axis, Across, row, base);
    forall level: int, c: Coord | 0 <= level < |h| && c in h[level]
      ensures c.row == row + level && base <= c.col < base + axis.Length()
    {
      var k :| 0 <= k < |h[level]| && h[level][k] == c;
      assert LineOf(Across, c) == row + level;
      match axis
      case Flat(_, _) =>
      case Multi(_, tuples) =>
        LevelEntryIff(tuples, level, Across, row + level, base, c.col - base);
        assert Place(Across, row + level, base + (c.col - base)) == c;
    }
  }

  /** The header sits over the data block: a flat header's entry j is above
      data column j, and every entry of a hierarchical header is above a
      data column, namely the one where its run begins. */
  lemma HeaderAlignsWithData(frame: Frame, at: Coord)
    requires frame.WellFormed()
    ensures var h := HeaderLevels(frame.index, frame.columns, at);
      var row, dataCol := at.row, DataOrigin(frame, at).col;
      && |h| == frame.columns.Levels()
      && (frame.columns.Flat? ==>
            |h[0]| == frame.Cols() && forall j :: 0 <= j < frame.Cols() ==> h[0][j] == Coord(row, dataCol + j))
      && (forall level: int, c: Coord :: 0 <= level < |h| && c in h[level] ==>
            c.row == row + level && dataCol <= c.col < dataCol + frame.Cols())
  {
    var dataCol := DataOrigin(frame, at).col;
    assert at.col + |frame.index.names| == dataCol;
    assert HeaderLevels(frame.index, frame.columns, at) == AxisLevels(frame.columns, Across, at.row, dataCol);
    AxisSpan(frame.columns, at.row, dataCol);
  }

  /** Over a hierarchical header whose neighbouring column tuples differ,
      the deepest header row has one entry per data column, entry j exactly
      above data column j: the deepest level is in the last header row and
      covers the data columns one to one. */
  lemma DeepestHeaderMeetsData(frame: Frame, at: Coord)
    requires frame.WellFormed() && frame.columns.Multi?
    requires forall p :: 0 < p < |frame.columns.tuples| ==> frame.columns.tuples[p - 1] != frame.columns.tuples[p]
    ensures var h := HeaderLevels(frame.index, frame.columns, at);
      var n, dataCol := frame.columns.Levels(), DataOrigin(frame, at).col;
      && |h| == n
      && h[n - 1] == seq(frame.Cols(), j => Coord(at.row + (n - 1), dataCol + j))
  {
    var tuples, n := frame.columns.tuples, |frame.columns.names|;
    var dataCol := DataOrigin(frame, at).col;
    var line := at.row + (n - 1);
    DeepestHeaderLevel(frame, at);
    DistinctTuplesOneEntryEach(tuples, n, Across, line, dataCol);
    FlatRow(line, dataCol, |tuples|);
  }

  /** A flat mapping along a row, as the sequence of its cells. */
  lemma FlatRow(row: int, base: int, n: nat)
    ensures FlatEntries(Across, row, base, n) == seq(n, j => Coord(row, base + j))
  {
    FlatEntriesAt(Across, row, base, n);
  }

  /** The deepest header level is the deepest level of the column tuples,
      laid along the last header row from the first data column. */
  lemma DeepestHeaderLevel(frame: Frame, at: Coord)
    requires frame.WellFormed() && frame.columns.Multi?
    ensures var h := HeaderLevels(frame.index, frame.columns, at);
      var n := |frame.columns.names|;
      && |h| == n
      && h[n - 1] == LevelEntries(frame.columns.tuples, n - 1, Across, at.row + (n - 1), DataOrigin(frame, at).col)
  {
    var tuples, n := frame.columns.tuples, |frame.columns.names|;
    var dataCol := DataOrigin(frame, at).col;
    assert at.col + |frame.index.names| == dataCol;
    assert HeaderLevels(frame.index, frame.columns, at) == MultiLevels(tuples, n, Across, at.row, dataCol);
  }
}
