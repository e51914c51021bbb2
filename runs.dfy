/** Streaming group-by over a sequence of keys: consecutive positions with
    equal keys form one run, as `itertools.groupby` yields them. The header
    and index writers group axis tuples by their leading components with it. */
module Runs {

  /** A maximal run of equal keys: `len` positions from `start`, all `key`. */
  datatype Run<K> = Run(key: K, start: nat, len: nat)

  /** The first position at or after `j` whose key is not `k` (or the end). */
  function RunEnd<K(==)>(ks: seq<K>, j: nat, k: K): (e: nat)
    requires j <= |ks|
    ensures j <= e <= |ks|
    decreases |ks| - j
  {
    if j == |ks| || ks[j] != k then j else RunEnd(ks, j + 1, k)
  }

  /** Every key from `j` up to the end of the run is `k`, and the key at
      the end, if any, is not. */
  lemma {:induction false} RunEndSpec<K>(ks: seq<K>, j: nat, k: K)
    requires j <= |ks|
    ensures forall p :: j <= p < RunEnd(ks, j, k) ==> ks[p] == k
    ensures RunEnd(ks, j, k) < |ks| ==> ks[RunEnd(ks, j, k)] != k
    decreases |ks| - j
  {
    if j < |ks| && ks[j] == k {
      RunEndSpec(ks, j + 1, k);
    }
  }

  /** `rs` splits `ks[i..]` into groups the way a streaming group-by does:
      the groups are non-empty, follow each other with no gap from `i` to the
      end, hold one key each, and two neighbouring groups have different keys. */
  ghost predicate GroupsOf<K>(ks: seq<K>, i: nat, rs: seq<Run<K>>)
    requires i <= |ks|
  {
    && (rs == [] <==> i == |ks|)
    && (rs != [] ==> rs[0].start == i && rs[|rs| - 1].start + rs[|rs| - 1].len == |ks|)
    && (forall k :: 0 <= k < |rs| ==> 1 <= rs[k].len && rs[k].start + rs[k].len <= |ks|)
    && (forall k, k' :: 0 <= k && k' == k + 1 && k' < |rs| ==> rs[k'].start == rs[k].start + rs[k].len)
    && (forall k, p :: 0 <= k < |rs| && rs[k].start <= p < rs[k].start + rs[k].len ==> ks[p] == rs[k].key)
    && (forall k, k' :: 0 <= k && k' == k + 1 && k' < |rs| ==> rs[k'].key != rs[k].key)
  }

  /** The runs of `ks[i..]`, in order: at most one per position, the first
      starting at `i`. `RunsAreGroups` proves they are the groups of `ks[i..]`. */
  function RunsFrom<K(==)>(ks: seq<K>, i: nat): (rs: seq<Run<K>>)
    requires i <= |ks|
    ensures |rs| <= |ks| - i
    ensures rs == [] <==> i == |ks|
    ensures rs != [] ==> rs[0].start == i && rs[0].key == ks[i]
    decreases |ks| - i
  {
    if i == |ks| then []
    else
      var e := RunEnd(ks, i + 1, ks[i]);
      [Run(ks[i], i, e - i)] + RunsFrom(ks, e)
  }

  /** What a streaming group-by promises: the runs of `ks[i..]` are its groups. */
  lemma {:induction false} RunsAreGroups<K>(ks: seq<K>, i: nat)
    requires i <= |ks|
    ensures GroupsOf(ks, i, RunsFrom(ks, i))
    decreases |ks| - i
  {
    if i < |ks| {
      var e := RunEnd(ks, i + 1, ks[i]);
      var rest := RunsFrom(ks, e);
      assert RunsFrom(ks, i) == [Run(ks[i], i, e - i)] + rest;
      RunEndSpec(ks, i + 1, ks[i]);
      RunsAreGroups(ks, e);
      GroupsOfCons(ks, i, e, rest);
    }
  }

  /** Putting the maximal run at `i` in front of the groups of what follows it
      gives the groups of `ks[i..]`. */
  lemma GroupsOfCons<K>(ks: seq<K>, i: nat, e: nat, rest: seq<Run<K>>)
    requires i < e <= |ks|
    requires forall p :: i <= p < e ==> ks[p] == ks[i]
    requires e < |ks| ==> ks[e] != ks[i]
    requires GroupsOf(ks, e, rest)
    ensures GroupsOf(ks, i, [Run(ks[i], i, e - i)] + rest)
  {
    var rs := [Run(ks[i], i, e - i)] + rest;
    forall k | 0 <= k < |rs|
      ensures 1 <= rs[k].len && rs[k].start + rs[k].len <= |ks|
    {
      if k > 0 {
        assert rs[k] == rest[k - 1];
      }
    }
    forall k, k' | 0 <= k && k' == k + 1 && k' < |rs|
      ensures rs[k'].start == rs[k].start + rs[k].len
      ensures rs[k'].key != rs[k].key
    {
      if k == 0 {
        assert rs[k'] == rest[0];
      } else {
        assert rs[k] == rest[k - 1];
        assert rs[k'] == rest[k];
      }
    }
    forall k, p | 0 <= k < |rs| && rs[k].start <= p < rs[k].start + rs[k].len
      ensures ks[p] == rs[k].key
    {
      if k > 0 {
        assert rs[k] == rest[k - 1];
      }
    }
    if rest != [] {
      assert rs[|rs| - 1] == rest[|rest| - 1];
    }
  }

  function GroupBy<K(==)>(ks: seq<K>): seq<Run<K>>
  {
    RunsFrom(ks, 0)
  }

  /** The start positions of `rs`, in order. */
  function Starts<K>(rs: seq<Run<K>>): seq<nat>
  {
    if rs == [] then [] else [rs[0].start] + Starts(rs[1..])
  }

  /** A position of `ks[i..]` begins a run exactly when it is `i` or its key
      differs from the key before it. */
  lemma {:induction false} RunStartIff<K>(ks: seq<K>, i: nat, p: nat)
    requires i <= p < |ks|
    ensures p in Starts(RunsFrom(ks, i)) <==> p == i || ks[p - 1] != ks[p]
    decreases |ks| - i
  {
    var e := RunEnd(ks, i + 1, ks[i]);
    RunEndSpec(ks, i + 1, ks[i]);
    var tail := Starts(RunsFrom(ks, e));
    assert Starts(RunsFrom(ks, i)) == [i] + tail;
    assert p in Starts(RunsFrom(ks, i)) <==> p == i || p in tail;
    if p < e {
      StartsAtLeast(ks, e, p);
      if p > i {
        assert ks[p - 1] == ks[i] && ks[p] == ks[i];
      }
    } else {
      RunStartIff(ks, e, p);
      if p == e {
        assert ks[e - 1] == ks[i];
      }
    }
  }

  /** No run of `ks[i..]` starts before `i`. */
  lemma {:induction false} StartsAtLeast<K>(ks: seq<K>, i: nat, p: nat)
    requires i <= |ks| && p < i
    ensures p !in Starts(RunsFrom(ks, i))
    decreases |ks| - i
  {
    if i < |ks| {
      var e := RunEnd(ks, i + 1, ks[i]);
      assert Starts(RunsFrom(ks, i)) == [i] + Starts(RunsFrom(ks, e));
      StartsAtLeast(ks, e, p);
    }
  }

  /** Every run of `ks[i..]` starts inside it. */
  lemma {:induction false} StartsWithin<K>(ks: seq<K>, i: nat, p: int)
    requires i <= |ks| && p in Starts(RunsFrom(ks, i))
    ensures i <= p < |ks|
    decreases |ks| - i
  {
    var e := RunEnd(ks, i + 1, ks[i]);
    assert Starts(RunsFrom(ks, i)) == [i] + Starts(RunsFrom(ks, e));
    if p != i {
      StartsWithin(ks, e, p);
    }
  }

  /** The positions where `GroupBy` starts a run are the first position and
      every position whose key differs from the one before it. */
  lemma GroupStartIff<K>(ks: seq<K>, p: int)
    ensures p in Starts(GroupBy(ks)) <==> 0 <= p < |ks| && (p == 0 || ks[p - 1] != ks[p])
  {
    if p in Starts(GroupBy(ks)) {
      StartsWithin(ks, 0, p);
      RunStartIff(ks, 0, p);
    } else if 0 <= p < |ks| {
      RunStartIff(ks, 0, p);
    }
  }

  /** The length of the run beginning at `i`, found by scanning forward as
      `len(list(group))` does. */
  method ScanRun<K(==)>(ks: seq<K>, i: nat) returns (j: nat)
    requires i < |ks|
    ensures i < j <= |ks|
    ensures forall p :: i <= p < j ==> ks[p] == ks[i]
    ensures j < |ks| ==> ks[j] != ks[i]
  {
    j := i + 1;
    while j < |ks| && ks[j] == ks[i]
      invariant i < j <= |ks|
      invariant forall p :: i <= p < j ==> ks[p] == ks[i]
    {
      j := j + 1;
    }
  }

  /** The maximal run is determined by where it starts: whatever stops at the
      first different key is `RunEnd`. */
  lemma {:induction false} RunEndUnique<K>(ks: seq<K>, j: nat, k: K, e: nat)
    requires j <= e <= |ks|
    requires forall p :: j <= p < e ==> ks[p] == k
    requires e < |ks| ==> ks[e] != k
    ensures e == RunEnd(ks, j, k)
    decreases e - j
  {
    if j < e {
      RunEndUnique(ks, j + 1, k, e);
    }
  }

  /** Starting later never yields more runs. */
  lemma {:induction false} RunCountAntitone<K>(ks: seq<K>, i: nat, j: nat)
    requires i <= j <= |ks|
    ensures |RunsFrom(ks, j)| <= |RunsFrom(ks, i)|
    decreases j - i
  {
    if i < j {
      var e := RunEnd(ks, i + 1, ks[i]);
      RunEndSpec(ks, i + 1, ks[i]);
      assert |RunsFrom(ks, i)| == 1 + |RunsFrom(ks, e)|;
      if j < e {
        RunEndUnique(ks, j + 1, ks[j], e);
        assert |RunsFrom(ks, j)| == 1 + |RunsFrom(ks, e)|;
      } else if e < j {
        RunCountAntitone(ks, e, j);
      }
    }
  }

  /** `fine` distinguishes at least the positions `coarse` does. */
  ghost predicate Refines<K, L>(fine: seq<K>, coarse: seq<L>)
  {
    |fine| == |coarse| &&
    forall p, q :: 0 <= p < |fine| && 0 <= q < |fine| && fine[p] == fine[q] ==> coarse[p] == coarse[q]
  }

  /** Grouping by a finer key never yields fewer runs. */
  lemma {:induction false} RefinedHasMoreRuns<K, L>(fine: seq<K>, coarse: seq<L>, i: nat)
    requires Refines(fine, coarse) && i <= |fine|
    ensures |RunsFrom(coarse, i)| <= |RunsFrom(fine, i)|
    decreases |fine| - i
  {
    if i < |fine| {
      var ef := RunEnd(fine, i + 1, fine[i]);
      var ec := RunEnd(coarse, i + 1, coarse[i]);
      RunEndSpec(fine, i + 1, fine[i]);
      RunEndSpec(coarse, i + 1, coarse[i]);
      assert forall p :: i + 1 <= p < ef ==> coarse[p] == coarse[i];
      assert ef <= ec;
      assert |RunsFrom(coarse, i)| == 1 + |RunsFrom(coarse, ec)|;
      assert |RunsFrom(fine, i)| == 1 + |RunsFrom(fine, ef)|;
      RefinedHasMoreRuns(fine, coarse, ec);
      RunCountAntitone(fine, ef, ec);
    }
  }

  /** When no two neighbouring keys are equal, every position is its own run. */
  lemma {:induction false} DistinctNeighboursAreSingletons<K>(ks: seq<K>, i: nat)
    requires i <= |ks|
    requires forall p :: 0 < p < |ks| ==> ks[p - 1] != ks[p]
    ensures |RunsFrom(ks, i)| == |ks| - i
    ensures forall k :: 0 <= k < |ks| - i ==> RunsFrom(ks, i)[k] == Run(ks[i + k], i + k, 1)
    decreases |ks| - i
  {
    if i < |ks| {
      var e := RunEnd(ks, i + 1, ks[i]);
      assert e == i + 1;
      DistinctNeighboursAreSingletons(ks, i + 1);
      var rs := RunsFrom(ks, i);
      assert rs == [Run(ks[i], i, 1)] + RunsFrom(ks, i + 1);
      forall k | 0 <= k < |ks| - i
        ensures rs[k] == Run(ks[i + k], i + k, 1)
      {
        if k > 0 {
          assert rs[k] == RunsFrom(ks, i + 1)[k - 1];
        }
      }
    }
  }

  /** A scan that starts past a prefix never looks back into it: the run end
      found in `prefix + ks` is the one found in `ks`, moved by the prefix. */
  lemma {:induction false} RunEndShift<K>(prefix: seq<K>, ks: seq<K>, j: nat, k: K)
    requires j <= |ks|
    ensures RunEnd(prefix + ks, |prefix| + j, k) == |prefix| + RunEnd(ks, j, k)
    decreases |ks| - j
  {
    if j < |ks| {
      assert (prefix + ks)[|prefix| + j] == ks[j];
      if ks[j] == k {
        RunEndShift(prefix, ks, j + 1, k);
      }
    }
  }

  /** Hence the grouping of what follows a prefix has as many runs as the
      grouping of the same keys on their own. */
  lemma {:induction false} RunCountShift<K>(prefix: seq<K>, ks: seq<K>, i: nat)
    requires i <= |ks|
    ensures |RunsFrom(prefix + ks, |prefix| + i)| == |RunsFrom(ks, i)|
    decreases |ks| - i
  {
    if i < |ks| {
      var all := prefix + ks;
      var e := RunEnd(ks, i + 1, ks[i]);
      assert all[|prefix| + i] == ks[i];
      RunEndShift(prefix, ks, i + 1, ks[i]);
      assert |RunsFrom(all, |prefix| + i)| == 1 + |RunsFrom(all, |prefix| + e)|;
      assert |RunsFrom(ks, i)| == 1 + |RunsFrom(ks, e)|;
      RunCountShift(prefix, ks, e);
    }
  }
}
