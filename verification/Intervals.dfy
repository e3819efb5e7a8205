/** The gaps between the busy intervals of a GPU (get_non_overlapped_compute.py). */
module Intervals {
  import opened Wrappers

  datatype Interval = Interval(lo: int, hi: int)

  predicate WellFormed(s: seq<Interval>) {
    forall i :: 0 <= i < |s| ==> s[i].lo <= s[i].hi
  }

  predicate SortedByStart(s: seq<Interval>) {
    forall i, j :: 0 <= i <= j < |s| ==> s[i].lo <= s[j].lo
  }

  /** Neighbours do not even touch. */
  predicate Apart(s: seq<Interval>) {
    forall i, j :: 0 <= i < j < |s| ==> s[i].hi < s[j].lo
  }

  /** The point is in one of the closed intervals. */
  predicate Covers(s: seq<Interval>, x: int) {
    exists i :: 0 <= i < |s| && s[i].lo <= x <= s[i].hi
  }

  /** The unit cells [x, x + 1) between two bounds. */
  function Cells(lo: int, hi: int): (r: set<int>)
    ensures forall x :: x in r <==> lo <= x < hi
    ensures |r| == if lo <= hi then hi - lo else 0
    decreases hi - lo
  {
    if hi <= lo then {} else Cells(lo, hi - 1) + {hi - 1}
  }

  /** The cell from x to x + 1 is in one of the intervals. */
  predicate InCells(s: seq<Interval>, x: int) {
    exists i :: 0 <= i < |s| && s[i].lo <= x < s[i].hi
  }

  /** The unit cells of all intervals together; there are as many as the union is long. */
  function Union(s: seq<Interval>): set<int> {
    if s == [] then {} else Union(s[..|s| - 1]) + Cells(s[|s| - 1].lo, s[|s| - 1].hi)
  }

  lemma {:induction false} UnionIs(s: seq<Interval>, x: int)
    ensures x in Union(s) <==> InCells(s, x)
  {
    if s != [] {
      var before := s[..|s| - 1];
      UnionIs(before, x);
      if i :| 0 <= i < |s| && s[i].lo <= x < s[i].hi {
        assert i < |s| - 1 ==> before[i] == s[i];
      }
    }
  }

  /** Bounds of all intervals. */
  function Earliest(s: seq<Interval>): (r: int)
    requires s != []
    ensures (exists i :: 0 <= i < |s| && s[i].lo == r) && forall i :: 0 <= i < |s| ==> r <= s[i].lo
  {
    var last := s[|s| - 1].lo;
    if |s| == 1 then last
    else
      var before := Earliest(s[..|s| - 1]);
      if before <= last then before else last
  }

  function Latest(s: seq<Interval>): (r: int)
    requires s != []
    ensures (exists i :: 0 <= i < |s| && s[i].hi == r) && forall i :: 0 <= i < |s| ==> s[i].hi <= r
  {
    var last := s[|s| - 1].hi;
    if |s| == 1 then last
    else
      var before := Latest(s[..|s| - 1]);
      if before >= last then before else last
  }

  /** Put an interval behind all that do not start later. */
  function Insert(s: seq<Interval>, x: Interval): seq<Interval> {
    if s == [] || s[|s| - 1].lo <= x.lo then s + [x] else Insert(s[..|s| - 1], x) + [s[|s| - 1]]
  }

  lemma {:induction false} InsertSorts(s: seq<Interval>, x: Interval)
    requires SortedByStart(s)
    ensures SortedByStart(Insert(s, x)) && forall i :: 0 <= i < |Insert(s, x)| ==> Insert(s, x)[i] == x || Insert(s, x)[i] in s
  {
    if s != [] && s[|s| - 1].lo > x.lo {
      InsertSorts(s[..|s| - 1], x);
    }
  }

  lemma {:induction false} InsertKeeps(s: seq<Interval>, x: Interval)
    ensures multiset(Insert(s, x)) == multiset(s) + multiset{x}
  {
    if s != [] && s[|s| - 1].lo > x.lo {
      InsertKeeps(s[..|s| - 1], x);
      assert s == s[..|s| - 1] + [s[|s| - 1]];
    }
  }

  /** Sorting by start. */
  method SortByStart(events: seq<Interval>) returns (s: seq<Interval>)
    ensures SortedByStart(s) && multiset(s) == multiset(events)
  {
    s := [];
    for k := 0 to |events|
      invariant SortedByStart(s) && multiset(s) == multiset(events[..k])
    {
      assert events[..k + 1] == events[..k] + [events[k]];
      InsertSorts(s, events[k]);
      InsertKeeps(s, events[k]);
      s := Insert(s, events[k]);
    }
    assert events[..|events|] == events;
  }

  /** The gaps between neighbours. */
  function Gaps(s: seq<Interval>, k: nat): int
    requires k < |s|
  {
    if k == 0 then 0 else Gaps(s, k - 1) + s[k].lo - s[k - 1].hi
  }

  /** What the merged list so far has to do with the intervals seen. */
  ghost predicate Merged(seen: seq<Interval>, merged: seq<Interval>) {
    && seen != [] && merged != []
    && WellFormed(merged) && Apart(merged)
    && (forall x :: Covers(merged, x) <==> Covers(seen, x))
    && (forall x :: InCells(merged, x) <==> InCells(seen, x))
    && merged[0].lo == Earliest(seen) && merged[|merged| - 1].hi == Latest(seen)
  }

  lemma MergeFirst(x: Interval)
    requires x.lo <= x.hi
    ensures Merged([x], [x])
  {
    assert forall i :: 0 <= i < |[x]| ==> [x][i] == x;
  }

  /** The next interval overlaps or touches the last. */
  lemma MergeOverlap(seen: seq<Interval>, merged: seq<Interval>, x: Interval, last: Interval)
    requires Merged(seen, merged) && x.lo <= x.hi && merged[|merged| - 1].lo <= x.lo <= merged[|merged| - 1].hi
    requires last == Interval(merged[|merged| - 1].lo, if merged[|merged| - 1].hi >= x.hi then merged[|merged| - 1].hi else x.hi)
    ensures Merged(seen + [x], merged[|merged| - 1 := last])
  {
    var all, now := seen + [x], merged[|merged| - 1 := last];
    assert all[..|all| - 1] == seen && all[|all| - 1] == x;
    forall y ensures Covers(now, y) <==> Covers(all, y) {
      CoversMore(seen, x, y);
      ReplacedLast(merged, last, y);
    }
    forall y ensures InCells(now, y) <==> InCells(all, y) {
      CoversMore(seen, x, y);
      ReplacedLast(merged, last, y);
    }
  }

  lemma CoversMore(s: seq<Interval>, x: Interval, y: int)
    ensures Covers(s + [x], y) <==> Covers(s, y) || x.lo <= y <= x.hi
    ensures InCells(s + [x], y) <==> InCells(s, y) || x.lo <= y < x.hi
  {
    var all := s + [x];
    assert all[|s|] == x && forall i :: 0 <= i < |s| ==> all[i] == s[i];
  }

  lemma ReplacedLast(s: seq<Interval>, x: Interval, y: int)
    requires s != [] && x.lo == s[|s| - 1].lo && s[|s| - 1].hi <= x.hi
    ensures Covers(s[|s| - 1 := x], y) <==> Covers(s, y) || x.lo <= y <= x.hi
    ensures InCells(s[|s| - 1 := x], y) <==> InCells(s, y) || x.lo <= y < x.hi
  {
    var all := s[|s| - 1 := x];
    assert all[|s| - 1] == x && forall i :: 0 <= i < |s| - 1 ==> all[i] == s[i];
  }

  /** The next interval starts behind the last. */
  lemma MergeApart(seen: seq<Interval>, merged: seq<Interval>, x: Interval)
    requires Merged(seen, merged) && x.lo <= x.hi && merged[|merged| - 1].hi < x.lo
    ensures Merged(seen + [x], merged + [x])
  {
    var all, now := seen + [x], merged + [x];
    assert all[..|all| - 1] == seen && all[|all| - 1] == x;
    forall y
      ensures Covers(now, y) <==> Covers(all, y)
      ensures InCells(now, y) <==> InCells(all, y)
    {
      CoversMore(seen, x, y);
      CoversMore(merged, x, y);
    }
    assert Latest(seen) < x.lo <= x.hi;
    assert Earliest(seen) <= x.lo;
  }

  /** Intervals that do not touch: their union is as long as they are together, and so the gaps
      are what is left of the whole span. */
  lemma {:induction false} GapsAreTheRest(s: seq<Interval>, k: nat)
    requires WellFormed(s) && Apart(s) && k < |s|
    ensures Gaps(s, k) == s[k].hi - s[0].lo - |Union(s[..k + 1])|
  {
    var before := s[..k];
    assert s[..k + 1][..k] == before && s[..k + 1][k] == s[k];
    forall x ensures !(x in Union(before) && x in Cells(s[k].lo, s[k].hi)) {
      UnionIs(before, x);
    }
    assert Union(s[..k + 1]) == Union(before) + Cells(s[k].lo, s[k].hi);
    assert Union(before) * Cells(s[k].lo, s[k].hi) == {};
    if k > 0 {
      GapsAreTheRest(s, k - 1);
    }
  }

  /** Same cells, same union. */
  lemma UnionOfMerged(seen: seq<Interval>, merged: seq<Interval>)
    requires Merged(seen, merged)
    ensures Union(merged) == Union(seen)
  {
    hide Union, InCells, Covers;
    forall x ensures x in Union(merged) <==> x in Union(seen) {
      UnionIs(merged, x);
      UnionIs(seen, x);
    }
  }

  lemma SameIntervals(s: seq<Interval>, t: seq<Interval>)
    requires multiset(s) == multiset(t) && s != [] && WellFormed(t)
    ensures t != [] && WellFormed(s) && Earliest(s) == Earliest(t) && Latest(s) == Latest(t)
    ensures forall x :: Covers(s, x) <==> Covers(t, x)
    ensures forall x :: InCells(s, x) <==> InCells(t, x)
  {
    assert |s| == |multiset(s)| == |multiset(t)| == |t|;
    forall i | 0 <= i < |s| ensures s[i] in t {
      assert s[i] in multiset(t);
    }
    forall i | 0 <= i < |t| ensures t[i] in s {
      assert t[i] in multiset(s);
    }
  }

  lemma MergedOnly(seen: seq<Interval>, merged: seq<Interval>)
    requires Merged(seen, merged)
    ensures merged != [] && WellFormed(merged) && Apart(merged)
    ensures merged[0].lo == Earliest(seen) && merged[|merged| - 1].hi == Latest(seen)
  {
  }

  /** Merge all intervals that overlap or touch. */
  method Merge(sorted: seq<Interval>) returns (merged: seq<Interval>)
    requires sorted != [] && WellFormed(sorted) && SortedByStart(sorted)
    ensures Merged(sorted, merged)
  {
    hide Merged, Covers, InCells, Earliest, Latest;
    merged := [sorted[0]];
    MergeFirst(sorted[0]);
    assert sorted[..1] == [sorted[0]];
    for k := 1 to |sorted|
      invariant merged != [] && Merged(sorted[..k], merged)
      invariant merged[|merged| - 1].lo <= sorted[k - 1].lo
    {
      var current, previous := sorted[k], merged[|merged| - 1];
      assert sorted[..k + 1] == sorted[..k] + [current];
      assert sorted[k - 1].lo <= current.lo;
      if current.lo <= previous.hi {
        previous := Interval(previous.lo, if previous.hi >= current.hi then previous.hi else current.hi);
        MergeOverlap(sorted[..k], merged, current, previous);
        merged := merged[|merged| - 1 := previous];
      } else {
        MergeApart(sorted[..k], merged, current);
        merged := merged + [current];
      }
    }
    assert sorted[..|sorted|] == sorted;
  }

  lemma MergedSame(s: seq<Interval>, t: seq<Interval>, merged: seq<Interval>)
    requires Merged(s, merged) && multiset(s) == multiset(t) && WellFormed(t)
    ensures Merged(t, merged)
  {
    SameIntervals(s, t);
  }

  lemma SortedSame(s: seq<Interval>, t: seq<Interval>)
    requires multiset(s) == multiset(t) && t != [] && WellFormed(t)
    ensures s != [] && WellFormed(s)
  {
    assert |s| == |multiset(s)| == |multiset(t)| == |t|;
    SameIntervals(s, t);
  }

  lemma MergedGaps(seen: seq<Interval>, merged: seq<Interval>)
    requires Merged(seen, merged)
    ensures merged != [] && Gaps(merged, |merged| - 1) == Latest(seen) - Earliest(seen) - |Union(seen)|
  {
    MergedOnly(seen, merged);
    UnionOfMerged(seen, merged);
    hide Merged, InCells, Covers, Earliest, Latest, Union, Gaps;
    GapsAreTheRest(merged, |merged| - 1);
    assert merged[..|merged| - 1 + 1] == merged;
  }

  lemma MergedSome(seen: seq<Interval>, merged: seq<Interval>)
    requires Merged(seen, merged)
    ensures merged != []
  {
  }

  /** Add up the gaps. */
  method SumGaps(merged: seq<Interval>) returns (total: int)
    requires merged != []
    ensures total == Gaps(merged, |merged| - 1)
  {
    total := 0;
    for i := 1 to |merged|
      invariant total == Gaps(merged, i - 1)
    {
      total := total + merged[i].lo - merged[i - 1].hi;
    }
  }

  /** The merged list covers the same points with intervals that do not touch, and the total of
      its gaps is the whole span less the union of the intervals.  There is none for an empty
      list, on which the program fails. */
  method GetNonOverlappedCompute(events: seq<Interval>) returns (totalGap: Option<int>, merged: seq<Interval>)
    requires WellFormed(events)
    ensures totalGap == if events == [] then None else Some(Latest(events) - Earliest(events) - |Union(events)|)
    ensures events != [] ==> Merged(events, merged)
  {
    if |events| == 0 {
      return None, [];
    }
    hide Merged, InCells, Covers, Earliest, Latest, Union, Gaps, SortedByStart, WellFormed;
    var sorted := SortByStart(events);
    SortedSame(sorted, events);
    merged := Merge(sorted);
    MergedSame(sorted, events, merged);
    MergedSome(events, merged);
    var total := SumGaps(merged);
    MergedGaps(events, merged);
    totalGap := Some(total);
  }
}
