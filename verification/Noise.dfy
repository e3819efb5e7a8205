/** Looking up operating-system noise in a recorded trace (class Noise in Noise.hpp). */
module Noise {

  /** Totals are kept for runs of at most so many nodes. */
  const MAX_REPORT: nat := 64

  /** An event of the trace delays whatever runs from `start` on by `duration`. */
  datatype Event = Event(start: nat, duration: nat)

  predicate Sorted(trace: seq<Event>) {
    forall i, j :: 0 <= i <= j < |trace| ==> trace[i].start <= trace[j].start
  }

  /** Event i is the last one that has started at time t. */
  predicate Covers(trace: seq<Event>, t: nat, i: int) {
    0 <= i < |trace| - 1 && trace[i].start <= t < trace[i + 1].start
  }

  /** How much of the event is left at time t. */
  function Overhang(e: Event, t: nat): nat {
    if e.start + e.duration > t then e.start + e.duration - t else 0
  }

  /** The durations of those of the first k events that start inside the window. */
  function Inside(trace: seq<Event>, t: nat, end: nat, k: nat): nat
    requires k <= |trace|
  {
    if k == 0 then 0
    else Inside(trace, t, end, k - 1) + if t < trace[k - 1].start < end then trace[k - 1].duration else 0
  }

  /** What the trace holds for the window: what is left of the event under way, and all events
      that start inside. */
  function Recorded(trace: seq<Event>, t: nat, end: nat): nat {
    Remaining(trace, t, |trace|) + Inside(trace, t, end, |trace|)
  }

  /** What is left of the last of the first k events to have started, if any. */
  function Remaining(trace: seq<Event>, t: nat, k: nat): nat
    requires k <= |trace|
  {
    if k == 0 then 0 else if trace[k - 1].start <= t then Overhang(trace[k - 1], t) else Remaining(trace, t, k - 1)
  }

  lemma {:induction false} RemainingIs(trace: seq<Event>, t: nat, i: int, k: nat)
    requires Sorted(trace) && Covers(trace, t, i) && i < k <= |trace|
    ensures Remaining(trace, t, k) == Overhang(trace[i], t)
    decreases k
  {
    if k - 1 > i {
      assert trace[i + 1].start <= trace[k - 1].start;
      RemainingIs(trace, t, i, k - 1);
    }
  }

  lemma {:induction false} NothingRemains(trace: seq<Event>, t: nat, k: nat)
    requires Sorted(trace) && 0 < |trace| && t < trace[0].start && k <= |trace|
    ensures Remaining(trace, t, k) == 0
  {
    if k > 0 {
      NothingRemains(trace, t, k - 1);
    }
  }

  /** Events that have started by t are not inside the window. */
  lemma {:induction false} NoneUpTo(trace: seq<Event>, t: nat, end: nat, i: int, k: nat)
    requires Sorted(trace) && Covers(trace, t, i) && k <= i + 1
    ensures Inside(trace, t, end, k) == 0
  {
    if k > 0 {
      NoneUpTo(trace, t, end, i, k - 1);
    }
  }

  /** Nor are those that start when it is over. */
  lemma {:induction false} NoneAfter(trace: seq<Event>, t: nat, end: nat, k: nat, n: nat)
    requires Sorted(trace) && k < |trace| && end <= trace[k].start && k <= n <= |trace|
    ensures Inside(trace, t, end, n) == Inside(trace, t, end, k)
    decreases n
  {
    if k < n {
      NoneAfter(trace, t, end, k, n - 1);
    }
  }

  /** The binary search and the walk that puts its result right. */
  method Search(trace: seq<Event>, t: nat) returns (pos: int)
    requires |trace| >= 2 && Sorted(trace) && trace[0].start < t < trace[|trace| - 1].start
    ensures Covers(trace, t, pos) && forall i :: Covers(trace, t, i) ==> i == pos
  {
    var min, max := 0, |trace| - 1;
    pos := (min + max) / 2;
    if t > trace[pos].start {
      min := pos + 1;
    } else {
      max := pos - 1;
    }
    while t != trace[pos].start && min < max
      invariant 0 <= pos < |trace| && 0 <= min && 0 <= max < |trace|
      decreases max - min
    {
      pos := (min + max) / 2;
      if t > trace[pos].start {
        min := pos + 1;
      } else {
        max := pos - 1;
      }
    }
    ghost var goal := Covering(trace, t);
    while !(trace[pos].start <= t && trace[pos + 1].start > t)
      invariant 0 <= pos < |trace|
      decreases if pos < goal then goal - pos else pos - goal
    {
      if trace[pos].start > t {
        pos := pos - 1;
      } else {
        pos := pos + 1;
      }
    }
  }

  lemma {:induction false} CoveringFrom(trace: seq<Event>, t: nat, k: nat) returns (i: int)
    requires k < |trace| && trace[k].start <= t < trace[|trace| - 1].start
    ensures Covers(trace, t, i)
    decreases |trace| - k
  {
    if trace[k + 1].start > t {
      i := k;
    } else {
      i := CoveringFrom(trace, t, k + 1);
    }
  }

  lemma Covering(trace: seq<Event>, t: nat) returns (i: int)
    requires |trace| >= 2 && trace[0].start <= t < trace[|trace| - 1].start
    ensures Covers(trace, t, i)
  {
    i := CoveringFrom(trace, t, 0);
  }

  /** What is left out for an operation that starts before the first event. */
  function Skipped(trace: seq<Event>, t: nat, end: nat): nat
    requires |trace| > 0
  {
    if t < trace[0].start < end then trace[0].duration else 0
  }

  /** When the noise is all that the trace holds.  An operation that starts together with the
      first event is charged all events that start with it but the first, instead of the last
      of them. */
  ghost predicate Complete(trace: seq<Event>, t: nat, end: nat)
    requires |trace| >= 2
  {
    || trace[0].start < t
    || (t < trace[0].start && Skipped(trace, t, end) == 0)
    || (t == trace[0].start && forall m :: Covers(trace, t, m) ==> Between(trace, end, 1, m + 1) == trace[m].duration)
  }

  /** The noise of an operation that would run from t to end in the trace: all that the trace
      holds, but without the first event unless the operation starts after it.  The end of the
      trace is never reached: the two branches that wrap around are dead. */
  method Accumulate(trace: seq<Event>, t: nat, end: nat) returns (noise: nat)
    requires |trace| >= 2 && Sorted(trace) && t <= end < trace[|trace| - 1].start
    ensures trace[0].start < t ==> noise == Recorded(trace, t, end)
    ensures t < trace[0].start ==> Recorded(trace, t, end) == noise + Skipped(trace, t, end)
    ensures t == trace[0].start ==> forall m :: Covers(trace, t, m) ==>
      Recorded(trace, t, end) + Between(trace, end, 1, m + 1) == noise + trace[m].duration
    ensures noise == Recorded(trace, t, end) <==> Complete(trace, t, end)
  {
    noise := 0;
    var pos, endLastEvent := 0, 0;
    if t > trace[0].start {
      pos := Search(trace, t);
      endLastEvent := trace[pos].start + trace[pos].duration;
    }
    if endLastEvent > t {
      noise := noise + (endLastEvent - t);
    }
    ghost var before, first := noise, pos;
    if pos == |trace| - 1 {
      assert false;
    }
    while end > trace[pos + 1].start
      invariant first <= pos < |trace| - 1
      invariant noise == before + Between(trace, end, first + 1, pos + 1)
      invariant forall k :: first < k <= pos ==> trace[k].start < end
      decreases |trace| - pos
    {
      pos := pos + 1;
      noise := noise + trace[pos].duration;
      assert trace[pos].start < trace[|trace| - 1].start;
      if pos == |trace| - 1 {
        assert false;
      }
    }
    Summed(trace, t, end, first, pos);
    if t == trace[0].start {
      ghost var m := Covering(trace, t);
      assert Covers(trace, t, m);
    }
  }

  /** The durations of events lo, ..., hi - 1 that start before the end. */
  function Between(trace: seq<Event>, end: nat, lo: int, hi: int): nat
    requires 0 <= lo <= hi <= |trace|
    decreases hi
  {
    if lo == hi then 0 else Between(trace, end, lo, hi - 1) + if trace[hi - 1].start < end then trace[hi - 1].duration else 0
  }

  lemma {:induction false} InsideBetween(trace: seq<Event>, t: nat, end: nat, lo: int, hi: int)
    requires Sorted(trace) && 0 <= lo <= hi <= |trace| && (lo < |trace| ==> t < trace[lo].start)
    ensures Inside(trace, t, end, hi) == Inside(trace, t, end, lo) + Between(trace, end, lo, hi)
    decreases hi
  {
    if lo < hi {
      InsideBetween(trace, t, end, lo, hi - 1);
    }
  }

  /** What has been added up is everything recorded but the first event. */
  lemma Summed(trace: seq<Event>, t: nat, end: nat, first: int, pos: int)
    requires |trace| >= 2 && Sorted(trace) && t <= end && 0 <= first <= pos < |trace| - 1 && end <= trace[pos + 1].start
    requires if trace[0].start < t then Covers(trace, t, first) else first == 0
    requires forall k :: first < k <= pos ==> trace[k].start < end
    ensures var sum := Between(trace, end, first + 1, pos + 1);
      && (trace[0].start < t ==> Recorded(trace, t, end) == Overhang(trace[first], t) + sum)
      && (t < trace[0].start ==> Recorded(trace, t, end) == sum + Skipped(trace, t, end))
      && (t == trace[0].start ==> forall m :: Covers(trace, t, m) ==>
            Recorded(trace, t, end) + Between(trace, end, 1, m + 1) == sum + trace[m].duration)
  {
    NoneAfter(trace, t, end, pos + 1, |trace|);
    if t < trace[0].start {
      InsideBetween(trace, t, end, first + 1, pos + 1);
      NothingRemains(trace, t, |trace|);
      assert Inside(trace, t, end, 1) == Inside(trace, t, end, 0) + if t < trace[0].start < end then trace[0].duration else 0;
    } else if trace[0].start < t {
      InsideBetween(trace, t, end, first + 1, pos + 1);
      RemainingIs(trace, t, first, |trace|);
      NoneUpTo(trace, t, end, first, first + 1);
    } else {
      forall m | Covers(trace, t, m)
        ensures Recorded(trace, t, end) + Between(trace, end, 1, m + 1) == Between(trace, end, 1, pos + 1) + trace[m].duration
      {
        SummedTied(trace, t, end, pos, m);
      }
    }
  }

  /** Events 0 to m start at time t together. */
  lemma SummedTied(trace: seq<Event>, t: nat, end: nat, pos: int, m: int)
    requires |trace| >= 2 && Sorted(trace) && t == trace[0].start && t <= end && 0 <= pos < |trace| - 1 && end <= trace[pos + 1].start
    requires Covers(trace, t, m) && forall k :: 0 < k <= pos ==> trace[k].start < end
    ensures Recorded(trace, t, end) + Between(trace, end, 1, m + 1) == Between(trace, end, 1, pos + 1) + trace[m].duration
  {
    RemainingIs(trace, t, m, |trace|);
    NoneUpTo(trace, t, end, m, m + 1);
    NoneAfter(trace, t, end, pos + 1, |trace|);
    if m <= pos {
      InsideBetween(trace, t, end, m + 1, pos + 1);
      BetweenSplits(trace, end, 1, m + 1, pos + 1);
    } else {
      assert trace[pos + 1].start <= trace[m].start;
      NoneAfter(trace, t, end, pos + 1, m + 1);
      BetweenSplits(trace, end, 1, pos + 1, m + 1);
      NothingBetween(trace, end, pos + 1, m + 1);
    }
  }

  lemma {:induction false} BetweenSplits(trace: seq<Event>, end: nat, lo: int, mid: int, hi: int)
    requires 0 <= lo <= mid <= hi <= |trace|
    ensures Between(trace, end, lo, hi) == Between(trace, end, lo, mid) + Between(trace, end, mid, hi)
    decreases hi
  {
    if mid < hi {
      BetweenSplits(trace, end, lo, mid, hi - 1);
    }
  }

  lemma {:induction false} NothingBetween(trace: seq<Event>, end: nat, lo: int, hi: int)
    requires Sorted(trace) && 0 <= lo <= hi <= |trace| && (lo < |trace| ==> end <= trace[lo].start)
    ensures Between(trace, end, lo, hi) == 0
    decreases hi
  {
    if lo < hi {
      NothingBetween(trace, end, lo, hi - 1);
    }
  }

  /** Time x comes t after the start of the k-th repetition of a stretch of this length. */
  predicate InLap(x: nat, length: nat, k: nat, t: nat) {
    x == k * length + t && t < length
  }

  ghost predicate Lapped(x: nat, length: nat, t: nat) {
    exists k: nat :: InLap(x, length, k, t)
  }

  lemma LapOf(x: nat, length: nat)
    requires length > 0
    ensures Lapped(x, length, x % length)
  {
    assert InLap(x, length, x / length, x % length);
  }

  class Noise {
    const p: nat
    const trace: seq<Event>
    const rankTime: seq<nat>
    const injected: array<nat>

    predicate Valid()
      reads injected
    {
      |rankTime| == p && injected.Length == (if p <= MAX_REPORT then p else 0) && (trace != [] ==> |trace| >= 2) && Sorted(trace)
    }

    constructor (p: nat, trace: seq<Event>, rankTime: seq<nat>)
      requires |rankTime| == p && (trace != [] ==> |trace| >= 2) && Sorted(trace)
      ensures Valid() && this.p == p && this.trace == trace && this.rankTime == rankTime && fresh(injected)
      ensures forall r :: 0 <= r < injected.Length ==> injected[r] == 0
    {
      this.p, this.trace, this.rankTime := p, trace, rankTime;
      injected := new nat[if p <= MAX_REPORT then p else 0](i => 0);
    }

    /** Where in the trace the operation starts, when it begins at the rank's own offset and only
        as much of the trace is repeated as lets the operation end within it. */
    function StartInTrace(r: nat, starttime: nat, endtime: nat): (t: nat)
      requires r < |rankTime| && trace != [] && starttime <= endtime
      requires endtime - starttime < trace[|trace| - 1].start
      ensures t + (endtime - starttime) < trace[|trace| - 1].start
      ensures Lapped(starttime + rankTime[r], trace[|trace| - 1].start - (endtime - starttime), t)
    {
      LapOf(starttime + rankTime[r], trace[|trace| - 1].start - (endtime - starttime));
      (starttime + rankTime[r]) % (trace[|trace| - 1].start - (endtime - starttime))
    }

    method GetNoise(r: nat, starttime: nat, endtime: nat) returns (noise: nat)
      requires Valid() && r < p && starttime <= endtime
      requires trace != [] ==> endtime - starttime < trace[|trace| - 1].start
      modifies injected
      ensures trace == [] ==> noise == 0
      ensures trace != [] ==>
        var t := StartInTrace(r, starttime, endtime);
        && (trace[0].start < t ==> noise == Recorded(trace, t, t + endtime - starttime))
        && (t < trace[0].start ==>
              Recorded(trace, t, t + endtime - starttime) == noise + Skipped(trace, t, t + endtime - starttime))
        && (t == trace[0].start ==> forall m :: Covers(trace, t, m) ==>
              Recorded(trace, t, t + endtime - starttime) + Between(trace, t + endtime - starttime, 1, m + 1)
              == noise + trace[m].duration)
        && (noise == Recorded(trace, t, t + endtime - starttime) <==> Complete(trace, t, t + endtime - starttime))
      ensures forall q :: 0 <= q < injected.Length ==>
        injected[q] == old(injected[q]) + if q == r then noise else 0
    {
      noise := 0;
      if |trace| > 0 {
        var opLength := endtime - starttime;
        var trcStart := StartInTrace(r, starttime, endtime);
        noise := Accumulate(trace, trcStart, trcStart + opLength);
        if p <= MAX_REPORT {
          injected[r] := injected[r] + noise;
        }
      }
    }
  }
}
