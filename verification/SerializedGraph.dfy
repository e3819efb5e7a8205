/** The in-place dependency counters of class SerializedGraph (Parser.hpp) and the
    traversal behind its DOT dump, which is Kahn's algorithm. */
module SerializedGraph {
  import opened Schedule
  import opened DependencyTracker
  import Digraph
  import opened Finite

  /** The edge relation over both kinds of dependency. */
  ghost function Edges(nodes: seq<Node>): (nat, nat) -> bool {
    (a: nat, b: nat) => DependsOn(nodes, a, b)
  }

  /** The nodes without dependencies among the first k, in order of their offset. */
  function RootsUpTo(counts: seq<nat>, k: nat): (r: seq<Freed>)
    requires k <= |counts|
    ensures forall i :: 0 <= i < |r| ==> r[i].node < k
  {
    if k == 0 then []
    else
      var before := RootsUpTo(counts, k - 1);
      if counts[k - 1] == 0 then before + [Freed(k - 1, 0)] else before
  }

  /** The tracker right after construction. */
  function Initial(counts: seq<nat>): Tracker {
    Tracker(counts, map[], RootsUpTo(counts, |counts|), multiset{}, multiset{}, map[])
  }

  lemma {:induction false} RootsListed(counts: seq<nat>, k: nat, n: nat)
    requires k <= |counts|
    ensures Listed(RootsUpTo(counts, k))[n] == if n < k && counts[n] == 0 then 1 else 0
  {
    if k > 0 {
      RootsListed(counts, k - 1, n);
      var before := RootsUpTo(counts, k - 1);
      if counts[k - 1] == 0 {
        ListedPush(before, Freed(k - 1, 0));
        if n == k - 1 {
          assert Listed(before)[n] == 0;
        }
      }
    }
  }

  /** At construction the counters are exact and nothing has been handed out. */
  lemma {:induction false} InitialExact(nodes: seq<Node>, counts: seq<nat>)
    requires WellFormed(nodes) && CountsInDegrees(nodes, counts)
    ensures Exact(nodes, Initial(counts))
    ensures forall n :: 0 <= n < |counts| ==> Taken(Initial(counts), n) == 0
  {
    forall n: nat | n < |counts| ensures Taken(Initial(counts), n) == 0 {
      RootsListed(counts, |counts|, n);
    }
  }

  /** Each node occurs at most once, and only after all its predecessors. */
  ghost predicate EdgesForward(nodes: seq<Node>, order: seq<nat>)
  {
    && InRange(order, |nodes|)
    && NoRepeat(order)
    && (forall i, p {:trigger DependsOn(nodes, p, order[i])} ::
          0 <= i < |order| && DependsOn(nodes, p, order[i]) ==> p in order[..i])
  }

  class SerializedGraph {
    const nodes: seq<Node>
    const cnt: array<nat>
    var startTime: map<nat, nat>
    var executable: seq<Freed>
    ghost var started: multiset<nat>
    ghost var done: multiset<nat>
    ghost var doneAt: map<nat, nat>

    ghost predicate Valid()
      reads this, cnt
    {
      Shaped(nodes, Abs())
    }

    ghost function Abs(): Tracker
      reads this, cnt
    {
      Tracker(cnt[..], startTime, executable, started, done, doneAt)
    }

    constructor (nodes: seq<Node>, counts: seq<nat>)
      requires WellFormed(nodes) && |counts| == |nodes|
      ensures Valid() && fresh(cnt) && this.nodes == nodes
      ensures Abs() == Initial(counts)
    {
      this.nodes := nodes;
      cnt := new nat[|counts|](i requires 0 <= i < |counts| => counts[i]);
      startTime, executable := map[], [];
      started, done, doneAt := multiset{}, multiset{}, map[];
      new;
      assert cnt[..] == counts;
      for k := 0 to |counts|
        invariant cnt[..] == counts && startTime == map[] && executable == RootsUpTo(counts, k)
        invariant started == multiset{} && done == multiset{} && doneAt == map[]
      {
        if cnt[k] == 0 {
          executable := executable + [Freed(k, 0)];
        }
      }
    }

    method MarkNodeAsStarted(offset: nat)
      requires Valid() && offset < |nodes|
      modifies this, cnt
      ensures Valid()
      ensures Abs() == MarkStarted(nodes, old(Abs()), offset)
    {
      var targets := nodes[offset].startDependOnMe;
      started := started + multiset{offset};
      ghost var first := Abs();
      assert targets[0..] == targets;
      for i := 0 to |targets|
        invariant Valid() && cnt.Length == |first.cnt|
        invariant SatisfyAll(Abs(), targets[i..], ByStart) == SatisfyAll(first, targets, ByStart)
      {
        assert targets[i..][0] == targets[i] && targets[i..][1..] == targets[i + 1..];
        SatisfyStartEdge(targets[i]);
      }
    }

    /** Body of the loop in MarkNodeAsStarted. */
    method SatisfyStartEdge(n: nat)
      requires Valid() && n < |nodes|
      modifies cnt, `executable
      ensures Valid()
      ensures Abs() == SatisfyEdge(old(Abs()), n, ByStart)
    {
      cnt[n] := Decrement(cnt[n]);
      if cnt[n] == 0 {
        executable := executable + [Freed(n, 0)];
      }
      assert cnt[..] == old(cnt[..])[n := Decrement(old(cnt[n]))];
    }

    /** Body of the loop in MarkNodeAsDone. */
    method SatisfyDoneEdge(n: nat, cpuTime: nat)
      requires Valid() && n < |nodes|
      modifies cnt, `executable, `startTime
      ensures Valid()
      ensures Abs() == SatisfyEdge(old(Abs()), n, ByDone(cpuTime))
    {
      cnt[n] := Decrement(cnt[n]);
      assert cnt[..] == old(cnt[..])[n := Decrement(old(cnt[n]))];
      if n !in startTime {
        startTime := startTime[n := cpuTime];
      } else {
        startTime := startTime[n := Max(startTime[n], cpuTime)];
      }
      if cnt[n] == 0 {
        executable := executable + [Freed(n, startTime[n])];
        startTime := startTime - {n};
        assert startTime == old(startTime) - {n};
      }
    }

    method MarkNodeAsDone(offset: nat, cpuTime: nat)
      requires Valid() && offset < |nodes|
      modifies this, cnt
      ensures Valid()
      ensures Abs() == MarkDone(nodes, old(Abs()), offset, cpuTime)
    {
      var targets := nodes[offset].dependOnMe;
      done, doneAt := done + multiset{offset}, doneAt[offset := cpuTime];
      ghost var first := Abs();
      assert targets[0..] == targets;
      for i := 0 to |targets|
        invariant Valid() && cnt.Length == |first.cnt|
        invariant SatisfyAll(Abs(), targets[i..], ByDone(cpuTime)) == SatisfyAll(first, targets, ByDone(cpuTime))
      {
        assert targets[i..][0] == targets[i] && targets[i..][1..] == targets[i + 1..];
        SatisfyDoneEdge(targets[i], cpuTime);
      }
    }

    method GetExecutableNodes() returns (ret: seq<Freed>)
      requires Valid()
      modifies this`executable
      ensures Valid() && ret == old(executable)
      ensures Abs() == Drain(old(Abs()))
    {
      ret := executable;
      executable := [];
    }

    /** Body of the inner loop of write_as_dot. */
    method StartAndFinish(offset: nat)
      requires Valid() && offset < |nodes|
      modifies this, cnt
      ensures Valid()
      ensures Abs() == MarkDone(nodes, MarkStarted(nodes, old(Abs()), offset), offset, 0)
    {
      MarkNodeAsStarted(offset);
      MarkNodeAsDone(offset, 0);
    }

    /** The loop of write_as_dot. */
    method Traverse() returns (order: seq<nat>)
      requires Valid() && Exact(nodes, Abs()) && started == multiset{} && done == multiset{}
      requires forall n :: 0 <= n < |nodes| ==> Taken(Abs(), n) == 0
      modifies this, cnt
      ensures EdgesForward(nodes, order)
      ensures |order| == |nodes| <==> Digraph.Acyclic(Edges(nodes))
    {
      order := [];
      HandOver(nodes, Abs(), order);
      var batch := GetExecutableNodes();
      while |batch| > 0
        invariant Valid() && Progress(nodes, Abs(), order, batch) && executable == []
        decreases |nodes| - |order|
      {
        ghost var before := |order|;
        assert batch[0..] == batch;
        for k := 0 to |batch|
          invariant Valid() && Progress(nodes, Abs(), order, batch[k..])
          invariant |order| == before + k
        {
          assert batch[k..] == [batch[k]] + batch[k + 1..];
          NextIsFree(nodes, Abs(), order, batch[k..]);
          EmitProgress(nodes, Abs(), order, batch[k..]);
          order := order + [batch[k].node];
          StartAndFinish(batch[k].node);
        }
        assert batch[|batch|..] == [];
        HandOver(nodes, Abs(), order);
        batch := GetExecutableNodes();
      }
      Outcome(nodes, Abs(), order);
    }
  }

  /** Where the traversal stands: `order` has been emitted, `batch` is still to be emitted. */
  ghost predicate Progress(nodes: seq<Node>, tr: Tracker, order: seq<nat>, batch: seq<Freed>)
  {
    && Exact(nodes, tr)
    && EdgesForward(nodes, order)
    && tr.started == multiset(order) && tr.done == multiset(order)
    && (forall n {:trigger Taken(tr, n)} :: 0 <= n < |nodes| ==> Taken(tr, n) == Times(order, n) + Listed(batch)[n])
    && (forall i :: 0 <= i < |batch| ==> batch[i].node < |nodes|)
    && |order| <= |nodes|
  }

  /** The next node of the batch is new and all its predecessors have been emitted. */
  lemma {:induction false} NextIsFree(nodes: seq<Node>, tr: Tracker, order: seq<nat>, batch: seq<Freed>)
    requires Progress(nodes, tr, order, batch) && batch != []
    ensures var n := batch[0].node;
      n < |nodes| && n !in order && EdgesForward(nodes, order + [n]) && |order| < |nodes|
  {
    var n := batch[0].node;
    ListedHead(batch);
    assert Taken(tr, n) == Times(order, n) + Listed(batch)[n];
    assert Times(order, n) == 0;
    OpenIffBlocked(nodes, tr.started, tr.done, n, |nodes|);
    var next := order + [n];
    forall i, p | 0 <= i < |next| && DependsOn(nodes, p, next[i])
      ensures p in next[..i]
    {
      if i < |order| {
        assert next[i] == order[i];
        assert next[..i] == order[..i];
      } else {
        assert next[..i] == order;
      }
    }
    NoRepeatBound(next, |nodes|);
  }

  lemma {:induction false} EmitProgress(nodes: seq<Node>, tr: Tracker, order: seq<nat>, batch: seq<Freed>)
    requires Progress(nodes, tr, order, batch) && batch != []
    ensures var n := batch[0].node;
      Progress(nodes, MarkDone(nodes, MarkStarted(nodes, tr, n), n, 0), order + [n], batch[1..])
  {
    var n := batch[0].node;
    NextIsFree(nodes, tr, order, batch);
    MarkStartedExact(nodes, tr, n);
    var mid := MarkStarted(nodes, tr, n);
    MarkDoneExact(nodes, mid, n, 0);
    var r := MarkDone(nodes, mid, n, 0);
    ListedHead(batch);
    forall m: nat | m < |nodes|
      ensures Taken(r, m) == Times(order + [n], m) + Listed(batch[1..])[m]
    {
      assert Taken(tr, m) == Taken(mid, m) == Taken(r, m);
    }
  }

  lemma {:induction false} HandOver(nodes: seq<Node>, tr: Tracker, order: seq<nat>)
    requires Progress(nodes, tr, order, [])
    ensures Progress(nodes, Drain(tr), order, tr.executable)
  {
    var r := Drain(tr);
    forall n: nat | n < |nodes|
      ensures Taken(r, n) == Times(order, n) + Listed(tr.executable)[n]
    {
      assert Taken(tr, n) == Times(order, n);
    }
  }

  /** With nothing left to emit, everything has been emitted exactly when there is no cycle. */
  lemma {:induction false} Outcome(nodes: seq<Node>, tr: Tracker, order: seq<nat>)
    requires Progress(nodes, tr, order, []) && tr.executable == []
    ensures |order| == |nodes| <==> Digraph.Acyclic(Edges(nodes))
  {
    var edge := Edges(nodes);
    var left := Range(|nodes|) - Elements(order);
    forall v | v in left ensures Digraph.HasPredecessor(edge, left, v) {
      assert Taken(tr, v) == Times(order, v);
      OpenIffBlocked(nodes, tr.started, tr.done, v, |nodes|);
      var p: nat :| p < |nodes| && (v in nodes[p].dependOnMe || v in nodes[p].startDependOnMe) && p !in order;
      assert p in left && edge(p, v);
    }
    NoRepeatBound(order, |nodes|);
    if Digraph.Acyclic(edge) {
      Digraph.AcyclicNotStuck(edge, left);
    }
    if |order| == |nodes| {
      var rank := (v: nat) => Position(order, v);
      forall u: nat, v: nat | edge(u, v) ensures rank(u) < rank(v) {
        assert v in nodes[u].dependOnMe || v in nodes[u].startDependOnMe;
        assert v < |nodes|;
        assert v in order by { assert v !in left; }
        var i := Position(order, v);
        assert DependsOn(nodes, u, order[i]);
        assert u in order[..i];
        PositionOf(order, u, i);
      }
      Digraph.RankedIsAcyclic(edge, rank);
    }
  }

  /** The index of v in s, or |s|. */
  ghost function Position(s: seq<nat>, v: nat): (i: nat)
    ensures i <= |s| && (v in s <==> i < |s|) && (v in s ==> s[i] == v)
  {
    if v in s then var i :| 0 <= i < |s| && s[i] == v; i else |s|
  }

  lemma PositionOf(s: seq<nat>, v: nat, bound: nat)
    requires bound <= |s| && v in s[..bound]
    requires NoRepeat(s)
    ensures Position(s, v) < bound
  {
    var k :| 0 <= k < bound && s[..bound][k] == v;
    assert s[k] == v;
  }
}
