/** Finite walks in a directed graph given by its edge relation. */
module Digraph {

  ghost predicate IsWalk<V(!new)>(edge: (V, V) -> bool, p: seq<V>)
  {
    forall i {:trigger p[i]} :: 0 <= i < |p| - 1 ==> edge(p[i], p[i + 1])
  }

  /** No walk with at least one edge returns to its first vertex. */
  ghost predicate Acyclic<V(!new)>(edge: (V, V) -> bool)
  {
    forall p: seq<V> {:trigger IsWalk(edge, p)} :: |p| >= 2 && IsWalk(edge, p) ==> p[0] != p[|p| - 1]
  }

  /** Every vertex of s has a predecessor that is in s as well. */
  ghost predicate Stuck<V(!new)>(edge: (V, V) -> bool, s: set<V>)
  {
    forall v {:trigger HasPredecessor(edge, s, v)} :: v in s ==> HasPredecessor(edge, s, v)
  }

  ghost predicate HasPredecessor<V(!new)>(edge: (V, V) -> bool, s: set<V>, v: V)
  {
    exists u :: u in s && edge(u, v)
  }

  /** A function that grows along every edge rules out cycles. */
  lemma {:induction false} RankedIsAcyclic<V(!new)>(edge: (V, V) -> bool, rank: V -> int)
    requires forall u, v :: edge(u, v) ==> rank(u) < rank(v)
    ensures Acyclic(edge)
  {
    forall p: seq<V> | |p| >= 2 && IsWalk(edge, p)
      ensures p[0] != p[|p| - 1]
    {
      RankGrows(edge, rank, p);
    }
  }

  lemma {:induction false} RankGrows<V(!new)>(edge: (V, V) -> bool, rank: V -> int, p: seq<V>)
    requires forall u, v :: edge(u, v) ==> rank(u) < rank(v)
    requires |p| >= 2 && IsWalk(edge, p)
    ensures rank(p[0]) < rank(p[|p| - 1])
    decreases |p|
  {
    assert edge(p[0], p[1]);
    if |p| > 2 {
      RankGrows(edge, rank, p[1..]);
    }
  }

  /** In an acyclic graph no non-empty finite set of vertices is stuck. */
  lemma {:induction false} AcyclicNotStuck<V(!new)>(edge: (V, V) -> bool, s: set<V>)
    requires Acyclic(edge)
    requires Stuck(edge, s)
    ensures s == {}
  {
    if v :| v in s {
      var p := WalkInto(edge, s, v, |s|);
      var i, j := Pigeonhole(p, s);
      var loop := p[i..j + 1];
      assert IsWalk(edge, loop);
    }
  }

  lemma {:induction false} WalkInto<V(!new)>(edge: (V, V) -> bool, s: set<V>, v: V, n: nat) returns (p: seq<V>)
    requires Stuck(edge, s)
    requires v in s
    ensures |p| == n + 1 && p[n] == v
    ensures IsWalk(edge, p)
    ensures forall i :: 0 <= i < |p| ==> p[i] in s
    decreases n
  {
    if n == 0 {
      p := [v];
    } else {
      assert HasPredecessor(edge, s, v);
      var u :| u in s && edge(u, v);
      var q := WalkInto(edge, s, u, n - 1);
      p := q + [v];
    }
  }

  /** A sequence longer than the set it draws from repeats an element. */
  lemma {:induction false} Pigeonhole<V(!new)>(p: seq<V>, s: set<V>) returns (i: nat, j: nat)
    requires |p| > |s|
    requires forall k :: 0 <= k < |p| ==> p[k] in s
    ensures i < j < |p| && p[i] == p[j]
    decreases |p|
  {
    var last := |p| - 1;
    if k :| 0 <= k < last && p[k] == p[last] {
      i, j := k, last;
    } else {
      i, j := Pigeonhole(p[..last], s - {p[last]});
    }
  }
}
