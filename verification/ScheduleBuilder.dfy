/** Building the schedule of one rank (class Graph in Parser.hpp). */
module ScheduleBuilder {
  import opened Schedule
  import opened Bytes
  import opened ScheduleFormat

  /** The nodes without dependencies among the first k. */
  function RootOffsets(counts: seq<nat>, k: nat): (r: seq<nat>)
    requires k <= |counts|
    ensures |r| <= k && forall i {:trigger r[i]} :: 0 <= i < |r| ==> r[i] < k
  {
    if k == 0 then [] else RootOffsets(counts, k - 1) + if counts[k - 1] == 0 then [k - 1] else []
  }

  /** A rank as it is written: counters are in-degrees, roots the nodes without. */
  ghost predicate Complete(d: Rank) {
    WellFormed(d.nodes) && CountsInDegrees(d.nodes, d.counts) && d.roots == RootOffsets(d.counts, |d.counts|)
  }

  /** What one more edge out of b does to the open in-edges of n. */
  lemma {:induction false} OpenAfterEdge(nodes: seq<Node>, more: seq<Node>, a: nat, b: nat, n: nat, k: nat)
    requires b < |nodes| && k <= |nodes|
    requires more == nodes[b := nodes[b].(dependOnMe := nodes[b].dependOnMe + [a])]
          || more == nodes[b := nodes[b].(startDependOnMe := nodes[b].startDependOnMe + [a])]
    ensures OpenUpTo(more, multiset{}, multiset{}, n, k)
         == OpenUpTo(nodes, multiset{}, multiset{}, n, k) + if b < k && n == a then 1 else 0
  {
    if k > 0 {
      OpenAfterEdge(nodes, more, a, b, n, k - 1);
    }
  }

  lemma {:induction false} OpenAfterNode(nodes: seq<Node>, node: Node, n: nat, k: nat)
    requires k <= |nodes|
    ensures OpenUpTo(nodes + [node], multiset{}, multiset{}, n, k) == OpenUpTo(nodes, multiset{}, multiset{}, n, k)
  {
    if k > 0 {
      OpenAfterNode(nodes, node, n, k - 1);
    }
  }

  lemma {:induction false} NothingOpen(nodes: seq<Node>, n: nat, k: nat)
    requires k <= |nodes| <= n && WellFormed(nodes)
    ensures OpenUpTo(nodes, multiset{}, multiset{}, n, k) == 0
  {
    if k > 0 {
      NothingOpen(nodes, n, k - 1);
      assert nodes[k - 1] == nodes[k - 1];
    }
  }

  lemma {:induction false} TargetsAfterEdge(nodes: seq<Node>, more: seq<Node>, a: nat, b: nat, k: nat)
    requires b < |nodes| && k <= |nodes|
    requires more == nodes[b := nodes[b].(dependOnMe := nodes[b].dependOnMe + [a])]
          || more == nodes[b := nodes[b].(startDependOnMe := nodes[b].startDependOnMe + [a])]
    ensures |Targets(more, k)| == |Targets(nodes, k)| + if b < k then 1 else 0
  {
    if k > 0 {
      TargetsAfterEdge(nodes, more, a, b, k - 1);
    }
  }

  lemma {:induction false} TargetsAfterNode(nodes: seq<Node>, node: Node, k: nat)
    requires k <= |nodes|
    ensures Targets(nodes + [node], k) == Targets(nodes, k)
  {
    if k > 0 {
      TargetsAfterNode(nodes, node, k - 1);
    }
  }

  class Graph {
    var nodes: seq<Node>
    var counts: seq<nat>
    var numEdges: nat

    /** The counters are the in-degrees, and every edge is counted once. */
    ghost predicate Valid()
      reads this
    {
      WellFormed(nodes) && CountsInDegrees(nodes, counts) && numEdges == |Targets(nodes, |nodes|)|
    }

    constructor ()
      ensures Valid() && nodes == []
    {
      nodes, counts, numEdges := [], [], 0;
    }

    method AddNode(node: Node) returns (offset: nat)
      requires Valid() && node.dependOnMe == [] && node.startDependOnMe == []
      modifies this
      ensures Valid() && offset == |old(nodes)| && nodes == old(nodes) + [node]
    {
      offset := |nodes|;
      ghost var before := nodes;
      nodes, counts := nodes + [node], counts + [0];
      forall n: nat | n <= |before|
        ensures InDegree(nodes, n) == counts[n]
      {
        OpenAfterNode(before, node, n, |before|);
        if n == |before| {
          NothingOpen(before, n, |before|);
        }
      }
      TargetsAfterNode(before, node, |before|);
    }

    /** a waits for b to finish. */
    method AddDependency(a: nat, b: nat)
      requires Valid() && a < |nodes| && b < |nodes|
      modifies this
      ensures Valid()
      ensures nodes == old(nodes)[b := old(nodes)[b].(dependOnMe := old(nodes)[b].dependOnMe + [a])]
    {
      ghost var before := nodes;
      nodes := nodes[b := nodes[b].(dependOnMe := nodes[b].dependOnMe + [a])];
      counts := counts[a := counts[a] + 1];
      numEdges := numEdges + 1;
      forall n: nat | n < |nodes| ensures InDegree(nodes, n) == counts[n] {
        OpenAfterEdge(before, nodes, a, b, n, |nodes|);
      }
      TargetsAfterEdge(before, nodes, a, b, |nodes|);
    }

    /** a waits for b to start. */
    method AddStartDependency(a: nat, b: nat)
      requires Valid() && a < |nodes| && b < |nodes|
      modifies this
      ensures Valid()
      ensures nodes == old(nodes)[b := old(nodes)[b].(startDependOnMe := old(nodes)[b].startDependOnMe + [a])]
    {
      ghost var before := nodes;
      nodes := nodes[b := nodes[b].(startDependOnMe := nodes[b].startDependOnMe + [a])];
      counts := counts[a := counts[a] + 1];
      numEdges := numEdges + 1;
      forall n: nat | n < |nodes| ensures InDegree(nodes, n) == counts[n] {
        OpenAfterEdge(before, nodes, a, b, n, |nodes|);
      }
      TargetsAfterEdge(before, nodes, a, b, |nodes|);
    }

    method FindRootNodes() returns (roots: seq<nat>)
      requires Valid()
      ensures roots == RootOffsets(counts, |counts|)
    {
      roots := [];
      for k := 0 to |nodes|
        invariant roots == RootOffsets(counts, k)
      {
        if counts[k] == 0 {
          roots := roots + [k];
        }
      }
    }
  }
}
