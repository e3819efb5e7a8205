/** Operations of one rank and the dependencies among them (struct Node in Parser.hpp). */
module Schedule {

  datatype Kind = Calc | Send | Recv

  /** `dependOnMe` lists the nodes that wait for this one to finish, `startDependOnMe`
      those that wait for it to start.  Both may repeat a node. */
  datatype Node = Node(
    kind: Kind,
    peer: nat,
    size: nat,
    tag: nat,
    proc: nat,
    nic: nat,
    dependOnMe: seq<nat>,
    startDependOnMe: seq<nat>)

  ghost predicate InRange(targets: seq<nat>, count: nat)
  {
    forall i :: 0 <= i < |targets| ==> targets[i] < count
  }

  ghost predicate WellFormed(nodes: seq<Node>)
  {
    forall p {:trigger nodes[p]} :: 0 <= p < |nodes| ==>
      InRange(nodes[p].dependOnMe, |nodes|) && InRange(nodes[p].startDependOnMe, |nodes|)
  }

  /** Both kinds of dependency: b waits for a. */
  ghost predicate DependsOn(nodes: seq<Node>, a: nat, b: nat)
  {
    a < |nodes| && (b in nodes[a].dependOnMe || b in nodes[a].startDependOnMe)
  }

  /** How often n occurs in s. */
  ghost function Times(s: seq<nat>, n: nat): nat {
    multiset(s)[n]
  }

  /** In-edges of n, counted with multiplicity, that leave one of the first k nodes and
      that the nodes started and done so far have not satisfied. */
  ghost function OpenUpTo(nodes: seq<Node>, started: multiset<nat>, done: multiset<nat>, n: nat, k: nat): nat
    requires k <= |nodes|
  {
    if k == 0 then 0
    else
      OpenUpTo(nodes, started, done, n, k - 1)
      + (if k - 1 in done then 0 else Times(nodes[k - 1].dependOnMe, n))
      + (if k - 1 in started then 0 else Times(nodes[k - 1].startDependOnMe, n))
  }

  ghost function Open(nodes: seq<Node>, started: multiset<nat>, done: multiset<nat>, n: nat): nat
  {
    OpenUpTo(nodes, started, done, n, |nodes|)
  }

  ghost function InDegree(nodes: seq<Node>, n: nat): nat
  {
    Open(nodes, multiset{}, multiset{}, n)
  }

  /** The counters are the in-degrees. */
  ghost predicate CountsInDegrees(nodes: seq<Node>, counts: seq<nat>)
  {
    |counts| == |nodes| && forall n {:trigger counts[n]} :: 0 <= n < |nodes| ==> counts[n] == InDegree(nodes, n)
  }

  lemma {:induction false} OpenAfterDone(
      nodes: seq<Node>, started: multiset<nat>, done: multiset<nat>, p: nat, n: nat, k: nat)
    requires k <= |nodes| && p < |nodes|
    requires p !in done
    ensures OpenUpTo(nodes, started, done, n, k)
         == OpenUpTo(nodes, started, done + multiset{p}, n, k)
            + if p < k then Times(nodes[p].dependOnMe, n) else 0
  {
    if k > 0 {
      OpenAfterDone(nodes, started, done, p, n, k - 1);
    }
  }

  lemma {:induction false} OpenAfterStart(
      nodes: seq<Node>, started: multiset<nat>, done: multiset<nat>, p: nat, n: nat, k: nat)
    requires k <= |nodes| && p < |nodes|
    requires p !in started
    ensures OpenUpTo(nodes, started, done, n, k)
         == OpenUpTo(nodes, started + multiset{p}, done, n, k)
            + if p < k then Times(nodes[p].startDependOnMe, n) else 0
  {
    if k > 0 {
      OpenAfterStart(nodes, started, done, p, n, k - 1);
    }
  }

  /** A node has an open in-edge exactly when some predecessor has not happened yet. */
  lemma {:induction false} OpenIffBlocked(
      nodes: seq<Node>, started: multiset<nat>, done: multiset<nat>, n: nat, k: nat)
    requires k <= |nodes|
    ensures OpenUpTo(nodes, started, done, n, k) > 0
       <==> exists p :: 0 <= p < k && ((n in nodes[p].dependOnMe && p !in done)
                                    || (n in nodes[p].startDependOnMe && p !in started))
  {
    if k > 0 {
      OpenIffBlocked(nodes, started, done, n, k - 1);
    }
  }
}
