/** The dependency counters of one rank's schedule (class SerializedGraph in Parser.hpp),
    as values.  `started`, `done` and `doneAt` record the calls made so far; the counters
    do not depend on them. */
module DependencyTracker {
  import opened Schedule

  datatype Freed = Freed(node: nat, start: nat)

  datatype Tracker = Tracker(
    cnt: seq<nat>,
    startTime: map<nat, nat>,
    executable: seq<Freed>,
    started: multiset<nat>,
    done: multiset<nat>,
    doneAt: map<nat, nat>)

  /** What satisfied a dependency: the start of its head, or its completion at a time. */
  datatype Cause = ByStart | ByDone(at: nat)

  const WRAP: nat := 0xFFFF_FFFF

  /** The 32-bit decrement of a counter. */
  function Decrement(c: nat): nat {
    if c == 0 then WRAP else c - 1
  }

  function Max(a: nat, b: nat): nat {
    if a < b then b else a
  }

  ghost predicate ExecutableInRange(tr: Tracker)
  {
    forall i :: 0 <= i < |tr.executable| ==> tr.executable[i].node < |tr.cnt|
  }

  /** One edge into n is satisfied. */
  function SatisfyEdge(tr: Tracker, n: nat, cause: Cause): (r: Tracker)
    requires n < |tr.cnt|
    ensures |r.cnt| == |tr.cnt|
    ensures ExecutableInRange(tr) ==> ExecutableInRange(r)
  {
    var c := Decrement(tr.cnt[n]);
    var tr1 := tr.(cnt := tr.cnt[n := c]);
    match cause
    case ByStart =>
      if c == 0 then tr1.(executable := tr1.executable + [Freed(n, 0)]) else tr1
    case ByDone(at) =>
      var start := if n in tr.startTime then Max(tr.startTime[n], at) else at;
      if c == 0
      then tr1.(executable := tr1.executable + [Freed(n, start)], startTime := tr.startTime - {n})
      else tr1.(startTime := tr.startTime[n := start])
  }

  function SatisfyAll(tr: Tracker, targets: seq<nat>, cause: Cause): (r: Tracker)
    requires InRange(targets, |tr.cnt|)
    ensures |r.cnt| == |tr.cnt|
    ensures r.started == tr.started && r.done == tr.done && r.doneAt == tr.doneAt
    ensures ExecutableInRange(tr) ==> ExecutableInRange(r)
    decreases |targets|
  {
    if targets == [] then tr
    else
      SatisfyAll(SatisfyEdge(tr, targets[0], cause), targets[1..], cause)
  }

  ghost predicate Shaped(nodes: seq<Node>, tr: Tracker)
  {
    WellFormed(nodes) && |tr.cnt| == |nodes| && ExecutableInRange(tr)
  }

  function MarkStarted(nodes: seq<Node>, tr: Tracker, p: nat): (r: Tracker)
    requires Shaped(nodes, tr) && p < |nodes|
    ensures Shaped(nodes, r)
    ensures r.started == tr.started + multiset{p} && r.done == tr.done && r.doneAt == tr.doneAt
  {
    SatisfyAll(tr.(started := tr.started + multiset{p}), nodes[p].startDependOnMe, ByStart)
  }

  function MarkDone(nodes: seq<Node>, tr: Tracker, p: nat, at: nat): (r: Tracker)
    requires Shaped(nodes, tr) && p < |nodes|
    ensures Shaped(nodes, r)
    ensures r.started == tr.started && r.done == tr.done + multiset{p} && r.doneAt == tr.doneAt[p := at]
  {
    SatisfyAll(tr.(done := tr.done + multiset{p}, doneAt := tr.doneAt[p := at]),
               nodes[p].dependOnMe, ByDone(at))
  }

  function Drain(tr: Tracker): Tracker {
    tr.(executable := [])
  }

  /** How often each node stands in the list of executable nodes. */
  function Listed(ex: seq<Freed>): multiset<nat> {
    if ex == [] then multiset{} else Listed(ex[..|ex| - 1]) + multiset{ex[|ex| - 1].node}
  }

  /** List b is list a with more nodes, none of which starts before t. */
  ghost predicate FreedSince(a: seq<Freed>, b: seq<Freed>, t: nat)
  {
    a <= b && forall i {:trigger b[i]} :: |a| <= i < |b| ==> b[i].start >= t
  }

  /** Counting c down k times passes zero; from zero it wraps around first. */
  predicate HitsZero(c: nat, k: nat) {
    k > 0 && k >= if c == 0 then WRAP + 1 else c
  }

  /** Each counter is the number of in-edges not yet satisfied. */
  ghost predicate Exact(nodes: seq<Node>, tr: Tracker)
  {
    && Shaped(nodes, tr)
    && forall n {:trigger tr.cnt[n]} :: 0 <= n < |nodes| ==> tr.cnt[n] == Open(nodes, tr.started, tr.done, n)
  }

  function IsZero(c: nat): nat {
    if c == 0 then 1 else 0
  }

  /** How often node n has been handed out and taken so far: once its counter is zero it
      has been listed exactly once. */
  ghost function Taken(tr: Tracker, n: nat): int
    requires n < |tr.cnt|
  {
    IsZero(tr.cnt[n]) - Listed(tr.executable)[n]
  }

  ghost predicate SameTaken(a: Tracker, b: Tracker)
  {
    |a.cnt| == |b.cnt| && forall n {:trigger Taken(a, n)} {:trigger Taken(b, n)} :: 0 <= n < |a.cnt| ==> Taken(a, n) == Taken(b, n)
  }

  ghost predicate Covers(tr: Tracker, targets: seq<nat>)
  {
    InRange(targets, |tr.cnt|) && forall n {:trigger tr.cnt[n]} :: 0 <= n < |tr.cnt| ==> Times(targets, n) <= tr.cnt[n]
  }

  lemma ListedPush(ex: seq<Freed>, f: Freed)
    ensures Listed(ex + [f]) == Listed(ex) + multiset{f.node}
  {
    assert (ex + [f])[..|ex|] == ex;
  }

  lemma {:induction false} ListedHead(ex: seq<Freed>)
    requires ex != []
    ensures Listed(ex) == multiset{ex[0].node} + Listed(ex[1..])
  {
    if |ex| > 1 {
      var init := ex[..|ex| - 1];
      ListedHead(init);
      assert init[1..] == ex[1..][..|ex| - 2];
    } else {
      assert ex[..0] == [] && ex[1..] == [];
    }
  }

  lemma {:induction false} SatisfyEdgeEffect(tr: Tracker, n: nat, cause: Cause)
    requires n < |tr.cnt| && tr.cnt[n] > 0
    ensures var r := SatisfyEdge(tr, n, cause);
      && r.started == tr.started && r.done == tr.done && r.doneAt == tr.doneAt
      && r.cnt == tr.cnt[n := tr.cnt[n] - 1]
      && SameTaken(tr, r)
      && tr.executable <= r.executable
  {
    var r := SatisfyEdge(tr, n, cause);
    if tr.cnt[n] == 1 {
      var f := r.executable[|tr.executable|];
      assert r.executable == tr.executable + [f] && f.node == n;
      ListedPush(tr.executable, f);
    } else {
      assert r.executable == tr.executable;
    }
  }

  lemma CoversRest(tr: Tracker, targets: seq<nat>, r: Tracker)
    requires Covers(tr, targets) && targets != []
    requires r.cnt == tr.cnt[targets[0] := tr.cnt[targets[0]] - 1]
    ensures Covers(r, targets[1..])
    ensures forall n :: 0 <= n < |tr.cnt| ==> r.cnt[n] - Times(targets[1..], n) == tr.cnt[n] - Times(targets, n)
  {
    assert targets == [targets[0]] + targets[1..];
    assert forall n: nat {:trigger Times(targets, n)} ::
      Times(targets, n) == (if n == targets[0] then 1 else 0) + Times(targets[1..], n);
  }

  lemma {:induction false} SatisfyAllEffect(tr: Tracker, targets: seq<nat>, cause: Cause)
    requires Covers(tr, targets)
    ensures var r := SatisfyAll(tr, targets, cause);
      && (forall n {:trigger r.cnt[n]} :: 0 <= n < |tr.cnt| ==> r.cnt[n] == tr.cnt[n] - Times(targets, n))
      && SameTaken(tr, r)
      && tr.executable <= r.executable
    decreases |targets|
  {
    if targets != [] {
      assert targets[0] in targets;
      assert Times(targets, targets[0]) > 0;
      SatisfyEdgeEffect(tr, targets[0], cause);
      var tr1 := SatisfyEdge(tr, targets[0], cause);
      CoversRest(tr, targets, tr1);
      SatisfyAllEffect(tr1, targets[1..], cause);
      SameTakenTrans(tr, tr1, SatisfyAll(tr1, targets[1..], cause));
    }
  }

  lemma SameTakenTrans(a: Tracker, b: Tracker, c: Tracker)
    requires SameTaken(a, b) && SameTaken(b, c)
    ensures SameTaken(a, c)
  {
    forall n | 0 <= n < |a.cnt| ensures Taken(a, n) == Taken(c, n) {
      assert Taken(a, n) == Taken(b, n);
    }
  }

  lemma {:induction false} MarkStartedExact(nodes: seq<Node>, tr: Tracker, p: nat)
    requires Exact(nodes, tr) && p < |nodes| && p !in tr.started
    ensures var r := MarkStarted(nodes, tr, p);
      && Exact(nodes, r)
      && SameTaken(tr, r)
      && tr.executable <= r.executable
  {
    var targets := nodes[p].startDependOnMe;
    var tr1 := tr.(started := tr.started + multiset{p});
    forall n: nat | n < |nodes|
      ensures tr.cnt[n] == Open(nodes, tr1.started, tr.done, n) + Times(targets, n)
    {
      OpenAfterStart(nodes, tr.started, tr.done, p, n, |nodes|);
    }
    SatisfyAllEffect(tr1, targets, ByStart);
    assert SameTaken(tr, tr1);
  }

  lemma {:induction false} MarkDoneExact(nodes: seq<Node>, tr: Tracker, p: nat, at: nat)
    requires Exact(nodes, tr) && p < |nodes| && p !in tr.done
    ensures var r := MarkDone(nodes, tr, p, at);
      && Exact(nodes, r)
      && SameTaken(tr, r)
      && tr.executable <= r.executable
  {
    var targets := nodes[p].dependOnMe;
    var tr1 := tr.(done := tr.done + multiset{p}, doneAt := tr.doneAt[p := at]);
    forall n: nat | n < |nodes|
      ensures tr.cnt[n] == Open(nodes, tr.started, tr1.done, n) + Times(targets, n)
    {
      OpenAfterDone(nodes, tr.started, tr.done, p, n, |nodes|);
    }
    SatisfyAllEffect(tr1, targets, ByDone(at));
    assert SameTaken(tr, tr1);
  }

  // ---- start times of freed nodes ----

  /** Whoever is freed by a completion starts no earlier. */
  lemma {:induction false} DoneFreesLater(tr: Tracker, targets: seq<nat>, at: nat)
    requires InRange(targets, |tr.cnt|)
    ensures FreedSince(tr.executable, SatisfyAll(tr, targets, ByDone(at)).executable, at)
    decreases |targets|
  {
    if targets != [] {
      DoneFreesLater(SatisfyEdge(tr, targets[0], ByDone(at)), targets[1..], at);
    }
  }

  /** Starting frees exactly the nodes whose counter passes zero, and all of them at time 0. */
  lemma {:induction false} StartFreesAtZero(tr: Tracker, targets: seq<nat>, n: nat)
    requires InRange(targets, |tr.cnt|) && n < |tr.cnt|
    ensures var ex, r := tr.executable, SatisfyAll(tr, targets, ByStart).executable;
      && ex <= r
      && (forall i {:trigger r[i]} :: |ex| <= i < |r| ==> r[i].start == 0)
      && (HitsZero(tr.cnt[n], Times(targets, n)) <==> exists i :: |ex| <= i < |r| && r[i].node == n)
    decreases |targets|
  {
    if targets != [] {
      var t, rest := targets[0], targets[1..];
      var tr1 := SatisfyEdge(tr, t, ByStart);
      StartFreesAtZero(tr1, rest, n);
      assert targets == [t] + rest;
      assert Times(targets, n) == Times(rest, n) + if t == n then 1 else 0;
      var ex, r := tr.executable, SatisfyAll(tr, targets, ByStart).executable;
      if |tr1.executable| > |ex| {
        assert r[|ex|] == Freed(t, 0);
      }
    }
  }
}
