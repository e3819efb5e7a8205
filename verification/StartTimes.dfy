/** The start time a node is freed with is the latest completion of the nodes it requires
    (MarkNodeAsDone in Parser.hpp), when no start dependencies are used. */
module StartTimes {
  import opened Schedule
  import opened DependencyTracker

  ghost predicate NoStartEdges(nodes: seq<Node>)
  {
    forall p {:trigger nodes[p]} :: 0 <= p < |nodes| ==> nodes[p].startDependOnMe == []
  }

  /** The latest end among those of the first k nodes that node n requires, 0 without any. */
  ghost function LatestEnd(nodes: seq<Node>, ends: map<nat, nat>, n: nat, k: nat): nat
    requires k <= |nodes|
  {
    if k == 0 then 0
    else
      var before := LatestEnd(nodes, ends, n, k - 1);
      if k - 1 in ends && n in nodes[k - 1].dependOnMe then Max(before, ends[k - 1]) else before
  }

  ghost function RequiredEnd(nodes: seq<Node>, ends: map<nat, nat>, n: nat): nat {
    LatestEnd(nodes, ends, n, |nodes|)
  }

  /** It is what its name says. */
  lemma {:induction false} LatestEndIs(nodes: seq<Node>, ends: map<nat, nat>, n: nat, k: nat)
    requires k <= |nodes|
    ensures forall p: nat :: p < k && p in ends && n in nodes[p].dependOnMe ==> ends[p] <= LatestEnd(nodes, ends, n, k)
    ensures LatestEnd(nodes, ends, n, k) == 0
         || exists p: nat :: p < k && p in ends && n in nodes[p].dependOnMe && ends[p] == LatestEnd(nodes, ends, n, k)
  {
    if k > 0 {
      LatestEndIs(nodes, ends, n, k - 1);
      var v := LatestEnd(nodes, ends, n, k - 1);
      if v > 0 {
        var p: nat :| p < k - 1 && p in ends && n in nodes[p].dependOnMe && ends[p] == v;
      }
    }
  }

  lemma {:induction false} LatestEndAfter(nodes: seq<Node>, ends: map<nat, nat>, p: nat, at: nat, n: nat, k: nat)
    requires k <= |nodes| && p < |nodes| && p !in ends
    ensures LatestEnd(nodes, ends[p := at], n, k)
         == if p < k && n in nodes[p].dependOnMe then Max(LatestEnd(nodes, ends, n, k), at) else LatestEnd(nodes, ends, n, k)
  {
    if k > 0 {
      LatestEndAfter(nodes, ends, p, at, n, k - 1);
    }
  }

  /** The time the tracker has remembered for a waiting node. */
  function Remembered(tr: Tracker, n: nat): nat {
    if n in tr.startTime then tr.startTime[n] else 0
  }

  /** The tracker has time v for node n: remembered while n waits, and handed out with it. */
  ghost predicate HasTime(tr: Tracker, n: nat, v: nat)
    requires n < |tr.cnt|
  {
    && (tr.cnt[n] > 0 ==> Remembered(tr, n) == v)
    && (forall i {:trigger tr.executable[i]} :: 0 <= i < |tr.executable| && tr.executable[i].node == n ==> tr.executable[i].start == v)
  }

  /** For every node that is the latest end of those it requires. */
  ghost predicate Prompt(nodes: seq<Node>, tr: Tracker)
    requires Shaped(nodes, tr)
  {
    forall n: nat {:trigger HasTime(tr, n, RequiredEnd(nodes, tr.doneAt, n))} :: n < |nodes| ==> HasTime(tr, n, RequiredEnd(nodes, tr.doneAt, n))
  }

  /** All nodes freed but not taken yet start at time v or later. */
  ghost predicate FreedFrom(tr: Tracker, v: nat)
  {
    forall i {:trigger tr.executable[i]} :: 0 <= i < |tr.executable| ==> tr.executable[i].start >= v
  }

  /** No node has been handed out more often than its counter has reached zero. */
  ghost predicate TakenOk(tr: Tracker)
  {
    forall n {:trigger Taken(tr, n)} :: 0 <= n < |tr.cnt| ==> Taken(tr, n) >= 0
  }

  lemma {:induction false} ListedIfIn(ex: seq<Freed>, i: nat)
    requires i < |ex|
    ensures Listed(ex)[ex[i].node] > 0
  {
    if i < |ex| - 1 {
      ListedIfIn(ex[..|ex| - 1], i);
    }
  }

  lemma WaitingNotListed(tr: Tracker, n: nat, i: nat)
    requires TakenOk(tr) && n < |tr.cnt| && tr.cnt[n] > 0 && i < |tr.executable|
    ensures tr.executable[i].node != n
  {
    ListedIfIn(tr.executable, i);
    assert Taken(tr, n) >= 0;
  }

  lemma EdgeHasTime(tr: Tracker, t: nat, at: nat, n: nat, v: nat)
    requires t < |tr.cnt| && n < |tr.cnt| && tr.cnt[t] > 0 && TakenOk(tr) && HasTime(tr, n, v)
    ensures HasTime(SatisfyEdge(tr, t, ByDone(at)), n, if n == t then Max(v, at) else v)
  {
    var r := SatisfyEdge(tr, t, ByDone(at));
    forall i | 0 <= i < |r.executable| && r.executable[i].node == n
      ensures r.executable[i].start == if n == t then Max(v, at) else v
    {
      if i < |tr.executable| {
        assert r.executable[i] == tr.executable[i];
        if n == t {
          WaitingNotListed(tr, n, i);
        }
      }
    }
  }

  /** Completing at time `at` raises the time of all targets to it, and of no other node. */
  lemma {:induction false} AllHaveTime(tr: Tracker, targets: seq<nat>, at: nat, n: nat, v: nat)
    requires Covers(tr, targets) && TakenOk(tr) && n < |tr.cnt| && HasTime(tr, n, v)
    ensures HasTime(SatisfyAll(tr, targets, ByDone(at)), n, if n in targets then Max(v, at) else v)
    decreases |targets|
  {
    hide Listed, HasTime, SatisfyEdge;
    if targets != [] {
      var t, tr1 := targets[0], SatisfyEdge(tr, targets[0], ByDone(at));
      assert t in targets && Times(targets, t) > 0;
      SatisfyEdgeEffect(tr, t, ByDone(at));
      CoversRest(tr, targets, tr1);
      forall m | 0 <= m < |tr.cnt| ensures Taken(tr1, m) >= 0 {
        assert Taken(tr, m) == Taken(tr1, m);
      }
      EdgeHasTime(tr, t, at, n, v);
      AllHaveTime(tr1, targets[1..], at, n, if n == t then Max(v, at) else v);
    }
  }

  /** A completion keeps the tracker prompt. */
  lemma {:induction false} MarkDonePrompt(nodes: seq<Node>, tr: Tracker, p: nat, at: nat, v: nat)
    requires Exact(nodes, tr) && p < |nodes| && p !in tr.done && p !in tr.doneAt
    requires TakenOk(tr) && Prompt(nodes, tr) && FreedFrom(tr, v) && v <= at
    ensures Prompt(nodes, MarkDone(nodes, tr, p, at)) && FreedFrom(MarkDone(nodes, tr, p, at), v)
  {
    hide Listed, HasTime, FreedFrom, Open, LatestEnd;
    var targets: seq<nat> := nodes[p].dependOnMe;
    var tr1 := tr.(done := tr.done + multiset{p}, doneAt := tr.doneAt[p := at]);
    var r := MarkDone(nodes, tr, p, at);
    DoneCovers(nodes, tr, p);
    SameQueue(tr, tr1, v);
    DoneFreesLater(tr1, targets, at);
    FreedFromSince(tr1, r, at, v);
    forall n: nat | n < |nodes|
      ensures HasTime(r, n, RequiredEnd(nodes, r.doneAt, n))
    {
      var w := RequiredEnd(nodes, tr.doneAt, n);
      assert HasTime(tr, n, w);
      SameHasTime(tr, tr1, n, w);
      AllHaveTime(tr1, targets, at, n, w);
      LatestEndAfter(nodes, tr.doneAt, p, at, n, |nodes|);
    }
  }

  lemma FreedFromSince(a: Tracker, b: Tracker, at: nat, v: nat)
    requires FreedFrom(a, v) && FreedSince(a.executable, b.executable, at) && v <= at
    ensures FreedFrom(b, v)
  {
  }

  lemma SameQueue(a: Tracker, b: Tracker, v: nat)
    requires a.cnt == b.cnt && a.executable == b.executable
    ensures TakenOk(a) ==> TakenOk(b)
    ensures FreedFrom(a, v) ==> FreedFrom(b, v)
  {
    if TakenOk(a) {
      forall n | 0 <= n < |b.cnt| ensures Taken(b, n) >= 0 {
        assert Taken(a, n) >= 0;
      }
    }
  }

  lemma SameHasTime(a: Tracker, b: Tracker, n: nat, v: nat)
    requires a.cnt == b.cnt && a.executable == b.executable && a.startTime == b.startTime
    requires n < |a.cnt| && HasTime(a, n, v)
    ensures HasTime(b, n, v)
  {
  }

  lemma SamePrompt(nodes: seq<Node>, a: Tracker, b: Tracker)
    requires Shaped(nodes, a) && Shaped(nodes, b) && Prompt(nodes, a)
    requires a.cnt == b.cnt && a.startTime == b.startTime && a.doneAt == b.doneAt
    requires b.executable == a.executable || b.executable == []
    ensures Prompt(nodes, b)
  {
    hide LatestEnd;
    forall n: nat | n < |nodes| ensures HasTime(b, n, RequiredEnd(nodes, b.doneAt, n)) {
      assert HasTime(a, n, RequiredEnd(nodes, a.doneAt, n));
    }
  }

  lemma DoneCovers(nodes: seq<Node>, tr: Tracker, p: nat)
    requires Exact(nodes, tr) && p < |nodes| && p !in tr.done
    ensures Covers(tr, nodes[p].dependOnMe)
  {
    forall n: nat | n < |nodes| ensures Times(nodes[p].dependOnMe, n) <= tr.cnt[n] {
      OpenAfterDone(nodes, tr.started, tr.done, p, n, |nodes|);
    }
  }

  /** A freed node's start time is the latest end of the nodes it requires, all of which have
      ended. */
  lemma FreedAt(nodes: seq<Node>, tr: Tracker, i: nat)
    requires Exact(nodes, tr) && TakenOk(tr) && Prompt(nodes, tr)
    requires forall q :: q in tr.doneAt <==> q in tr.done
    requires i < |tr.executable|
    ensures var f := tr.executable[i];
      && f.start == RequiredEnd(nodes, tr.doneAt, f.node)
      && forall p: nat :: p < |nodes| && f.node in nodes[p].dependOnMe ==> p in tr.doneAt && tr.doneAt[p] <= f.start
  {
    var n := tr.executable[i].node;
    ListedIfIn(tr.executable, i);
    assert Taken(tr, n) >= 0;
    OpenIffBlocked(nodes, tr.started, tr.done, n, |nodes|);
    assert HasTime(tr, n, RequiredEnd(nodes, tr.doneAt, n));
    LatestEndIs(nodes, tr.doneAt, n, |nodes|);
  }

  /** Nothing has ended at the beginning. */
  lemma InitiallyPrompt(nodes: seq<Node>, tr: Tracker)
    requires Shaped(nodes, tr) && tr.startTime == map[] && tr.doneAt == map[]
    requires forall i :: 0 <= i < |tr.executable| ==> tr.executable[i].start == 0
    ensures Prompt(nodes, tr)
  {
    forall n: nat | n < |nodes| ensures HasTime(tr, n, RequiredEnd(nodes, tr.doneAt, n)) {
      LatestEndIs(nodes, tr.doneAt, n, |nodes|);
    }
  }
}
