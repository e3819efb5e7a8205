/** Runs of the event loop from the loaded schedule, for any choice among earliest items
    and any noise, and what holds in every state they reach. */
module Runs {
  import opened Schedule
  import opened DependencyTracker
  import opened EventLoop
  import opened Accounting
  import opened Effects
  import opened ExactlyOnce
  import SG = SerializedGraph

  /** The dependency counters in the file are the in-degrees. */
  ghost predicate Loaded(cfg: Config, counts: seq<seq<nat>>)
  {
    && ValidConfig(cfg)
    && |counts| == |cfg.sched|
    && forall h {:trigger counts[h]} :: 0 <= h < |counts| ==> CountsInDegrees(cfg.sched[h], counts[h])
  }

  function Boot(counts: seq<seq<nat>>): Sim {
    Sim([], map[], map[], map[], map[], map[],
        seq(|counts|, h requires 0 <= h < |counts| => SG.Initial(counts[h])),
        multiset{}, map[], map[], 0, 0)
  }

  function FlushUpTo(cfg: Config, s: Sim, k: nat): (r: Sim)
    requires TrackersShaped(cfg, s)
    ensures TrackersShaped(cfg, r)
  {
    if k == 0 then s else Flush(cfg, FlushUpTo(cfg, s, k - 1), k - 1)
  }

  /** The state at the head of the loop: the root nodes of all hosts are queued at time 0. */
  ghost function Start0(cfg: Config, counts: seq<seq<nat>>): Sim
    requires Loaded(cfg, counts)
  {
    BootShaped(cfg, counts);
    FlushUpTo(cfg, Boot(counts), |cfg.sched|)
  }

  lemma BootShaped(cfg: Config, counts: seq<seq<nat>>)
    requires Loaded(cfg, counts)
    ensures TrackersOk(cfg, Boot(counts))
  {
    hide Exact, WellFormed;
    forall h: nat | h < |counts| ensures Exact(cfg.sched[h], SG.Initial(counts[h])) {
      assert WellFormed(cfg.sched[h]);
      SG.InitialExact(cfg.sched[h], counts[h]);
    }
  }

  lemma BootCore(cfg: Config, counts: seq<seq<nat>>)
    requires Loaded(cfg, counts)
    ensures Core(cfg, Boot(counts))
  {
    hide Exact, WellFormed;
    BootShaped(cfg, counts);
    var s := Boot(counts);
    forall op | IsOp(cfg, op) ensures Ledger(cfg, s, op) == Entry(0, 0, 0, 0, 0, 0, 0) {
      assert WellFormed(cfg.sched[op.host]);
      SG.InitialExact(cfg.sched[op.host], counts[op.host]);
    }
    assert AllBalanced(cfg, s);
  }

  lemma {:induction false} FlushUpToCore(cfg: Config, s: Sim, k: nat)
    requires Core(cfg, s) && k <= |cfg.sched|
    ensures Core(cfg, FlushUpTo(cfg, s, k))
    ensures forall h :: 0 <= h < k ==> FlushUpTo(cfg, s, k).trackers[h].executable == []
  {
    hide Exact, QueuesOk, Exclusive, Paired, AllBalanced, Shaped, WellFormed;
    if k > 0 {
      FlushUpToCore(cfg, s, k - 1);
      FlushKeepsCore(cfg, FlushUpTo(cfg, s, k - 1), k - 1);
    }
  }

  lemma StartInv(cfg: Config, counts: seq<seq<nat>>)
    requires Loaded(cfg, counts)
    ensures Inv(cfg, Start0(cfg, counts))
  {
    hide Exact, QueuesOk, Exclusive, Paired, AllBalanced, Shaped, WellFormed;
    BootCore(cfg, counts);
    FlushUpToCore(cfg, Boot(counts), |cfg.sched|);
  }

  /** s is reached after n iterations, each popping some earliest item. */
  ghost predicate ReachedIn(cfg: Config, counts: seq<seq<nat>>, s: Sim, n: nat)
    requires Loaded(cfg, counts)
    decreases n
  {
    if n == 0 then s == Start0(cfg, counts)
    else exists p, i, noise :: ReachedIn(cfg, counts, p, n - 1) && IsStep(cfg, p, i, noise, s)
  }

  ghost predicate IsStep(cfg: Config, p: Sim, i: nat, noise: nat, s: Sim)
  {
    Shape(cfg, p) && Earliest(p, i) && s == Step(cfg, p, i, noise)
  }

  lemma ReachedNext(cfg: Config, counts: seq<seq<nat>>, p: Sim, n: nat, i: nat, noise: nat, s: Sim)
    requires Loaded(cfg, counts) && ReachedIn(cfg, counts, p, n)
    requires Shape(cfg, p) && Earliest(p, i) && s == Step(cfg, p, i, noise)
    ensures ReachedIn(cfg, counts, s, n + 1)
  {
    hide Shape, Step, Earliest;
    assert IsStep(cfg, p, i, noise, s);
  }

  lemma {:induction false} FlushUpToShape(cfg: Config, s: Sim, k: nat)
    requires Shape(cfg, s)
    ensures var r := FlushUpTo(cfg, s, k);
      Shape(cfg, r) && (UqPast(s) ==> UqPast(r)) && (ClocksBounded(s) ==> ClocksBounded(r)) && r.now == s.now
  {
    hide TrackersShaped, QueuesOk, UqPast, ClocksBounded, Flush, ValidConfig;
    if k > 0 {
      FlushUpToShape(cfg, s, k - 1);
      FlushShape(cfg, FlushUpTo(cfg, s, k - 1), k - 1);
    }
  }

  lemma StartShape(cfg: Config, counts: seq<seq<nat>>)
    requires Loaded(cfg, counts)
    ensures var s := Start0(cfg, counts);
      Shape(cfg, s) && Quiet(s) && UqPast(s) && ClocksBounded(s) && s.now == 0
  {
    hide Exact, Shaped, AllBalanced, Paired, Exclusive;
    BootShaped(cfg, counts);
    FlushUpToShape(cfg, Boot(counts), |cfg.sched|);
    StartInv(cfg, counts);
  }

  /** What holds in every state of every run, of any schedule.  A run is never cut off: as long
      as items are queued an iteration follows. */
  lemma {:induction false} ReachedShape(cfg: Config, counts: seq<seq<nat>>, s: Sim, n: nat)
    requires Loaded(cfg, counts) && ReachedIn(cfg, counts, s, n)
    ensures Shape(cfg, s) && Quiet(s)
    ensures forall i, noise: nat :: Earliest(s, i) ==> ReachedIn(cfg, counts, Step(cfg, s, i, noise), n + 1)
    decreases n
  {
    hide Shape, Quiet, Step;
    if n == 0 {
      StartShape(cfg, counts);
    } else {
      var p, i, noise :| ReachedIn(cfg, counts, p, n - 1) && IsStep(cfg, p, i, noise, s);
      ReachedShape(cfg, counts, p, n - 1);
      StepShape(cfg, p, i, noise);
      StepQuiet(cfg, p, i, noise);
    }
    forall i, noise: nat | Earliest(s, i) ensures ReachedIn(cfg, counts, Step(cfg, s, i, noise), n + 1) {
      ReachedNext(cfg, counts, s, n, i, noise, Step(cfg, s, i, noise));
    }
  }

  /** s is reached after n iterations, in which every receive that took an unexpected message
      was on its message's side of S. */
  ghost predicate AgreedIn(cfg: Config, counts: seq<seq<nat>>, s: Sim, n: nat)
    requires Loaded(cfg, counts)
    decreases n
  {
    if n == 0 then s == Start0(cfg, counts)
    else exists p, i, noise :: AgreedIn(cfg, counts, p, n - 1) && IsAgreedStep(cfg, p, i, noise, s)
  }

  ghost predicate IsAgreedStep(cfg: Config, p: Sim, i: nat, noise: nat, s: Sim)
  {
    IsStep(cfg, p, i, noise, s) && IsOp(cfg, p.aq[i].op) && TakesAgreeing(cfg, p, p.aq[i])
  }

  lemma {:induction false} AgreedReached(cfg: Config, counts: seq<seq<nat>>, s: Sim, n: nat)
    requires Loaded(cfg, counts) && AgreedIn(cfg, counts, s, n)
    ensures ReachedIn(cfg, counts, s, n)
    decreases n
  {
    hide IsStep, TakesAgreeing;
    if n > 0 {
      var p, i, noise :| AgreedIn(cfg, counts, p, n - 1) && IsAgreedStep(cfg, p, i, noise, s);
      AgreedReached(cfg, counts, p, n - 1);
    }
  }

  lemma StepAgrees(cfg: Config, p: Sim, i: nat, noise: nat, s: Sim)
    requires Agreeing(cfg) && IsStep(cfg, p, i, noise, s)
    ensures IsAgreedStep(cfg, p, i, noise, s)
  {
    hide Agreeing, TakesAgreeing, Step, TrackersShaped, QueuesOk;
    PopShape(cfg, p, i);
    AgreeingTakes(cfg, p, p.aq[i]);
  }

  /** In an agreeing schedule all runs are of this kind. */
  lemma {:induction false} AgreeingRun(cfg: Config, counts: seq<seq<nat>>, s: Sim, n: nat)
    requires Loaded(cfg, counts) && Agreeing(cfg) && ReachedIn(cfg, counts, s, n)
    ensures AgreedIn(cfg, counts, s, n)
    decreases n
  {
    hide Agreeing, IsStep, IsAgreedStep;
    if n > 0 {
      var p, i, noise :| ReachedIn(cfg, counts, p, n - 1) && IsStep(cfg, p, i, noise, s);
      AgreeingRun(cfg, counts, p, n - 1);
      StepAgrees(cfg, p, i, noise, s);
    }
  }

  /** The books balance as long as sizes have agreed. */
  lemma {:induction false} AgreedInv(cfg: Config, counts: seq<seq<nat>>, s: Sim, n: nat)
    requires Loaded(cfg, counts) && AgreedIn(cfg, counts, s, n)
    ensures Inv(cfg, s)
    decreases n
  {
    hide Exact, QueuesOk, Exclusive, Paired, AllBalanced, Shaped, Step, Quiet, TakesAgreeing;
    if n == 0 {
      StartInv(cfg, counts);
    } else {
      var p, i, noise :| AgreedIn(cfg, counts, p, n - 1) && IsAgreedStep(cfg, p, i, noise, s);
      AgreedInv(cfg, counts, p, n - 1);
      StepKeepsInv(cfg, p, i, noise);
    }
  }

  lemma ReachedInv(cfg: Config, counts: seq<seq<nat>>, s: Sim, n: nat)
    requires Loaded(cfg, counts) && Agreeing(cfg) && ReachedIn(cfg, counts, s, n)
    ensures Inv(cfg, s)
  {
    hide Inv, Agreeing, ReachedIn, AgreedIn;
    AgreeingRun(cfg, counts, s, n);
    AgreedInv(cfg, counts, s, n);
  }

  /** In every reachable state an operation has been started and completed at most once, and
      completed only if started. */
  lemma AtMostOnce(cfg: Config, counts: seq<seq<nat>>, s: Sim, n: nat, op: Op)
    requires Loaded(cfg, counts) && Agreeing(cfg) && ReachedIn(cfg, counts, s, n) && IsOp(cfg, op)
    ensures |s.trackers| == |cfg.sched|
    ensures var tr := s.trackers[op.host];
      tr.done[op.off] <= tr.started[op.off] <= 1
  {
    hide Exact, QueuesOk, Exclusive, Paired, Shaped, Agreeing, Quiet, ReachedIn;
    ReachedInv(cfg, counts, s, n);
    AtMostOne(cfg, s, op);
  }

  /** No message and no receive is lost or duplicated: a started send is in transit, in the
      unexpected queue of its channel, or matched; a started receive is in the receive queue
      of its channel or matched.  A receive is completed when matched, and so is a
      rendezvous send; eager sends and calculations are completed when started. */
  lemma Conservation(cfg: Config, counts: seq<seq<nat>>, s: Sim, n: nat, op: Op)
    requires Loaded(cfg, counts) && Agreeing(cfg) && ReachedIn(cfg, counts, s, n) && IsOp(cfg, op)
    ensures |s.trackers| == |cfg.sched|
    ensures var tr, ch := s.trackers[op.host], ChannelOf(cfg, op);
      match NodeOf(cfg, op).kind
      case Calc => tr.done[op.off] == tr.started[op.off]
      case Send =>
        && tr.started[op.off]
           == Count(s.aq, Message, op) + multiset(OpsOf(Queue(s.uq, ch)))[op] + s.matched[op]
        && tr.done[op.off] == if Eager(cfg, op) then tr.started[op.off] else s.matched[op]
      case Recv =>
        && tr.started[op.off] == multiset(Queue(s.rq, ch))[op] + s.matched[op]
        && tr.done[op.off] == s.matched[op]
  {
    hide Exact, QueuesOk, Exclusive, Paired, Shaped, Agreeing, Quiet, ReachedIn;
    ReachedInv(cfg, counts, s, n);
    assert Balanced(cfg, op, Ledger(cfg, s, op));
  }

  /** The receive queue and the unexpected queue of a channel are never both in use. */
  lemma NeverBoth(cfg: Config, counts: seq<seq<nat>>, s: Sim, n: nat, ch: Channel)
    requires Loaded(cfg, counts) && Agreeing(cfg) && ReachedIn(cfg, counts, s, n)
    ensures Queue(s.rq, ch) == [] || Queue(s.uq, ch) == []
  {
    hide Exact, QueuesOk, AllBalanced, Paired, Shaped, Agreeing, Quiet, ReachedIn;
    ReachedInv(cfg, counts, s, n);
  }

  /** An operation is queued or started exactly when everything it depends on has happened:
      each node with op in `dependOnMe` is done, each with op in `startDependOnMe` started. */
  lemma IssuedIffFree(cfg: Config, counts: seq<seq<nat>>, s: Sim, n: nat, op: Op)
    requires Loaded(cfg, counts) && Agreeing(cfg) && ReachedIn(cfg, counts, s, n) && IsOp(cfg, op)
    ensures |s.trackers| == |cfg.sched|
    ensures var nodes, tr := cfg.sched[op.host], s.trackers[op.host];
      Count(s.aq, Issue, op) + tr.started[op.off] == 1 <==>
        forall p :: 0 <= p < |nodes| ==>
          && (op.off in nodes[p].dependOnMe ==> p in tr.done)
          && (op.off in nodes[p].startDependOnMe ==> p in tr.started)
  {
    hide QueuesOk, Exclusive, Paired, Agreeing, Quiet, ReachedIn, ValidConfig;
    ReachedInv(cfg, counts, s, n);
    assert Balanced(cfg, op, Ledger(cfg, s, op));
    var nodes, tr := cfg.sched[op.host], s.trackers[op.host];
    assert tr.executable == [] by { assert Inv(cfg, s); QuietAt(s, op.host); }
    OpenIffBlocked(nodes, tr.started, tr.done, op.off, |nodes|);
  }

  lemma QuietAt(s: Sim, h: nat)
    requires Quiet(s) && h < |s.trackers|
    ensures s.trackers[h].executable == []
  {
  }
}
