/** The time at which an operation enters the event queue, in schedules without start
    dependencies: as soon as everything it requires has ended and the resource of its kind is free. */
module IssueTimes {
  import opened Schedule
  import opened DependencyTracker
  import opened StartTimes
  import opened EventLoop
  import opened Accounting
  import opened Effects
  import opened ExactlyOnce
  import opened Runs
  import opened Timing
  import opened TimeOrder
  import opened CriticalPath
  import SG = SerializedGraph

  /** The later of the latest end among the nodes op requires and the clock its kind waits for. */
  ghost function IssueTime(cfg: Config, s: Sim, op: Op): nat
    requires IsOp(cfg, op) && |s.trackers| == |cfg.sched|
  {
    Max(RequiredEnd(cfg.sched[op.host], s.trackers[op.host].doneAt, op.off), ClockOf(s, op.host, NodeOf(cfg, op)))
  }

  ghost predicate Queued(s: Sim, op: Op) {
    exists j :: 0 <= j < |s.aq| && s.aq[j].kind == Issue && s.aq[j].op == op
  }

  /** The items of nodes freed on a host carry the issue time. */
  lemma ItemsPrompt(cfg: Config, s: Sim, h: nat, x: Event)
    requires Timed(cfg, s) && IsItem(cfg, s, h, x)
    ensures IsOp(cfg, x.op) && x.time == IssueTime(cfg, s, x.op)
  {
    hide ItemsTimed, StartsTimed, EndsTimed, UqTimed, Exact, LatestEnd;
    FreedInRange(cfg, s, h);
    var i :| 0 <= i < |s.trackers[h].executable| && x == ItemOf(cfg, s, h, i);
    FreedAtHost(cfg, s, h, i);
  }

  lemma FreedAtHost(cfg: Config, s: Sim, h: nat, i: nat)
    requires Timed(cfg, s) && h < |cfg.sched| && i < |s.trackers[h].executable|
    ensures var f := s.trackers[h].executable[i]; f.start == RequiredEnd(cfg.sched[h], s.trackers[h].doneAt, f.node)
  {
    hide ItemsTimed, StartsTimed, EndsTimed, UqTimed, Open, LatestEnd, Listed;
    FreedAt(cfg.sched[h], s.trackers[h], i);
  }

  lemma FlushKeepsTimes(cfg: Config, s: Sim, host: nat, op: Op)
    requires TrackersShaped(cfg, s) && IsOp(cfg, op)
    ensures IssueTime(cfg, Flush(cfg, s, host), op) == IssueTime(cfg, s, op)
  {
    hide Shaped, LatestEnd, FreedEvents;
  }

  /** What handling an item leaves in the queue, apart from messages, was there before. */
  lemma RunQueues(cfg: Config, s: Sim, e: Event, noise: nat, j: nat)
    requires Shape(cfg, s) && EventOk(cfg, e) && j < |Run(cfg, s, e, noise).aq|
    requires Run(cfg, s, e, noise).aq[j].kind == Issue
    ensures var r := Run(cfg, s, e, noise);
      (r.aq[j].op == e.op && e.kind == Issue) || (j < |s.aq| && r.aq[j] == s.aq[j])
  {
    hide Shape, Run, FreeAt, UqPast, ClocksBounded, QueuesOk, Follows;
    ShapeParts(cfg, s);
    if FreeAt(cfg, s, e) <= e.time {
      RunExecuted(cfg, s, e, noise);
    } else {
      BusyReinserts(cfg, s, e, noise);
    }
  }

  lemma FlushedItems(cfg: Config, m: Sim, h: nat, p: nat, j: nat)
    requires Timed(cfg, m) && TrackersShaped(cfg, m) && h < |cfg.sched|
    ensures var r := Flush(cfg, Flush(cfg, m, h), p);
      && |r.trackers| == |cfg.sched| && m.aq <= r.aq
      && (|m.aq| <= j < |r.aq| ==> IsOp(cfg, r.aq[j].op) && r.aq[j].time == IssueTime(cfg, r, r.aq[j].op))
  {
    hide Timed, Flush, IssueTime, IsItem, ItemOf, Shaped;
    var r := Flush(cfg, Flush(cfg, m, h), p);
    FlushBoth(cfg, m, h, p);
    if |m.aq| <= j < |r.aq| {
      var x := r.aq[j];
      ItemsPrompt(cfg, m, if IsItem(cfg, m, h, x) then h else p, x);
      FlushKeepsTimes(cfg, m, h, x.op);
      FlushKeepsTimes(cfg, Flush(cfg, m, h), p, x.op);
    }
  }

  lemma RunQueuesOld(cfg: Config, s: Sim, i: nat, noise: nat, j: nat)
    requires i < |s.aq| && Shape(cfg, Pop(s, i)) && EventOk(cfg, s.aq[i])
    requires j < |Run(cfg, Pop(s, i), s.aq[i], noise).aq|
    ensures var x := Run(cfg, Pop(s, i), s.aq[i], noise).aq[j]; x.kind == Issue ==> Queued(s, x.op)
  {
    hide Shape, Run, EventOk;
    var s0, e := Pop(s, i), s.aq[i];
    var x := Run(cfg, s0, e, noise).aq[j];
    if x.kind == Issue {
      RunQueues(cfg, s0, e, noise, j);
      if x.op == e.op && e.kind == Issue {
        assert s.aq[i].op == x.op;
      } else {
        assert s0.aq[j] == s.aq[if j < i then j else j + 1];
      }
    }
  }

  lemma StepQueues(cfg: Config, s: Sim, i: nat, noise: nat, j: nat)
    requires RequiresOnly(cfg) && Inv(cfg, s) && Timed(cfg, s) && Earliest(s, i)
    requires IsOp(cfg, s.aq[i].op) && TakesAgreeing(cfg, s, s.aq[i])
    requires j < |Step(cfg, s, i, noise).aq|
    ensures |Step(cfg, s, i, noise).trackers| == |cfg.sched|
    ensures var r := Step(cfg, s, i, noise); var x := r.aq[j];
      x.kind == Issue ==> Queued(s, x.op) || (IsOp(cfg, x.op) && x.time == IssueTime(cfg, r, x.op))
  {
    RunTimed(cfg, s, i, noise);
    hide Timed, Inv, Run, Flush, RequiresOnly, TakesAgreeing, Shape, TrackersShaped, IssueTime, Queued, EventOk;
    var e, m := s.aq[i], Run(cfg, Pop(s, i), s.aq[i], noise);
    TimedShaped(cfg, m);
    FlushedItems(cfg, m, e.op.host, NodeOf(cfg, e.op).peer, j);
    if j < |m.aq| {
      RunQueuesOld(cfg, s, i, noise, j);
      assert m.aq[j] == Step(cfg, s, i, noise).aq[j];
    }
  }

  lemma TimedShaped(cfg: Config, s: Sim)
    requires Timed(cfg, s)
    ensures TrackersShaped(cfg, s) && |s.trackers| == |cfg.sched|
  {
    hide RecordsOk, ItemsTimed, StartsTimed, UqTimed, EndsTimed, TrackersTimed;
  }

  /** Along every run: an operation that enters the queue does so at exactly its issue time. */
  lemma EntersAtIssueTime(cfg: Config, counts: seq<seq<nat>>, p: Sim, n: nat, i: nat, noise: nat, s: Sim, j: nat)
    requires Loaded(cfg, counts) && Agreeing(cfg) && RequiresOnly(cfg) && ReachedIn(cfg, counts, p, n)
    requires IsStep(cfg, p, i, noise, s) && j < |s.aq| && s.aq[j].kind == Issue && !Queued(p, s.aq[j].op)
    ensures IsOp(cfg, s.aq[j].op) && |s.trackers| == |cfg.sched| && s.aq[j].time == IssueTime(cfg, s, s.aq[j].op)
  {
    hide Timed, Inv, Agreeing, RequiresOnly, ReachedIn, TakesAgreeing, Step, Queued, IssueTime, Shape;
    ReachedTimed(cfg, counts, p, n);
    ReachedInv(cfg, counts, p, n);
    StepAgrees(cfg, p, i, noise, s);
    StepQueues(cfg, p, i, noise, j);
  }

  /** The operations queued at the start are those that require nothing, and they enter at time
      0. */
  lemma StartsAtZero(cfg: Config, counts: seq<seq<nat>>, j: nat)
    requires Loaded(cfg, counts) && j < |Start0(cfg, counts).aq|
    ensures Start0(cfg, counts).aq[j].kind == Issue && Start0(cfg, counts).aq[j].time == 0
  {
    hide Exact, Shaped, ValidConfig;
    BootShaped(cfg, counts);
    FlushUpToZero(cfg, counts, |cfg.sched|);
  }

  lemma {:induction false} FlushUpToZero(cfg: Config, counts: seq<seq<nat>>, k: nat)
    requires Loaded(cfg, counts) && TrackersShaped(cfg, Boot(counts)) && k <= |cfg.sched|
    ensures var s := FlushUpTo(cfg, Boot(counts), k);
      && s.nexto == s.nextgs == map[]
      && (forall j :: 0 <= j < |s.aq| ==> s.aq[j].kind == Issue && s.aq[j].time == 0)
      && (forall h {:trigger s.trackers[h]} :: 0 <= h < |s.trackers| ==>
            forall i :: 0 <= i < |s.trackers[h].executable| ==> s.trackers[h].executable[i].start == 0)
  {
    hide Shaped, SG.RootsUpTo, Loaded;
    if k > 0 {
      FlushUpToZero(cfg, counts, k - 1);
      var s := FlushUpTo(cfg, Boot(counts), k - 1);
      FlushItems(cfg, s, k - 1);
      var r := Flush(cfg, s, k - 1);
      forall j | 0 <= j < |r.aq| ensures r.aq[j].kind == Issue && r.aq[j].time == 0 {
        if j < |s.aq| {
          assert r.aq[j] == s.aq[j];
        } else {
          assert r.aq[j] == ItemOf(cfg, s, k - 1, j - |s.aq|);
        }
      }
    } else {
      forall h: nat | h < |counts| ensures forall i :: 0 <= i < |SG.Initial(counts[h]).executable| ==> SG.Initial(counts[h]).executable[i].start == 0 {
        RootsAtZero(counts[h], |counts[h]|);
      }
    }
  }
}
