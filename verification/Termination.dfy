/** The event loop ends, whichever earliest item is popped and whatever the noise: each
    iteration either executes an item, or moves it to a later time that some clock shows. */
module Termination {
  import opened Schedule
  import opened DependencyTracker
  import opened EventLoop
  import opened Accounting
  import opened Effects
  import opened ExactlyOnce

  /** Executions op has ahead: its own, and for a send the handling of its message. */
  ghost function Ahead(cfg: Config, s: Sim, op: Op): nat
    requires TrackersShaped(cfg, s) && IsOp(cfg, op)
  {
    if Starts(s, op) > 0 then Count(s.aq, Message, op)
    else if NodeOf(cfg, op).kind == Send then 2
    else 1
  }

  ghost function AheadOnHost(cfg: Config, s: Sim, host: nat, k: nat): nat
    requires TrackersShaped(cfg, s) && host < |cfg.sched| && k <= |cfg.sched[host]|
  {
    if k == 0 then 0 else AheadOnHost(cfg, s, host, k - 1) + Ahead(cfg, s, Op(host, k - 1))
  }

  ghost function AheadUpTo(cfg: Config, s: Sim, h: nat): nat
    requires TrackersShaped(cfg, s) && h <= |cfg.sched|
  {
    if h == 0 then 0 else AheadUpTo(cfg, s, h - 1) + AheadOnHost(cfg, s, h - 1, |cfg.sched[h - 1]|)
  }

  /** First component of the measure: executions still to come. */
  ghost function Remaining(cfg: Config, s: Sim): nat
    requires TrackersShaped(cfg, s)
  {
    AheadUpTo(cfg, s, |cfg.sched|)
  }

  /** Second component: how far the queued items are from the largest clock. */
  ghost function Slack(aq: seq<Event>, horizon: nat): nat {
    if aq == [] then 0
    else Slack(aq[..|aq| - 1], horizon) + if aq[|aq| - 1].time < horizon then horizon - aq[|aq| - 1].time else 0
  }

  lemma {:induction false} AheadOnHostLess(cfg: Config, a: Sim, b: Sim, host: nat, k: nat, p: Op)
    requires TrackersShaped(cfg, a) && TrackersShaped(cfg, b) && host < |cfg.sched| && k <= |cfg.sched[host]|
    requires forall op {:trigger Ahead(cfg, b, op)} :: IsOp(cfg, op) ==> Ahead(cfg, b, op) <= Ahead(cfg, a, op)
    requires IsOp(cfg, p) && Ahead(cfg, b, p) < Ahead(cfg, a, p)
    ensures AheadOnHost(cfg, b, host, k) <= AheadOnHost(cfg, a, host, k)
    ensures p.host == host && p.off < k ==> AheadOnHost(cfg, b, host, k) < AheadOnHost(cfg, a, host, k)
  {
    hide TrackersShaped, Ahead;
    if k > 0 {
      AheadOnHostLess(cfg, a, b, host, k - 1, p);
      assert IsOp(cfg, Op(host, k - 1));
      assert Ahead(cfg, b, Op(host, k - 1)) <= Ahead(cfg, a, Op(host, k - 1));
    }
  }

  lemma {:induction false} AheadUpToLess(cfg: Config, a: Sim, b: Sim, h: nat, p: Op)
    requires TrackersShaped(cfg, a) && TrackersShaped(cfg, b) && h <= |cfg.sched|
    requires forall op {:trigger Ahead(cfg, b, op)} :: IsOp(cfg, op) ==> Ahead(cfg, b, op) <= Ahead(cfg, a, op)
    requires IsOp(cfg, p) && Ahead(cfg, b, p) < Ahead(cfg, a, p)
    ensures AheadUpTo(cfg, b, h) <= AheadUpTo(cfg, a, h)
    ensures p.host < h ==> AheadUpTo(cfg, b, h) < AheadUpTo(cfg, a, h)
  {
    hide TrackersShaped, Ahead;
    if h > 0 {
      AheadUpToLess(cfg, a, b, h - 1, p);
      AheadOnHostLess(cfg, a, b, h - 1, |cfg.sched[h - 1]|, p);
    }
  }

  lemma {:induction false} AheadOnHostSame(cfg: Config, a: Sim, b: Sim, host: nat, k: nat)
    requires TrackersShaped(cfg, a) && TrackersShaped(cfg, b) && host < |cfg.sched| && k <= |cfg.sched[host]|
    requires forall op {:trigger Ahead(cfg, b, op)} :: IsOp(cfg, op) ==> Ahead(cfg, b, op) == Ahead(cfg, a, op)
    ensures AheadOnHost(cfg, b, host, k) == AheadOnHost(cfg, a, host, k)
  {
    hide TrackersShaped, Ahead;
    if k > 0 {
      AheadOnHostSame(cfg, a, b, host, k - 1);
      assert IsOp(cfg, Op(host, k - 1));
      assert Ahead(cfg, b, Op(host, k - 1)) == Ahead(cfg, a, Op(host, k - 1));
    }
  }

  lemma {:induction false} AheadUpToSame(cfg: Config, a: Sim, b: Sim, h: nat)
    requires TrackersShaped(cfg, a) && TrackersShaped(cfg, b) && h <= |cfg.sched|
    requires forall op {:trigger Ahead(cfg, b, op)} :: IsOp(cfg, op) ==> Ahead(cfg, b, op) == Ahead(cfg, a, op)
    ensures AheadUpTo(cfg, b, h) == AheadUpTo(cfg, a, h)
  {
    hide TrackersShaped, Ahead;
    if h > 0 {
      AheadUpToSame(cfg, a, b, h - 1);
      AheadOnHostSame(cfg, a, b, h - 1, |cfg.sched[h - 1]|);
    }
  }

  lemma SlackPush(aq: seq<Event>, e: Event, horizon: nat)
    ensures Slack(aq + [e], horizon) == Slack(aq, horizon) + if e.time < horizon then horizon - e.time else 0
  {
    assert (aq + [e])[..|aq|] == aq;
  }

  lemma {:induction false} SlackRemove(aq: seq<Event>, i: nat, horizon: nat)
    requires i < |aq|
    ensures Slack(aq, horizon)
         == Slack(aq[..i] + aq[i + 1..], horizon) + if aq[i].time < horizon then horizon - aq[i].time else 0
  {
    var last := |aq| - 1;
    if i == last {
      assert aq[..i] + aq[i + 1..] == aq[..last];
    } else {
      SlackRemove(aq[..last], i, horizon);
      var rest := aq[..last][..i] + aq[..last][i + 1..];
      RemoveBeforeLast(aq, i);
      SlackPush(rest, aq[last], horizon);
    }
  }

  lemma FreeAtBounded(cfg: Config, s: Sim, e: Event)
    requires ClocksBounded(s) && IsOp(cfg, e.op)
    ensures FreeAt(cfg, s, e) <= s.horizon
  {
    hide ChannelOf, Queue;
  }

  // ---- every iteration decreases the measure ----

  /** An executed item is started, and a send's message is queued. */
  lemma ExecutedAdvances(cfg: Config, s: Sim, e: Event, r: Sim, op: Op)
    requires TrackersShaped(cfg, s) && EventOk(cfg, e) && Executed(cfg, s, e, r) && op.host < |cfg.sched|
    ensures Starts(r, op) == Starts(s, op) + (if e.kind == Issue && op == e.op then 1 else 0)
    ensures Count(r.aq, Message, op) == Count(s.aq, Message, op) + (if Posts(cfg, e) && op == e.op then 1 else 0)
  {
    hide Shaped, MarkStarted, QueuesOk, UqPast, ClocksBounded;
    if Posts(cfg, e) {
      var t :| t >= e.time && r.aq == s.aq + [Event(Message, e.op, t)];
      CountPush(s.aq, Event(Message, e.op, t), Message, op);
    }
  }

  lemma FlushAdvances(cfg: Config, s: Sim, host: nat, op: Op)
    requires TrackersShaped(cfg, s) && op.host < |cfg.sched|
    ensures var r := Flush(cfg, s, host);
      Starts(r, op) == Starts(s, op) && Count(r.aq, Message, op) == Count(s.aq, Message, op)
  {
    if host < |s.trackers| {
      CountFreed(cfg, s, s.aq, host, s.trackers[host].executable, Message, op);
    }
  }

  lemma ExecutedDecreases(cfg: Config, s: Sim, i: nat, noise: nat)
    requires Inv(cfg, s) && i < |s.aq|
    requires IsOp(cfg, s.aq[i].op) && TakesAgreeing(cfg, s, s.aq[i])
    requires FreeAt(cfg, Pop(s, i), s.aq[i]) <= s.aq[i].time
    ensures TrackersShaped(cfg, Step(cfg, s, i, noise))
    ensures Remaining(cfg, Step(cfg, s, i, noise)) < Remaining(cfg, s)
  {
    hide Exact, QueuesOk, Exclusive, Paired, AllBalanced, Shaped, Run, Flush, FreeAt, Quiet;
    var r, e := Step(cfg, s, i, noise), s.aq[i];
    RunKeepsCore(cfg, s, i, noise);
    var m := Run(cfg, Pop(s, i), e, noise);
    RunExecuted(cfg, Pop(s, i), e, noise);
    forall op | IsOp(cfg, op)
      ensures Ahead(cfg, r, op) <= Ahead(cfg, s, op)
      ensures op == e.op ==> Ahead(cfg, r, op) < Ahead(cfg, s, op)
    {
      ExecutedAdvances(cfg, Pop(s, i), e, m, op);
      FlushAdvances(cfg, m, e.op.host, op);
      FlushAdvances(cfg, Flush(cfg, m, e.op.host), NodeOf(cfg, e.op).peer, op);
      PopAhead(cfg, s, i, op);
    }
    AheadUpToLess(cfg, s, r, |cfg.sched|, e.op);
  }

  /** What the books say about the popped operation and the others. */
  lemma PopAhead(cfg: Config, s: Sim, i: nat, op: Op)
    requires Core(cfg, s) && i < |s.aq| && IsOp(cfg, op)
    ensures var e, s0 := s.aq[i], Pop(s, i);
      && Starts(s0, op) == Starts(s, op)
      && (op != e.op ==> Count(s0.aq, Message, op) == Count(s.aq, Message, op))
      && (op == e.op && e.kind == Issue ==> Starts(s, op) == 0 && Count(s.aq, Message, op) == Count(s0.aq, Message, op) == 0)
      && (op == e.op && e.kind == Message ==>
            Starts(s, op) == 1 && Count(s.aq, Message, op) == Count(s0.aq, Message, op) + 1)
  {
    hide Exact, QueuesOk, Exclusive, Paired, Shaped;
    CountRemove(s.aq, i, Message, op);
    if op == s.aq[i].op {
      CountMember(s.aq, i);
      AtMostOne(cfg, s, op);
      assert Balanced(cfg, op, Ledger(cfg, s, op));
    }
  }

  lemma ReinsertedDecreases(cfg: Config, s: Sim, i: nat, noise: nat)
    requires Inv(cfg, s) && i < |s.aq| && ClocksBounded(s)
    requires IsOp(cfg, s.aq[i].op) && FreeAt(cfg, Pop(s, i), s.aq[i]) > s.aq[i].time
    ensures var r := Step(cfg, s, i, noise);
      && TrackersShaped(cfg, r) && r.horizon == s.horizon
      && Remaining(cfg, r) == Remaining(cfg, s)
      && Slack(r.aq, r.horizon) < Slack(s.aq, s.horizon)
  {
    hide Exact, QueuesOk, Exclusive, Paired, AllBalanced, Shaped, Run, FreeAt;
    var s0, e := Pop(s, i), s.aq[i];
    PopShape(cfg, s, i);
    BusyReinserts(cfg, s0, e, noise);
    var m := Run(cfg, s0, e, noise);
    FreeAtBounded(cfg, s0, e);
    QuietFlush(cfg, m, e.op.host);
    QuietFlush(cfg, Flush(cfg, m, e.op.host), NodeOf(cfg, e.op).peer);
    var r, e1 := Step(cfg, s, i, noise), e.(time := FreeAt(cfg, s0, e));
    assert r.aq == s0.aq + [e1];
    SlackRemove(s.aq, i, s.horizon);
    SlackPush(s0.aq, e1, s.horizon);
    forall op | IsOp(cfg, op) ensures Ahead(cfg, r, op) == Ahead(cfg, s, op) {
      CountRemove(s.aq, i, Message, op);
      CountPush(s0.aq, e1, Message, op);
    }
    AheadUpToSame(cfg, s, r, |cfg.sched|);
  }

  /** Flushing a host without freed nodes changes nothing. */
  lemma QuietFlush(cfg: Config, s: Sim, host: nat)
    requires TrackersShaped(cfg, s) && Quiet(s)
    ensures Flush(cfg, s, host) == s
  {
    if host < |s.trackers| {
      assert s.trackers[host].executable == [];
      assert s.aq + [] == s.aq;
      assert s.trackers[host := Drain(s.trackers[host])] == s.trackers;
    }
  }

  /** Every iteration lowers the pair (Remaining, Slack) lexicographically. */
  lemma StepDecreases(cfg: Config, s: Sim, i: nat, noise: nat)
    requires Inv(cfg, s) && i < |s.aq| && ClocksBounded(s)
    requires IsOp(cfg, s.aq[i].op) && TakesAgreeing(cfg, s, s.aq[i])
    ensures var r := Step(cfg, s, i, noise);
      && Inv(cfg, r) && ClocksBounded(r)
      && (Remaining(cfg, r) < Remaining(cfg, s)
          || (Remaining(cfg, r) == Remaining(cfg, s) && Slack(r.aq, r.horizon) < Slack(s.aq, s.horizon)))
  {
    hide Exact, QueuesOk, Exclusive, Paired, AllBalanced, Shaped, Step, FreeAt, Quiet;
    StepKeepsInv(cfg, s, i, noise);
    StepShape(cfg, s, i, noise);
    PopShape(cfg, s, i);
    if FreeAt(cfg, Pop(s, i), s.aq[i]) <= s.aq[i].time {
      ExecutedDecreases(cfg, s, i, noise);
    } else {
      ReinsertedDecreases(cfg, s, i, noise);
    }
  }
}
