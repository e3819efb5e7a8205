/** Times along a run, for schedules without start dependencies: what is recorded and queued
    fits the dependencies and the costs of computing, sending and receiving. */
module Timing {
  import opened Schedule
  import opened DependencyTracker
  import opened StartTimes
  import opened EventLoop
  import opened Accounting
  import opened Effects
  import opened ExactlyOnce

  ghost predicate RequiresOnly(cfg: Config)
  {
    forall h {:trigger cfg.sched[h]} :: 0 <= h < |cfg.sched| ==> NoStartEdges(cfg.sched[h])
  }

  /** From the start of a send to the arrival of its message. */
  function Flight(cfg: Config, send: Op): nat
    requires ValidConfig(cfg) && IsOp(cfg, send)
  {
    var size := SizeOf(cfg, send);
    cfg.par.o + (size - 1) * cfg.par.O + cfg.par.L + Bandwidth(cfg.par, size)
  }

  /** The cost of receiving, after message and receive have met: the size is the message's
      or the receive's, depending on which came second. */
  function Handling(cfg: Config, send: Op, recv: Op): nat
    requires IsOp(cfg, send) && IsOp(cfg, recv)
  {
    var a, b := SizeOf(cfg, send), SizeOf(cfg, recv);
    cfg.par.g + cfg.par.o + ((if a < b then a else b) - 1) * cfg.par.O
  }

  ghost function TrackerOf(s: Sim, op: Op): Tracker
    requires op.host < |s.trackers|
  {
    s.trackers[op.host]
  }

  /** Everything op requires is done by time t. */
  ghost predicate Ready(cfg: Config, s: Sim, op: Op, t: nat)
    requires |s.trackers| == |cfg.sched| && IsOp(cfg, op)
  {
    var nodes, tr := cfg.sched[op.host], s.trackers[op.host];
    forall p {:trigger nodes[p]} :: 0 <= p < |nodes| && op.off in nodes[p].dependOnMe ==> p in tr.doneAt && tr.doneAt[p] <= t
  }

  /** The records of the past agree with each other. */
  ghost predicate RecordsOk(cfg: Config, s: Sim)
    requires |s.trackers| == |cfg.sched|
  {
    && (forall op {:trigger op in s.startedAt} :: IsOp(cfg, op) ==> (op in s.startedAt <==> op.off in TrackerOf(s, op).started))
    && (forall h, p {:trigger p in s.trackers[h].doneAt} :: 0 <= h < |s.trackers| ==>
          (p in s.trackers[h].doneAt <==> p in s.trackers[h].done))
  }

  /** Queued items are not in the past and not early. */
  ghost predicate ItemTimed(cfg: Config, s: Sim, e: Event)
    requires ValidConfig(cfg) && |s.trackers| == |cfg.sched| && IsOp(cfg, e.op)
  {
    && s.now <= e.time
    && (e.kind == Issue ==> Ready(cfg, s, e.op, e.time))
    && (e.kind == Message ==> e.op in s.startedAt && s.startedAt[e.op] + Flight(cfg, e.op) <= e.time)
  }

  ghost predicate ItemsTimed(cfg: Config, s: Sim)
    requires ValidConfig(cfg) && |s.trackers| == |cfg.sched|
  {
    forall i {:trigger s.aq[i]} :: 0 <= i < |s.aq| ==> IsOp(cfg, s.aq[i].op) && ItemTimed(cfg, s, s.aq[i])
  }

  ghost predicate StartsTimed(cfg: Config, s: Sim)
    requires |s.trackers| == |cfg.sched|
  {
    forall op {:trigger s.startedAt[op]} :: IsOp(cfg, op) && op in s.startedAt ==>
      s.startedAt[op] <= s.now && Ready(cfg, s, op, s.startedAt[op])
  }

  ghost predicate UqTimed(cfg: Config, s: Sim)
    requires ValidConfig(cfg)
  {
    forall ch, i {:trigger Queue(s.uq, ch)[i]} :: 0 <= i < |Queue(s.uq, ch)| ==>
      var u := Queue(s.uq, ch)[i];
      && u.since <= s.now
      && IsOp(cfg, u.op) && u.op in s.startedAt && s.startedAt[u.op] + Flight(cfg, u.op) <= u.since
  }

  /** How late op must have ended if it has. */
  ghost predicate EndTimed(cfg: Config, s: Sim, op: Op)
    requires ValidConfig(cfg) && |s.trackers| == |cfg.sched| && IsOp(cfg, op)
  {
    var tr, n := s.trackers[op.host], NodeOf(cfg, op);
    op.off in tr.doneAt ==>
      && op in s.startedAt
      && (n.kind == Calc ==> s.startedAt[op] + n.size <= tr.doneAt[op.off])
      && (n.kind == Send ==> s.startedAt[op] + cfg.par.o + (SizeOf(cfg, op) - 1) * cfg.par.O <= tr.doneAt[op.off])
      && (n.kind == Recv && op in s.mate && IsOp(cfg, s.mate[op]) ==>
            var send := s.mate[op];
            && send in s.startedAt
            && s.startedAt[send] + Flight(cfg, send) + Handling(cfg, send, op) <= tr.doneAt[op.off]
            && s.startedAt[op] + Handling(cfg, send, op) <= tr.doneAt[op.off]
            && (!Eager(cfg, send) ==> send.off in s.trackers[send.host].doneAt
                                      && s.trackers[send.host].doneAt[send.off] == tr.doneAt[op.off]))
  }

  ghost predicate EndsTimed(cfg: Config, s: Sim)
    requires ValidConfig(cfg) && |s.trackers| == |cfg.sched|
  {
    forall op {:trigger EndTimed(cfg, s, op)} :: IsOp(cfg, op) ==> EndTimed(cfg, s, op)
  }

  ghost predicate TrackersTimed(cfg: Config, s: Sim)
    requires TrackersShaped(cfg, s)
  {
    forall h {:trigger s.trackers[h]} :: 0 <= h < |s.trackers| ==>
      Prompt(cfg.sched[h], s.trackers[h]) && TakenOk(s.trackers[h]) && FreedFrom(s.trackers[h], s.now)
  }

  ghost predicate Timed(cfg: Config, s: Sim)
  {
    && ValidConfig(cfg) && TrackersOk(cfg, s)
    && RecordsOk(cfg, s) && ItemsTimed(cfg, s) && StartsTimed(cfg, s) && UqTimed(cfg, s) && EndsTimed(cfg, s)
    && TrackersTimed(cfg, s)
  }

  // ---- each update keeps the times ----

  lemma PopTimed(cfg: Config, s: Sim, i: nat)
    requires Timed(cfg, s) && Quiet(s) && Earliest(s, i)
    ensures IsOp(cfg, s.aq[i].op) && Timed(cfg, Pop(s, i)) && ItemTimed(cfg, Pop(s, i), s.aq[i]) && s.now <= s.aq[i].time
  {
    hide Exact, Shaped, Prompt, TakenOk, ValidConfig, Ready, Flight, Handling, EndTimed;
    var r := Pop(s, i);
    assert ItemTimed(cfg, s, s.aq[i]);
    forall j | 0 <= j < |r.aq| ensures IsOp(cfg, r.aq[j].op) && ItemTimed(cfg, r, r.aq[j]) {
      var k := if j < i then j else j + 1;
      assert r.aq[j] == s.aq[k];
      SameReady(cfg, s, r, r.aq[j].op, r.aq[j].time);
    }
    forall op | IsOp(cfg, op) && op in r.startedAt ensures r.startedAt[op] <= r.now && Ready(cfg, r, op, r.startedAt[op]) {
      SameReady(cfg, s, r, op, r.startedAt[op]);
    }
    forall op | IsOp(cfg, op) ensures EndTimed(cfg, r, op) {
      assert EndTimed(cfg, s, op);
      SameEnd(cfg, s, r, op);
    }
    forall h | 0 <= h < |r.trackers| ensures FreedFrom(r.trackers[h], r.now) {
      assert s.trackers[h].executable == [];
    }
    SameReady(cfg, s, r, s.aq[i].op, s.aq[i].time);
  }

  lemma SameReady(cfg: Config, a: Sim, b: Sim, op: Op, t: nat)
    requires |a.trackers| == |cfg.sched| && a.trackers == b.trackers && IsOp(cfg, op)
    ensures Ready(cfg, a, op, t) == Ready(cfg, b, op, t)
  {
  }

  lemma SameEnd(cfg: Config, a: Sim, b: Sim, op: Op)
    requires ValidConfig(cfg) && |a.trackers| == |cfg.sched| && IsOp(cfg, op)
    requires a.trackers == b.trackers && a.startedAt == b.startedAt && a.mate == b.mate
    ensures EndTimed(cfg, a, op) == EndTimed(cfg, b, op)
  {
    hide ValidConfig;
  }

  /** States that agree in everything the times speak about. */
  ghost predicate SameTimes(a: Sim, b: Sim)
  {
    a.aq == b.aq && a.trackers == b.trackers && a.startedAt == b.startedAt && a.mate == b.mate && a.now == b.now
  }

  lemma SameTimed(cfg: Config, a: Sim, b: Sim)
    requires Timed(cfg, a) && SameTimes(a, b) && UqTimed(cfg, b)
    ensures Timed(cfg, b)
  {
    hide Exact, Shaped, Prompt, TakenOk, FreedFrom, ValidConfig, Ready, Flight, Handling, EndTimed, UqTimed;
    forall j | 0 <= j < |b.aq| ensures IsOp(cfg, b.aq[j].op) && ItemTimed(cfg, b, b.aq[j]) {
      assert b.aq[j] == a.aq[j];
      SameReady(cfg, a, b, b.aq[j].op, b.aq[j].time);
    }
    forall op | IsOp(cfg, op) && op in b.startedAt ensures b.startedAt[op] <= b.now && Ready(cfg, b, op, b.startedAt[op]) {
      SameReady(cfg, a, b, op, b.startedAt[op]);
    }
    forall op | IsOp(cfg, op) ensures EndTimed(cfg, b, op) {
      assert EndTimed(cfg, a, op);
      SameEnd(cfg, a, b, op);
    }
  }

  lemma InsertTimed(cfg: Config, s: Sim, e: Event)
    requires Timed(cfg, s) && IsOp(cfg, e.op) && ItemTimed(cfg, s, e)
    ensures Timed(cfg, Insert(s, e))
  {
    hide Exact, Shaped, Prompt, TakenOk, FreedFrom, ValidConfig, Ready, Flight, Handling, EndTimed;
    var r := Insert(s, e);
    forall j | 0 <= j < |r.aq| ensures IsOp(cfg, r.aq[j].op) && ItemTimed(cfg, r, r.aq[j]) {
      assert r.aq[j] == if j < |s.aq| then s.aq[j] else e;
      SameReady(cfg, s, r, r.aq[j].op, r.aq[j].time);
    }
    forall op | IsOp(cfg, op) && op in r.startedAt ensures r.startedAt[op] <= r.now && Ready(cfg, r, op, r.startedAt[op]) {
      SameReady(cfg, s, r, op, r.startedAt[op]);
    }
    forall op | IsOp(cfg, op) ensures EndTimed(cfg, r, op) {
      assert EndTimed(cfg, s, op);
      SameEnd(cfg, s, r, op);
    }
  }

  lemma StartTimed(cfg: Config, s: Sim, p: Op)
    requires RequiresOnly(cfg) && Timed(cfg, s) && IsOp(cfg, p)
    requires p.off !in TrackerOf(s, p).started && Ready(cfg, s, p, s.now)
    ensures Timed(cfg, Start(cfg, s, p))
    ensures Start(cfg, s, p).startedAt[p] == s.now
  {
    hide Prompt, TakenOk, FreedFrom, ValidConfig, Flight, Handling, Exact, Ready, EndTimed;
    var r := Start(cfg, s, p);
    StartTracker(cfg, s, p);
    assert p !in s.startedAt;
    forall op, t | IsOp(cfg, op) && Ready(cfg, s, op, t) ensures Ready(cfg, r, op, t) {
      StartReady(cfg, s, p, op, t);
    }
    forall j | 0 <= j < |r.aq| ensures IsOp(cfg, r.aq[j].op) && ItemTimed(cfg, r, r.aq[j]) {
      assert r.aq[j] == s.aq[j];
    }
    forall op | IsOp(cfg, op) ensures EndTimed(cfg, r, op) {
      assert EndTimed(cfg, s, op);
      StartEnd(cfg, s, p, op);
    }
  }

  /** A start changes no counter when there are no start dependencies. */
  lemma StartTracker(cfg: Config, s: Sim, p: Op)
    requires RequiresOnly(cfg) && Timed(cfg, s) && IsOp(cfg, p)
    requires p.off !in TrackerOf(s, p).started
    ensures var r := Start(cfg, s, p);
      TrackersOk(cfg, r) && TrackersTimed(cfg, r)
  {
    hide ValidConfig, ItemsTimed, StartsTimed, UqTimed, EndsTimed, RecordsOk;
    var nodes, tr := cfg.sched[p.host], s.trackers[p.host];
    var t := MarkStarted(nodes, tr, p.off);
    assert nodes[p.off].startDependOnMe == [];
    assert t == tr.(started := tr.started + multiset{p.off});
    MarkStartedExact(nodes, tr, p.off);
    SameQueue(tr, t, s.now);
    SamePrompt(nodes, tr, t);
  }

  lemma StartReady(cfg: Config, s: Sim, p: Op, op: Op, t: nat)
    requires TrackersShaped(cfg, s) && IsOp(cfg, p) && IsOp(cfg, op) && Ready(cfg, s, op, t)
    ensures Ready(cfg, Start(cfg, s, p), op, t)
  {
    hide Shaped;
  }

  lemma StartEnd(cfg: Config, s: Sim, p: Op, op: Op)
    requires ValidConfig(cfg) && TrackersShaped(cfg, s) && IsOp(cfg, p) && IsOp(cfg, op)
    requires p !in s.startedAt && EndTimed(cfg, s, op)
    ensures EndTimed(cfg, Start(cfg, s, p), op)
  {
    hide Shaped, ValidConfig, Flight, Handling;
  }

  lemma CompleteTimed(cfg: Config, s: Sim, p: Op, at: nat)
    requires Timed(cfg, s) && IsOp(cfg, p) && s.now <= at
    requires p.off !in TrackerOf(s, p).done
    requires EndTimed(cfg, Complete(cfg, s, p, at), p)
    ensures Timed(cfg, Complete(cfg, s, p, at))
  {
    hide Prompt, TakenOk, FreedFrom, ValidConfig, Flight, Handling, Exact, Ready, EndTimed;
    var r := Complete(cfg, s, p, at);
    CompleteTracker(cfg, s, p, at);
    assert p.off !in s.trackers[p.host].doneAt;
    forall op, t | IsOp(cfg, op) && Ready(cfg, s, op, t) ensures Ready(cfg, r, op, t) {
      CompleteReady(cfg, s, p, at, op, t);
    }
    forall j | 0 <= j < |r.aq| ensures IsOp(cfg, r.aq[j].op) && ItemTimed(cfg, r, r.aq[j]) {
      assert r.aq[j] == s.aq[j];
    }
    forall op | IsOp(cfg, op) ensures EndTimed(cfg, r, op) {
      if op != p {
        assert EndTimed(cfg, s, op);
        CompleteEnd(cfg, s, p, at, op);
      }
    }
  }

  lemma CompleteTracker(cfg: Config, s: Sim, p: Op, at: nat)
    requires Timed(cfg, s) && IsOp(cfg, p) && s.now <= at
    requires p.off !in TrackerOf(s, p).done
    ensures var r := Complete(cfg, s, p, at);
      TrackersOk(cfg, r) && TrackersTimed(cfg, r)
  {
    hide ValidConfig, ItemsTimed, StartsTimed, UqTimed, EndsTimed, Prompt, FreedFrom, Exact;
    var nodes, tr := cfg.sched[p.host], s.trackers[p.host];
    assert p.off !in tr.doneAt;
    MarkDonePrompt(nodes, tr, p.off, at, s.now);
    MarkDoneExact(nodes, tr, p.off, at);
    var t := MarkDone(nodes, tr, p.off, at);
    forall n | 0 <= n < |t.cnt| ensures Taken(t, n) >= 0 {
      assert Taken(tr, n) == Taken(t, n);
    }
  }

  lemma CompleteReady(cfg: Config, s: Sim, p: Op, at: nat, op: Op, t: nat)
    requires TrackersShaped(cfg, s) && IsOp(cfg, p) && IsOp(cfg, op) && Ready(cfg, s, op, t)
    requires p.off !in TrackerOf(s, p).doneAt
    ensures Ready(cfg, Complete(cfg, s, p, at), op, t)
  {
    hide Shaped;
  }

  lemma CompleteEnd(cfg: Config, s: Sim, p: Op, at: nat, op: Op)
    requires ValidConfig(cfg) && TrackersShaped(cfg, s) && IsOp(cfg, p) && IsOp(cfg, op) && op != p
    requires p.off !in TrackerOf(s, p).doneAt && EndTimed(cfg, s, op)
    ensures EndTimed(cfg, Complete(cfg, s, p, at), op)
  {
    hide Shaped, ValidConfig, Flight, Handling;
  }

  lemma PairTimed(cfg: Config, s: Sim, send: Op, recv: Op)
    requires Timed(cfg, s) && IsKind(cfg, send, Send) && IsKind(cfg, recv, Recv)
    requires recv.off !in TrackerOf(s, recv).done
    ensures Timed(cfg, Pair(s, send, recv))
  {
    hide Exact, Shaped, Prompt, TakenOk, FreedFrom, ValidConfig, Ready, Flight, Handling, EndTimed;
    var r := Pair(s, send, recv);
    forall j | 0 <= j < |r.aq| ensures IsOp(cfg, r.aq[j].op) && ItemTimed(cfg, r, r.aq[j]) {
      assert r.aq[j] == s.aq[j];
      SameReady(cfg, s, r, r.aq[j].op, r.aq[j].time);
    }
    forall op | IsOp(cfg, op) && op in r.startedAt ensures r.startedAt[op] <= r.now && Ready(cfg, r, op, r.startedAt[op]) {
      SameReady(cfg, s, r, op, r.startedAt[op]);
    }
    forall op | IsOp(cfg, op) ensures EndTimed(cfg, r, op) {
      assert EndTimed(cfg, s, op);
      PairEnd(cfg, s, send, recv, op);
    }
  }

  lemma PairEnd(cfg: Config, s: Sim, send: Op, recv: Op, op: Op)
    requires ValidConfig(cfg) && TrackersShaped(cfg, s) && RecordsOk(cfg, s) && IsOp(cfg, op)
    requires IsKind(cfg, send, Send) && IsKind(cfg, recv, Recv)
    requires recv.off !in TrackerOf(s, recv).done && EndTimed(cfg, s, op)
    ensures EndTimed(cfg, Pair(s, send, recv), op)
  {
    hide ValidConfig, Flight, Handling, Shaped;
  }

  lemma FlushTimed(cfg: Config, s: Sim, host: nat)
    requires Timed(cfg, s)
    ensures Timed(cfg, Flush(cfg, s, host))
  {
    hide Prompt, FreedFrom, ValidConfig, Flight, Handling, Exact, Ready, EndTimed, TakenOk;
    var r := Flush(cfg, s, host);
    if host < |s.trackers| {
      var tr := s.trackers[host];
      FlushTrackers(cfg, s, host);
      forall op, t | IsOp(cfg, op) && Ready(cfg, s, op, t) ensures Ready(cfg, r, op, t) {
        FlushReady(cfg, s, host, op, t);
      }
      forall j | 0 <= j < |r.aq| ensures IsOp(cfg, r.aq[j].op) && ItemTimed(cfg, r, r.aq[j]) {
        if j < |s.aq| {
          assert r.aq[j] == s.aq[j];
        } else {
          FreedTimed(cfg, s, host, j - |s.aq|);
        }
      }
      forall op | IsOp(cfg, op) ensures EndTimed(cfg, r, op) {
        assert EndTimed(cfg, s, op);
        FlushEnd(cfg, s, host, op);
      }
    }
  }

  lemma FlushReady(cfg: Config, s: Sim, host: nat, op: Op, t: nat)
    requires TrackersShaped(cfg, s) && IsOp(cfg, op) && Ready(cfg, s, op, t)
    ensures Ready(cfg, Flush(cfg, s, host), op, t)
  {
    hide Shaped;
  }

  lemma FlushEnd(cfg: Config, s: Sim, host: nat, op: Op)
    requires ValidConfig(cfg) && TrackersShaped(cfg, s) && IsOp(cfg, op) && EndTimed(cfg, s, op)
    ensures EndTimed(cfg, Flush(cfg, s, host), op)
  {
    hide Shaped, ValidConfig, Flight, Handling;
  }

  lemma FlushTrackers(cfg: Config, s: Sim, host: nat)
    requires Timed(cfg, s) && host < |s.trackers|
    ensures var r := Flush(cfg, s, host);
      TrackersOk(cfg, r) && TrackersTimed(cfg, r)
  {
    hide ValidConfig, ItemsTimed, StartsTimed, UqTimed, EndsTimed, RecordsOk;
    var nodes, tr := cfg.sched[host], s.trackers[host];
    var t := Drain(tr);
    DrainExact(nodes, tr);
    forall n | 0 <= n < |t.cnt| ensures Taken(t, n) >= 0 {
    }
    SamePrompt(nodes, tr, t);
  }

  lemma FreedTimed(cfg: Config, s: Sim, host: nat, k: nat)
    requires Timed(cfg, s) && host < |s.trackers| && k < |s.trackers[host].executable|
    ensures var r := Flush(cfg, s, host);
      var e := r.aq[|s.aq| + k];
      IsOp(cfg, e.op) && ItemTimed(cfg, r, e)
  {
    hide ItemsTimed, StartsTimed, UqTimed, EndsTimed, Flight, Handling, Prompt, Open;
    var nodes, tr, r := cfg.sched[host], s.trackers[host], Flush(cfg, s, host);
    var f := tr.executable[k];
    var e := r.aq[|s.aq| + k];
    assert e == Event(Issue, Op(host, f.node), FreedTime(cfg, s, Op(host, f.node), f.start));
    assert f.start <= e.time;
    FreedAt(nodes, tr, k);
  }

  // ---- the branches of the event loop ----

  lemma ScaleLe(a: nat, b: nat, factor: nat)
    requires a <= b
    ensures a * factor <= b * factor
  {
  }

  lemma LaterTimed(cfg: Config, s: Sim, e: Event, t: nat)
    requires ValidConfig(cfg) && |s.trackers| == |cfg.sched| && IsOp(cfg, e.op) && ItemTimed(cfg, s, e) && e.time <= t
    ensures ItemTimed(cfg, s, e.(time := t))
  {
    hide ValidConfig, Flight;
  }

  lemma CalcTimed(cfg: Config, s: Sim, e: Event, noise: nat)
    requires RequiresOnly(cfg) && Timed(cfg, s) && Holds(cfg, s, e.op, FRESH)
    requires e.kind == Issue && IsKind(cfg, e.op, Calc) && ItemTimed(cfg, s, e) && s.now == e.time
    ensures Timed(cfg, RunCalc(cfg, s, e, noise))
  {
    hide Exact, Shaped, Prompt, ValidConfig, Flight, Handling, Start, Complete, TrackersTimed, ItemsTimed, StartsTimed, EndsTimed, Ready;
    hide Frame, RecordsOk, RequiresOnly;
    var n := NodeOf(cfg, e.op);
    var free := At(s.nexto, e.op.host, n.proc);
    if free <= e.time {
      var cpuTime := e.time + n.size + noise;
      var s1 := SetO(s, e.op.host, n.proc, cpuTime);
      SameTimed(cfg, s, s1);
      SameReady(cfg, s, s1, e.op, e.time);
      StartTimed(cfg, s1, e.op);
      var s2 := Start(cfg, s1, e.op);
      StartNow(cfg, s1, e.op);
      CalcEnd(cfg, s2, e.op, cpuTime);
      ClocksHolds(cfg, s, s1, e.op, FRESH);
      StartHolds(cfg, s1, e.op, FRESH);
      CompleteTimed(cfg, s2, e.op, cpuTime);
    } else {
      LaterTimed(cfg, s, e, free);
      InsertTimed(cfg, s, e.(time := free));
    }
  }

  lemma StartNow(cfg: Config, s: Sim, p: Op)
    requires TrackersShaped(cfg, s) && IsOp(cfg, p)
    ensures var r := Start(cfg, s, p);
      r.now == s.now && r.startedAt == s.startedAt[p := s.now] && r.uq == s.uq && r.rq == s.rq && r.mate == s.mate
  {
  }

  lemma CalcEnd(cfg: Config, s: Sim, p: Op, at: nat)
    requires ValidConfig(cfg) && TrackersShaped(cfg, s) && IsKind(cfg, p, Calc)
    requires p in s.startedAt && s.startedAt[p] + NodeOf(cfg, p).size <= at
    ensures EndTimed(cfg, Complete(cfg, s, p, at), p)
  {
    hide Shaped, ValidConfig, Flight, Handling;
  }

  lemma SendEnd(cfg: Config, s: Sim, p: Op, at: nat)
    requires ValidConfig(cfg) && TrackersShaped(cfg, s) && IsKind(cfg, p, Send)
    requires p in s.startedAt && s.startedAt[p] + cfg.par.o + (SizeOf(cfg, p) - 1) * cfg.par.O <= at
    ensures EndTimed(cfg, Complete(cfg, s, p, at), p)
  {
    hide Shaped, ValidConfig, Flight, Handling;
  }

  lemma RecvEnd(cfg: Config, s: Sim, send: Op, p: Op, at: nat)
    requires ValidConfig(cfg) && TrackersShaped(cfg, s) && IsKind(cfg, p, Recv) && IsKind(cfg, send, Send)
    requires p in s.startedAt && send in s.startedAt && p in s.mate && s.mate[p] == send
    requires s.startedAt[send] + Flight(cfg, send) + Handling(cfg, send, p) <= at
    requires s.startedAt[p] + Handling(cfg, send, p) <= at
    requires !Eager(cfg, send) ==> send.off in s.trackers[send.host].doneAt && s.trackers[send.host].doneAt[send.off] == at
    ensures EndTimed(cfg, Complete(cfg, s, p, at), p)
  {
    hide Shaped, ValidConfig, Flight, Handling;
  }

  lemma FreshNotStarted(cfg: Config, s: Sim, p: Op)
    requires Holds(cfg, s, p, FRESH)
    ensures p.off !in TrackerOf(s, p).started
  {
  }

  lemma SendTimed(cfg: Config, s: Sim, e: Event, noise: nat)
    requires RequiresOnly(cfg) && Timed(cfg, s) && Holds(cfg, s, e.op, FRESH) && cfg.par.G >= 0.0
    requires e.kind == Issue && IsKind(cfg, e.op, Send) && ItemTimed(cfg, s, e) && s.now == e.time
    ensures Timed(cfg, RunSend(cfg, s, e, noise))
  {
    hide Exact, Shaped, Prompt, Handling, Start, Complete, TrackersTimed, ItemsTimed, StartsTimed, EndsTimed, Ready;
    hide Frame, RecordsOk, RequiresOnly, EndTimed, Bandwidth, UqTimed, Flight, Ledger, Balanced;
    HoldsShape(cfg, s, e.op, FRESH);
    FreshNotStarted(cfg, s, e.op);
    hide ValidConfig, Holds, SizeOf;
    var n, p, size := NodeOf(cfg, e.op), cfg.par, SizeOf(cfg, e.op);
    var free := Max(At(s.nexto, e.op.host, n.proc), At(s.nextgs, e.op.host, n.nic));
    if free <= e.time {
      var cpuTime := e.time + p.o + noise + (size - 1) * p.O;
      var bandwidth := Bandwidth(p, size);
      StartTimed(cfg, s, e.op);
      StartNow(cfg, s, e.op);
      StartHolds(cfg, s, e.op, FRESH);
      var s0 := Start(cfg, s, e.op);
      var s2 := SetGs(SetO(s0, e.op.host, n.proc, cpuTime), e.op.host, n.nic, e.time + p.g + bandwidth);
      UqSame(cfg, s0, s2);
      SameTimed(cfg, s0, s2);
      ClocksHolds(cfg, s0, s2, e.op, FRESH.(started := 1));
      PostMessageTimed(cfg, s2, e.op, cpuTime);
    } else {
      LaterTimed(cfg, s, e, free);
      InsertTimed(cfg, s, e.(time := free));
    }
  }

  /** The second half of a send: the message leaves, and an eager send is complete. */
  lemma PostMessageTimed(cfg: Config, s: Sim, p: Op, at: nat)
    requires Timed(cfg, s) && IsKind(cfg, p, Send) && Holds(cfg, s, p, FRESH.(started := 1))
    requires p in s.startedAt && s.startedAt[p] == s.now
    requires s.now + cfg.par.o + (SizeOf(cfg, p) - 1) * cfg.par.O <= at
    ensures var m := Insert(s, Event(Message, p, at + cfg.par.L + Bandwidth(cfg.par, SizeOf(cfg, p))));
      Timed(cfg, if SizeOf(cfg, p) <= cfg.par.S then Complete(cfg, m, p, at) else m)
  {
    hide Exact, Shaped, Prompt, Handling, Complete, TrackersTimed, ItemsTimed, StartsTimed, EndsTimed, Ready;
    hide Frame, RecordsOk, EndTimed, Bandwidth;
    var msg := Event(Message, p, at + cfg.par.L + Bandwidth(cfg.par, SizeOf(cfg, p)));
    assert ItemTimed(cfg, s, msg);
    InsertTimed(cfg, s, msg);
    InsertHolds(cfg, s, msg, FRESH.(started := 1));
    if SizeOf(cfg, p) <= cfg.par.S {
      SendEnd(cfg, Insert(s, msg), p, at);
      CompleteTimed(cfg, Insert(s, msg), p, at);
    }
  }

  /** Two started operations meet now. */
  ghost predicate MeetTimed(cfg: Config, s: Sim, send: Op, recv: Op, at: nat)
  {
    && Timed(cfg, s)
    && IsKind(cfg, send, Send) && IsKind(cfg, recv, Recv)
    && send in s.startedAt && recv in s.startedAt
    && s.startedAt[send] + Flight(cfg, send) <= s.now
    && s.now + Handling(cfg, send, recv) <= at
    && recv.off !in TrackerOf(s, recv).done
    && (!Eager(cfg, send) ==> send.off !in TrackerOf(s, send).done)
  }

  lemma DeliverTimed(cfg: Config, s: Sim, send: Op, recv: Op, rendezvous: bool, proc: nat, nic: nat, cpuTime: nat, nicTime: nat)
    requires MeetTimed(cfg, s, send, recv, cpuTime) && rendezvous == !Eager(cfg, send)
    ensures Timed(cfg, Deliver(cfg, s, send, recv, rendezvous, proc, nic, cpuTime, nicTime))
  {
    hide Exact, Shaped, Prompt, Handling, Complete, TrackersTimed, ItemsTimed, EndsTimed, Ready, ValidConfig;
    hide RecordsOk, EndTimed, Bandwidth, At;
    var s1 := Complete(cfg, s, send, cpuTime);
    var s3 := if rendezvous then Raise(s1, send.host, proc, nic, cpuTime, nicTime) else s;
    if rendezvous {
      FlightCovers(cfg, send);
      SendEnd(cfg, s, send, cpuTime);
      CompleteTimed(cfg, s, send, cpuTime);
      CompleteNow(cfg, s, send, cpuTime, recv);
      RaiseClocks(s1, send.host, proc, nic, cpuTime, nicTime);
      SameTimed(cfg, s1, s3);
    }
    PairTimed(cfg, s3, send, recv);
    var s4 := Pair(s3, send, recv);
    RecvStarted(cfg, s, recv);
    RecvEnd(cfg, s4, send, recv, cpuTime);
    CompleteTimed(cfg, s4, recv, cpuTime);
  }

  lemma RecvStarted(cfg: Config, s: Sim, op: Op)
    requires Timed(cfg, s) && IsOp(cfg, op) && op in s.startedAt
    ensures s.startedAt[op] <= s.now
  {
    hide Exact, Shaped, ItemsTimed, EndsTimed, UqTimed, Ready;
  }

  lemma FlightCovers(cfg: Config, send: Op)
    requires ValidConfig(cfg) && IsOp(cfg, send)
    ensures Flight(cfg, send) >= cfg.par.o + (SizeOf(cfg, send) - 1) * cfg.par.O
  {
    hide Bandwidth;
  }

  lemma CompleteNow(cfg: Config, s: Sim, p: Op, at: nat, other: Op)
    requires TrackersShaped(cfg, s) && IsOp(cfg, p) && IsOp(cfg, other) && p != other
    ensures var r := Complete(cfg, s, p, at);
      && r.now == s.now && r.startedAt == s.startedAt && r.uq == s.uq && r.mate == s.mate
      && p.off in TrackerOf(r, p).doneAt && TrackerOf(r, p).doneAt[p.off] == at
      && (other.off in TrackerOf(r, other).done <==> other.off in TrackerOf(s, other).done)
  {
    hide Shaped;
  }

  lemma HandlingLe(cfg: Config, send: Op, recv: Op)
    requires IsOp(cfg, send) && IsOp(cfg, recv)
    ensures Handling(cfg, send, recv) <= cfg.par.g + cfg.par.o + (SizeOf(cfg, send) - 1) * cfg.par.O
    ensures Handling(cfg, send, recv) <= cfg.par.g + cfg.par.o + (SizeOf(cfg, recv) - 1) * cfg.par.O
  {
    var a, b := SizeOf(cfg, send), SizeOf(cfg, recv);
    var m := if a < b then a else b;
    ScaleLe(m - 1, a - 1, cfg.par.O);
    ScaleLe(m - 1, b - 1, cfg.par.O);
  }

  lemma TakeUnexpectedTimed(cfg: Config, s: Sim, send: Op, recv: Op)
    requires IsKind(cfg, send, Send) && IsKind(cfg, recv, Recv)
    requires MeetTimed(cfg, s, send, recv, s.now + Handling(cfg, send, recv))
    requires Eager(cfg, send) == Eager(cfg, recv)
    ensures Timed(cfg, TakeUnexpected(cfg, s, send, recv, s.now))
  {
    hide Exact, Shaped, Prompt, Handling, Flight, Deliver, TrackersTimed, ItemsTimed, EndsTimed, StartsTimed, RecordsOk, ValidConfig;
    hide UqTimed, SizeOf, ChannelOf;
    var n, p, size := NodeOf(cfg, recv), cfg.par, SizeOf(cfg, recv);
    assert Eager(cfg, recv) == (size <= p.S);
    var nicTime := Max(At(s.nextgs, recv.host, n.nic), s.now) + p.g;
    var cpuTime := nicTime + p.o + (size - 1) * p.O;
    var s1 := Occupy(s, recv.host, n.proc, n.nic, cpuTime, nicTime);
    UqSame(cfg, s, s1);
    SameTimed(cfg, s, s1);
    HandlingLe(cfg, send, recv);
    assert MeetTimed(cfg, s1, send, recv, cpuTime) by { hide Timed, Eager; }
    hide MeetTimed;
    DeliverTimed(cfg, s1, send, recv, size > p.S, n.proc, n.nic, cpuTime, nicTime);
  }

  lemma ReceiveTimed(cfg: Config, s: Sim, send: Op, recv: Op, noise: nat)
    requires IsKind(cfg, send, Send) && IsKind(cfg, recv, Recv)
    requires MeetTimed(cfg, s, send, recv, s.now + Handling(cfg, send, recv))
    ensures Timed(cfg, Receive(cfg, s, send, recv, s.now, noise))
  {
    hide Exact, Shaped, Prompt, Handling, Flight, Deliver, TrackersTimed, ItemsTimed, EndsTimed, StartsTimed, RecordsOk, ValidConfig;
    var n, p, size, host := NodeOf(cfg, send), cfg.par, SizeOf(cfg, send), ChannelOf(cfg, send).dst;
    var nicTime := Max(At(s.nextgr, host, n.nic), s.now) + p.g;
    var cpuTime := nicTime + p.o + noise + (size - 1) * p.O;
    var s1 := Occupy(s, host, NodeOf(cfg, recv).proc, n.nic, cpuTime, nicTime);
    SameTimed(cfg, s, s1);
    HandlingLe(cfg, send, recv);
    DeliverTimed(cfg, s1, send, recv, size > p.S, n.proc, n.nic, cpuTime, nicTime);
  }

  lemma PopUqTimed(cfg: Config, s: Sim, ch0: Channel)
    requires Timed(cfg, s) && Queue(s.uq, ch0) != []
    ensures Timed(cfg, PopUq(s, ch0))
  {
    hide Exact, Shaped, Prompt, Flight, TrackersTimed, ItemsTimed, EndsTimed, StartsTimed, RecordsOk, ValidConfig;
    var r := PopUq(s, ch0);
    forall ch ensures Queue(r.uq, ch) == if ch == ch0 then Queue(s.uq, ch)[1..] else Queue(s.uq, ch) {
    }
    SameTimed(cfg, s, r);
  }

  lemma PushUqTimed(cfg: Config, s: Sim, op: Op)
    requires Timed(cfg, s) && IsOp(cfg, op) && op in s.startedAt && s.startedAt[op] + Flight(cfg, op) <= s.now
    ensures Timed(cfg, PushUq(cfg, s, op, s.now))
  {
    hide Exact, Shaped, Prompt, Flight, TrackersTimed, ItemsTimed, EndsTimed, StartsTimed, RecordsOk, ValidConfig;
    var r, ch0 := PushUq(cfg, s, op, s.now), ChannelOf(cfg, op);
    forall ch ensures Queue(r.uq, ch) == if ch == ch0 then Queue(s.uq, ch) + [Unexpected(op, s.now)] else Queue(s.uq, ch) {
    }
    SameTimed(cfg, s, r);
  }

  lemma RecvTimed(cfg: Config, s: Sim, e: Event)
    requires RequiresOnly(cfg) && Timed(cfg, s) && Holds(cfg, s, e.op, FRESH)
    requires e.kind == Issue && IsKind(cfg, e.op, Recv) && ItemTimed(cfg, s, e) && s.now == e.time
    requires TakesAgreeing(cfg, s, e)
    ensures Timed(cfg, RunRecv(cfg, s, e))
  {
    hide Exact, Shaped, Prompt, Flight, TrackersTimed, ItemsTimed, EndsTimed, StartsTimed, RecordsOk, ValidConfig, Ready;
    hide RequiresOnly, Handling, TakeUnexpected, Balanced, QueuesOk, Exclusive, Paired, Start;
    var ch := ChannelOf(cfg, e.op);
    var s1, l := Start(cfg, s, e.op), FRESH.(started := 1);
    StartTimed(cfg, s, e.op);
    StartNow(cfg, s, e.op);
    StartHolds(cfg, s, e.op, FRESH);
    if Queue(s.uq, ch) != [] {
      var u := Queue(s1.uq, ch)[0];
      QueuedSend(cfg, s1, ch, l, e.op);
      PopUqHolds(cfg, s1, e.op, l);
      assert u.since <= s1.now && u.op in s1.startedAt && s1.startedAt[u.op] + Flight(cfg, u.op) <= u.since;
      PopUqTimed(cfg, s1, ch);
      TakeUnexpectedTimed(cfg, PopUq(s1, ch), u.op, e.op);
    } else {
      SameTimed(cfg, s1, PushRq(cfg, s1, e.op));
    }
  }

  lemma MsgTimed(cfg: Config, s: Sim, e: Event, noise: nat)
    requires e.kind == Message && IsKind(cfg, e.op, Send)
    requires Timed(cfg, s) && Holds(cfg, s, e.op, InTransit(cfg, e.op, 0))
    requires ItemTimed(cfg, s, e) && s.now == e.time
    ensures Timed(cfg, RunMsg(cfg, s, e, noise))
  {
    hide Exact, Shaped, Prompt, Flight, TrackersTimed, ItemsTimed, EndsTimed, StartsTimed, UqTimed, ValidConfig, Ready;
    hide Handling, Receive, Balanced, QueuesOk, Exclusive, Paired;
    var n, ch, l := NodeOf(cfg, e.op), ChannelOf(cfg, e.op), InTransit(cfg, e.op, 0);
    var q := Queue(s.rq, ch);
    if q != [] {
      var recv := q[0];
      QueuedRecv(cfg, s, ch, l, e.op);
      PopRqHolds(cfg, s, e.op, l);
      var s1 := PopRq(s, ch);
      assert UqTimed(cfg, s1) by { UqSame(cfg, s, s1); }
      SameTimed(cfg, s, s1);
      var free := Max(At(s.nexto, ch.dst, NodeOf(cfg, recv).proc), At(s.nextgr, ch.dst, n.nic));
      if free <= e.time {
        assert recv in s1.startedAt;
        ReceiveTimed(cfg, s1, e.op, recv, noise);
      } else {
        var e1 := e.(time := free);
        SameItem(cfg, s, s1, e);
        LaterTimed(cfg, s1, e, free);
        InsertTimed(cfg, s1, e1);
        var s2 := Insert(s1, e1);
        UqSame(cfg, s2, PushRq(cfg, s2, recv));
        SameTimed(cfg, s2, PushRq(cfg, s2, recv));
      }
    } else {
      PushUqTimed(cfg, s, e.op);
    }
  }

  lemma UqSame(cfg: Config, a: Sim, b: Sim)
    requires ValidConfig(cfg) && UqTimed(cfg, a) && a.uq == b.uq && a.startedAt == b.startedAt && a.now == b.now
    ensures UqTimed(cfg, b)
  {
  }

  lemma SameItem(cfg: Config, a: Sim, b: Sim, e: Event)
    requires ValidConfig(cfg) && |a.trackers| == |cfg.sched| && IsOp(cfg, e.op) && SameTimes(a, b) && ItemTimed(cfg, a, e)
    ensures ItemTimed(cfg, b, e)
  {
    SameReady(cfg, a, b, e.op, e.time);
  }

  lemma PopTakes(cfg: Config, s: Sim, i: nat)
    requires i < |s.aq| && IsOp(cfg, s.aq[i].op) && TakesAgreeing(cfg, s, s.aq[i])
    ensures TakesAgreeing(cfg, Pop(s, i), s.aq[i])
  {
  }

  /** Handling the popped item keeps the times. */
  lemma RunTimed(cfg: Config, s: Sim, i: nat, noise: nat)
    requires RequiresOnly(cfg) && Inv(cfg, s) && Timed(cfg, s) && Earliest(s, i)
    requires IsOp(cfg, s.aq[i].op) && TakesAgreeing(cfg, s, s.aq[i])
    ensures EventOk(cfg, s.aq[i]) && Shape(cfg, Pop(s, i)) && Timed(cfg, Run(cfg, Pop(s, i), s.aq[i], noise))
    ensures s.now <= s.aq[i].time
  {
    hide Exact, Shaped, Flight, TrackersTimed, ItemsTimed, EndsTimed, StartsTimed, UqTimed, RecordsOk;
    hide RequiresOnly, TakesAgreeing, Handling, RunCalc, RunSend, RunRecv, RunMsg, ItemTimed, QueuesOk, AllBalanced, Exclusive, Paired;
    var s0, e := Pop(s, i), s.aq[i];
    PopTimed(cfg, s, i);
    PopTakes(cfg, s, i);
    RunKeepsCore(cfg, s, i, noise);
    if e.kind == Message {
      PopTransit(cfg, s, i);
      MsgTimed(cfg, s0, e, noise);
    } else {
      PopFresh(cfg, s, i);
      match NodeOf(cfg, e.op).kind
      case Calc => CalcTimed(cfg, s0, e, noise);
      case Send => SendTimed(cfg, s0, e, noise);
      case Recv => RecvTimed(cfg, s0, e);
    }
  }

  /** One iteration popping an earliest item keeps the times. */
  lemma StepTimed(cfg: Config, s: Sim, i: nat, noise: nat)
    requires RequiresOnly(cfg) && Inv(cfg, s) && Timed(cfg, s) && Earliest(s, i)
    requires IsOp(cfg, s.aq[i].op) && TakesAgreeing(cfg, s, s.aq[i])
    ensures Timed(cfg, Step(cfg, s, i, noise))
    ensures s.now <= s.aq[i].time
  {
    hide Timed, Inv, Run, Flush, RequiresOnly, TakesAgreeing, Shape, Shaped;
    RunTimed(cfg, s, i, noise);
    var e, r := s.aq[i], Run(cfg, Pop(s, i), s.aq[i], noise);
    FlushTimed(cfg, r, e.op.host);
    FlushTimed(cfg, Flush(cfg, r, e.op.host), NodeOf(cfg, e.op).peer);
  }
}
