/** When the times of popped items can go back: exactly when a start dependency frees a node
    whose own resource has been idle. */
module TimeOrder {
  import opened Schedule
  import opened DependencyTracker
  import opened StartTimes
  import opened EventLoop
  import opened Accounting
  import opened Effects
  import opened Runs
  import opened Timing

  /** The clock a node waits for; receives wait for none. */
  function ClockOf(s: Sim, host: nat, n: Node): nat {
    match n.kind
    case Calc => At(s.nexto, host, n.proc)
    case Send => At(s.nextgs, host, n.nic)
    case Recv => 0
  }

  /** Executing item e sets the clock that a node on the same host waits for. */
  predicate Occupies(cfg: Config, s: Sim, e: Event, n: Node)
    requires IsOp(cfg, e.op)
  {
    var mine, q := NodeOf(cfg, e.op), Queue(s.uq, ChannelOf(cfg, e.op));
    match n.kind
    case Calc => n.proc == mine.proc && (mine.kind != Recv || q != [])
    case Send => n.nic == mine.nic && (mine.kind == Send || (mine.kind == Recv && q != [] && !Eager(cfg, e.op) && q[0].op.host == e.op.host))
    case Recv => false
  }

  /** Starting the operation of item e counts node n down to zero, and n could then have
      started before. */
  ghost predicate FreesEarly(cfg: Config, s: Sim, e: Event, n: nat)
    requires Shape(cfg, s) && EventOk(cfg, e) && n < |cfg.sched[e.op.host]|
  {
    var node := cfg.sched[e.op.host][n];
    && HitsZero(s.trackers[e.op.host].cnt[n], Times(NodeOf(cfg, e.op).startDependOnMe, n))
    && ClockOf(s, e.op.host, node) < e.time && !Occupies(cfg, s, e, node)
  }

  /** Item e is executed now and frees some node early. */
  ghost predicate GoesBack(cfg: Config, s: Sim, e: Event)
    requires Shape(cfg, s) && EventOk(cfg, e)
  {
    && e.kind == Issue && FreeAt(cfg, s, e) <= e.time
    && exists n: nat :: n < |cfg.sched[e.op.host]| && FreesEarly(cfg, s, e, n)
  }

  // ---- clocks after an executed item ----

  /** States with the same clocks that nodes wait for. */
  ghost predicate SameWaiting(a: Sim, b: Sim) {
    b.nexto == a.nexto && b.nextgs == a.nextgs
  }

  lemma SameClockOf(a: Sim, b: Sim, host: nat, n: Node)
    requires SameWaiting(a, b)
    ensures ClockOf(a, host, n) == ClockOf(b, host, n)
  {
  }

  lemma CompleteWaiting(cfg: Config, s: Sim, op: Op, at: nat)
    requires TrackersShaped(cfg, s) && IsOp(cfg, op)
    ensures SameWaiting(s, Complete(cfg, s, op, at))
  {
    hide Shaped, MarkDone;
  }

  lemma AtSet(c: Clock, host: nat, port: nat, t: nat, h: nat, p: nat)
    ensures At(c[(host, port) := t], h, p) == if h == host && p == port then t else At(c, h, p)
  {
  }

  lemma RaiseClock(s: Sim, host: nat, proc: nat, nic: nat, cpuTime: nat, nicTime: nat, h: nat, n: Node, t: nat)
    requires cpuTime >= t && nicTime >= t
    ensures ClockOf(Raise(s, host, proc, nic, cpuTime, nicTime), h, n) < t
       <==> ClockOf(s, h, n) < t && !(h == host && ((n.kind == Calc && n.proc == proc) || (n.kind == Send && n.nic == nic)))
  {
    hide At;
    if n.kind == Calc {
      AtSet(s.nexto, host, proc, cpuTime, h, n.proc);
    } else if n.kind == Send {
      AtSet(s.nextgs, host, nic, nicTime, h, n.nic);
    }
  }

  lemma OccupyClock(s: Sim, host: nat, proc: nat, nic: nat, cpuTime: nat, nicTime: nat, n: Node, t: nat)
    requires cpuTime >= t
    ensures ClockOf(Occupy(s, host, proc, nic, cpuTime, nicTime), host, n) < t
       <==> ClockOf(s, host, n) < t && !(n.kind == Calc && n.proc == proc)
  {
  }

  /** A meeting on host h, which has been occupied already, sets a clock of the sender. */
  lemma DeliverClock(cfg: Config, s: Sim, send: Op, recv: Op, rendezvous: bool, proc: nat, nic: nat, cpuTime: nat, nicTime: nat,
                     h: nat, n: Node, t: nat)
    requires TrackersShaped(cfg, s) && IsOp(cfg, send) && IsOp(cfg, recv) && cpuTime >= t && nicTime >= t
    ensures ClockOf(Deliver(cfg, s, send, recv, rendezvous, proc, nic, cpuTime, nicTime), h, n) < t
       <==> ClockOf(s, h, n) < t
            && !(rendezvous && h == send.host && ((n.kind == Calc && n.proc == proc) || (n.kind == Send && n.nic == nic)))
  {
    hide Shaped, Complete, Raise, ClockOf, TrackersShaped;
    var s0 := Complete(cfg, s, send, cpuTime);
    var s1 := if rendezvous then Raise(s0, send.host, proc, nic, cpuTime, nicTime) else s;
    var s2 := Pair(s1, send, recv);
    CompleteWaiting(cfg, s, send, cpuTime);
    RaiseClocks(s0, send.host, proc, nic, cpuTime, nicTime);
    RaiseClock(s0, send.host, proc, nic, cpuTime, nicTime, h, n, t);
    SameClockOf(s, s0, h, n);
    SameClockOf(s1, s2, h, n);
    SameTrackers(cfg, if rendezvous then s0 else s, s2);
    CompleteWaiting(cfg, s2, recv, cpuTime);
    SameClockOf(s2, Complete(cfg, s2, recv, cpuTime), h, n);
  }

  lemma RecvClock(cfg: Config, s: Sim, e: Event, n: Node)
    requires Shape(cfg, s) && e.kind == Issue && IsKind(cfg, e.op, Recv)
    ensures ClockOf(RunRecv(cfg, s, e), e.op.host, n) < e.time
       <==> ClockOf(s, e.op.host, n) < e.time && !Occupies(cfg, s, e, n)
  {
    hide Shape, Shaped, Start, Deliver, QueuesOk, ValidConfig, ClockOf, Occupy, At, TrackersShaped;
    ShapeParts(cfg, s);
    var mine, p, size, ch, h := NodeOf(cfg, e.op), cfg.par, SizeOf(cfg, e.op), ChannelOf(cfg, e.op), e.op.host;
    StartKeeps(cfg, s, e.op);
    var s1, r := Start(cfg, s, e.op), RunRecv(cfg, s, e);
    if Queue(s.uq, ch) != [] {
      HeadOfUq(cfg, s, ch);
      var send, s2 := Queue(s.uq, ch)[0].op, PopUq(s1, ch);
      SameTrackers(cfg, s1, s2);
      SameClockOf(s, s2, h, n);
      var nicTime := Max(At(s2.nextgs, h, mine.nic), e.time) + p.g;
      var cpuTime := nicTime + p.o + (size - 1) * p.O;
      var s3 := Occupy(s2, h, mine.proc, mine.nic, cpuTime, nicTime);
      OccupyClock(s2, h, mine.proc, mine.nic, cpuTime, nicTime, n, e.time);
      OccupyTrackers(cfg, s2, h, mine.proc, mine.nic, cpuTime, nicTime);
      DeliverClock(cfg, s3, send, e.op, size > p.S, mine.proc, mine.nic, cpuTime, nicTime, h, n, e.time);
    } else {
      SameClockOf(s, r, h, n);
    }
  }

  lemma OccupyTrackers(cfg: Config, s: Sim, host: nat, proc: nat, nic: nat, cpuTime: nat, nicTime: nat)
    requires TrackersShaped(cfg, s)
    ensures TrackersShaped(cfg, Occupy(s, host, proc, nic, cpuTime, nicTime))
  {
    hide Shaped;
  }

  lemma CalcClock(cfg: Config, s: Sim, e: Event, noise: nat, n: Node)
    requires Shape(cfg, s) && e.kind == Issue && IsKind(cfg, e.op, Calc) && FreeAt(cfg, s, e) <= e.time
    ensures ClockOf(RunCalc(cfg, s, e, noise), e.op.host, n) < e.time
       <==> ClockOf(s, e.op.host, n) < e.time && !Occupies(cfg, s, e, n)
  {
    hide Shaped, MarkStarted, MarkDone, QueuesOk, ValidConfig;
  }

  lemma SendClock(cfg: Config, s: Sim, e: Event, noise: nat, n: Node)
    requires Shape(cfg, s) && e.kind == Issue && IsKind(cfg, e.op, Send) && FreeAt(cfg, s, e) <= e.time
    ensures ClockOf(RunSend(cfg, s, e, noise), e.op.host, n) < e.time
       <==> ClockOf(s, e.op.host, n) < e.time && !Occupies(cfg, s, e, n)
  {
    hide Shape, Shaped, Start, Complete, Bandwidth, QueuesOk, ChannelOf, SizeOf, ClockOf, At, ValidConfig;
    ShapeParts(cfg, s);
    var mine, p, size, h := NodeOf(cfg, e.op), cfg.par, SizeOf(cfg, e.op), e.op.host;
    var cpuTime, bandwidth := e.time + p.o + noise + (size - 1) * p.O, Bandwidth(p, size);
    StartKeeps(cfg, s, e.op);
    var s1, busy := Start(cfg, s, e.op), e.time + p.g + bandwidth;
    var s2 := SetGs(SetO(s1, h, mine.proc, cpuTime), h, mine.nic, busy);
    var s3 := Insert(s2, Event(Message, e.op, cpuTime + p.L + bandwidth));
    SameClockOf(s, s1, h, n);
    SendSetsClocks(s1, h, mine.proc, mine.nic, cpuTime, busy, n, e.time);
    SameTrackers(cfg, s1, s3);
    CompleteWaiting(cfg, s3, e.op, cpuTime);
    SameClockOf(s2, RunSend(cfg, s, e, noise), h, n);
  }

  lemma SendSetsClocks(s: Sim, host: nat, proc: nat, nic: nat, cpuTime: nat, nicTime: nat, n: Node, t: nat)
    requires cpuTime >= t && nicTime >= t
    ensures ClockOf(SetGs(SetO(s, host, proc, cpuTime), host, nic, nicTime), host, n) < t
       <==> ClockOf(s, host, n) < t && !((n.kind == Calc && n.proc == proc) || (n.kind == Send && n.nic == nic))
  {
  }

  lemma ClockAfter(cfg: Config, s: Sim, e: Event, noise: nat, n: Node)
    requires Shape(cfg, s) && EventOk(cfg, e) && e.kind == Issue && FreeAt(cfg, s, e) <= e.time
    ensures ClockOf(Run(cfg, s, e, noise), e.op.host, n) < e.time
       <==> ClockOf(s, e.op.host, n) < e.time && !Occupies(cfg, s, e, n)
  {
    hide Shape, Shaped, RunCalc, RunSend, RunRecv, RunMsg, FreeAt, Occupies, ClockOf;
    ShapeParts(cfg, s);
    match NodeOf(cfg, e.op).kind
    case Calc => CalcClock(cfg, s, e, noise, n);
    case Send => SendClock(cfg, s, e, noise, n);
    case Recv => RecvClock(cfg, s, e, n);
  }

  // ---- nodes freed by an executed item ----

  lemma StartFreed(cfg: Config, s: Sim, op: Op, n: nat)
    requires TrackersShaped(cfg, s) && IsOp(cfg, op) && n < |cfg.sched[op.host]| && s.trackers[op.host].executable == []
    ensures var tr := s.trackers[op.host];
      var ex := Start(cfg, s, op).trackers[op.host].executable;
      && (forall i {:trigger ex[i]} :: 0 <= i < |ex| ==> ex[i].start == 0)
      && (HitsZero(tr.cnt[n], Times(NodeOf(cfg, op).startDependOnMe, n)) <==> exists i :: 0 <= i < |ex| && ex[i].node == n)
  {
    hide HitsZero;
    var nodes, tr := cfg.sched[op.host], s.trackers[op.host];
    assert Shaped(nodes, tr);
    StartFreesAtZero(tr.(started := tr.started + multiset{op.off}), nodes[op.off].startDependOnMe, n);
  }

  /** The start of the operation counts node n down to zero. */
  ghost predicate StartFrees(cfg: Config, s: Sim, e: Event, n: nat)
    requires TrackersShaped(cfg, s) && IsOp(cfg, e.op) && n < |cfg.sched[e.op.host]|
  {
    e.kind == Issue && HitsZero(s.trackers[e.op.host].cnt[n], Times(NodeOf(cfg, e.op).startDependOnMe, n))
  }

  /** A node freed with a start time before the item's has been freed by its start. */
  lemma FreedEarlyByStart(cfg: Config, s: Sim, e: Event, r: Sim, h: nat, i: nat)
    requires TrackersShaped(cfg, s) && EventOk(cfg, e) && Quiet(s) && Executed(cfg, s, e, r)
    requires h < |cfg.sched| && |r.trackers| == |cfg.sched| && i < |r.trackers[h].executable|
    requires Shaped(cfg.sched[h], r.trackers[h])
    requires r.trackers[h].executable[i].start < e.time
    ensures h == e.op.host && StartFrees(cfg, s, e, r.trackers[h].executable[i].node)
  {
    hide HitsZero, QueuesOk, UqPast, ClocksBounded, MarkStarted, Exact;
    var n := r.trackers[h].executable[i].node;
    var b := Begun(cfg, s, e);
    assert s.trackers[h].executable == [];
    assert FreedSince(b.trackers[h].executable, r.trackers[h].executable, e.time);
    assert i < |b.trackers[h].executable|;
    assert e.kind == Issue && h == e.op.host;
    StartFreed(cfg, s, e.op, n);
    assert b.trackers[h].executable[i].node == n;
  }

  lemma StartFreesAt0(cfg: Config, s: Sim, e: Event, r: Sim, n: nat) returns (i: nat)
    requires TrackersShaped(cfg, s) && EventOk(cfg, e) && Quiet(s) && Executed(cfg, s, e, r)
    requires n < |cfg.sched[e.op.host]| && StartFrees(cfg, s, e, n)
    ensures |r.trackers| == |cfg.sched| && i < |r.trackers[e.op.host].executable|
    ensures r.trackers[e.op.host].executable[i] == Freed(n, 0)
  {
    hide HitsZero, QueuesOk, UqPast, ClocksBounded, MarkStarted, Exact, Shaped;
    var h, b := e.op.host, Start(cfg, s, e.op);
    assert s.trackers[h].executable == [];
    StartFreed(cfg, s, e.op, n);
    i :| 0 <= i < |b.trackers[h].executable| && b.trackers[h].executable[i].node == n;
    assert FreedSince(b.trackers[h].executable, r.trackers[h].executable, e.time);
    assert b.trackers[h].executable[i] == r.trackers[h].executable[i];
  }

  // ---- and their items ----

  /** The item of the i-th freed node of a host. */
  function ItemOf(cfg: Config, s: Sim, h: nat, i: nat): Event
    requires TrackersShaped(cfg, s) && h < |cfg.sched| && i < |s.trackers[h].executable|
  {
    assert Shaped(cfg.sched[h], s.trackers[h]);
    var f := s.trackers[h].executable[i];
    Event(Issue, Op(h, f.node), Max(f.start, ClockOf(s, h, cfg.sched[h][f.node])))
  }

  lemma FlushItems(cfg: Config, s: Sim, h: nat)
    requires TrackersShaped(cfg, s) && h < |cfg.sched|
    ensures var r, ex := Flush(cfg, s, h), s.trackers[h].executable;
      && |r.aq| == |s.aq| + |ex| && s.aq <= r.aq
      && (forall i :: 0 <= i < |ex| ==> r.aq[|s.aq| + i] == ItemOf(cfg, s, h, i))
  {
    hide Shaped;
    var ex := s.trackers[h].executable;
    assert Shaped(cfg.sched[h], s.trackers[h]);
    FreedInRange(cfg, s, h);
    var events := FreedEvents(cfg, s, h, ex);
    assert Flush(cfg, s, h).aq == s.aq + events;
    forall i | 0 <= i < |ex| ensures events[i] == ItemOf(cfg, s, h, i) {
      assert events[i] == Event(Issue, Op(h, ex[i].node), FreedTime(cfg, s, Op(h, ex[i].node), ex[i].start));
    }
  }

  ghost predicate IsItem(cfg: Config, s: Sim, h: nat, e: Event)
    requires TrackersShaped(cfg, s)
  {
    h < |cfg.sched| && exists i :: 0 <= i < |s.trackers[h].executable| && e == ItemOf(cfg, s, h, i)
  }

  lemma FlushPushes(cfg: Config, s: Sim, h: nat)
    requires TrackersShaped(cfg, s)
    ensures var r := Flush(cfg, s, h);
      s.aq <= r.aq && forall j {:trigger r.aq[j]} :: |s.aq| <= j < |r.aq| ==> IsItem(cfg, s, h, r.aq[j])
  {
    hide Shaped, ItemOf;
    var r := Flush(cfg, s, h);
    if h < |cfg.sched| {
      FlushItems(cfg, s, h);
      forall j | |s.aq| <= j < |r.aq| ensures IsItem(cfg, s, h, r.aq[j]) {
        assert r.aq[j] == ItemOf(cfg, s, h, j - |s.aq|);
      }
    }
  }

  /** Flushing two hosts pushes the items of their freed nodes and nothing else. */
  lemma FlushBoth(cfg: Config, s: Sim, h: nat, p: nat)
    requires TrackersShaped(cfg, s) && h < |cfg.sched|
    ensures var r := Flush(cfg, Flush(cfg, s, h), p);
      && s.aq <= r.aq
      && (forall j {:trigger r.aq[j]} :: |s.aq| <= j < |r.aq| ==> IsItem(cfg, s, h, r.aq[j]) || IsItem(cfg, s, p, r.aq[j]))
      && (forall i {:trigger ItemOf(cfg, s, h, i)} :: 0 <= i < |s.trackers[h].executable| ==> ItemOf(cfg, s, h, i) in r.aq)
  {
    hide Shaped, ItemOf, IsItem;
    var s1 := Flush(cfg, s, h);
    var r := Flush(cfg, s1, p);
    FlushItems(cfg, s, h);
    FlushPushes(cfg, s, h);
    FlushPushes(cfg, s1, p);
    forall i | 0 <= i < |s.trackers[h].executable| ensures ItemOf(cfg, s, h, i) in r.aq {
      assert r.aq[|s.aq| + i] == s1.aq[|s.aq| + i];
    }
    forall j | |s.aq| <= j < |r.aq| ensures IsItem(cfg, s, h, r.aq[j]) || IsItem(cfg, s, p, r.aq[j]) {
      if j < |s1.aq| {
        assert r.aq[j] == s1.aq[j];
      } else {
        FlushedItem(cfg, s, h, p, r.aq[j]);
      }
    }
  }

  lemma FlushedItem(cfg: Config, s: Sim, h: nat, p: nat, x: Event)
    requires TrackersShaped(cfg, s) && h < |cfg.sched| && IsItem(cfg, Flush(cfg, s, h), p, x)
    ensures IsItem(cfg, s, p, x)
  {
    hide Shaped, ItemOf;
    if p != h {
      SameItems(cfg, s, Flush(cfg, s, h), p);
    }
  }

  lemma SameItems(cfg: Config, a: Sim, b: Sim, h: nat)
    requires TrackersShaped(cfg, a) && TrackersShaped(cfg, b) && h < |cfg.sched|
    requires b.trackers[h] == a.trackers[h] && SameWaiting(a, b)
    ensures forall i :: 0 <= i < |a.trackers[h].executable| ==> ItemOf(cfg, b, h, i) == ItemOf(cfg, a, h, i)
  {
    assert Shaped(cfg.sched[h], a.trackers[h]);
  }

  // ---- items in the past ----

  lemma EarlyItemGoesBack(cfg: Config, s: Sim, e: Event, noise: nat, h: nat, x: Event)
    requires Shape(cfg, s) && EventOk(cfg, e) && Quiet(s) && FreeAt(cfg, s, e) <= e.time
    requires IsItem(cfg, Run(cfg, s, e, noise), h, x) && x.time < e.time
    ensures GoesBack(cfg, s, e)
  {
    hide Shaped, QueuesOk, ValidConfig, Run, FreeAt, Quiet, Executed, HitsZero, ClockOf, Occupies;
    var r := Run(cfg, s, e, noise);
    RunExecuted(cfg, s, e, noise);
    var i :| 0 <= i < |r.trackers[h].executable| && x == ItemOf(cfg, r, h, i);
    assert Shaped(cfg.sched[h], r.trackers[h]);
    FreedInRange(cfg, r, h);
    var n := r.trackers[h].executable[i].node;
    FreedEarlyByStart(cfg, s, e, r, h, i);
    ClockAfter(cfg, s, e, noise, cfg.sched[h][n]);
    assert FreesEarly(cfg, s, e, n);
  }

  lemma GoesBackEarlyItem(cfg: Config, s: Sim, e: Event, noise: nat) returns (i: nat)
    requires Shape(cfg, s) && EventOk(cfg, e) && Quiet(s) && GoesBack(cfg, s, e)
    ensures var r := Run(cfg, s, e, noise);
      i < |r.trackers[e.op.host].executable| && ItemOf(cfg, r, e.op.host, i).time < e.time
  {
    hide Shaped, QueuesOk, ValidConfig, Run, FreeAt, Quiet, Executed, HitsZero, ClockOf, Occupies;
    var n: nat :| n < |cfg.sched[e.op.host]| && FreesEarly(cfg, s, e, n);
    RunExecuted(cfg, s, e, noise);
    i := StartFreesAt0(cfg, s, e, Run(cfg, s, e, noise), n);
    ClockAfter(cfg, s, e, noise, cfg.sched[e.op.host][n]);
  }

  /** After an iteration some queued item lies in the past if and only if the executed
      operation's start freed a node whose own resource had been idle. */
  lemma StepGoesBackIff(cfg: Config, s: Sim, i: nat, noise: nat)
    requires Shape(cfg, s) && Quiet(s) && Earliest(s, i)
    ensures EventOk(cfg, s.aq[i])
    ensures var r := Step(cfg, s, i, noise);
      r.now == s.aq[i].time &&
      ((exists j :: 0 <= j < |r.aq| && r.aq[j].time < r.now) <==> GoesBack(cfg, s, s.aq[i]))
  {
    hide Shape, Run, FreeAt, Flush, GoesBack, ItemOf, IsItem, Executed;
    PopShape(cfg, s, i);
    ShapeParts(cfg, s);
    StepShape(cfg, s, i, noise);
    var s0, e := Pop(s, i), s.aq[i];
    assert Quiet(s0);
    PopGoesBack(cfg, s, i);
    var m, h, p := Run(cfg, s0, e, noise), e.op.host, NodeOf(cfg, e.op).peer;
    var r := Step(cfg, s, i, noise);
    FlushBoth(cfg, m, h, p);
    NothingEarlier(cfg, s, i, noise);
    if j :| 0 <= j < |r.aq| && r.aq[j].time < e.time {
      if FreeAt(cfg, s0, e) > e.time {
        BusyPushesNothing(cfg, s0, e, noise, h, r.aq[j]);
        BusyPushesNothing(cfg, s0, e, noise, p, r.aq[j]);
      } else if IsItem(cfg, m, h, r.aq[j]) {
        EarlyItemGoesBack(cfg, s0, e, noise, h, r.aq[j]);
      } else {
        EarlyItemGoesBack(cfg, s0, e, noise, p, r.aq[j]);
      }
    }
    if GoesBack(cfg, s0, e) {
      var k := GoesBackEarlyItem(cfg, s0, e, noise);
      assert ItemOf(cfg, m, h, k) in r.aq;
    }
  }

  lemma PopGoesBack(cfg: Config, s: Sim, i: nat)
    requires Shape(cfg, s) && i < |s.aq|
    ensures Shape(cfg, Pop(s, i)) && EventOk(cfg, s.aq[i])
    ensures GoesBack(cfg, Pop(s, i), s.aq[i]) == GoesBack(cfg, s, s.aq[i])
  {
    hide Shape, FreeAt, ClockOf, HitsZero;
    PopShape(cfg, s, i);
    ShapeParts(cfg, s);
    ShapeParts(cfg, Pop(s, i));
    forall n: nat | EventOk(cfg, s.aq[i]) && n < |cfg.sched[s.aq[i].op.host]|
      ensures FreesEarly(cfg, Pop(s, i), s.aq[i], n) == FreesEarly(cfg, s, s.aq[i], n)
    {
      SameClockOf(s, Pop(s, i), s.aq[i].op.host, cfg.sched[s.aq[i].op.host][n]);
    }
  }

  lemma BusyPushesNothing(cfg: Config, s: Sim, e: Event, noise: nat, h: nat, x: Event)
    requires Shape(cfg, s) && EventOk(cfg, e) && Quiet(s) && FreeAt(cfg, s, e) > e.time
    ensures !IsItem(cfg, Run(cfg, s, e, noise), h, x)
  {
    hide Shaped, QueuesOk, ValidConfig, Run, FreeAt, ItemOf;
    BusyReinserts(cfg, s, e, noise);
    if h < |cfg.sched| {
      assert s.trackers[h].executable == [];
    }
  }

  /** Handling an earliest item pushes nothing into the past. */
  lemma NothingEarlier(cfg: Config, s: Sim, i: nat, noise: nat)
    requires Shape(cfg, s) && Earliest(s, i)
    ensures EventOk(cfg, s.aq[i]) && Shape(cfg, Pop(s, i))
    ensures var m := Run(cfg, Pop(s, i), s.aq[i], noise);
      forall j :: 0 <= j < |m.aq| ==> m.aq[j].time >= s.aq[i].time
  {
    hide Shape, Run, FreeAt, UqPast, ClocksBounded, QueuesOk, Follows;
    PopShape(cfg, s, i);
    ShapeParts(cfg, s);
    var s0, e := Pop(s, i), s.aq[i];
    forall j | 0 <= j < |s0.aq| ensures s0.aq[j].time >= e.time {
      assert s0.aq[j] == s.aq[if j < i then j else j + 1];
    }
    if FreeAt(cfg, s0, e) <= e.time {
      RunExecuted(cfg, s0, e, noise);
    } else {
      BusyReinserts(cfg, s0, e, noise);
    }
  }

  // ---- runs ----

  /** In any run of any schedule, the item popped after this iteration is earlier than this
      one's if and only if this iteration frees a node early. */
  lemma PoppedTimeDropsIff(cfg: Config, counts: seq<seq<nat>>, p: Sim, n: nat, i: nat, noise: nat, s: Sim, j: nat, next: nat, t: Sim)
    requires Loaded(cfg, counts) && ReachedIn(cfg, counts, p, n)
    requires IsStep(cfg, p, i, noise, s) && IsStep(cfg, s, j, next, t)
    ensures EventOk(cfg, p.aq[i])
    ensures t.now < s.now <==> GoesBack(cfg, p, p.aq[i])
  {
    hide Step, Shape, Quiet, GoesBack, EventOk, ReachedIn;
    ReachedShape(cfg, counts, p, n);
    StepGoesBackIff(cfg, p, i, noise);
    StepShape(cfg, s, j, next);
  }

  lemma NeverBack(cfg: Config, s: Sim, e: Event)
    requires RequiresOnly(cfg) && Shape(cfg, s) && EventOk(cfg, e)
    ensures !GoesBack(cfg, s, e)
  {
    hide Shaped, QueuesOk, ValidConfig, FreeAt, ClockOf, Occupies;
    assert NodeOf(cfg, e.op).startDependOnMe == [];
  }

  /** Without start dependencies nothing queued lies in the past, and no unexpected message
      in the future. */
  lemma {:induction false} ReachedInTime(cfg: Config, counts: seq<seq<nat>>, s: Sim, n: nat)
    requires Loaded(cfg, counts) && RequiresOnly(cfg) && ReachedIn(cfg, counts, s, n)
    ensures UqPast(s) && forall j :: 0 <= j < |s.aq| ==> s.now <= s.aq[j].time
    decreases n
  {
    hide Step, Shape, Quiet, GoesBack, RequiresOnly, EventOk, UqPast;
    if n == 0 {
      StartShape(cfg, counts);
    } else {
      var p, i: nat, noise: nat :| ReachedIn(cfg, counts, p, n - 1) && IsStep(cfg, p, i, noise, s);
      ReachedInTime(cfg, counts, p, n - 1);
      ReachedShape(cfg, counts, p, n - 1);
      StepGoesBackIff(cfg, p, i, noise);
      NeverBack(cfg, p, p.aq[i]);
      StepShape(cfg, p, i, noise);
    }
  }

  /** Popped times never decrease along a run without start dependencies, whatever the sizes. */
  lemma PoppedTimesMonotone(cfg: Config, counts: seq<seq<nat>>, p: Sim, n: nat, i: nat, noise: nat, s: Sim)
    requires Loaded(cfg, counts) && RequiresOnly(cfg)
    requires ReachedIn(cfg, counts, p, n) && IsStep(cfg, p, i, noise, s)
    ensures i < |p.aq| && s.now == p.aq[i].time && p.now <= s.now
    ensures forall j :: 0 <= j < |s.aq| ==> s.now <= s.aq[j].time
  {
    hide Step, Shape, Quiet, RequiresOnly, UqPast, ReachedIn;
    ReachedInTime(cfg, counts, p, n);
    StepShape(cfg, p, i, noise);
    ReachedNext(cfg, counts, p, n, i, noise, s);
    ReachedInTime(cfg, counts, s, n + 1);
  }

  /** A receive that finds its message in the unexpected queue comes no earlier than it did, and
      takes the one that has waited longest. */
  lemma UnexpectedNotLater(cfg: Config, counts: seq<seq<nat>>, s: Sim, n: nat, i: nat)
    requires Loaded(cfg, counts) && RequiresOnly(cfg) && ReachedIn(cfg, counts, s, n)
    requires Earliest(s, i) && s.aq[i].kind == Issue && IsKind(cfg, s.aq[i].op, Recv)
    requires Queue(s.uq, ChannelOf(cfg, s.aq[i].op)) != []
    ensures var q := Queue(s.uq, ChannelOf(cfg, s.aq[i].op));
      q[0].since <= s.aq[i].time && forall k :: 0 <= k < |q| ==> q[0].since <= q[k].since
  {
    hide RequiresOnly, ReachedIn;
    ReachedInTime(cfg, counts, s, n);
  }
}
