/** What executing an operation costs, to the unit, told from recorded start and end times; and
    that the sends of a NIC keep their distance, in every run of every schedule. */
module ExactTimes {
  import opened Schedule
  import opened DependencyTracker
  import opened EventLoop
  import opened Effects
  import opened Runs
  import opened TimeOrder

  /** The bytes of a message; none count as one. */
  lemma SizeIs(cfg: Config, op: Op)
    requires IsOp(cfg, op)
    ensures NodeOf(cfg, op).size == 0 ==> SizeOf(cfg, op) == 1
    ensures NodeOf(cfg, op).size > 0 ==> SizeOf(cfg, op) == NodeOf(cfg, op).size
  {
  }

  /** The bandwidth cost is the whole part of what the bytes after the first cost. */
  lemma BandwidthIs(par: Params, size: nat)
    requires par.G >= 0.0 && size >= 1
    ensures Bandwidth(par, size) as real <= (size - 1) as real * par.G < Bandwidth(par, size) as real + 1.0
  {
  }

  /** How long a send keeps its NIC. */
  function NicTime(cfg: Config, op: Op): nat
    requires ValidConfig(cfg) && IsOp(cfg, op)
  {
    cfg.par.g + Bandwidth(cfg.par, SizeOf(cfg, op))
  }

  // ---- the sending clocks and the start times ----

  /** The sending side of no NIC becomes free earlier than it was to be. */
  ghost predicate Later(a: Sim, b: Sim) {
    forall h, k :: At(b.nextgs, h, k) >= At(a.nextgs, h, k)
  }

  lemma RaiseLater(s: Sim, host: nat, proc: nat, nic: nat, cpuTime: nat, nicTime: nat)
    ensures Later(s, Raise(s, host, proc, nic, cpuTime, nicTime))
  {
    forall h, k ensures At(Raise(s, host, proc, nic, cpuTime, nicTime).nextgs, h, k) >= At(s.nextgs, h, k) {
      hide At;
      AtSet(s.nextgs, host, nic, nicTime, h, k);
    }
  }

  /** Starting records the time, and nothing else does. */
  lemma StartRecords(cfg: Config, s: Sim, op: Op)
    requires TrackersShaped(cfg, s) && IsOp(cfg, op)
    ensures Start(cfg, s, op).startedAt == s.startedAt[op := s.now]
    ensures forall q: Op :: q.host < |s.trackers| ==> Start(cfg, s, op).trackers[q.host].doneAt == s.trackers[q.host].doneAt
  {
    hide Shaped;
  }

  /** Completing records the time, and nothing else does. */
  lemma CompleteRecords(cfg: Config, s: Sim, op: Op, at: nat)
    requires TrackersShaped(cfg, s) && IsOp(cfg, op)
    ensures var r := Complete(cfg, s, op, at);
      && r.startedAt == s.startedAt && SameClocks(s, r) && |r.trackers| == |s.trackers| == |cfg.sched|
      && op.off in r.trackers[op.host].doneAt && r.trackers[op.host].doneAt[op.off] == at
      && forall q: Op :: q.host < |s.trackers| && q != op ==>
           (q.off in r.trackers[q.host].doneAt <==> q.off in s.trackers[q.host].doneAt)
           && (q.off in s.trackers[q.host].doneAt ==> r.trackers[q.host].doneAt[q.off] == s.trackers[q.host].doneAt[q.off])
  {
    hide Shaped;
  }

  ghost predicate SameClocks(a: Sim, b: Sim) {
    b.nexto == a.nexto && b.nextgr == a.nextgr && b.nextgs == a.nextgs
  }

  /** Operation op has ended at time t, the last time it did. */
  ghost predicate Ended(s: Sim, op: Op, t: nat) {
    op.host < |s.trackers| && op.off in s.trackers[op.host].doneAt && s.trackers[op.host].doneAt[op.off] == t
  }

  /** A meeting ends the receive, and the send with it if that waits; the clocks of a waiting
      send's host are raised, and no others. */
  lemma DeliverEnds(cfg: Config, s: Sim, send: Op, recv: Op, rendezvous: bool, proc: nat, nic: nat, cpuTime: nat, nicTime: nat)
    requires TrackersShaped(cfg, s) && IsOp(cfg, send) && IsOp(cfg, recv) && send != recv
    ensures var r := Deliver(cfg, s, send, recv, rendezvous, proc, nic, cpuTime, nicTime);
      && Ended(r, recv, cpuTime) && (rendezvous ==> Ended(r, send, cpuTime))
      && r.startedAt == s.startedAt
      && SameClocks(if rendezvous then Raise(s, send.host, proc, nic, cpuTime, nicTime) else s, r)
      && Later(s, r)
  {
    hide Shaped, Complete, Raise, TrackersShaped, At;
    var s0 := Complete(cfg, s, send, cpuTime);
    CompleteRecords(cfg, s, send, cpuTime);
    var s1 := if rendezvous then Raise(s0, send.host, proc, nic, cpuTime, nicTime) else s;
    RaiseClocks(s0, send.host, proc, nic, cpuTime, nicTime);
    RaiseLater(s0, send.host, proc, nic, cpuTime, nicTime);
    RaiseSame(s, s0, send.host, proc, nic, cpuTime, nicTime);
    var s2 := Pair(s1, send, recv);
    SameTrackers(cfg, if rendezvous then s0 else s, s2);
    CompleteRecords(cfg, s2, recv, cpuTime);
  }

  lemma RaiseSame(a: Sim, b: Sim, host: nat, proc: nat, nic: nat, cpuTime: nat, nicTime: nat)
    requires SameClocks(a, b)
    ensures SameClocks(Raise(a, host, proc, nic, cpuTime, nicTime), Raise(b, host, proc, nic, cpuTime, nicTime))
  {
    hide Raise;
    RaiseIs(a, host, proc, nic, cpuTime, nicTime);
    RaiseIs(b, host, proc, nic, cpuTime, nicTime);
  }

  /** The CPU and the receiving side of the NIC, and nothing else. */
  lemma OccupyIs(s: Sim, host: nat, proc: nat, nic: nat, cpuTime: nat, nicTime: nat)
    ensures var r := Occupy(s, host, proc, nic, cpuTime, nicTime);
      r.nexto == s.nexto[(host, proc) := cpuTime] && r.nextgr == s.nextgr[(host, nic) := nicTime] && r.nextgs == s.nextgs
  {
  }

  /** Each of the two clocks is raised if it is behind. */
  lemma RaiseIs(s: Sim, host: nat, proc: nat, nic: nat, cpuTime: nat, nicTime: nat)
    ensures var r := Raise(s, host, proc, nic, cpuTime, nicTime);
      && r.nexto == (if At(s.nexto, host, proc) < cpuTime then s.nexto[(host, proc) := cpuTime] else s.nexto)
      && r.nextgs == (if At(s.nextgs, host, nic) < nicTime then s.nextgs[(host, nic) := nicTime] else s.nextgs)
      && r.nextgr == s.nextgr
  {
    hide At, Max, SetO, SetGs;
    var s1 := SetO(s, host, proc, cpuTime);
    SetIs(s, host, proc, cpuTime);
    SetIs(s, host, nic, nicTime);
    SetIs(s1, host, nic, nicTime);
  }

  lemma SetIs(s: Sim, host: nat, port: nat, t: nat)
    ensures var r := SetO(s, host, port, t);
      r.nexto == s.nexto[(host, port) := t] && r.nextgs == s.nextgs && r.nextgr == s.nextgr
    ensures var r := SetGs(s, host, port, t);
      r.nexto == s.nexto && r.nextgs == s.nextgs[(host, port) := t] && r.nextgr == s.nextgr
  {
  }

  /** A send and a receive have met in between: both have ended at time `end`, the send only if
      it waits for the receive; the host of the receive is busy until then, and a waiting send's
      host no earlier. */
  ghost predicate Met(a: Sim, b: Sim, send: Op, recv: Op, waits: bool, cpu: nat, proc: nat, nic: nat, end: nat, nicTime: nat)
  {
    var busy := Occupy(a, recv.host, cpu, nic, end, nicTime);
    && Ended(b, recv, end) && (waits ==> Ended(b, send, end))
    && b.startedAt == a.startedAt && Later(a, b)
    && SameClocks(if waits then Raise(busy, send.host, proc, nic, end, nicTime) else busy, b)
  }

  lemma MetSame(a: Sim, a1: Sim, b: Sim, b1: Sim, send: Op, recv: Op, waits: bool, cpu: nat, proc: nat, nic: nat, end: nat, nicTime: nat)
    requires Met(a, b, send, recv, waits, cpu, proc, nic, end, nicTime)
    requires SameClocks(a, a1) && a1.startedAt == a.startedAt && SameRecords(b, b1)
    ensures Met(a1, b1, send, recv, waits, cpu, proc, nic, end, nicTime)
  {
    hide Raise, At;
    var busy, busy1 := Occupy(a, recv.host, cpu, nic, end, nicTime), Occupy(a1, recv.host, cpu, nic, end, nicTime);
    RaiseSame(busy, busy1, send.host, proc, nic, end, nicTime);
    LaterClocks(a, a1, b, b1);
    SameEnded(b, b1, recv, end);
    SameEnded(b, b1, send, end);
  }

  lemma LaterClocks(a: Sim, a1: Sim, b: Sim, b1: Sim)
    requires Later(a, b) && SameClocks(a, a1) && SameClocks(b, b1)
    ensures Later(a1, b1)
  {
  }

  // ---- a receive that takes an unexpected message ----

  /** It goes on when its NIC's sending side is free (the code asks that one), and takes g, o and
      O for each of its own bytes but the first. */
  function TakenAt(cfg: Config, s: Sim, recv: Op, time: nat): nat
    requires IsOp(cfg, recv)
  {
    Max(At(s.nextgs, recv.host, NodeOf(cfg, recv).nic), time) + cfg.par.g
  }

  function TakenBy(cfg: Config, s: Sim, recv: Op, time: nat): nat
    requires IsOp(cfg, recv)
  {
    TakenAt(cfg, s, recv, time) + cfg.par.o + (SizeOf(cfg, recv) - 1) * cfg.par.O
  }

  lemma TakeUnexpectedEnds(cfg: Config, s: Sim, send: Op, recv: Op, time: nat)
    requires TrackersShaped(cfg, s) && IsOp(cfg, send) && IsOp(cfg, recv) && send != recv
    ensures var n := NodeOf(cfg, recv);
      Met(s, TakeUnexpected(cfg, s, send, recv, time), send, recv, !Eager(cfg, recv), n.proc, n.proc, n.nic,
          TakenBy(cfg, s, recv, time), TakenAt(cfg, s, recv, time))
  {
    hide Shaped, Deliver, Raise, At;
    var n := NodeOf(cfg, recv);
    var nicTime, end := TakenAt(cfg, s, recv, time), TakenBy(cfg, s, recv, time);
    var s1 := Occupy(s, recv.host, n.proc, n.nic, end, nicTime);
    DeliverEnds(cfg, s1, send, recv, !Eager(cfg, recv), n.proc, n.nic, end, nicTime);
  }

  // ---- a message that meets a posted receive ----

  lemma ReceiveEnds(cfg: Config, s: Sim, send: Op, recv: Op, time: nat, noise: nat)
    requires TrackersShaped(cfg, s) && IsOp(cfg, send) && IsKind(cfg, recv, Recv) && send != recv
    requires ChannelOf(cfg, send).dst == recv.host && At(s.nextgr, recv.host, NodeOf(cfg, send).nic) <= time
    ensures MessageMet(cfg, s, Receive(cfg, s, send, recv, time, noise), send, recv, time, noise)
  {
    hide Shaped, Deliver, Raise, At;
    var p, n, size, nicTime := cfg.par, NodeOf(cfg, send), SizeOf(cfg, send), time + cfg.par.g;
    var end := nicTime + p.o + noise + (size - 1) * p.O;
    var s1 := Occupy(s, recv.host, NodeOf(cfg, recv).proc, n.nic, end, nicTime);
    DeliverEnds(cfg, s1, send, recv, size > p.S, n.proc, n.nic, end, nicTime);
  }

  // ---- the four kinds of items ----

  lemma CalcExact(cfg: Config, s: Sim, e: Event, noise: nat)
    requires Shape(cfg, s) && e.kind == Issue && IsKind(cfg, e.op, Calc) && FreeAt(cfg, s, e) <= e.time
    ensures var r, n, h := RunCalc(cfg, s, e, noise), NodeOf(cfg, e.op), e.op.host;
      var end := e.time + n.size + noise;
      && r.startedAt == s.startedAt[e.op := s.now] && Ended(r, e.op, end)
      && r.nexto == s.nexto[(h, n.proc) := end] && r.nextgr == s.nextgr && r.nextgs == s.nextgs
  {
    hide Shape, Shaped, Start, Complete, TrackersShaped, At;
    ShapeParts(cfg, s);
    var n := NodeOf(cfg, e.op);
    var s1 := SetO(s, e.op.host, n.proc, e.time + n.size + noise);
    SameTrackers(cfg, s, s1);
    StartRecords(cfg, s1, e.op);
    StartKeeps(cfg, s1, e.op) by { SameQueues(cfg, s, s1); }
    CompleteRecords(cfg, Start(cfg, s1, e.op), e.op, e.time + n.size + noise);
  }

  /** A send that starts at time `time` ends, if eager, after o, its noise and O for each of its
      bytes but the first, and keeps the NIC for its NIC time; the message arrives L and the
      bandwidth cost later. */
  ghost predicate SentAt(cfg: Config, s: Sim, r: Sim, op: Op, time: nat, noise: nat)
    requires ValidConfig(cfg) && IsOp(cfg, op)
  {
    var end := time + cfg.par.o + noise + (SizeOf(cfg, op) - 1) * cfg.par.O;
    && r.startedAt == s.startedAt[op := s.now]
    && r.aq == s.aq + [Event(Message, op, end + cfg.par.L + Bandwidth(cfg.par, SizeOf(cfg, op)))]
    && (Eager(cfg, op) ==> Ended(r, op, end))
    && r.nexto == s.nexto[(op.host, NodeOf(cfg, op).proc) := end]
    && r.nextgs == s.nextgs[(op.host, NodeOf(cfg, op).nic) := time + NicTime(cfg, op)] && r.nextgr == s.nextgr
  }

  /** The state of a started send before its message is posted. */
  function Sending(cfg: Config, s: Sim, e: Event, noise: nat): Sim
    requires Shape(cfg, s) && IsOp(cfg, e.op)
  {
    var n, h, p := NodeOf(cfg, e.op), e.op.host, cfg.par;
    SetGs(SetO(Start(cfg, s, e.op), h, n.proc, e.time + p.o + noise + (SizeOf(cfg, e.op) - 1) * p.O), h, n.nic,
          e.time + p.g + Bandwidth(p, SizeOf(cfg, e.op)))
  }

  lemma SendUnfolds(cfg: Config, s: Sim, e: Event, noise: nat)
    requires Shape(cfg, s) && e.kind == Issue && IsKind(cfg, e.op, Send) && FreeAt(cfg, s, e) <= e.time
    ensures TrackersShaped(cfg, Sending(cfg, s, e, noise))
    ensures var s2, end := Sending(cfg, s, e, noise), e.time + cfg.par.o + noise + (SizeOf(cfg, e.op) - 1) * cfg.par.O;
      var s3 := Insert(s2, Event(Message, e.op, end + cfg.par.L + Bandwidth(cfg.par, SizeOf(cfg, e.op))));
      RunSend(cfg, s, e, noise) == if SizeOf(cfg, e.op) <= cfg.par.S then Complete(cfg, s3, e.op, end) else s3
  {
    ShapeParts(cfg, s);
    hide Shape, Shaped, Start, Complete, QueuesOk, ChannelOf, SizeOf, At, Bandwidth, ValidConfig, TrackersShaped, SetO, SetGs;
    hide Insert, EventOk;
    var n, p, size := NodeOf(cfg, e.op), cfg.par, SizeOf(cfg, e.op);
    SetBoth(cfg, Start(cfg, s, e.op), e.op.host, n.proc, n.nic, e.time + p.o + noise + (size - 1) * p.O, e.time + p.g + Bandwidth(p, size));
    SameTrackers(cfg, Start(cfg, s, e.op), Sending(cfg, s, e, noise));
  }

  lemma SendingIs(cfg: Config, s: Sim, e: Event, noise: nat)
    requires Shape(cfg, s) && IsOp(cfg, e.op)
    ensures var s2, n, h := Sending(cfg, s, e, noise), NodeOf(cfg, e.op), e.op.host;
      && s2.startedAt == s.startedAt[e.op := s.now] && s2.aq == s.aq && s2.nextgr == s.nextgr
      && s2.nexto == s.nexto[(h, n.proc) := e.time + cfg.par.o + noise + (SizeOf(cfg, e.op) - 1) * cfg.par.O]
      && s2.nextgs == s.nextgs[(h, n.nic) := e.time + NicTime(cfg, e.op)]
  {
    ShapeParts(cfg, s);
    hide Shape, Shaped, Start, QueuesOk, SizeOf, Bandwidth, ValidConfig, TrackersShaped, SetO, SetGs, IsOp;
    var n, p, size, h := NodeOf(cfg, e.op), cfg.par, SizeOf(cfg, e.op), e.op.host;
    StartRecords(cfg, s, e.op);
    StartKeeps(cfg, s, e.op);
    SetBoth(cfg, Start(cfg, s, e.op), h, n.proc, n.nic, e.time + p.o + noise + (size - 1) * p.O, e.time + p.g + Bandwidth(p, size));
  }

  lemma KindIsOp(cfg: Config, op: Op, kind: Kind)
    requires IsKind(cfg, op, kind)
    ensures IsOp(cfg, op) && NodeOf(cfg, op).kind == kind
  {
  }

  lemma SendExact(cfg: Config, s: Sim, e: Event, noise: nat)
    requires Shape(cfg, s) && e.kind == Issue && IsKind(cfg, e.op, Send) && FreeAt(cfg, s, e) <= e.time
    ensures SentAt(cfg, s, RunSend(cfg, s, e, noise), e.op, e.time, noise)
  {
    hide *;
    ShapeParts(cfg, s);
    KindIsOp(cfg, e.op, Send);
    SendUnfolds(cfg, s, e, noise);
    SendingIs(cfg, s, e, noise);
    Posted(cfg, s, Sending(cfg, s, e, noise), e.op, e.time, noise,
           e.time + cfg.par.o + noise + (SizeOf(cfg, e.op) - 1) * cfg.par.O);
  }

  lemma Posted(cfg: Config, s: Sim, s2: Sim, op: Op, time: nat, noise: nat, end: nat)
    requires ValidConfig(cfg) && TrackersShaped(cfg, s2) && IsOp(cfg, op) && cfg.par.G >= 0.0
    requires end == time + cfg.par.o + noise + (SizeOf(cfg, op) - 1) * cfg.par.O
    requires s2.startedAt == s.startedAt[op := s.now] && s2.aq == s.aq && s2.nextgr == s.nextgr
    requires s2.nexto == s.nexto[(op.host, NodeOf(cfg, op).proc) := end]
    requires s2.nextgs == s.nextgs[(op.host, NodeOf(cfg, op).nic) := time + NicTime(cfg, op)]
    ensures var s3 := Insert(s2, Event(Message, op, end + cfg.par.L + Bandwidth(cfg.par, SizeOf(cfg, op))));
      SentAt(cfg, s, if SizeOf(cfg, op) <= cfg.par.S then Complete(cfg, s3, op, end) else s3, op, time, noise)
  {
    hide Shaped, Complete, SizeOf, Bandwidth, ValidConfig, TrackersShaped;
    var s3 := Insert(s2, Event(Message, op, end + cfg.par.L + Bandwidth(cfg.par, SizeOf(cfg, op))));
    SameTrackers(cfg, s2, s3);
    CompleteRecords(cfg, s3, op, end);
    CompleteQueue(cfg, s3, op, end);
  }

  lemma SetBoth(cfg: Config, s: Sim, host: nat, proc: nat, nic: nat, cpuTime: nat, nicTime: nat)
    ensures var r := SetGs(SetO(s, host, proc, cpuTime), host, nic, nicTime);
      && r.nexto == s.nexto[(host, proc) := cpuTime] && r.nextgs == s.nextgs[(host, nic) := nicTime] && r.nextgr == s.nextgr
      && r.startedAt == s.startedAt && r.aq == s.aq && r.trackers == s.trackers
  {
  }

  lemma CompleteQueue(cfg: Config, s: Sim, op: Op, at: nat)
    requires TrackersShaped(cfg, s) && IsOp(cfg, op)
    ensures Complete(cfg, s, op, at).aq == s.aq
  {
    hide Shaped, MarkDone;
  }

  lemma RecvExact(cfg: Config, s: Sim, e: Event)
    requires Shape(cfg, s) && e.kind == Issue && IsKind(cfg, e.op, Recv)
    ensures var r, n, q := RunRecv(cfg, s, e), NodeOf(cfg, e.op), Queue(s.uq, ChannelOf(cfg, e.op));
      && r.startedAt == s.startedAt[e.op := s.now] && Later(s, r)
      && (q == [] ==> SameClocks(s, r))
      && (q != [] ==> Met(s.(startedAt := r.startedAt), r, q[0].op, e.op, !Eager(cfg, e.op), n.proc, n.proc, n.nic,
                          TakenBy(cfg, s, e.op, e.time), TakenAt(cfg, s, e.op, e.time)))
  {
    ShapeParts(cfg, s);
    hide Shape, Shaped, Start, TakeUnexpected, QueuesOk, ValidConfig, At, TrackersShaped, Met, TakenBy, TakenAt, Later;
    var ch, s1, r := ChannelOf(cfg, e.op), Start(cfg, s, e.op), RunRecv(cfg, s, e);
    StartRecords(cfg, s, e.op);
    StartKeeps(cfg, s, e.op);
    LaterSame(s, s);
    if Queue(s.uq, ch) != [] {
      HeadOfUq(cfg, s, ch);
      var send, s2, n := Queue(s.uq, ch)[0].op, PopUq(s1, ch), NodeOf(cfg, e.op);
      SameTrackers(cfg, s1, s2);
      TakeUnexpectedEnds(cfg, s2, send, e.op, e.time);
      TakenSame(cfg, s2, s, e.op, e.time);
      var end, nicTime := TakenBy(cfg, s, e.op, e.time), TakenAt(cfg, s, e.op, e.time);
      RecordsSame(r);
      MetSame(s2, s.(startedAt := s1.startedAt), r, r, send, e.op, !Eager(cfg, e.op), n.proc, n.proc, n.nic, end, nicTime);
      MetLater(s2, r, send, e.op, !Eager(cfg, e.op), n.proc, n.proc, n.nic, end, nicTime);
      LaterSame(s, s2);
      LaterTrans(s, s2, r);
    } else {
      LaterSame(s, r);
    }
  }

  lemma LaterSame(a: Sim, b: Sim)
    requires b.nextgs == a.nextgs
    ensures Later(a, b)
  {
  }

  lemma LaterTrans(a: Sim, b: Sim, c: Sim)
    requires Later(a, b) && Later(b, c)
    ensures Later(a, c)
  {
    forall h, k ensures At(c.nextgs, h, k) >= At(a.nextgs, h, k) {
      assert At(b.nextgs, h, k) >= At(a.nextgs, h, k);
    }
  }

  lemma MetLater(a: Sim, b: Sim, send: Op, recv: Op, waits: bool, cpu: nat, proc: nat, nic: nat, end: nat, nicTime: nat)
    requires Met(a, b, send, recv, waits, cpu, proc, nic, end, nicTime)
    ensures Later(a, b) && b.startedAt == a.startedAt
  {
  }

  lemma TakenSame(cfg: Config, a: Sim, b: Sim, recv: Op, time: nat)
    requires IsOp(cfg, recv) && a.nextgs == b.nextgs
    ensures TakenAt(cfg, a, recv, time) == TakenAt(cfg, b, recv, time) && TakenBy(cfg, a, recv, time) == TakenBy(cfg, b, recv, time)
  {
  }

  /** A message that goes on at time `time` to meet a posted receive takes g, o and O for each of
      its bytes but the first. */
  ghost predicate MessageMet(cfg: Config, s: Sim, r: Sim, send: Op, recv: Op, time: nat, noise: nat)
    requires IsOp(cfg, send) && IsOp(cfg, recv)
  {
    var n, p := NodeOf(cfg, send), cfg.par;
    Met(s, r, send, recv, !Eager(cfg, send), NodeOf(cfg, recv).proc, n.proc, n.nic,
        time + p.g + p.o + noise + (SizeOf(cfg, send) - 1) * p.O, time + p.g)
  }

  lemma MsgWaits(cfg: Config, s: Sim, e: Event, noise: nat)
    requires Shape(cfg, s) && e.kind == Message && EventOk(cfg, e) && Queue(s.rq, ChannelOf(cfg, e.op)) == []
    ensures var r := RunMsg(cfg, s, e, noise); r.startedAt == s.startedAt && SameClocks(s, r)
  {
    hide Shape, Shaped, Receive, QueuesOk, ValidConfig, At, TrackersShaped;
    ShapeParts(cfg, s);
  }

  lemma MsgReceives(cfg: Config, s: Sim, e: Event, noise: nat, recv: Op)
    requires Shape(cfg, s) && e.kind == Message && EventOk(cfg, e) && FreeAt(cfg, s, e) <= e.time
    requires Queue(s.rq, ChannelOf(cfg, e.op)) != [] && recv == Queue(s.rq, ChannelOf(cfg, e.op))[0]
    ensures IsKind(cfg, recv, Recv) && recv.host == ChannelOf(cfg, e.op).dst && recv != e.op
    ensures TrackersShaped(cfg, PopRq(s, ChannelOf(cfg, e.op)))
    ensures RunMsg(cfg, s, e, noise) == Receive(cfg, PopRq(s, ChannelOf(cfg, e.op)), e.op, recv, e.time, noise)
    ensures At(s.nextgr, recv.host, NodeOf(cfg, e.op).nic) <= e.time
  {
    ShapeParts(cfg, s);
    HeadOfRq(cfg, s, ChannelOf(cfg, e.op));
    SameTrackers(cfg, s, PopRq(s, ChannelOf(cfg, e.op)));
    hide Shape, Shaped, Receive, QueuesOk, ValidConfig, At, TrackersShaped, SizeOf, Insert, PushRq, PushUq, PopRq;
  }

  lemma MsgMeets(cfg: Config, s: Sim, e: Event, noise: nat)
    requires Shape(cfg, s) && e.kind == Message && EventOk(cfg, e) && FreeAt(cfg, s, e) <= e.time
    requires Queue(s.rq, ChannelOf(cfg, e.op)) != []
    ensures var recv := Queue(s.rq, ChannelOf(cfg, e.op))[0];
      IsOp(cfg, recv) && MessageMet(cfg, s, RunMsg(cfg, s, e, noise), e.op, recv, e.time, noise)
  {
    hide Shape, Shaped, Receive, RunMsg, FreeAt, QueuesOk, ValidConfig, At, TrackersShaped, MessageMet, PopRq, ChannelOf, Queue;
    var ch := ChannelOf(cfg, e.op);
    var recv, s1 := Queue(s.rq, ch)[0], PopRq(s, ch);
    MsgReceives(cfg, s, e, noise, recv);
    PopKeeps(s, ch);
    ReceiveEnds(cfg, s1, e.op, recv, e.time, noise);
    RecordsSame(RunMsg(cfg, s, e, noise));
    MessageMetTo(cfg, s1, s, RunMsg(cfg, s, e, noise), RunMsg(cfg, s, e, noise), e.op, recv, e.time, noise);
  }

  lemma PopKeeps(s: Sim, ch: Channel)
    requires Queue(s.rq, ch) != []
    ensures var r := PopRq(s, ch); SameClocks(s, r) && r.trackers == s.trackers && r.startedAt == s.startedAt
  {
  }

  // ---- iterations ----

  /** States with the same clocks and records. */
  ghost predicate SameRecords(a: Sim, b: Sim) {
    && b.startedAt == a.startedAt && SameClocks(a, b) && |b.trackers| == |a.trackers|
    && forall h {:trigger b.trackers[h]} :: 0 <= h < |a.trackers| ==> b.trackers[h].doneAt == a.trackers[h].doneAt
  }

  lemma RecordsSame(s: Sim)
    ensures SameRecords(s, s)
  {
  }

  lemma SameEnded(a: Sim, b: Sim, op: Op, t: nat)
    requires SameRecords(a, b)
    ensures Ended(a, op, t) == Ended(b, op, t)
  {
  }

  lemma FlushRecords(cfg: Config, s: Sim, host: nat)
    requires TrackersShaped(cfg, s)
    ensures SameRecords(s, Flush(cfg, s, host)) && s.aq <= Flush(cfg, s, host).aq
  {
    hide Shaped, FreedEvents;
  }

  /** Beyond handling its item an iteration changes no record and no clock. */
  lemma StepRecords(cfg: Config, s: Sim, i: nat, noise: nat)
    requires Shape(cfg, s) && i < |s.aq|
    ensures EventOk(cfg, s.aq[i]) && Shape(cfg, Pop(s, i))
    ensures var m, r := Run(cfg, Pop(s, i), s.aq[i], noise), Step(cfg, s, i, noise);
      SameRecords(m, r) && m.aq <= r.aq
  {
    hide Shape, Run, Flush;
    PopShape(cfg, s, i);
    ShapeParts(cfg, s);
    var e := s.aq[i];
    var m := Run(cfg, Pop(s, i), e, noise);
    FlushRecords(cfg, m, e.op.host);
    FlushRecords(cfg, Flush(cfg, m, e.op.host), NodeOf(cfg, e.op).peer);
  }

  lemma PopSame(s: Sim, i: nat)
    requires i < |s.aq|
    ensures var r := Pop(s, i);
      && SameClocks(s, r) && r.startedAt == s.startedAt && r.trackers == s.trackers && r.now == s.aq[i].time
      && r.rq == s.rq && r.uq == s.uq
  {
  }

  lemma RecordsClocks(a: Sim, b: Sim)
    requires SameRecords(a, b)
    ensures b.startedAt == a.startedAt && b.nexto == a.nexto && b.nextgr == a.nextgr && b.nextgs == a.nextgs
  {
  }

  lemma RunsAs(cfg: Config, s: Sim, e: Event, noise: nat)
    requires Shape(cfg, s) && EventOk(cfg, e)
    ensures ValidConfig(cfg) && TrackersShaped(cfg, s) && IsOp(cfg, e.op)
    ensures e.kind == Message ==> Run(cfg, s, e, noise) == RunMsg(cfg, s, e, noise)
    ensures e.kind == Issue && NodeOf(cfg, e.op).kind == Calc ==> Run(cfg, s, e, noise) == RunCalc(cfg, s, e, noise)
    ensures e.kind == Issue && NodeOf(cfg, e.op).kind == Send ==> Run(cfg, s, e, noise) == RunSend(cfg, s, e, noise)
    ensures e.kind == Issue && NodeOf(cfg, e.op).kind == Recv ==> Run(cfg, s, e, noise) == RunRecv(cfg, s, e)
  {
    ShapeParts(cfg, s);
    hide Shape, RunCalc, RunSend, RunRecv, RunMsg, ValidConfig, TrackersShaped;
  }

  /** The popped item and the state it is handled in. */
  lemma Popped(cfg: Config, p: Sim, i: nat, noise: nat, s: Sim)
    requires IsStep(cfg, p, i, noise, s)
    ensures i < |p.aq| && ValidConfig(cfg) && EventOk(cfg, p.aq[i]) && IsOp(cfg, p.aq[i].op) && Shape(cfg, Pop(p, i))
    ensures var s0 := Pop(p, i);
      && SameClocks(p, s0) && s0.startedAt == p.startedAt && s0.now == p.aq[i].time && s0.rq == p.rq && s0.uq == p.uq
      && FreeAt(cfg, s0, p.aq[i]) == FreeAt(cfg, p, p.aq[i])
      && SameRecords(Run(cfg, s0, p.aq[i], noise), s) && Run(cfg, s0, p.aq[i], noise).aq <= s.aq
  {
    hide Shape, Step, Run, FreeAt, SameRecords, EventOk;
    PopShape(cfg, p, i);
    PopSame(p, i);
    StepRecords(cfg, p, i, noise);
    RunsAs(cfg, Pop(p, i), p.aq[i], noise);
  }

  /** An executed calculation ends exactly its size and the noise after it has started, and keeps
      its CPU until then; no other clock moves. */
  ghost predicate Calculated(cfg: Config, p: Sim, s: Sim, op: Op, time: nat, noise: nat)
    requires IsOp(cfg, op)
  {
    var end := time + NodeOf(cfg, op).size + noise;
    && s.startedAt == p.startedAt[op := time] && Ended(s, op, end)
    && s.nexto == p.nexto[(op.host, NodeOf(cfg, op).proc) := end] && s.nextgr == p.nextgr && s.nextgs == p.nextgs
  }

  lemma CalculationTakes(cfg: Config, p: Sim, i: nat, noise: nat, s: Sim)
    requires IsStep(cfg, p, i, noise, s) && p.aq[i].kind == Issue && IsKind(cfg, p.aq[i].op, Calc)
    requires FreeAt(cfg, p, p.aq[i]) <= p.aq[i].time
    ensures Calculated(cfg, p, s, p.aq[i].op, p.aq[i].time, noise)
  {
    hide IsStep, Shape, Run, RunCalc, FreeAt, Ended, EventOk, ValidConfig, TrackersShaped;
    Popped(cfg, p, i, noise, s);
    var e, s0 := p.aq[i], Pop(p, i);
    RunsAs(cfg, s0, e, noise);
    CalcExact(cfg, s0, e, noise);
    SameEnded(Run(cfg, s0, e, noise), s, e.op, e.time + NodeOf(cfg, e.op).size + noise);
  }

  /** An executed send ends, if eager, exactly o, the noise and O for each byte but the first
      after it has started; its message is queued for L and the bandwidth cost later, and its NIC
      is busy for g and the bandwidth cost. */
  ghost predicate Sent(cfg: Config, p: Sim, s: Sim, op: Op, time: nat, noise: nat)
    requires IsOp(cfg, op) && ValidConfig(cfg)
  {
    var par, bytes, node := cfg.par, SizeOf(cfg, op), NodeOf(cfg, op);
    var end := time + par.o + noise + (bytes - 1) * par.O;
    && s.startedAt == p.startedAt[op := time]
    && Event(Message, op, end + par.L + Bandwidth(par, bytes)) in s.aq
    && (Eager(cfg, op) ==> Ended(s, op, end))
    && s.nexto == p.nexto[(op.host, node.proc) := end]
    && s.nextgs == p.nextgs[(op.host, node.nic) := time + par.g + Bandwidth(par, bytes)]
    && s.nextgr == p.nextgr
  }

  lemma SentFrom(cfg: Config, p: Sim, s0: Sim, m: Sim, s: Sim, op: Op, time: nat, noise: nat)
    requires IsOp(cfg, op) && ValidConfig(cfg) && SentAt(cfg, s0, m, op, time, noise)
    requires SameClocks(p, s0) && s0.startedAt == p.startedAt && s0.now == time && SameRecords(m, s) && m.aq <= s.aq
    ensures Sent(cfg, p, s, op, time, noise)
  {
    hide Ended, ValidConfig, Bandwidth, SizeOf;
    SameEnded(m, s, op, time + cfg.par.o + noise + (SizeOf(cfg, op) - 1) * cfg.par.O);
    assert m.aq[|s0.aq|] == s.aq[|s0.aq|];
  }

  lemma SendTakes(cfg: Config, p: Sim, i: nat, noise: nat, s: Sim)
    requires IsStep(cfg, p, i, noise, s) && p.aq[i].kind == Issue && IsKind(cfg, p.aq[i].op, Send)
    requires FreeAt(cfg, p, p.aq[i]) <= p.aq[i].time
    ensures ValidConfig(cfg) && Sent(cfg, p, s, p.aq[i].op, p.aq[i].time, noise)
  {
    hide IsStep, Shape, Run, RunSend, FreeAt, Ended, EventOk, ValidConfig, TrackersShaped, SentAt, Sent, SameRecords, SameClocks;
    Popped(cfg, p, i, noise, s);
    var e, s0 := p.aq[i], Pop(p, i);
    RunsAs(cfg, s0, e, noise);
    SendExact(cfg, s0, e, noise);
    SentFrom(cfg, p, s0, Run(cfg, s0, e, noise), s, e.op, e.time, noise);
  }

  /** A receive starts when its item is popped.  If its message waits, they meet at once. */
  lemma ReceiveTakes(cfg: Config, p: Sim, i: nat, noise: nat, s: Sim)
    requires IsStep(cfg, p, i, noise, s) && p.aq[i].kind == Issue && IsKind(cfg, p.aq[i].op, Recv)
    ensures var op, node, time, q := p.aq[i].op, NodeOf(cfg, p.aq[i].op), p.aq[i].time, Queue(p.uq, ChannelOf(cfg, p.aq[i].op));
      && s.startedAt == p.startedAt[op := time] && Later(p, s)
      && (q == [] ==> SameClocks(p, s))
      && (q != [] ==> Met(p.(startedAt := s.startedAt), s, q[0].op, op, !Eager(cfg, op), node.proc, node.proc, node.nic,
                          TakenBy(cfg, p, op, time), TakenAt(cfg, p, op, time)))
  {
    hide IsStep, Shape, Run, RunRecv, FreeAt, Ended, EventOk, ValidConfig, TrackersShaped, Met, TakenAt, TakenBy, SizeOf, Later, ChannelOf, Queue;
    Popped(cfg, p, i, noise, s);
    var e, s0, op := p.aq[i], Pop(p, i), p.aq[i].op;
    var m, node, q := Run(cfg, s0, e, noise), NodeOf(cfg, op), Queue(p.uq, ChannelOf(cfg, op));
    RunsAs(cfg, s0, e, noise);
    RecvExact(cfg, s0, e);
    LaterClocks(s0, p, m, s);
    if q != [] {
      TakenSame(cfg, s0, p, op, e.time);
      MetSame(s0.(startedAt := m.startedAt), p.(startedAt := s.startedAt), m, s, q[0].op, op, !Eager(cfg, op), node.proc, node.proc,
              node.nic, TakenBy(cfg, p, op, e.time), TakenAt(cfg, p, op, e.time));
    }
  }

  /** A message whose receive is posted, on a host with free CPU and NIC, meets it at the time of
      its item. */
  lemma MessageTakes(cfg: Config, p: Sim, i: nat, noise: nat, s: Sim)
    requires IsStep(cfg, p, i, noise, s) && p.aq[i].kind == Message && FreeAt(cfg, p, p.aq[i]) <= p.aq[i].time
    ensures IsOp(cfg, p.aq[i].op)
    ensures var op, q := p.aq[i].op, Queue(p.rq, ChannelOf(cfg, p.aq[i].op));
      && s.startedAt == p.startedAt && Later(p, s)
      && (q == [] ==> SameClocks(p, s))
      && (q != [] ==> IsOp(cfg, q[0]) && MessageMet(cfg, p, s, op, q[0], p.aq[i].time, noise))
  {
    hide IsStep, Shape, Run, RunMsg, FreeAt, Ended, EventOk, ValidConfig, TrackersShaped, MessageMet, SizeOf, Later, ChannelOf, Queue;
    Popped(cfg, p, i, noise, s);
    var e, s0, op := p.aq[i], Pop(p, i), p.aq[i].op;
    var m, q := Run(cfg, s0, e, noise), Queue(p.rq, ChannelOf(cfg, op));
    RunsAs(cfg, s0, e, noise);
    if q != [] {
      MsgMeets(cfg, s0, e, noise);
      MessageMetTo(cfg, s0, p, m, s, op, q[0], e.time, noise);
    } else {
      MsgWaits(cfg, s0, e, noise);
      LaterSame(p, s);
    }
  }

  lemma MessageMetTo(cfg: Config, a: Sim, a1: Sim, r: Sim, r1: Sim, send: Op, recv: Op, time: nat, noise: nat)
    requires IsOp(cfg, send) && IsOp(cfg, recv) && MessageMet(cfg, a, r, send, recv, time, noise)
    requires SameClocks(a, a1) && a1.startedAt == a.startedAt && SameRecords(r, r1)
    ensures MessageMet(cfg, a1, r1, send, recv, time, noise) && Later(a1, r1) && r1.startedAt == a1.startedAt
  {
    hide Met, SizeOf, Eager, Later;
    var n, p := NodeOf(cfg, send), cfg.par;
    var end := time + p.g + p.o + noise + (SizeOf(cfg, send) - 1) * p.O;
    MetSame(a, a1, r, r1, send, recv, !Eager(cfg, send), NodeOf(cfg, recv).proc, n.proc, n.nic, end, time + p.g);
    MetLater(a1, r1, send, recv, !Eager(cfg, send), NodeOf(cfg, recv).proc, n.proc, n.nic, end, time + p.g);
  }

  /** A busy resource moves no clock and starts nothing. */
  lemma BusyTakesNothing(cfg: Config, p: Sim, i: nat, noise: nat, s: Sim)
    requires IsStep(cfg, p, i, noise, s) && IsOp(cfg, p.aq[i].op) && FreeAt(cfg, p, p.aq[i]) > p.aq[i].time
    ensures s.startedAt == p.startedAt && SameClocks(p, s)
  {
    hide IsStep, Shape, Run, FreeAt, EventOk, ValidConfig, TrackersShaped;
    Popped(cfg, p, i, noise, s);
    BusyReinserts(cfg, Pop(p, i), p.aq[i], noise);
    BusyStartsNothing(cfg, Pop(p, i), p.aq[i], noise);
  }

  lemma BusyStartsNothing(cfg: Config, s: Sim, e: Event, noise: nat)
    requires Shape(cfg, s) && EventOk(cfg, e) && FreeAt(cfg, s, e) > e.time
    ensures Run(cfg, s, e, noise).startedAt == s.startedAt
  {
    hide TrackersShaped, ValidConfig;
    if e.kind == Message && Queue(s.rq, ChannelOf(cfg, e.op)) != [] {
      HeadOfRq(cfg, s, ChannelOf(cfg, e.op));
    }
  }

  // ---- the sends of a NIC ----

  ghost predicate IsSent(cfg: Config, s: Sim, a: Op) {
    IsKind(cfg, a, Send) && a in s.startedAt
  }

  /** Two sends share the sending side of a NIC. */
  predicate ShareNic(cfg: Config, a: Op, b: Op)
    requires IsOp(cfg, a) && IsOp(cfg, b)
  {
    a.host == b.host && NodeOf(cfg, a).nic == NodeOf(cfg, b).nic
  }

  /** Every NIC is kept by each of its sends for the send's whole NIC time. */
  ghost predicate NicKept(cfg: Config, s: Sim)
    requires ValidConfig(cfg)
  {
    forall a {:trigger IsSent(cfg, s, a)} :: IsSent(cfg, s, a) ==>
      At(s.nextgs, a.host, NodeOf(cfg, a).nic) >= s.startedAt[a] + NicTime(cfg, a)
  }

  /** Of two sends of one NIC one starts after the other's NIC time is over. */
  ghost predicate SendsApart(cfg: Config, s: Sim)
    requires ValidConfig(cfg)
  {
    forall a, b {:trigger IsSent(cfg, s, a), IsSent(cfg, s, b)} ::
      IsSent(cfg, s, a) && IsSent(cfg, s, b) && a != b && ShareNic(cfg, a, b) ==>
        s.startedAt[a] + NicTime(cfg, a) <= s.startedAt[b] || s.startedAt[b] + NicTime(cfg, b) <= s.startedAt[a]
  }

  /** What an iteration does to the sending clocks and the recorded starts. */
  lemma StepStarts(cfg: Config, p: Sim, i: nat, noise: nat, s: Sim)
    requires IsStep(cfg, p, i, noise, s)
    ensures ValidConfig(cfg) && i < |p.aq| && IsOp(cfg, p.aq[i].op)
    ensures Later(p, s)
    ensures var op, time := p.aq[i].op, p.aq[i].time;
      && (s.startedAt == p.startedAt || (p.aq[i].kind == Issue && s.startedAt == p.startedAt[op := time]))
      && (IsKind(cfg, op, Send) && s.startedAt != p.startedAt ==>
            && At(p.nextgs, op.host, NodeOf(cfg, op).nic) <= time
            && At(s.nextgs, op.host, NodeOf(cfg, op).nic) == time + NicTime(cfg, op))
  {
    hide IsStep, Shape, Later, At, ValidConfig, NicTime, SizeOf, Ended, SameRecords, Run, Met, MessageMet, ChannelOf, Queue, FreeAt;
    Popped(cfg, p, i, noise, s);
    var e := p.aq[i];
    if FreeAt(cfg, p, e) > e.time {
      BusyTakesNothing(cfg, p, i, noise, s);
      LaterSame(p, s);
    } else if e.kind == Message {
      MessageTakes(cfg, p, i, noise, s);
    } else {
      match NodeOf(cfg, e.op).kind
      case Calc =>
        CalculationTakes(cfg, p, i, noise, s);
        LaterSame(p, s);
      case Send =>
        SendTakes(cfg, p, i, noise, s);
        SendKeepsNic(cfg, p, s, e, noise);
      case Recv => ReceiveTakes(cfg, p, i, noise, s);
    }
  }

  lemma SendKeepsNic(cfg: Config, p: Sim, s: Sim, e: Event, noise: nat)
    requires ValidConfig(cfg) && e.kind == Issue && IsKind(cfg, e.op, Send) && FreeAt(cfg, p, e) <= e.time
    requires Sent(cfg, p, s, e.op, e.time, noise)
    ensures Later(p, s) && s.startedAt == p.startedAt[e.op := e.time]
    ensures At(p.nextgs, e.op.host, NodeOf(cfg, e.op).nic) <= e.time
    ensures At(s.nextgs, e.op.host, NodeOf(cfg, e.op).nic) == e.time + NicTime(cfg, e.op)
  {
    hide ValidConfig, Bandwidth, SizeOf, Ended, At;
    var h, k, t := e.op.host, NodeOf(cfg, e.op).nic, e.time + NicTime(cfg, e.op);
    AtSet(p.nextgs, h, k, t, h, k);
    forall host, port ensures At(s.nextgs, host, port) >= At(p.nextgs, host, port) {
      AtSet(p.nextgs, h, k, t, host, port);
    }
  }

  lemma StepKeepsApart(cfg: Config, p: Sim, i: nat, noise: nat, s: Sim)
    requires IsStep(cfg, p, i, noise, s) && ValidConfig(cfg) && NicKept(cfg, p) && SendsApart(cfg, p)
    ensures NicKept(cfg, s) && SendsApart(cfg, s)
  {
    hide IsStep, ValidConfig, At, NicTime;
    StepStarts(cfg, p, i, noise, s);
    forall a | IsSent(cfg, s, a)
      ensures At(s.nextgs, a.host, NodeOf(cfg, a).nic) >= s.startedAt[a] + NicTime(cfg, a)
    {
      assert At(s.nextgs, a.host, NodeOf(cfg, a).nic) >= At(p.nextgs, a.host, NodeOf(cfg, a).nic);
      if s.startedAt == p.startedAt || a != p.aq[i].op {
        assert IsSent(cfg, p, a);
      }
    }
    forall a, b | IsSent(cfg, s, a) && IsSent(cfg, s, b) && a != b && ShareNic(cfg, a, b)
      ensures s.startedAt[a] + NicTime(cfg, a) <= s.startedAt[b] || s.startedAt[b] + NicTime(cfg, b) <= s.startedAt[a]
    {
      var op := p.aq[i].op;
      if s.startedAt != p.startedAt && (a == op || b == op) {
        var other := if a == op then b else a;
        assert IsSent(cfg, p, other);
        assert At(p.nextgs, other.host, NodeOf(cfg, other).nic) >= p.startedAt[other] + NicTime(cfg, other);
      } else {
        assert IsSent(cfg, p, a) && IsSent(cfg, p, b);
      }
    }
  }

  /** In every run of every schedule: when a send has started, no other send of its NIC starts
      before g and the bandwidth cost of its message have passed, and its clock says so. */
  lemma {:induction false} SendsStayApart(cfg: Config, counts: seq<seq<nat>>, s: Sim, n: nat)
    requires Loaded(cfg, counts) && ReachedIn(cfg, counts, s, n)
    ensures NicKept(cfg, s) && SendsApart(cfg, s)
    decreases n
  {
    hide IsStep, NicKept, SendsApart, Boot, FlushUpTo, ValidConfig, TrackersShaped;
    if n == 0 {
      NothingSent(cfg, counts);
    } else {
      var p, i: nat, noise: nat :| ReachedIn(cfg, counts, p, n - 1) && IsStep(cfg, p, i, noise, s);
      SendsStayApart(cfg, counts, p, n - 1);
      StepKeepsApart(cfg, p, i, noise, s);
    }
  }

  lemma NothingSent(cfg: Config, counts: seq<seq<nat>>)
    requires Loaded(cfg, counts)
    ensures NicKept(cfg, Start0(cfg, counts)) && SendsApart(cfg, Start0(cfg, counts))
  {
    hide Shaped, ValidConfig, FlushUpTo;
    BootShaped(cfg, counts);
    FlushUpToRecords(cfg, Boot(counts), |cfg.sched|);
    assert Start0(cfg, counts).startedAt == map[];
  }

  lemma {:induction false} FlushUpToRecords(cfg: Config, s: Sim, k: nat)
    requires TrackersShaped(cfg, s)
    ensures FlushUpTo(cfg, s, k).startedAt == s.startedAt
  {
    hide TrackersShaped, Flush;
    if k > 0 {
      FlushUpToRecords(cfg, s, k - 1);
      FlushRecords(cfg, FlushUpTo(cfg, s, k - 1), k - 1);
    }
  }
}
