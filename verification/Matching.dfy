/** Messages and receives meet by tag, source and destination, in every run of every schedule. */
module Matching {
  import opened Schedule
  import opened DependencyTracker
  import opened EventLoop
  import opened Effects
  import opened ExactlyOnce
  import opened Runs

  /** Send a and receive b fit each other. */
  predicate Fit(cfg: Config, a: Op, b: Op) {
    && IsKind(cfg, a, Send) && IsKind(cfg, b, Recv)
    && NodeOf(cfg, a).tag == NodeOf(cfg, b).tag
    && NodeOf(cfg, a).peer == b.host
    && NodeOf(cfg, b).peer == a.host
  }

  /** Whatever has been matched fits. */
  ghost predicate MatesFit(cfg: Config, s: Sim)
  {
    forall op {:trigger s.mate[op]} :: op in s.mate ==> Fit(cfg, op, s.mate[op]) || Fit(cfg, s.mate[op], op)
  }

  /** States with the same queues and matches. */
  ghost predicate SameMatching(a: Sim, b: Sim) {
    b.rq == a.rq && b.uq == a.uq && b.mate == a.mate
  }

  ghost predicate WellMatched(cfg: Config, s: Sim) {
    MatesFit(cfg, s) && Exclusive(s)
  }

  lemma SameWellMatched(cfg: Config, a: Sim, b: Sim)
    requires WellMatched(cfg, a) && SameMatching(a, b)
    ensures WellMatched(cfg, b)
  {
    hide Fit;
  }

  lemma StartMatching(cfg: Config, s: Sim, op: Op)
    requires TrackersShaped(cfg, s) && IsOp(cfg, op)
    ensures SameMatching(s, Start(cfg, s, op))
  {
    hide Shaped, MarkStarted;
  }

  lemma CompleteMatching(cfg: Config, s: Sim, op: Op, at: nat)
    requires TrackersShaped(cfg, s) && IsOp(cfg, op)
    ensures SameMatching(s, Complete(cfg, s, op, at))
  {
    hide Shaped, MarkDone;
  }

  lemma DeliverMatching(cfg: Config, s: Sim, send: Op, recv: Op, rendezvous: bool, proc: nat, nic: nat, cpuTime: nat, nicTime: nat)
    requires TrackersShaped(cfg, s) && IsOp(cfg, send) && IsOp(cfg, recv)
    ensures SameMatching(Pair(s, send, recv), Deliver(cfg, s, send, recv, rendezvous, proc, nic, cpuTime, nicTime))
  {
    hide Shaped, Complete, Raise, TrackersShaped;
    var s0 := Complete(cfg, s, send, cpuTime);
    var s1 := if rendezvous then Raise(s0, send.host, proc, nic, cpuTime, nicTime) else s;
    CompleteMatching(cfg, s, send, cpuTime);
    RaiseClocks(s0, send.host, proc, nic, cpuTime, nicTime);
    SameTrackers(cfg, if rendezvous then s0 else s, Pair(s1, send, recv));
    CompleteMatching(cfg, Pair(s1, send, recv), recv, cpuTime);
  }

  lemma TakeUnexpectedMatching(cfg: Config, s: Sim, send: Op, recv: Op, time: nat)
    requires TrackersShaped(cfg, s) && IsOp(cfg, send) && IsOp(cfg, recv)
    ensures SameMatching(Pair(s, send, recv), TakeUnexpected(cfg, s, send, recv, time))
  {
    hide Shaped, Deliver, At;
    var n, p, size := NodeOf(cfg, recv), cfg.par, SizeOf(cfg, recv);
    var nicTime := Max(At(s.nextgs, recv.host, n.nic), time) + p.g;
    var cpuTime := nicTime + p.o + (size - 1) * p.O;
    var s1 := Occupy(s, recv.host, n.proc, n.nic, cpuTime, nicTime);
    DeliverMatching(cfg, s1, send, recv, size > p.S, n.proc, n.nic, cpuTime, nicTime);
  }

  lemma ReceiveMatching(cfg: Config, s: Sim, send: Op, recv: Op, time: nat, noise: nat)
    requires TrackersShaped(cfg, s) && IsOp(cfg, send) && IsOp(cfg, recv)
    ensures SameMatching(Pair(s, send, recv), Receive(cfg, s, send, recv, time, noise))
  {
    hide Shaped, Deliver, At;
    var n, p, size, host := NodeOf(cfg, send), cfg.par, SizeOf(cfg, send), ChannelOf(cfg, send).dst;
    var nicTime := Max(At(s.nextgr, host, n.nic), time) + p.g;
    var cpuTime := nicTime + p.o + noise + (size - 1) * p.O;
    var s1 := Occupy(s, host, NodeOf(cfg, recv).proc, n.nic, cpuTime, nicTime);
    DeliverMatching(cfg, s1, send, recv, size > p.S, n.proc, n.nic, cpuTime, nicTime);
  }

  lemma PairFits(cfg: Config, s: Sim, send: Op, recv: Op)
    requires MatesFit(cfg, s) && Fit(cfg, send, recv)
    ensures MatesFit(cfg, Pair(s, send, recv))
  {
    hide Fit;
  }

  /** The heads of the queues fit what they are looked up for. */
  lemma HeadsFit(cfg: Config, s: Sim, op: Op)
    requires QueuesOk(cfg, s) && IsOp(cfg, op)
    ensures IsKind(cfg, op, Recv) && Queue(s.uq, ChannelOf(cfg, op)) != [] ==> Fit(cfg, Queue(s.uq, ChannelOf(cfg, op))[0].op, op)
    ensures IsKind(cfg, op, Send) && Queue(s.rq, ChannelOf(cfg, op)) != [] ==> Fit(cfg, op, Queue(s.rq, ChannelOf(cfg, op))[0])
  {
    var ch := ChannelOf(cfg, op);
    if Queue(s.uq, ch) != [] {
      HeadOfUq(cfg, s, ch);
    }
    if Queue(s.rq, ch) != [] {
      HeadOfRq(cfg, s, ch);
    }
  }

  lemma RecvMatched(cfg: Config, s: Sim, e: Event)
    requires Shape(cfg, s) && WellMatched(cfg, s) && e.kind == Issue && IsKind(cfg, e.op, Recv)
    ensures WellMatched(cfg, RunRecv(cfg, s, e))
  {
    hide Shape, Shaped, Start, TakeUnexpected, MatesFit, Fit, ValidConfig, QueuesOk;
    ShapeParts(cfg, s);
    var ch, s1 := ChannelOf(cfg, e.op), Start(cfg, s, e.op);
    StartMatching(cfg, s, e.op);
    SameWellMatched(cfg, s, s1);
    if Queue(s.uq, ch) != [] {
      var send, s2 := Queue(s.uq, ch)[0].op, PopUq(s1, ch);
      HeadsFit(cfg, s, e.op);
      FitOps(cfg, send, e.op);
      assert MatesFit(cfg, s2) by { SameMates(cfg, s1, s2); }
      assert Exclusive(s2) by { PopExclusive(s1, ch); }
      SameTrackers(cfg, s1, s2);
      PairFits(cfg, s2, send, e.op);
      TakeUnexpectedMatching(cfg, s2, send, e.op, e.time);
      SameWellMatched(cfg, Pair(s2, send, e.op), RunRecv(cfg, s, e));
    } else {
      SameMates(cfg, s1, PushRq(cfg, s1, e.op));
    }
  }

  lemma FitOps(cfg: Config, a: Op, b: Op)
    requires Fit(cfg, a, b)
    ensures IsKind(cfg, a, Send) && IsKind(cfg, b, Recv)
  {
  }

  lemma SameMates(cfg: Config, a: Sim, b: Sim)
    requires MatesFit(cfg, a) && b.mate == a.mate
    ensures MatesFit(cfg, b)
  {
    hide Fit;
  }

  lemma PopExclusive(s: Sim, ch: Channel)
    requires Exclusive(s)
    ensures Queue(s.uq, ch) != [] ==> Exclusive(PopUq(s, ch))
    ensures Queue(s.rq, ch) != [] ==> Exclusive(PopRq(s, ch)) && Queue(s.uq, ch) == []
  {
  }

  lemma MsgMatched(cfg: Config, s: Sim, e: Event, noise: nat)
    requires Shape(cfg, s) && WellMatched(cfg, s) && e.kind == Message && EventOk(cfg, e)
    ensures WellMatched(cfg, RunMsg(cfg, s, e, noise))
  {
    hide Shape, Shaped, Receive, MatesFit, Fit, ValidConfig, QueuesOk, At;
    ShapeParts(cfg, s);
    var ch, r := ChannelOf(cfg, e.op), RunMsg(cfg, s, e, noise);
    if Queue(s.rq, ch) != [] {
      var recv, s1 := Queue(s.rq, ch)[0], PopRq(s, ch);
      HeadsFit(cfg, s, e.op);
      FitOps(cfg, e.op, recv);
      HeadOfRq(cfg, s, ch);
      SameMates(cfg, s, s1);
      PopExclusive(s, ch);
      SameTrackers(cfg, s, s1);
      if FreeAt(cfg, s, e) <= e.time {
        PairFits(cfg, s1, e.op, recv);
        ReceiveMatching(cfg, s1, e.op, recv, e.time, noise);
        SameWellMatched(cfg, Pair(s1, e.op, recv), r);
      } else {
        SameMates(cfg, s1, r);
      }
    } else {
      SameMates(cfg, s, r);
    }
  }

  lemma CalcMatched(cfg: Config, s: Sim, e: Event, noise: nat)
    requires Shape(cfg, s) && e.kind == Issue && IsKind(cfg, e.op, Calc)
    ensures SameMatching(s, RunCalc(cfg, s, e, noise))
  {
    hide Shaped, Start, Complete, QueuesOk, At, ValidConfig;
    var n := NodeOf(cfg, e.op);
    var cpuTime := e.time + n.size + noise;
    var s1 := SetO(s, e.op.host, n.proc, cpuTime);
    StartMatching(cfg, s1, e.op);
    CompleteMatching(cfg, Start(cfg, s1, e.op), e.op, cpuTime);
  }

  lemma SendMatched(cfg: Config, s: Sim, e: Event, noise: nat)
    requires Shape(cfg, s) && e.kind == Issue && IsKind(cfg, e.op, Send)
    ensures SameMatching(s, RunSend(cfg, s, e, noise))
  {
    hide Shape, Shaped, Start, Complete, QueuesOk, At, Bandwidth, SizeOf, ChannelOf, TrackersShaped;
    ShapeParts(cfg, s);
    var n, p, size := NodeOf(cfg, e.op), cfg.par, SizeOf(cfg, e.op);
    var cpuTime, bandwidth := e.time + p.o + noise + (size - 1) * p.O, Bandwidth(p, size);
    StartMatching(cfg, s, e.op);
    var s1 := Start(cfg, s, e.op);
    var s2 := SetGs(SetO(s1, e.op.host, n.proc, cpuTime), e.op.host, n.nic, e.time + p.g + bandwidth);
    var s3 := Insert(s2, Event(Message, e.op, cpuTime + p.L + bandwidth));
    SameTrackers(cfg, s1, s3);
    CompleteMatching(cfg, s3, e.op, cpuTime);
  }

  lemma RunMatched(cfg: Config, s: Sim, e: Event, noise: nat)
    requires Shape(cfg, s) && WellMatched(cfg, s) && EventOk(cfg, e)
    ensures WellMatched(cfg, Run(cfg, s, e, noise))
  {
    hide Shape, WellMatched, RunCalc, RunSend, RunRecv, RunMsg;
    ShapeParts(cfg, s);
    var r := Run(cfg, s, e, noise);
    if e.kind == Message {
      MsgMatched(cfg, s, e, noise);
    } else {
      match NodeOf(cfg, e.op).kind
      case Calc =>
        CalcMatched(cfg, s, e, noise);
        SameWellMatched(cfg, s, r);
      case Send =>
        SendMatched(cfg, s, e, noise);
        SameWellMatched(cfg, s, r);
      case Recv => RecvMatched(cfg, s, e);
    }
  }

  lemma FlushMatched(cfg: Config, s: Sim, host: nat)
    requires TrackersShaped(cfg, s) && WellMatched(cfg, s)
    ensures WellMatched(cfg, Flush(cfg, s, host))
  {
    hide TrackersShaped, WellMatched, Flush, SameMatching;
    FlushMatching(cfg, s, host);
    SameWellMatched(cfg, s, Flush(cfg, s, host));
  }

  lemma StepMatched(cfg: Config, s: Sim, i: nat, noise: nat)
    requires Shape(cfg, s) && WellMatched(cfg, s) && i < |s.aq|
    ensures WellMatched(cfg, Step(cfg, s, i, noise))
  {
    hide Shape, WellMatched, Run, Flush;
    PopShape(cfg, s, i);
    ShapeParts(cfg, s);
    var s0, e := Pop(s, i), s.aq[i];
    SameWellMatched(cfg, s, s0);
    RunMatched(cfg, s0, e, noise);
    FlushMatched(cfg, Run(cfg, s0, e, noise), e.op.host);
    FlushMatched(cfg, Flush(cfg, Run(cfg, s0, e, noise), e.op.host), NodeOf(cfg, e.op).peer);
  }

  lemma {:induction false} FlushUpToMatched(cfg: Config, s: Sim, k: nat)
    requires TrackersShaped(cfg, s) && WellMatched(cfg, s)
    ensures WellMatched(cfg, FlushUpTo(cfg, s, k))
  {
    hide TrackersShaped, WellMatched, Flush;
    if k > 0 {
      FlushUpToMatched(cfg, s, k - 1);
      FlushMatched(cfg, FlushUpTo(cfg, s, k - 1), k - 1);
    }
  }

  lemma {:induction false} ReachedMatched(cfg: Config, counts: seq<seq<nat>>, s: Sim, n: nat)
    requires Loaded(cfg, counts) && ReachedIn(cfg, counts, s, n)
    ensures WellMatched(cfg, s)
    decreases n
  {
    hide Shape, WellMatched, Step, Quiet, Boot, FlushUpTo;
    if n == 0 {
      BootShaped(cfg, counts);
      assert TrackersShaped(cfg, Boot(counts));
      BootMatched(cfg, counts);
      FlushUpToMatched(cfg, Boot(counts), |cfg.sched|);
    } else {
      var p, i: nat, noise: nat :| ReachedIn(cfg, counts, p, n - 1) && IsStep(cfg, p, i, noise, s);
      ReachedMatched(cfg, counts, p, n - 1);
      StepMatched(cfg, p, i, noise);
    }
  }

  lemma BootMatched(cfg: Config, counts: seq<seq<nat>>)
    requires Loaded(cfg, counts)
    ensures WellMatched(cfg, Boot(counts))
  {
  }

  // ---- what this means, without channels ----

  /** In every state of every run a matched pair consists of a send and a receive with the same
      tag, each on the other's peer. */
  lemma MatchedPairsFit(cfg: Config, counts: seq<seq<nat>>, s: Sim, n: nat, op: Op)
    requires Loaded(cfg, counts) && ReachedIn(cfg, counts, s, n) && op in s.mate
    ensures var a, b := if IsKind(cfg, op, Send) then op else s.mate[op], if IsKind(cfg, op, Send) then s.mate[op] else op;
      && IsKind(cfg, a, Send) && IsKind(cfg, b, Recv)
      && NodeOf(cfg, a).tag == NodeOf(cfg, b).tag && NodeOf(cfg, a).peer == b.host && NodeOf(cfg, b).peer == a.host
  {
    hide ReachedIn, Exclusive;
    ReachedMatched(cfg, counts, s, n);
  }

  /** What waits in one queue agrees in host, peer and tag. */
  lemma QueuesAgree(cfg: Config, counts: seq<seq<nat>>, s: Sim, n: nat, ch: Channel, i: nat, j: nat)
    requires Loaded(cfg, counts) && ReachedIn(cfg, counts, s, n)
    ensures i < |Queue(s.rq, ch)| && j < |Queue(s.rq, ch)| ==>
      var a, b := Queue(s.rq, ch)[i], Queue(s.rq, ch)[j];
      && IsKind(cfg, a, Recv) && IsKind(cfg, b, Recv)
      && a.host == b.host && NodeOf(cfg, a).peer == NodeOf(cfg, b).peer && NodeOf(cfg, a).tag == NodeOf(cfg, b).tag
    ensures i < |Queue(s.uq, ch)| && j < |Queue(s.uq, ch)| ==>
      var a, b := Queue(s.uq, ch)[i].op, Queue(s.uq, ch)[j].op;
      && IsKind(cfg, a, Send) && IsKind(cfg, b, Send)
      && a.host == b.host && NodeOf(cfg, a).peer == NodeOf(cfg, b).peer && NodeOf(cfg, a).tag == NodeOf(cfg, b).tag
  {
    hide ReachedIn, Quiet, ValidConfig, TrackersShaped, Step;
    ReachedShape(cfg, counts, s, n);
  }

  /** A message and a receive that fit are never both left waiting, in whatever queues. */
  lemma NeverBothWaiting(cfg: Config, counts: seq<seq<nat>>, s: Sim, n: nat, ca: Channel, i: nat, cb: Channel, j: nat)
    requires Loaded(cfg, counts) && ReachedIn(cfg, counts, s, n)
    requires i < |Queue(s.uq, ca)| && j < |Queue(s.rq, cb)|
    ensures !Fit(cfg, Queue(s.uq, ca)[i].op, Queue(s.rq, cb)[j])
  {
    hide ReachedIn, Quiet, ValidConfig, TrackersShaped, MatesFit, Step;
    ReachedMatched(cfg, counts, s, n);
    ReachedShape(cfg, counts, s, n);
    assert IsKind(cfg, Queue(s.uq, ca)[i].op, Send) && ChannelOf(cfg, Queue(s.uq, ca)[i].op) == ca;
    assert IsKind(cfg, Queue(s.rq, cb)[j], Recv) && ChannelOf(cfg, Queue(s.rq, cb)[j]) == cb;
  }

  // ---- first come, first served ----

  /** Only the queues of channel ch differ. */
  ghost predicate ElsewhereSame(a: Sim, b: Sim, ch: Channel) {
    forall c {:trigger Queue(b.rq, c)} {:trigger Queue(b.uq, c)} :: c != ch ==> Queue(b.rq, c) == Queue(a.rq, c) && Queue(b.uq, c) == Queue(a.uq, c)
  }

  /** What handling an item does to the queues and matches. */
  ghost predicate Queues(cfg: Config, s: Sim, r: Sim, e: Event)
    requires IsOp(cfg, e.op)
  {
    var ch := ChannelOf(cfg, e.op);
    var waiting, posted := Queue(s.uq, ch), Queue(s.rq, ch);
    && ElsewhereSame(s, r, ch)
    && (e.kind == Issue && NodeOf(cfg, e.op).kind == Recv ==>
          if waiting != [] then
            Queue(r.uq, ch) == waiting[1..] && Queue(r.rq, ch) == posted
            && r.mate == s.mate[waiting[0].op := e.op][e.op := waiting[0].op]
          else Queue(r.rq, ch) == posted + [e.op] && Queue(r.uq, ch) == waiting && r.mate == s.mate)
    && (e.kind == Message ==>
          if posted == [] then
            Queue(r.uq, ch) == waiting + [Unexpected(e.op, e.time)] && Queue(r.rq, ch) == posted && r.mate == s.mate
          else if FreeAt(cfg, s, e) <= e.time then
            Queue(r.rq, ch) == posted[1..] && Queue(r.uq, ch) == waiting
            && r.mate == s.mate[e.op := posted[0]][posted[0] := e.op]
          else Queue(r.rq, ch) == posted[1..] + [posted[0]] && Queue(r.uq, ch) == waiting && r.mate == s.mate)
    && (e.kind == Issue && NodeOf(cfg, e.op).kind != Recv ==> SameMatching(s, r))
  }

  lemma RecvQueues(cfg: Config, s: Sim, e: Event)
    requires Shape(cfg, s) && e.kind == Issue && IsKind(cfg, e.op, Recv)
    ensures Queues(cfg, s, RunRecv(cfg, s, e), e)
  {
    hide Shape, Shaped, Start, TakeUnexpected, ValidConfig, QueuesOk, TrackersShaped;
    ShapeParts(cfg, s);
    var ch, s1 := ChannelOf(cfg, e.op), Start(cfg, s, e.op);
    StartMatching(cfg, s, e.op);
    if Queue(s.uq, ch) != [] {
      HeadOfUq(cfg, s, ch);
      var s2 := PopUq(s1, ch);
      SameTrackers(cfg, s1, s2);
      TakeUnexpectedMatching(cfg, s2, Queue(s.uq, ch)[0].op, e.op, e.time);
    }
  }

  lemma MsgQueues(cfg: Config, s: Sim, e: Event, noise: nat)
    requires Shape(cfg, s) && e.kind == Message && EventOk(cfg, e)
    ensures Queues(cfg, s, RunMsg(cfg, s, e, noise), e)
  {
    hide Shape, RunMsg, FreeAt, ChannelOf, Queues;
    ShapeParts(cfg, s);
    if Queue(s.rq, ChannelOf(cfg, e.op)) == [] {
      MsgLeft(cfg, s, e, noise);
    } else if FreeAt(cfg, s, e) <= e.time {
      MsgMeets(cfg, s, e, noise);
    } else {
      MsgTurns(cfg, s, e, noise);
    }
  }

  lemma MsgLeft(cfg: Config, s: Sim, e: Event, noise: nat)
    requires Shape(cfg, s) && e.kind == Message && EventOk(cfg, e) && Queue(s.rq, ChannelOf(cfg, e.op)) == []
    ensures Queues(cfg, s, RunMsg(cfg, s, e, noise), e)
  {
    hide Shape, Shaped, Receive, ValidConfig, QueuesOk, TrackersShaped, FreeAt, ChannelOf;
    ShapeParts(cfg, s);
  }

  lemma MsgMeets(cfg: Config, s: Sim, e: Event, noise: nat)
    requires Shape(cfg, s) && e.kind == Message && EventOk(cfg, e) && FreeAt(cfg, s, e) <= e.time
    requires Queue(s.rq, ChannelOf(cfg, e.op)) != []
    ensures Queues(cfg, s, RunMsg(cfg, s, e, noise), e)
  {
    hide Shape, Shaped, Receive, ValidConfig, QueuesOk, TrackersShaped, At, ChannelOf;
    ShapeParts(cfg, s);
    var ch := ChannelOf(cfg, e.op);
    HeadOfRq(cfg, s, ch);
    var s1 := PopRq(s, ch);
    SameTrackers(cfg, s, s1);
    ReceiveMatching(cfg, s1, e.op, Queue(s.rq, ch)[0], e.time, noise);
  }

  lemma MsgTurns(cfg: Config, s: Sim, e: Event, noise: nat)
    requires Shape(cfg, s) && e.kind == Message && EventOk(cfg, e) && FreeAt(cfg, s, e) > e.time
    requires Queue(s.rq, ChannelOf(cfg, e.op)) != []
    ensures Queues(cfg, s, RunMsg(cfg, s, e, noise), e)
  {
    hide Shape, Shaped, Receive, ValidConfig, QueuesOk, TrackersShaped, At;
    ShapeParts(cfg, s);
    HeadOfRq(cfg, s, ChannelOf(cfg, e.op));
  }

  /** Along every run, messages and receives that wait are served in turn: whoever comes is put
      last, and the first is taken; when the host is busy the first receive is put last. */
  lemma ServedInTurn(cfg: Config, p: Sim, i: nat, noise: nat, s: Sim)
    requires IsStep(cfg, p, i, noise, s)
    ensures i < |p.aq| && IsOp(cfg, p.aq[i].op) && Queues(cfg, p, s, p.aq[i])
  {
    hide Shape, Run, Flush, Queues, FreeAt;
    PopShape(cfg, p, i);
    ShapeParts(cfg, Pop(p, i));
    var s0, e := Pop(p, i), p.aq[i];
    var m := Run(cfg, s0, e, noise);
    RunServes(cfg, s0, e, noise);
    FlushMatching(cfg, m, e.op.host);
    FlushMatching(cfg, Flush(cfg, m, e.op.host), NodeOf(cfg, e.op).peer);
    QueuesSame(cfg, s0, p, m, s, e);
  }

  lemma RunServes(cfg: Config, s: Sim, e: Event, noise: nat)
    requires Shape(cfg, s) && EventOk(cfg, e)
    ensures Queues(cfg, s, Run(cfg, s, e, noise), e)
  {
    hide Shape, RunCalc, RunSend, RunRecv, RunMsg, FreeAt, ChannelOf;
    ShapeParts(cfg, s);
    if e.kind == Message {
      MsgQueues(cfg, s, e, noise);
    } else {
      match NodeOf(cfg, e.op).kind
      case Calc => CalcMatched(cfg, s, e, noise);
      case Send => SendMatched(cfg, s, e, noise);
      case Recv => RecvQueues(cfg, s, e);
    }
  }

  lemma FlushMatching(cfg: Config, s: Sim, host: nat)
    requires TrackersShaped(cfg, s)
    ensures SameMatching(s, Flush(cfg, s, host))
  {
    hide TrackersShaped, FreedEvents, FreedTime, Drain;
  }

  lemma QueuesSame(cfg: Config, a: Sim, a1: Sim, b: Sim, b1: Sim, e: Event)
    requires IsOp(cfg, e.op) && Queues(cfg, a, b, e) && SameMatching(a, a1) && SameMatching(b, b1)
    requires FreeAt(cfg, a, e) == FreeAt(cfg, a1, e)
    ensures Queues(cfg, a1, b1, e)
  {
    hide FreeAt, ChannelOf;
  }
}
