/** Where the promises of the event loop end, shown by runs: size classes that disagree, and
    start dependencies. */
module Limits {
  import opened Schedule
  import opened DependencyTracker
  import opened EventLoop
  import opened Accounting
  import opened Effects
  import opened ExactlyOnce
  import opened Termination
  import opened Runs
  import opened TimeOrder
  import SG = SerializedGraph

  // ---- size classes that disagree ----

  /** A receive that takes an unexpected message decides by its own size whether the send
      waits for it.  When this happens for the first time in a run, the send ends up completed
      exactly once if and only if both are on the same side of S; otherwise it is completed
      twice, or never. */
  lemma CompletedOnceIffAgreeing(cfg: Config, counts: seq<seq<nat>>, s: Sim, n: nat, i: nat, noise: nat, r: Sim)
    requires Loaded(cfg, counts) && AgreedIn(cfg, counts, s, n) && IsStep(cfg, s, i, noise, r)
    requires s.aq[i].kind == Issue && IsKind(cfg, s.aq[i].op, Recv)
    requires Queue(s.uq, ChannelOf(cfg, s.aq[i].op)) != []
    ensures ReachedIn(cfg, counts, r, n + 1)
    ensures var recv := s.aq[i].op; var send := Queue(s.uq, ChannelOf(cfg, recv))[0].op;
      && IsKind(cfg, send, Send) && send.host < |r.trackers|
      && Completions(r, send) == (if Eager(cfg, send) then 1 else 0) + (if Eager(cfg, recv) then 0 else 1)
      && (Completions(r, send) == 1 <==> Eager(cfg, send) == Eager(cfg, recv))
  {
    hide Inv, Step, Shape, AgreedIn, Quiet;
    AgreedReached(cfg, counts, s, n);
    AgreedInv(cfg, counts, s, n);
    ReachedNext(cfg, counts, s, n, i, noise, r);
    TakenSend(cfg, s, i, noise);
  }

  lemma TakenSend(cfg: Config, s: Sim, i: nat, noise: nat)
    requires Inv(cfg, s) && i < |s.aq| && s.aq[i].kind == Issue && IsKind(cfg, s.aq[i].op, Recv)
    requires Queue(s.uq, ChannelOf(cfg, s.aq[i].op)) != []
    ensures var recv := s.aq[i].op; var send := Queue(s.uq, ChannelOf(cfg, recv))[0].op;
      && IsKind(cfg, send, Send) && send.host < |Step(cfg, s, i, noise).trackers|
      && Completions(Step(cfg, s, i, noise), send) == (if Eager(cfg, send) then 1 else 0) + (if Eager(cfg, recv) then 0 else 1)
  {
    hide Exact, Shaped, QueuesOk, Exclusive, Paired, TakeUnexpected, Flush, Balanced, Ledger, Start, ValidConfig, Quiet;
    var s0, recv := Pop(s, i), s.aq[i].op;
    var ch := ChannelOf(cfg, recv);
    PopFresh(cfg, s, i);
    QueuedSend(cfg, s0, ch, FRESH, recv);
    var send := Queue(s.uq, ch)[0].op;
    SendCompletions(cfg, s0, send);
    var s1 := Start(cfg, s0, recv);
    StartKeeps(cfg, s0, recv);
    StartCounts(cfg, s0, recv, send);
    var s2 := PopUq(s1, ch);
    SameTrackers(cfg, s1, s2);
    TakeUnexpectedCompletes(cfg, s2, send, recv, s.aq[i].time);
    var r := Run(cfg, s0, s.aq[i], noise);
    assert Completions(r, send) == Completions(s2, send) + MeetingOf(send, recv, !Eager(cfg, recv))[send];
    FlushCounts(cfg, r, recv.host, send);
    FlushCounts(cfg, Flush(cfg, r, recv.host), NodeOf(cfg, recv).peer, send);
  }

  lemma FlushCounts(cfg: Config, s: Sim, host: nat, op: Op)
    requires TrackersShaped(cfg, s) && op.host < |cfg.sched|
    ensures Completions(Flush(cfg, s, host), op) == Completions(s, op)
  {
    hide Shaped;
  }

  lemma StartCounts(cfg: Config, s: Sim, p: Op, op: Op)
    requires TrackersShaped(cfg, s) && IsOp(cfg, p) && op.host < |cfg.sched|
    ensures Completions(Start(cfg, s, p), op) == Completions(s, op)
  {
    hide Shaped, MarkStarted;
  }

  lemma SendCompletions(cfg: Config, s: Sim, send: Op)
    requires TrackersShaped(cfg, s) && IsOp(cfg, send)
    ensures Completions(s, send) == Ledger(cfg, s, send).done
  {
  }

  /** Host 0 sends a bytes; host 1 receives b bytes after a calculation that takes longer than
      the message.  Messages are eager up to one byte. */
  function SizesConfig(a: nat, b: nat): Config {
    Config([[Node(Send, 1, a, 0, 0, 0, [], [])],
            [Node(Calc, 0, 10, 0, 0, 0, [1], []), Node(Recv, 0, b, 0, 0, 0, [], [])]],
           Params(1, 0, 0, 1, 0.0, 1))
  }

  const SIZES_COUNTS: seq<seq<nat>> := [[0], [0, 1]]

  lemma SizesLoaded(a: nat, b: nat)
    ensures Loaded(SizesConfig(a, b), SIZES_COUNTS)
  {
    var cfg, none: multiset<nat> := SizesConfig(a, b), multiset{};
    assert ValidConfig(cfg) by {
      assert forall h :: 0 <= h < 2 ==> WellFormed(cfg.sched[h]);
    }
    assert CountsInDegrees(cfg.sched[0], [0]) by {
      assert OpenUpTo(cfg.sched[0], none, none, 0, 0) == 0;
      assert OpenUpTo(cfg.sched[0], none, none, 0, 1) == 0;
    }
    assert CountsInDegrees(cfg.sched[1], [0, 1]) by {
      forall n: nat | n < 2 ensures InDegree(cfg.sched[1], n) == n {
        assert OpenUpTo(cfg.sched[1], none, none, n, 0) == 0;
        assert OpenUpTo(cfg.sched[1], none, none, n, 1) == n;
        assert OpenUpTo(cfg.sched[1], none, none, n, 2) == n;
      }
    }
  }

  const SENT := Op(0, 0)
  const DELAYING := Op(1, 0)
  const RECEIVED := Op(1, 1)
  const LINK := Channel(1, 0, 0)

  /** The items queued, the unexpected messages on the link, and the counters on host 1. */
  ghost predicate Between(s: Sim, aq: seq<Event>, uq: seq<Unexpected>, cnt: seq<nat>)
  {
    && s.aq == aq && Queue(s.uq, LINK) == uq && Queue(s.rq, LINK) == []
    && |s.trackers| == 2 && s.trackers[0].cnt == [0] && s.trackers[1].cnt == cnt
    && s.trackers[0].executable == s.trackers[1].executable == []
    && s.trackers[1].startTime == map[] && (|cnt| == 2 && cnt[1] == 1 ==> At(s.nexto, 1, 0) == 0)
  }

  lemma SizesStart(a: nat, b: nat)
    requires Loaded(SizesConfig(a, b), SIZES_COUNTS)
    ensures var s := Start0(SizesConfig(a, b), SIZES_COUNTS);
      && Between(s, [Event(Issue, SENT, 0), Event(Issue, DELAYING, 0)], [], [0, 1])
      && At(s.nexto, 0, 0) == At(s.nextgs, 0, 0) == 0
  {
    var cfg, counts := SizesConfig(a, b), SIZES_COUNTS;
    BootShaped(cfg, counts);
    var s := Boot(counts);
    assert SG.RootsUpTo(counts[0], 1) == [Freed(0, 0)] by {
      assert SG.RootsUpTo(counts[0], 0) == [];
    }
    assert SG.RootsUpTo(counts[1], 2) == [Freed(0, 0)] by {
      assert SG.RootsUpTo(counts[1], 0) == [] && SG.RootsUpTo(counts[1], 1) == [Freed(0, 0)];
    }
    var s1 := Flush(cfg, s, 0);
    assert s1.aq == [Event(Issue, SENT, 0)];
    var s2 := Flush(cfg, s1, 1);
    assert s2.aq == [Event(Issue, SENT, 0), Event(Issue, DELAYING, 0)];
    assert FlushUpTo(cfg, s, 0) == s && FlushUpTo(cfg, s, 1) == s1 && FlushUpTo(cfg, s, 2) == s2;
  }

  lemma CalcRuns(cfg: Config, s: Sim, e: Event, noise: nat)
    requires Shape(cfg, s) && e.kind == Issue && IsKind(cfg, e.op, Calc) && FreeAt(cfg, s, e) <= e.time
    ensures var r, n, h, nodes := Run(cfg, s, e, noise), NodeOf(cfg, e.op), e.op.host, cfg.sched[e.op.host];
      && r.aq == s.aq && r.rq == s.rq && r.uq == s.uq && r.nexto == s.nexto[(h, n.proc) := e.time + n.size + noise]
      && r.trackers == s.trackers[h := MarkDone(nodes, MarkStarted(nodes, s.trackers[h], e.op.off), e.op.off, e.time + n.size + noise)]
  {
    hide Shaped, QueuesOk, ValidConfig, MarkDone, MarkStarted;
  }

  /** Flushing a host that has freed one node. */
  lemma FlushOne(cfg: Config, s: Sim, h: nat, f: Freed)
    requires TrackersShaped(cfg, s) && h < |cfg.sched| && s.trackers[h].executable == [f]
    ensures f.node < |cfg.sched[h]|
    ensures var r := Flush(cfg, s, h);
      && r.aq == s.aq + [Event(Issue, Op(h, f.node), FreedTime(cfg, s, Op(h, f.node), f.start))]
      && r.trackers == s.trackers[h := Drain(s.trackers[h])]
      && r.rq == s.rq && r.uq == s.uq && r.nexto == s.nexto
  {
    assert Shaped(cfg.sched[h], s.trackers[h]);
    assert s.trackers[h].executable[0].node < |cfg.sched[h]|;
  }

  lemma SendRuns(a: nat, b: nat, s: Sim)
    requires Shape(SizesConfig(a, b), s) && Between(s, s.aq, [], [0, 1]) && At(s.nexto, 0, 0) == At(s.nextgs, 0, 0) == 0
    ensures var r := Run(SizesConfig(a, b), s, Event(Issue, SENT, 0), 0);
      Between(r, s.aq + [Event(Message, SENT, 2)], [], [0, 1])
  {
    hide Shaped, QueuesOk, Bandwidth, Start, Complete, SizeOf;
    var cfg, e, size := SizesConfig(a, b), Event(Issue, SENT, 0), SizeOf(SizesConfig(a, b), SENT);
    assert Bandwidth(cfg.par, size) == 0 by { FreeBandwidth(cfg.par, size); }
    StartKeeps(cfg, s, SENT);
    var s1 := Start(cfg, s, SENT);
    LoneSend(a, b, s, 1);
    var s3 := Insert(SetGs(SetO(s1, 0, 0, 1), 0, 0, 0), Event(Message, SENT, 2));
    SameTrackers(cfg, s1, s3);
    LoneSend(a, b, s3, 1);
    assert Run(cfg, s, e, 0) == RunSend(cfg, s, e, 0) == if size <= 1 then Complete(cfg, s3, SENT, 1) else s3;
  }

  lemma LoneSend(a: nat, b: nat, s: Sim, at: nat)
    requires TrackersShaped(SizesConfig(a, b), s)
    ensures var r, tr := Start(SizesConfig(a, b), s, SENT), s.trackers[0];
      r.trackers == s.trackers[0 := tr.(started := tr.started + multiset{0})]
    ensures var r, tr := Complete(SizesConfig(a, b), s, SENT, at), s.trackers[0];
      r == s.(trackers := s.trackers[0 := tr.(done := tr.done + multiset{0}, doneAt := tr.doneAt[0 := at])])
  {
    hide MarkStarted, MarkDone;
    assert Shaped(SizesConfig(a, b).sched[0], s.trackers[0]);
    LoneNode(SizesConfig(a, b).sched[0], s.trackers[0]);
  }

  lemma FreeBandwidth(par: Params, size: nat)
    requires par.G == 0.0 && size >= 1
    ensures Bandwidth(par, size) == 0
  {
    assert (size - 1) as real * 0.0 == 0.0;
  }

  /** A node on which nothing depends. */
  lemma LoneNode(nodes: seq<Node>, tr: Tracker)
    requires Shaped(nodes, tr) && |nodes| == 1 && nodes[0].dependOnMe == nodes[0].startDependOnMe == []
    ensures MarkStarted(nodes, tr, 0) == tr.(started := tr.started + multiset{0})
    ensures forall at: nat :: MarkDone(nodes, tr, 0, at) == tr.(done := tr.done + multiset{0}, doneAt := tr.doneAt[0 := at])
  {
  }

  lemma SizesFirst(a: nat, b: nat, s: Sim)
    requires Shape(SizesConfig(a, b), s) && Between(s, [Event(Issue, SENT, 0), Event(Issue, DELAYING, 0)], [], [0, 1])
    requires At(s.nexto, 0, 0) == At(s.nextgs, 0, 0) == 0
    ensures Between(Step(SizesConfig(a, b), s, 0, 0), [Event(Issue, DELAYING, 0), Event(Message, SENT, 2)], [], [0, 1])
  {
    hide Run, Flush, Shaped, QueuesOk, At;
    var cfg, s0 := SizesConfig(a, b), Pop(s, 0);
    PopShape(cfg, s, 0);
    assert s0.aq == [Event(Issue, DELAYING, 0)];
    SendRuns(a, b, s0);
    var m := Run(cfg, s0, s.aq[0], 0);
    QuietFlush(cfg, m, 0);
    QuietFlush(cfg, m, 1);
  }

  lemma SizesSecond(a: nat, b: nat, s: Sim)
    requires Shape(SizesConfig(a, b), s) && Between(s, [Event(Issue, DELAYING, 0), Event(Message, SENT, 2)], [], [0, 1])
    ensures Between(Step(SizesConfig(a, b), s, 0, 0), [Event(Message, SENT, 2), Event(Issue, RECEIVED, 10)], [], [0, 0])
  {
    hide Run, Flush, Shaped, QueuesOk, MarkStarted, MarkDone;
    var cfg, s0 := SizesConfig(a, b), Pop(s, 0);
    PopShape(cfg, s, 0);
    assert s0.aq == [Event(Message, SENT, 2)];
    CalcRuns(cfg, s0, s.aq[0], 0);
    DelayEnds(a, b, s.trackers[1]);
    var m := Run(cfg, s0, s.aq[0], 0);
    FlushOne(cfg, m, 1, Freed(1, 10));
    QuietFlush(cfg, Flush(cfg, m, 1), 0);
  }

  lemma DelayEnds(a: nat, b: nat, tr: Tracker)
    requires Shaped(SizesConfig(a, b).sched[1], tr) && tr.cnt == [0, 1] && tr.executable == [] && tr.startTime == map[]
    ensures var nodes := SizesConfig(a, b).sched[1];
      var r := MarkDone(nodes, MarkStarted(nodes, tr, 0), 0, 10);
      r.cnt == [0, 0] && r.executable == [Freed(1, 10)] && r.startTime == map[]
  {
    var t1 := MarkStarted(SizesConfig(a, b).sched[1], tr, 0);
    assert t1 == tr.(started := tr.started + multiset{0});
    var t2 := t1.(done := t1.done + multiset{0}, doneAt := t1.doneAt[0 := 10]);
    assert SatisfyAll(t2, [1], ByDone(10)) == SatisfyAll(SatisfyEdge(t2, 1, ByDone(10)), [], ByDone(10));
  }

  lemma SizesThird(a: nat, b: nat, s: Sim)
    requires Shape(SizesConfig(a, b), s) && Between(s, [Event(Message, SENT, 2), Event(Issue, RECEIVED, 10)], [], [0, 0])
    ensures Between(Step(SizesConfig(a, b), s, 0, 0), [Event(Issue, RECEIVED, 10)], [Unexpected(SENT, 2)], [0, 0])
  {
    hide Flush, Shaped, QueuesOk, At;
    var cfg, s0 := SizesConfig(a, b), Pop(s, 0);
    PopShape(cfg, s, 0);
    assert s0.aq == [Event(Issue, RECEIVED, 10)];
    var m := Run(cfg, s0, s.aq[0], 0);
    assert Queue(m.uq, LINK) == [Unexpected(SENT, 2)];
    QuietFlush(cfg, m, 0);
    QuietFlush(cfg, m, 1);
  }

  /** Operations on which nothing depends free nothing when they meet. */
  lemma MeetingFreesNothing(cfg: Config, s: Sim, send: Op, recv: Op, rendezvous: bool, proc: nat, nic: nat, cpuTime: nat, nicTime: nat)
    requires TrackersShaped(cfg, s) && Quiet(s) && IsOp(cfg, send) && IsOp(cfg, recv)
    requires NodeOf(cfg, send).dependOnMe == NodeOf(cfg, recv).dependOnMe == []
    ensures Quiet(Deliver(cfg, s, send, recv, rendezvous, proc, nic, cpuTime, nicTime))
  {
    hide Shaped, Raise;
    RaiseClocks(Complete(cfg, s, send, cpuTime), send.host, proc, nic, cpuTime, nicTime);
  }

  lemma SizesLast(a: nat, b: nat, s: Sim)
    requires Shape(SizesConfig(a, b), s) && Between(s, [Event(Issue, RECEIVED, 10)], [Unexpected(SENT, 2)], [0, 0])
    ensures Step(SizesConfig(a, b), s, 0, 0).aq == []
  {
    hide Flush, Shaped, QueuesOk, At, Deliver, ValidConfig;
    var cfg, s0, e := SizesConfig(a, b), Pop(s, 0), s.aq[0];
    PopShape(cfg, s, 0);
    assert s0.aq == [];
    var m := Run(cfg, s0, e, 0);
    RunExecuted(cfg, s0, e, 0);
    var s1 := Start(cfg, s0, RECEIVED);
    var s2 := PopUq(s1, LINK);
    assert Quiet(s2);
    SameTrackers(cfg, s1, s2);
    TakingFreesNothing(cfg, s2, SENT, RECEIVED, 10);
    assert m == TakeUnexpected(cfg, s2, SENT, RECEIVED, 10);
    QuietFlush(cfg, m, 1);
    QuietFlush(cfg, m, 0);
  }

  lemma TakingFreesNothing(cfg: Config, s: Sim, send: Op, recv: Op, time: nat)
    requires TrackersShaped(cfg, s) && Quiet(s) && IsOp(cfg, send) && IsOp(cfg, recv)
    requires NodeOf(cfg, send).dependOnMe == NodeOf(cfg, recv).dependOnMe == []
    ensures Quiet(TakeUnexpected(cfg, s, send, recv, time))
  {
    hide Shaped, At, Deliver;
    var n, p, size := NodeOf(cfg, recv), cfg.par, SizeOf(cfg, recv);
    var nicTime := Max(At(s.nextgs, recv.host, n.nic), time) + p.g;
    var cpuTime := nicTime + p.o + (size - 1) * p.O;
    var s1 := Occupy(s, recv.host, n.proc, n.nic, cpuTime, nicTime);
    MeetingFreesNothing(cfg, s1, send, recv, size > p.S, n.proc, n.nic, cpuTime, nicTime);
  }

  /** The message comes first and the receive takes it from the unexpected queue.  A message
      of at most S bytes taken by a larger receive is completed twice; in the mirrored case it
      is never completed, since nothing is left to do. */
  lemma TakenByOtherSize(a: nat, b: nat) returns (s: Sim)
    ensures var cfg := SizesConfig(a, b);
      && Loaded(cfg, SIZES_COUNTS) && ReachedIn(cfg, SIZES_COUNTS, s, 4) && s.aq == [] && |s.trackers| == 2
      && Completions(s, SENT) == (if a <= 1 then 1 else 0) + (if b <= 1 then 0 else 1)
  {
    hide *;
    SizesLoaded(a, b);
    var s0 := SizesBegun(a, b);
    var s1 := FirstStep(a, b, s0);
    var s2 := SecondStep(a, b, s1);
    var s3 := ThirdStep(a, b, s2);
    s := LastStep(a, b, s3);
  }

  lemma SizesBegun(a: nat, b: nat) returns (s: Sim)
    requires Loaded(SizesConfig(a, b), SIZES_COUNTS)
    ensures AgreedIn(SizesConfig(a, b), SIZES_COUNTS, s, 0) && At(s.nexto, 0, 0) == At(s.nextgs, 0, 0) == 0
    ensures Between(s, [Event(Issue, SENT, 0), Event(Issue, DELAYING, 0)], [], [0, 1])
  {
    s := Start0(SizesConfig(a, b), SIZES_COUNTS);
    SizesStart(a, b);
  }

  lemma FirstStep(a: nat, b: nat, s: Sim) returns (r: Sim)
    requires Loaded(SizesConfig(a, b), SIZES_COUNTS) && AgreedIn(SizesConfig(a, b), SIZES_COUNTS, s, 0)
    requires Between(s, [Event(Issue, SENT, 0), Event(Issue, DELAYING, 0)], [], [0, 1])
    requires At(s.nexto, 0, 0) == At(s.nextgs, 0, 0) == 0
    ensures AgreedIn(SizesConfig(a, b), SIZES_COUNTS, r, 1)
    ensures Between(r, [Event(Issue, DELAYING, 0), Event(Message, SENT, 2)], [], [0, 1])
  {
    hide Step, Shape, Between, SizesConfig, AgreedIn, Loaded, At;
    r := AgreedStep(a, b, s, 0, [Event(Issue, SENT, 0), Event(Issue, DELAYING, 0)], [], [0, 1]);
    SizesFirst(a, b, s);
  }

  lemma SecondStep(a: nat, b: nat, s: Sim) returns (r: Sim)
    requires Loaded(SizesConfig(a, b), SIZES_COUNTS) && AgreedIn(SizesConfig(a, b), SIZES_COUNTS, s, 1)
    requires Between(s, [Event(Issue, DELAYING, 0), Event(Message, SENT, 2)], [], [0, 1])
    ensures AgreedIn(SizesConfig(a, b), SIZES_COUNTS, r, 2)
    ensures Between(r, [Event(Message, SENT, 2), Event(Issue, RECEIVED, 10)], [], [0, 0])
  {
    hide Step, Shape, Between, SizesConfig, AgreedIn, Loaded;
    r := AgreedStep(a, b, s, 1, [Event(Issue, DELAYING, 0), Event(Message, SENT, 2)], [], [0, 1]);
    SizesSecond(a, b, s);
  }

  lemma ThirdStep(a: nat, b: nat, s: Sim) returns (r: Sim)
    requires Loaded(SizesConfig(a, b), SIZES_COUNTS) && AgreedIn(SizesConfig(a, b), SIZES_COUNTS, s, 2)
    requires Between(s, [Event(Message, SENT, 2), Event(Issue, RECEIVED, 10)], [], [0, 0])
    ensures AgreedIn(SizesConfig(a, b), SIZES_COUNTS, r, 3)
    ensures Between(r, [Event(Issue, RECEIVED, 10)], [Unexpected(SENT, 2)], [0, 0])
  {
    hide Step, Shape, Between, SizesConfig, AgreedIn, Loaded;
    r := AgreedStep(a, b, s, 2, [Event(Message, SENT, 2), Event(Issue, RECEIVED, 10)], [], [0, 0]);
    SizesThird(a, b, s);
  }

  lemma OnlyReceive(a: nat, b: nat, op: Op)
    requires IsOp(SizesConfig(a, b), op) && op != RECEIVED
    ensures NodeOf(SizesConfig(a, b), op).kind != Recv
  {
  }

  /** Popping the first item, if that is not the receive. */
  lemma AgreedStep(a: nat, b: nat, s: Sim, n: nat, aq: seq<Event>, uq: seq<Unexpected>, cnt: seq<nat>) returns (r: Sim)
    requires Loaded(SizesConfig(a, b), SIZES_COUNTS) && AgreedIn(SizesConfig(a, b), SIZES_COUNTS, s, n)
    requires Between(s, aq, uq, cnt) && aq != [] && aq[0].op != RECEIVED
    requires forall j :: 0 <= j < |aq| ==> aq[0].time <= aq[j].time
    ensures Shape(SizesConfig(a, b), s) && r == Step(SizesConfig(a, b), s, 0, 0)
    ensures AgreedIn(SizesConfig(a, b), SIZES_COUNTS, r, n + 1)
  {
    hide Step, Quiet, Shape, Loaded, SizesConfig, ReachedIn, FreeAt, At, Eager;
    var cfg, counts := SizesConfig(a, b), SIZES_COUNTS;
    AgreedReached(cfg, counts, s, n);
    ReachedShape(cfg, counts, s, n);
    PopShape(cfg, s, 0);
    assert NodeOf(cfg, aq[0].op).kind != Recv by { OnlyReceive(a, b, aq[0].op); }
    r := Step(cfg, s, 0, 0);
    assert IsAgreedStep(cfg, s, 0, 0, r);
  }

  lemma LastStep(a: nat, b: nat, s: Sim) returns (r: Sim)
    requires Loaded(SizesConfig(a, b), SIZES_COUNTS) && AgreedIn(SizesConfig(a, b), SIZES_COUNTS, s, 3)
    requires Between(s, [Event(Issue, RECEIVED, 10)], [Unexpected(SENT, 2)], [0, 0])
    ensures ReachedIn(SizesConfig(a, b), SIZES_COUNTS, r, 4) && r.aq == [] && |r.trackers| == 2
    ensures Completions(r, SENT) == (if a <= 1 then 1 else 0) + (if b <= 1 then 0 else 1)
  {
    var cfg, counts := SizesConfig(a, b), SIZES_COUNTS;
    hide Step, Shape, Quiet, AgreedIn, ReachedIn, Completions;
    AgreedReached(cfg, counts, s, 3);
    ReachedShape(cfg, counts, s, 3);
    r := Step(cfg, s, 0, 0);
    SizesLast(a, b, s);
    CompletedOnceIffAgreeing(cfg, counts, s, 3, 0, 0, r);
    StepShape(cfg, s, 0, 0);
    ShapeParts(cfg, r);
  }

  // ---- a run that goes back ----

  /** Calculation 1 requires calculation 0, and receive 2 the start of calculation 1. */
  function BackSchedule(size: nat): seq<Node> {
    [Node(Calc, 0, size, 0, 0, 0, [1], []), Node(Calc, 0, 0, 0, 0, 0, [], [2]), Node(Recv, 0, 1, 0, 0, 0, [], [])]
  }

  function BackConfig(size: nat): Config {
    Config([BackSchedule(size)], Params(0, 0, 0, 0, 0.0, 0))
  }

  lemma BackLoaded(size: nat)
    ensures Loaded(BackConfig(size), [[0, 1, 1]])
  {
    var nodes, none: multiset<nat> := BackSchedule(size), multiset{};
    assert ValidConfig(BackConfig(size)) by {
      assert forall p :: 0 <= p < |nodes| ==> InRange(nodes[p].dependOnMe, 3) && InRange(nodes[p].startDependOnMe, 3);
    }
    assert CountsInDegrees(nodes, [0, 1, 1]) by {
      forall n: nat | n < 3 ensures InDegree(nodes, n) == if n == 0 then 0 else 1 {
        assert OpenUpTo(nodes, none, none, n, 0) == 0;
        assert OpenUpTo(nodes, none, none, n, 1) == if n == 1 then 1 else 0;
        assert OpenUpTo(nodes, none, none, n, 2) == if n == 0 then 0 else 1;
        assert OpenUpTo(nodes, none, none, n, 3) == if n == 0 then 0 else 1;
      }
    }
  }

  /** One item e is queued, the counters are cnt, and the CPU is free at its time. */
  ghost predicate Single(s: Sim, e: Event, cnt: seq<nat>, free: nat)
  {
    && s.aq == [e] && s.rq == map[] && s.uq == map[] && At(s.nexto, 0, 0) == free
    && |s.trackers| == 1 && s.trackers[0].cnt == cnt
    && s.trackers[0].executable == [] && s.trackers[0].startTime == map[]
  }

  lemma BackStart(size: nat)
    requires Loaded(BackConfig(size), [[0, 1, 1]])
    ensures Single(Start0(BackConfig(size), [[0, 1, 1]]), Event(Issue, Op(0, 0), 0), [0, 1, 1], 0)
  {
    var cfg, counts := BackConfig(size), [[0, 1, 1]];
    BootShaped(cfg, counts);
    var b := Boot(counts);
    assert SG.RootsUpTo(counts[0], 3) == [Freed(0, 0)] by {
      assert SG.RootsUpTo(counts[0], 0) == [] && SG.RootsUpTo(counts[0], 1) == [Freed(0, 0)];
      assert SG.RootsUpTo(counts[0], 2) == [Freed(0, 0)];
    }
    assert FlushUpTo(cfg, b, 1) == Flush(cfg, b, 0);
  }

  lemma BackStarts(size: nat, tr: Tracker, p: nat)
    requires Shaped(BackSchedule(size), tr) && p < 2 && tr.executable == [] && tr.cnt[2] == 1
    ensures var r := MarkStarted(BackSchedule(size), tr, p);
      && r.startTime == tr.startTime
      && (p == 0 ==> r.cnt == tr.cnt && r.executable == [])
      && (p == 1 ==> r.cnt == tr.cnt[2 := 0] && r.executable == [Freed(2, 0)])
  {
    var tr1 := tr.(started := tr.started + multiset{p});
    if p == 1 {
      assert SatisfyAll(tr1, [2], ByStart) == SatisfyAll(SatisfyEdge(tr1, 2, ByStart), [], ByStart);
    }
  }

  lemma BackEnds(size: nat, tr: Tracker, p: nat)
    requires Shaped(BackSchedule(size), tr) && p < 2 && (p == 0 ==> tr.cnt[1] == 1) && tr.startTime == map[]
    ensures var r := MarkDone(BackSchedule(size), tr, p, size);
      && r.startTime == map[]
      && (p == 0 ==> r.cnt == tr.cnt[1 := 0] && r.executable == tr.executable + [Freed(1, size)])
      && (p == 1 ==> r.cnt == tr.cnt && r.executable == tr.executable)
  {
    var tr1 := tr.(done := tr.done + multiset{p}, doneAt := tr.doneAt[p := size]);
    if p == 0 {
      assert SatisfyAll(tr1, [1], ByDone(size)) == SatisfyAll(SatisfyEdge(tr1, 1, ByDone(size)), [], ByDone(size));
    }
  }

  lemma BackFirst(size: nat, s: Sim)
    requires Shape(BackConfig(size), s) && Single(s, Event(Issue, Op(0, 0), 0), [0, 1, 1], 0)
    ensures Single(Step(BackConfig(size), s, 0, 0), Event(Issue, Op(0, 1), size), [0, 0, 1], size)
  {
    hide Run, Flush, MarkStarted, MarkDone, Shaped;
    var cfg, s0 := BackConfig(size), Pop(s, 0);
    PopShape(cfg, s, 0);
    assert s0.aq == [];
    CalcRuns(cfg, s0, s.aq[0], 0);
    var t1 := MarkStarted(BackSchedule(size), s.trackers[0], 0);
    BackStarts(size, s.trackers[0], 0);
    BackEnds(size, t1, 0);
    var m := Run(cfg, s0, s.aq[0], 0);
    FlushOne(cfg, m, 0, Freed(1, size));
    QuietFlush(cfg, Flush(cfg, m, 0), 0);
  }

  lemma BackSecond(size: nat, s: Sim)
    requires Shape(BackConfig(size), s) && Single(s, Event(Issue, Op(0, 1), size), [0, 0, 1], size)
    ensures Single(Step(BackConfig(size), s, 0, 0), Event(Issue, Op(0, 2), 0), [0, 0, 0], size)
  {
    hide Run, Flush, MarkStarted, MarkDone, Shaped;
    var cfg, s0 := BackConfig(size), Pop(s, 0);
    PopShape(cfg, s, 0);
    assert s0.aq == [];
    CalcRuns(cfg, s0, s.aq[0], 0);
    var t1 := MarkStarted(BackSchedule(size), s.trackers[0], 1);
    BackStarts(size, s.trackers[0], 1);
    BackEnds(size, t1, 1);
    var m := Run(cfg, s0, s.aq[0], 0);
    FlushOne(cfg, m, 0, Freed(2, 0));
    QuietFlush(cfg, Flush(cfg, m, 0), 0);
  }

  lemma SingleStep(cfg: Config, counts: seq<seq<nat>>, s: Sim, n: nat, e: Event, cnt: seq<nat>, free: nat) returns (r: Sim)
    requires Loaded(cfg, counts) && ReachedIn(cfg, counts, s, n) && Single(s, e, cnt, free)
    ensures IsStep(cfg, s, 0, 0, r) && ReachedIn(cfg, counts, r, n + 1) && r.now == e.time
    ensures Shape(cfg, s) && r == Step(cfg, s, 0, 0)
  {
    hide Step, Shape, Quiet;
    ReachedShape(cfg, counts, s, n);
    r := Step(cfg, s, 0, 0);
    StepShape(cfg, s, 0, 0);
  }

  /** The run pops times 0, size and 0. */
  lemma RunGoesBack(size: nat) returns (p: Sim, s: Sim, t: Sim)
    requires size > 0
    ensures var cfg, counts := BackConfig(size), [[0, 1, 1]];
      && Loaded(cfg, counts) && ReachedIn(cfg, counts, p, 1)
      && IsStep(cfg, p, 0, 0, s) && IsStep(cfg, s, 0, 0, t)
      && p.now == 0 && s.now == size && t.now == 0
      && EventOk(cfg, p.aq[0]) && GoesBack(cfg, p, p.aq[0])
  {
    var cfg, counts := BackConfig(size), [[0, 1, 1]];
    hide Step, Shape, GoesBack, BackConfig, ReachedIn, Single;
    BackLoaded(size);
    BackStart(size);
    var s0 := Start0(cfg, counts);
    assert ReachedIn(cfg, counts, s0, 0) by { StartReached(cfg, counts); }
    p := SingleStep(cfg, counts, s0, 0, Event(Issue, Op(0, 0), 0), [0, 1, 1], 0);
    BackFirst(size, s0);
    s := SingleStep(cfg, counts, p, 1, Event(Issue, Op(0, 1), size), [0, 0, 1], size);
    BackSecond(size, p);
    t := SingleStep(cfg, counts, s, 2, Event(Issue, Op(0, 2), 0), [0, 0, 0], size);
    PoppedTimeDropsIff(cfg, counts, p, 1, 0, 0, s, 0, 0, t);
  }

  lemma StartReached(cfg: Config, counts: seq<seq<nat>>)
    requires Loaded(cfg, counts)
    ensures ReachedIn(cfg, counts, Start0(cfg, counts), 0)
  {
  }
}
