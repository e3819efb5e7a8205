/** Every operation is started and completed at most once, no message and no receive is
    lost, and the two matching queues of a channel are never both in use. */
module ExactlyOnce {
  import opened Schedule
  import opened DependencyTracker
  import opened EventLoop
  import opened Accounting
  import opened Effects

  /** All sends and receives of a channel are on the same side of S. */
  ghost predicate Agreeing(cfg: Config)
  {
    forall send, recv {:trigger IsKind(cfg, send, Send), IsKind(cfg, recv, Recv)} ::
      IsKind(cfg, send, Send) && IsKind(cfg, recv, Recv) && ChannelOf(cfg, send) == ChannelOf(cfg, recv)
      ==> Eager(cfg, send) == Eager(cfg, recv)
  }

  /** Item e is not a receive about to take an unexpected message from the other side of S. */
  predicate TakesAgreeing(cfg: Config, s: Sim, e: Event)
    requires IsOp(cfg, e.op)
  {
    var q := Queue(s.uq, ChannelOf(cfg, e.op));
    e.kind == Issue && NodeOf(cfg, e.op).kind == Recv && q != [] && IsOp(cfg, q[0].op)
    ==> Eager(cfg, q[0].op) == Eager(cfg, e.op)
  }

  /** The books of one operation: handed out once before it is started, then in exactly one
      place until it is matched; completed with its start (calculations, eager sends) or
      with its match. */
  ghost predicate Balanced(cfg: Config, op: Op, l: Entry)
    requires IsOp(cfg, op)
  {
    && l.handed == l.started
    && match NodeOf(cfg, op).kind
       case Calc => l.done == l.started && l.messages == l.inUq == l.inRq == l.matched == 0
       case Send => l.started == l.messages + l.inUq + l.matched && l.inRq == 0
                    && l.done == if Eager(cfg, op) then l.started else l.matched
       case Recv => l.started == l.inRq + l.matched && l.messages == l.inUq == 0 && l.done == l.matched
  }

  ghost predicate AllBalanced(cfg: Config, s: Sim)
    requires TrackersShaped(cfg, s)
  {
    forall op {:trigger Ledger(cfg, s, op)} :: IsOp(cfg, op) ==> Balanced(cfg, op, Ledger(cfg, s, op))
  }

  ghost predicate Exclusive(s: Sim)
  {
    forall ch {:trigger Queue(s.rq, ch)} {:trigger Queue(s.uq, ch)} :: Queue(s.rq, ch) == [] || Queue(s.uq, ch) == []
  }

  /** Matched operations come in pairs of one send and one receive of the same channel. */
  ghost predicate Paired(cfg: Config, s: Sim)
  {
    && (forall op :: op in s.mate <==> s.matched[op] > 0)
    && (forall op {:trigger s.mate[op]} :: op in s.mate ==>
          var other := s.mate[op];
          && other in s.mate && s.mate[other] == op
          && ((IsKind(cfg, op, Send) && IsKind(cfg, other, Recv)) || (IsKind(cfg, op, Recv) && IsKind(cfg, other, Send)))
          && ChannelOf(cfg, op) == ChannelOf(cfg, other))
  }

  ghost predicate Core(cfg: Config, s: Sim)
  {
    Shape(cfg, s) && TrackersOk(cfg, s) && AllBalanced(cfg, s) && Exclusive(s) && Paired(cfg, s)
  }

  ghost predicate Inv(cfg: Config, s: Sim)
  {
    Core(cfg, s) && Quiet(s)
  }

  // ---- reachable states ----

  lemma {:induction false} CountMember(aq: seq<Event>, i: nat)
    requires i < |aq|
    ensures Count(aq, aq[i].kind, aq[i].op) >= 1
  {
    CountRemove(aq, i, aq[i].kind, aq[i].op);
  }

  lemma AtMostOne(cfg: Config, s: Sim, op: Op)
    requires Core(cfg, s) && IsOp(cfg, op)
    ensures var l := Ledger(cfg, s, op);
      && 0 <= l.started <= 1 && 0 <= l.done <= l.started && 0 <= l.matched <= 1
      && (Count(s.aq, Issue, op) > 0 ==> l.started == 0)
  {
    assert Balanced(cfg, op, Ledger(cfg, s, op));
  }

  // ---- books with one or two operations out of balance ----

  /** What holds in between updates, apart from the books. */
  ghost predicate Frame(cfg: Config, s: Sim)
  {
    Shape(cfg, s) && TrackersOk(cfg, s) && Exclusive(s) && Paired(cfg, s)
  }

  /** Operation p has the entry l; all others are balanced. */
  ghost predicate Holds(cfg: Config, s: Sim, p: Op, l: Entry)
  {
    && Frame(cfg, s) && IsOp(cfg, p) && Ledger(cfg, s, p) == l
    && forall op {:trigger Ledger(cfg, s, op)} :: IsOp(cfg, op) && op != p ==> Balanced(cfg, op, Ledger(cfg, s, op))
  }

  /** Operations p and q have the entries l and m; all others are balanced. */
  ghost predicate HoldsTwo(cfg: Config, s: Sim, p: Op, l: Entry, q: Op, m: Entry)
  {
    && Frame(cfg, s) && IsOp(cfg, p) && Ledger(cfg, s, p) == l && IsOp(cfg, q) && Ledger(cfg, s, q) == m && p != q
    && forall op {:trigger Ledger(cfg, s, op)} :: IsOp(cfg, op) && op != p && op != q ==> Balanced(cfg, op, Ledger(cfg, s, op))
  }

  lemma ClocksFrame(cfg: Config, a: Sim, b: Sim)
    requires Frame(cfg, a) && ClocksDiffer(a, b)
    ensures Frame(cfg, b)
  {
    hide Exact, EventOk, IsKind, ChannelOf;
    assert TrackersOk(cfg, b);
    assert QueuesOk(cfg, b);
    assert Exclusive(b);
  }

  lemma ClocksHolds(cfg: Config, a: Sim, b: Sim, p: Op, l: Entry)
    requires Holds(cfg, a, p, l) && ClocksDiffer(a, b)
    ensures Holds(cfg, b, p, l)
  {
    hide Exact, Balanced, QueuesOk, Exclusive, Paired;
    ClocksFrame(cfg, a, b);
    forall op | IsOp(cfg, op) ensures Ledger(cfg, b, op) == Ledger(cfg, a, op) {
    }
  }

  lemma ClocksHoldsTwo(cfg: Config, a: Sim, b: Sim, p: Op, l: Entry, q: Op, m: Entry)
    requires HoldsTwo(cfg, a, p, l, q, m) && ClocksDiffer(a, b)
    ensures HoldsTwo(cfg, b, p, l, q, m)
  {
    hide Exact, Balanced, QueuesOk, Exclusive, Paired;
    ClocksFrame(cfg, a, b);
    forall op | IsOp(cfg, op) ensures Ledger(cfg, b, op) == Ledger(cfg, a, op) {
    }
  }

  lemma PopFrame(cfg: Config, s: Sim, i: nat)
    requires Frame(cfg, s) && i < |s.aq|
    ensures Frame(cfg, Pop(s, i))
  {
    hide Exact, IsKind, ChannelOf, EventOk;
    var r := Pop(s, i);
    assert TrackersOk(cfg, r);
    assert QueuesOk(cfg, r);
    assert Exclusive(r);
  }

  lemma PopHolds(cfg: Config, s: Sim, i: nat)
    requires Core(cfg, s) && i < |s.aq|
    ensures IsOp(cfg, s.aq[i].op)
    ensures var p, e, l := s.aq[i].op, s.aq[i], Ledger(cfg, s, s.aq[i].op);
      Holds(cfg, Pop(s, i), p, if e.kind == Issue then l.(handed := l.handed + 1) else l.(messages := l.messages - 1))
  {
    hide Exact, Exclusive, Paired, Ledger, Shaped, Balanced;
    var s0, p := Pop(s, i), s.aq[i].op;
    assert EventOk(cfg, s.aq[i]);
    PopFrame(cfg, s, i);
    PopLedger(cfg, s, i, p);
    forall op | IsOp(cfg, op) && op != p ensures Balanced(cfg, op, Ledger(cfg, s0, op)) {
      PopLedger(cfg, s, i, op);
    }
  }

  lemma InsertFrame(cfg: Config, s: Sim, e: Event)
    requires Frame(cfg, s) && EventOk(cfg, e)
    ensures Frame(cfg, Insert(s, e))
  {
    hide Exact, IsKind, ChannelOf, EventOk;
    var r := Insert(s, e);
    assert TrackersOk(cfg, r);
    assert QueuesOk(cfg, r);
    assert Exclusive(r);
  }

  lemma InsertHolds(cfg: Config, s: Sim, e: Event, l: Entry)
    requires Holds(cfg, s, e.op, l) && EventOk(cfg, e)
    ensures Holds(cfg, Insert(s, e), e.op, if e.kind == Issue then l.(handed := l.handed - 1) else l.(messages := l.messages + 1))
  {
    hide Exact, Balanced, Exclusive, Paired, Ledger, Shaped;
    var r := Insert(s, e);
    InsertLedger(cfg, s, e, e.op);
    InsertFrame(cfg, s, e);
    forall op | IsOp(cfg, op) && op != e.op ensures Balanced(cfg, op, Ledger(cfg, r, op)) {
      InsertLedger(cfg, s, e, op);
    }
  }

  lemma InsertHoldsTwo(cfg: Config, s: Sim, e: Event, l: Entry, q: Op, m: Entry)
    requires HoldsTwo(cfg, s, e.op, l, q, m) && EventOk(cfg, e) && e.kind == Message
    ensures HoldsTwo(cfg, Insert(s, e), e.op, l.(messages := l.messages + 1), q, m)
  {
    hide Exact, Balanced, Exclusive, Paired, Ledger, Shaped;
    var r := Insert(s, e);
    InsertFrame(cfg, s, e);
    InsertLedger(cfg, s, e, e.op);
    InsertLedger(cfg, s, e, q);
    forall op | IsOp(cfg, op) && op != e.op && op != q ensures Balanced(cfg, op, Ledger(cfg, r, op)) {
      InsertLedger(cfg, s, e, op);
    }
  }

  lemma BalancedOne(cfg: Config, s: Sim, p: Op, l: Entry, q: Op, m: Entry)
    requires HoldsTwo(cfg, s, p, l, q, m) && Balanced(cfg, p, l)
    ensures Holds(cfg, s, q, m)
  {
  }

  lemma StartHolds(cfg: Config, s: Sim, p: Op, l: Entry)
    requires Holds(cfg, s, p, l) && l.started == 0
    ensures Holds(cfg, Start(cfg, s, p), p, l.(started := 1))
  {
    var r := Start(cfg, s, p);
    StartLedger(cfg, s, p, p);
    forall op | IsOp(cfg, op) && op != p ensures Balanced(cfg, op, Ledger(cfg, r, op)) {
      StartLedger(cfg, s, p, op);
    }
  }

  lemma CompleteHolds(cfg: Config, s: Sim, p: Op, l: Entry, at: nat)
    requires Holds(cfg, s, p, l) && l.done == 0
    ensures Holds(cfg, Complete(cfg, s, p, at), p, l.(done := 1))
  {
    var r := Complete(cfg, s, p, at);
    CompleteLedger(cfg, s, p, at, p);
    forall op | IsOp(cfg, op) && op != p ensures Balanced(cfg, op, Ledger(cfg, r, op)) {
      CompleteLedger(cfg, s, p, at, op);
    }
  }

  lemma CompleteHoldsTwo(cfg: Config, s: Sim, p: Op, l: Entry, q: Op, m: Entry, at: nat)
    requires HoldsTwo(cfg, s, p, l, q, m) && l.done == 0
    ensures HoldsTwo(cfg, Complete(cfg, s, p, at), p, l.(done := 1), q, m)
  {
    var r := Complete(cfg, s, p, at);
    CompleteLedger(cfg, s, p, at, p);
    CompleteLedger(cfg, s, p, at, q);
    forall op | IsOp(cfg, op) && op != p && op != q ensures Balanced(cfg, op, Ledger(cfg, r, op)) {
      CompleteLedger(cfg, s, p, at, op);
    }
  }

  lemma PairedPair(cfg: Config, s: Sim, send: Op, recv: Op)
    requires Paired(cfg, s) && s.matched[send] == s.matched[recv] == 0
    requires IsKind(cfg, send, Send) && IsKind(cfg, recv, Recv) && ChannelOf(cfg, send) == ChannelOf(cfg, recv)
    ensures Paired(cfg, Pair(s, send, recv))
  {
    assert send !in s.mate && recv !in s.mate;
  }

  lemma PairFrame(cfg: Config, s: Sim, send: Op, recv: Op)
    requires Frame(cfg, s) && s.matched[send] == s.matched[recv] == 0
    requires IsKind(cfg, send, Send) && IsKind(cfg, recv, Recv) && ChannelOf(cfg, send) == ChannelOf(cfg, recv)
    ensures Frame(cfg, Pair(s, send, recv))
  {
    hide Exact, EventOk;
    var r := Pair(s, send, recv);
    PairedPair(cfg, s, send, recv);
    hide Paired, IsKind, ChannelOf;
    assert TrackersOk(cfg, r);
    assert QueuesOk(cfg, r);
    assert Exclusive(r);
  }

  lemma PairHolds(cfg: Config, s: Sim, send: Op, l: Entry, recv: Op, m: Entry)
    requires HoldsTwo(cfg, s, send, l, recv, m) && l.matched == m.matched == 0
    requires IsKind(cfg, send, Send) && IsKind(cfg, recv, Recv) && ChannelOf(cfg, send) == ChannelOf(cfg, recv)
    ensures HoldsTwo(cfg, Pair(s, send, recv), send, l.(matched := 1), recv, m.(matched := 1))
  {
    hide Exact, Balanced, QueuesOk, Exclusive, Paired;
    hide Shaped, Taken, Count, IsKind, ChannelOf, OpsOf;
    PairFrame(cfg, s, send, recv);
    var r := Pair(s, send, recv);
    forall op | IsOp(cfg, op)
      ensures Ledger(cfg, r, op) == if op == send || op == recv then Ledger(cfg, s, op).(matched := 1) else Ledger(cfg, s, op)
    {
    }
  }

  lemma PushRqHolds(cfg: Config, s: Sim, p: Op, l: Entry)
    requires Holds(cfg, s, p, l) && IsKind(cfg, p, Recv) && Queue(s.uq, ChannelOf(cfg, p)) == []
    ensures Holds(cfg, PushRq(cfg, s, p), p, l.(inRq := l.inRq + 1))
  {
    var r := PushRq(cfg, s, p);
    PushRqQueues(cfg, s, p);
    PushRqLedger(cfg, s, p, p);
    forall op | IsOp(cfg, op) && op != p ensures Balanced(cfg, op, Ledger(cfg, r, op)) {
      PushRqLedger(cfg, s, p, op);
    }
  }

  lemma PushUqHolds(cfg: Config, s: Sim, p: Op, l: Entry, since: nat)
    requires Holds(cfg, s, p, l) && IsKind(cfg, p, Send) && Queue(s.rq, ChannelOf(cfg, p)) == []
    ensures Holds(cfg, PushUq(cfg, s, p, since), p, l.(inUq := l.inUq + 1))
  {
    var r := PushUq(cfg, s, p, since);
    PushUqQueues(cfg, s, p, since);
    PushUqLedger(cfg, s, p, since, p);
    forall op | IsOp(cfg, op) && op != p ensures Balanced(cfg, op, Ledger(cfg, r, op)) {
      PushUqLedger(cfg, s, p, since, op);
    }
  }

  lemma PopRqHolds(cfg: Config, s: Sim, send: Op, l: Entry)
    requires Holds(cfg, s, send, l) && IsKind(cfg, send, Send) && Queue(s.rq, ChannelOf(cfg, send)) != []
    ensures var recv := Queue(s.rq, ChannelOf(cfg, send))[0];
      IsKind(cfg, recv, Recv) && ChannelOf(cfg, recv) == ChannelOf(cfg, send)
    ensures Queue(s.uq, ChannelOf(cfg, send)) == []
    ensures var ch := ChannelOf(cfg, send);
      var recv := Queue(s.rq, ch)[0];
      var m := Ledger(cfg, s, recv);
      Balanced(cfg, recv, m) && HoldsTwo(cfg, PopRq(s, ch), send, l, recv, m.(inRq := m.inRq - 1))
  {
    var ch := ChannelOf(cfg, send);
    var recv := Queue(s.rq, ch)[0];
    var r := PopRq(s, ch);
    PopRqQueues(cfg, s, ch);
    PopRqLedger(cfg, s, ch, send);
    PopRqLedger(cfg, s, ch, recv);
    forall op | IsOp(cfg, op) && op != send && op != recv ensures Balanced(cfg, op, Ledger(cfg, r, op)) {
      PopRqLedger(cfg, s, ch, op);
    }
  }

  lemma PopUqHolds(cfg: Config, s: Sim, recv: Op, l: Entry)
    requires Holds(cfg, s, recv, l) && IsKind(cfg, recv, Recv) && Queue(s.uq, ChannelOf(cfg, recv)) != []
    ensures var send := Queue(s.uq, ChannelOf(cfg, recv))[0].op;
      IsKind(cfg, send, Send) && ChannelOf(cfg, send) == ChannelOf(cfg, recv)
    ensures var ch := ChannelOf(cfg, recv);
      var send := Queue(s.uq, ch)[0].op;
      var m := Ledger(cfg, s, send);
      Balanced(cfg, send, m) && HoldsTwo(cfg, PopUq(s, ch), send, m.(inUq := m.inUq - 1), recv, l)
  {
    var ch := ChannelOf(cfg, recv);
    var send := Queue(s.uq, ch)[0].op;
    var r := PopUq(s, ch);
    PopUqQueues(cfg, s, ch);
    PopUqLedger(cfg, s, ch, send);
    PopUqLedger(cfg, s, ch, recv);
    forall op | IsOp(cfg, op) && op != send && op != recv ensures Balanced(cfg, op, Ledger(cfg, r, op)) {
      PopUqLedger(cfg, s, ch, op);
    }
  }

  // ---- the branches of the event loop ----

  lemma Settle(cfg: Config, s: Sim, p: Op, l: Entry)
    requires Holds(cfg, s, p, l) && Balanced(cfg, p, l)
    ensures Core(cfg, s)
  {
  }

  lemma SettleTwo(cfg: Config, s: Sim, p: Op, l: Entry, q: Op, m: Entry)
    requires HoldsTwo(cfg, s, p, l, q, m) && Balanced(cfg, p, l) && Balanced(cfg, q, m)
    ensures Core(cfg, s)
  {
  }

  /** The entry of an operation that has been handed out and is about to be started. */
  const FRESH := Entry(1, 0, 0, 0, 0, 0, 0)

  lemma PopFresh(cfg: Config, s: Sim, i: nat)
    requires Core(cfg, s) && i < |s.aq| && s.aq[i].kind == Issue
    ensures Holds(cfg, Pop(s, i), s.aq[i].op, FRESH)
  {
    PopHolds(cfg, s, i);
    CountMember(s.aq, i);
    AtMostOne(cfg, s, s.aq[i].op);
    assert Balanced(cfg, s.aq[i].op, Ledger(cfg, s, s.aq[i].op));
  }

  lemma CalcCore(cfg: Config, s: Sim, e: Event, noise: nat)
    requires e.kind == Issue && Holds(cfg, s, e.op, FRESH) && NodeOf(cfg, e.op).kind == Calc
    ensures Core(cfg, RunCalc(cfg, s, e, noise))
  {
    hide Exact, QueuesOk, Exclusive, Paired, Ledger, Shaped;
    var n := NodeOf(cfg, e.op);
    var free := At(s.nexto, e.op.host, n.proc);
    if free <= e.time {
      var cpuTime := e.time + n.size + noise;
      var s1 := SetO(s, e.op.host, n.proc, cpuTime);
      ClocksHolds(cfg, s, s1, e.op, FRESH);
      StartHolds(cfg, s1, e.op, FRESH);
      var s2, l := Start(cfg, s1, e.op), FRESH.(started := 1);
      CompleteHolds(cfg, s2, e.op, l, cpuTime);
      Settle(cfg, Complete(cfg, s2, e.op, cpuTime), e.op, l.(done := 1));
    } else {
      InsertHolds(cfg, s, e.(time := free), FRESH);
      Settle(cfg, Insert(s, e.(time := free)), e.op, FRESH.(handed := 0));
    }
  }

  lemma SendCore(cfg: Config, s: Sim, e: Event, noise: nat)
    requires e.kind == Issue && Holds(cfg, s, e.op, FRESH) && NodeOf(cfg, e.op).kind == Send
    ensures Core(cfg, RunSend(cfg, s, e, noise))
  {
    hide Exact, QueuesOk, Exclusive, Paired, Ledger, Shaped, Bandwidth, Core, Holds, Start, Complete, Balanced;
    HoldsShape(cfg, s, e.op, FRESH);
    var n, p, size := NodeOf(cfg, e.op), cfg.par, SizeOf(cfg, e.op);
    var free := Max(At(s.nexto, e.op.host, n.proc), At(s.nextgs, e.op.host, n.nic));
    if free <= e.time {
      var cpuTime := e.time + p.o + noise + (size - 1) * p.O;
      var bandwidth := Bandwidth(p, size);
      var s0, l := Start(cfg, s, e.op), FRESH.(started := 1);
      StartHolds(cfg, s, e.op, FRESH);
      var s2 := SetGs(SetO(s0, e.op.host, n.proc, cpuTime), e.op.host, n.nic, e.time + p.g + bandwidth);
      ClocksHolds(cfg, s0, s2, e.op, l);
      var msg := Event(Message, e.op, cpuTime + p.L + bandwidth);
      InsertHolds(cfg, s2, msg, l);
      SentCore(cfg, Insert(s2, msg), e.op, cpuTime);
    } else {
      InsertHolds(cfg, s, e.(time := free), FRESH);
      SettleBack(cfg, Insert(s, e.(time := free)), e.op);
    }
  }

  lemma HoldsShape(cfg: Config, s: Sim, p: Op, l: Entry)
    requires Holds(cfg, s, p, l)
    ensures ValidConfig(cfg) && TrackersShaped(cfg, s) && IsOp(cfg, p)
  {
  }

  /** A message is under way; if eager, the send is complete. */
  lemma SentCore(cfg: Config, s: Sim, op: Op, cpuTime: nat)
    requires IsKind(cfg, op, Send) && Holds(cfg, s, op, FRESH.(started := 1, messages := 1))
    ensures TrackersShaped(cfg, s) && Core(cfg, if SizeOf(cfg, op) <= cfg.par.S then Complete(cfg, s, op, cpuTime) else s)
  {
    hide Exact, QueuesOk, Exclusive, Paired, Ledger, Shaped, Core, Holds, Complete;
    var m := FRESH.(started := 1, messages := 1);
    HoldsShape(cfg, s, op, m);
    if SizeOf(cfg, op) <= cfg.par.S {
      CompleteHolds(cfg, s, op, m, cpuTime);
      Settle(cfg, Complete(cfg, s, op, cpuTime), op, m.(done := 1));
    } else {
      Settle(cfg, s, op, m);
    }
  }

  /** An item put back into the queue. */
  lemma SettleBack(cfg: Config, s: Sim, op: Op)
    requires Holds(cfg, s, op, FRESH.(handed := 0))
    ensures Core(cfg, s)
  {
    hide Ledger, Exact;
    Settle(cfg, s, op, FRESH.(handed := 0));
  }

  /** A send and a receive that are in no place and not matched yet. */
  lemma DeliverCore(cfg: Config, s: Sim, send: Op, recv: Op, rendezvous: bool, proc: nat, nic: nat, cpuTime: nat, nicTime: nat)
    requires IsKind(cfg, send, Send) && IsKind(cfg, recv, Recv) && ChannelOf(cfg, send) == ChannelOf(cfg, recv)
    requires rendezvous == !Eager(cfg, send)
    requires HoldsTwo(cfg, s, send, Entry(1, 1, if rendezvous then 0 else 1, 0, 0, 0, 0), recv, FRESH.(started := 1))
    ensures Core(cfg, Deliver(cfg, s, send, recv, rendezvous, proc, nic, cpuTime, nicTime))
  {
    hide Exact, QueuesOk, Exclusive, Paired, Ledger, Shaped;
    var l, m := Entry(1, 1, 1, 0, 0, 0, 0), FRESH.(started := 1);
    var s1 := Complete(cfg, s, send, cpuTime);
    var s3 := if rendezvous then Raise(s1, send.host, proc, nic, cpuTime, nicTime) else s;
    if rendezvous {
      CompleteHoldsTwo(cfg, s, send, l.(done := 0), recv, m, cpuTime);
      RaiseClocks(s1, send.host, proc, nic, cpuTime, nicTime);
      ClocksHoldsTwo(cfg, s1, s3, send, l, recv, m);
    }
    PairHolds(cfg, s3, send, l, recv, m);
    var s4 := Pair(s3, send, recv);
    SwapHolds(cfg, s4, send, l.(matched := 1), recv, m.(matched := 1));
    CompleteHoldsTwo(cfg, s4, recv, m.(matched := 1), send, l.(matched := 1), cpuTime);
    SettleTwo(cfg, Complete(cfg, s4, recv, cpuTime), recv, m.(matched := 1, done := 1), send, l.(matched := 1));
  }

  lemma SwapHolds(cfg: Config, s: Sim, p: Op, l: Entry, q: Op, m: Entry)
    requires HoldsTwo(cfg, s, p, l, q, m)
    ensures HoldsTwo(cfg, s, q, m, p, l)
  {
  }

  lemma AgreeingTakes(cfg: Config, s: Sim, e: Event)
    requires Agreeing(cfg) && QueuesOk(cfg, s) && IsOp(cfg, e.op)
    ensures TakesAgreeing(cfg, s, e)
  {
    if Queue(s.uq, ChannelOf(cfg, e.op)) != [] && IsKind(cfg, e.op, Recv) {
      HeadOfUq(cfg, s, ChannelOf(cfg, e.op));
    }
  }

  lemma RecvCore(cfg: Config, s: Sim, e: Event)
    requires e.kind == Issue && Holds(cfg, s, e.op, FRESH) && NodeOf(cfg, e.op).kind == Recv
    requires TakesAgreeing(cfg, s, e)
    ensures Core(cfg, RunRecv(cfg, s, e))
  {
    hide TakeUnexpected, Balanced, Exact, QueuesOk, Exclusive, Paired, Ledger, Shaped;
    var ch := ChannelOf(cfg, e.op);
    var s1, l := Start(cfg, s, e.op), FRESH.(started := 1);
    StartHolds(cfg, s, e.op, FRESH);
    if Queue(s.uq, ch) != [] {
      var send := Queue(s.uq, ch)[0].op;
      PopUqHolds(cfg, s1, e.op, l);
      QueuedSend(cfg, s1, ch, l, e.op);
      TakeUnexpectedCore(cfg, PopUq(s1, ch), send, e.op, e.time);
    } else {
      PushRqHolds(cfg, s1, e.op, l);
      assert Balanced(cfg, e.op, l.(inRq := 1)) by { PostedBalanced(cfg, e.op); }
      Settle(cfg, PushRq(cfg, s1, e.op), e.op, l.(inRq := 1));
    }
  }

  lemma PostedBalanced(cfg: Config, recv: Op)
    requires IsKind(cfg, recv, Recv)
    ensures Balanced(cfg, recv, FRESH.(started := 1, inRq := 1))
  {
  }

  lemma TakeUnexpectedCore(cfg: Config, s: Sim, send: Op, recv: Op, time: nat)
    requires IsKind(cfg, send, Send) && IsKind(cfg, recv, Recv) && ChannelOf(cfg, send) == ChannelOf(cfg, recv)
    requires Eager(cfg, send) == Eager(cfg, recv)
    requires HoldsTwo(cfg, s, send, InTransit(cfg, send, 0), recv, FRESH.(started := 1))
    ensures Core(cfg, TakeUnexpected(cfg, s, send, recv, time))
  {
    hide Deliver, Balanced, Exact, QueuesOk, Exclusive, Paired, Ledger, Shaped;
    var n, p, size := NodeOf(cfg, recv), cfg.par, SizeOf(cfg, recv);
    var nicTime := Max(At(s.nextgs, recv.host, n.nic), time) + p.g;
    var cpuTime := nicTime + p.o + (size - 1) * p.O;
    var s1 := Occupy(s, recv.host, n.proc, n.nic, cpuTime, nicTime);
    ClocksHoldsTwo(cfg, s, s1, send, InTransit(cfg, send, 0), recv, FRESH.(started := 1));
    DeliverCore(cfg, s1, send, recv, size > p.S, n.proc, n.nic, cpuTime, nicTime);
  }

  lemma ReceiveCore(cfg: Config, s: Sim, send: Op, recv: Op, time: nat, noise: nat)
    requires IsKind(cfg, send, Send) && IsKind(cfg, recv, Recv) && ChannelOf(cfg, send) == ChannelOf(cfg, recv)
    requires HoldsTwo(cfg, s, send, InTransit(cfg, send, 0), recv, FRESH.(started := 1))
    ensures Core(cfg, Receive(cfg, s, send, recv, time, noise))
  {
    hide Deliver, Balanced, Exact, QueuesOk, Exclusive, Paired, Ledger, Shaped;
    var n, p, size, host := NodeOf(cfg, send), cfg.par, SizeOf(cfg, send), ChannelOf(cfg, send).dst;
    var nicTime := Max(At(s.nextgr, host, n.nic), time) + p.g;
    var cpuTime := nicTime + p.o + noise + (size - 1) * p.O;
    var s1 := Occupy(s, host, NodeOf(cfg, recv).proc, n.nic, cpuTime, nicTime);
    ClocksHoldsTwo(cfg, s, s1, send, InTransit(cfg, send, 0), recv, FRESH.(started := 1));
    DeliverCore(cfg, s1, send, recv, size > p.S, n.proc, n.nic, cpuTime, nicTime);
  }

  /** The head of an unexpected queue has been started and is nowhere else. */
  lemma QueuedSend(cfg: Config, s: Sim, ch: Channel, l: Entry, other: Op)
    requires Holds(cfg, s, other, l) && IsKind(cfg, other, Recv) && Queue(s.uq, ch) != []
    ensures var send := Queue(s.uq, ch)[0].op;
      IsKind(cfg, send, Send) && Ledger(cfg, s, send) == Entry(1, 1, if Eager(cfg, send) then 1 else 0, 0, 1, 0, 0)
  {
    hide Exact, Shaped, Exclusive, Paired, Count, OpsOf;
    var send := Queue(s.uq, ch)[0].op;
    assert OpsOf(Queue(s.uq, ch))[0] == send;
    assert multiset(OpsOf(Queue(s.uq, ch)))[send] > 0;
    assert Balanced(cfg, send, Ledger(cfg, s, send));
  }

  /** The head of a receive queue has been started and is nowhere else. */
  lemma QueuedRecv(cfg: Config, s: Sim, ch: Channel, l: Entry, other: Op)
    requires Holds(cfg, s, other, l) && IsKind(cfg, other, Send) && Queue(s.rq, ch) != []
    ensures var recv := Queue(s.rq, ch)[0];
      IsKind(cfg, recv, Recv) && Ledger(cfg, s, recv) == Entry(1, 1, 0, 0, 0, 1, 0)
  {
    hide Exact, Shaped, Exclusive, Paired, Count, OpsOf;
    var recv := Queue(s.rq, ch)[0];
    assert multiset(Queue(s.rq, ch))[recv] > 0;
    assert Balanced(cfg, recv, Ledger(cfg, s, recv));
  }

  /** The entry of a send whose message is in transit or has just been popped. */
  function InTransit(cfg: Config, send: Op, messages: nat): Entry
    requires IsOp(cfg, send)
  {
    Entry(1, 1, if Eager(cfg, send) then 1 else 0, messages, 0, 0, 0)
  }

  lemma PopTransit(cfg: Config, s: Sim, i: nat)
    requires Core(cfg, s) && i < |s.aq| && s.aq[i].kind == Message
    ensures IsKind(cfg, s.aq[i].op, Send)
    ensures Holds(cfg, Pop(s, i), s.aq[i].op, InTransit(cfg, s.aq[i].op, 0))
  {
    assert EventOk(cfg, s.aq[i]);
    PopHolds(cfg, s, i);
    CountMember(s.aq, i);
    AtMostOne(cfg, s, s.aq[i].op);
    assert Balanced(cfg, s.aq[i].op, Ledger(cfg, s, s.aq[i].op));
  }

  lemma MsgCore(cfg: Config, s: Sim, e: Event, noise: nat)
    requires e.kind == Message && IsKind(cfg, e.op, Send) && Holds(cfg, s, e.op, InTransit(cfg, e.op, 0))
    ensures Core(cfg, RunMsg(cfg, s, e, noise))
  {
    hide Receive, Exact, QueuesOk, Exclusive, Paired, Ledger, Shaped;
    var n, ch := NodeOf(cfg, e.op), ChannelOf(cfg, e.op);
    var l, q := InTransit(cfg, e.op, 0), Queue(s.rq, ch);
    if q != [] {
      var recv := q[0];
      PopRqHolds(cfg, s, e.op, l);
      QueuedRecv(cfg, s, ch, l, e.op);
      var free := Max(At(s.nexto, ch.dst, NodeOf(cfg, recv).proc), At(s.nextgr, ch.dst, n.nic));
      if free <= e.time {
        ReceiveCore(cfg, PopRq(s, ch), e.op, recv, e.time, noise);
      } else {
        RotateCore(cfg, s, e.(time := free), l);
      }
    } else {
      PushUqHolds(cfg, s, e.op, l, e.time);
      Settle(cfg, PushUq(cfg, s, e.op, e.time), e.op, l.(inUq := 1));
    }
  }

  /** Message and receive found each other but the host is busy: both go back, the receive
      to the end of its queue. */
  lemma RotateCore(cfg: Config, s: Sim, e: Event, l: Entry)
    requires e.kind == Message && IsKind(cfg, e.op, Send)
    requires l == InTransit(cfg, e.op, 0) && Holds(cfg, s, e.op, l)
    requires Queue(s.rq, ChannelOf(cfg, e.op)) != []
    ensures var ch := ChannelOf(cfg, e.op); var recv := Queue(s.rq, ch)[0];
      IsOp(cfg, recv) && Core(cfg, PushRq(cfg, Insert(PopRq(s, ch), e), recv))
  {
    hide Exact, QueuesOk, Exclusive, Paired, Ledger, Shaped;
    var ch := ChannelOf(cfg, e.op);
    var recv := Queue(s.rq, ch)[0];
    QueuedRecv(cfg, s, ch, l, e.op);
    PopRqHolds(cfg, s, e.op, l);
    var s1 := PopRq(s, ch);
    var s2 := Insert(s1, e);
    var m := FRESH.(started := 1);
    InsertHoldsTwo(cfg, s1, e, l, recv, m);
    BalancedOne(cfg, s2, e.op, InTransit(cfg, e.op, 1), recv, m);
    PushRqHolds(cfg, s2, recv, m);
    Settle(cfg, PushRq(cfg, s2, recv), recv, m.(inRq := 1));
  }

  /** Handling any item, earliest or not, keeps the books. */
  lemma RunKeepsCore(cfg: Config, s: Sim, i: nat, noise: nat)
    requires Core(cfg, s) && i < |s.aq|
    requires IsOp(cfg, s.aq[i].op) && TakesAgreeing(cfg, s, s.aq[i])
    ensures EventOk(cfg, s.aq[i]) && Shape(cfg, Pop(s, i))
    ensures Core(cfg, Run(cfg, Pop(s, i), s.aq[i], noise))
  {
    hide Exact, Exclusive, Paired, Ledger, Shaped, Balanced, RunCalc, RunSend, RunRecv, RunMsg;
    var s0, e := Pop(s, i), s.aq[i];
    assert EventOk(cfg, e);
    if e.kind == Message {
      PopTransit(cfg, s, i);
      MsgCore(cfg, s0, e, noise);
    } else {
      PopFresh(cfg, s, i);
      match NodeOf(cfg, e.op).kind
      case Calc => CalcCore(cfg, s0, e, noise);
      case Send => SendCore(cfg, s0, e, noise);
      case Recv => RecvCore(cfg, s0, e);
    }
  }

  lemma FlushFrame(cfg: Config, s: Sim, host: nat)
    requires Frame(cfg, s)
    ensures Frame(cfg, Flush(cfg, s, host))
  {
    hide Exact, IsKind, ChannelOf;
    var r := Flush(cfg, s, host);
    if host < |s.trackers| {
      DrainExact(cfg.sched[host], s.trackers[host]);
      forall i | 0 <= i < |r.aq| ensures EventOk(cfg, r.aq[i]) {
      }
    }
    hide EventOk;
    assert TrackersOk(cfg, r);
    assert QueuesOk(cfg, r);
    assert Exclusive(r);
    assert Paired(cfg, r);
  }

  lemma DrainExact(nodes: seq<Node>, tr: Tracker)
    requires Exact(nodes, tr)
    ensures Exact(nodes, Drain(tr))
  {
  }

  lemma FlushKeepsCore(cfg: Config, s: Sim, host: nat)
    requires Core(cfg, s)
    ensures Core(cfg, Flush(cfg, s, host))
  {
    hide Exact, QueuesOk, Exclusive, Paired, Ledger, Shaped, Balanced;
    FlushFrame(cfg, s, host);
    var r := Flush(cfg, s, host);
    forall op | IsOp(cfg, op) ensures Balanced(cfg, op, Ledger(cfg, r, op)) {
      FlushLedger(cfg, s, host, op);
    }
  }

  /** In an agreeing schedule that is no restriction. */
  lemma MayPop(cfg: Config, s: Sim, i: nat)
    requires Agreeing(cfg) && Inv(cfg, s) && i < |s.aq|
    ensures IsOp(cfg, s.aq[i].op) && TakesAgreeing(cfg, s, s.aq[i])
  {
    hide Exact, Exclusive, Paired, AllBalanced, Shaped, Agreeing, TakesAgreeing, Quiet;
    PopShape(cfg, s, i);
    AgreeingTakes(cfg, s, s.aq[i]);
  }

  /** One iteration of the event loop keeps the invariant, whichever item is popped, unless it
      is a receive that takes a message from the other side of S. */
  lemma StepKeepsInv(cfg: Config, s: Sim, i: nat, noise: nat)
    requires Inv(cfg, s) && i < |s.aq|
    requires IsOp(cfg, s.aq[i].op) && TakesAgreeing(cfg, s, s.aq[i])
    ensures Inv(cfg, Step(cfg, s, i, noise))
  {
    hide Exact, QueuesOk, Exclusive, Paired, AllBalanced, Shaped, Run, Flush, TakesAgreeing;
    StepQuiet(cfg, s, i, noise);
    RunKeepsCore(cfg, s, i, noise);
    var e := s.aq[i];
    var r := Run(cfg, Pop(s, i), e, noise);
    FlushKeepsCore(cfg, r, e.op.host);
    FlushKeepsCore(cfg, Flush(cfg, r, e.op.host), NodeOf(cfg, e.op).peer);
  }
}
