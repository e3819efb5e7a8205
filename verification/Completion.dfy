/** When the event queue runs empty, everything has been done exactly if the events of the
    schedule are not cyclic. */
module Completion {
  import opened Schedule
  import opened DependencyTracker
  import opened EventLoop
  import opened Accounting
  import opened Effects
  import opened ExactlyOnce
  import opened Termination
  import opened Runs
  import Digraph

  datatype Moment = Begin(op: Op) | End(op: Op)

  /** Each channel carries exactly one send and one receive. */
  ghost predicate OneToOne(cfg: Config)
  {
    && (forall p, q {:trigger IsKind(cfg, p, Send), IsKind(cfg, q, Send)} ::
          IsKind(cfg, p, Send) && IsKind(cfg, q, Send) && ChannelOf(cfg, p) == ChannelOf(cfg, q) ==> p == q)
    && (forall p, q {:trigger IsKind(cfg, p, Recv), IsKind(cfg, q, Recv)} ::
          IsKind(cfg, p, Recv) && IsKind(cfg, q, Recv) && ChannelOf(cfg, p) == ChannelOf(cfg, q) ==> p == q)
    && (forall p {:trigger IsKind(cfg, p, Send)} :: IsKind(cfg, p, Send) ==> exists q :: Partners(cfg, p, q))
    && (forall q {:trigger IsKind(cfg, q, Recv)} :: IsKind(cfg, q, Recv) ==> exists p :: Partners(cfg, p, q))
  }

  predicate Partners(cfg: Config, send: Op, recv: Op) {
    IsKind(cfg, send, Send) && IsKind(cfg, recv, Recv) && ChannelOf(cfg, send) == ChannelOf(cfg, recv)
  }

  /** Which moments have to precede which: an operation begins before it ends, and after
      what it depends on; a receive ends after its send begins, and a rendezvous send ends
      after its receive begins. */
  ghost predicate Precedes(cfg: Config, a: Moment, b: Moment)
  {
    && IsOp(cfg, a.op) && IsOp(cfg, b.op)
    && match (a, b)
       case (Begin(p), End(q)) =>
         p == q || Partners(cfg, p, q) || (Partners(cfg, q, p) && !Eager(cfg, q))
       case (End(p), Begin(q)) => p.host == q.host && q.off in NodeOf(cfg, p).dependOnMe
       case (Begin(p), Begin(q)) => p.host == q.host && q.off in NodeOf(cfg, p).startDependOnMe
       case (End(p), End(q)) => false
  }

  ghost function EventGraph(cfg: Config): (Moment, Moment) -> bool {
    (a: Moment, b: Moment) => Precedes(cfg, a, b)
  }

  ghost predicate Happened(cfg: Config, s: Sim, m: Moment)
    requires TrackersShaped(cfg, s)
  {
    IsOp(cfg, m.op) &&
    match m
    case Begin(op) => s.trackers[op.host].started[op.off] > 0
    case End(op) => s.trackers[op.host].done[op.off] > 0
  }

  ghost predicate AllDone(cfg: Config, s: Sim)
    requires TrackersShaped(cfg, s)
  {
    forall op {:trigger IsOp(cfg, op)} :: IsOp(cfg, op) ==> s.trackers[op.host].done[op.off] == 1
  }

  ghost predicate QueuesEmpty(s: Sim)
  {
    forall ch {:trigger Queue(s.rq, ch)} {:trigger Queue(s.uq, ch)} :: Queue(s.rq, ch) == [] && Queue(s.uq, ch) == []
  }

  // ---- what has happened is closed under Precedes ----

  lemma MateIsPartner(cfg: Config, s: Sim, send: Op, recv: Op)
    requires OneToOne(cfg) && Core(cfg, s) && Partners(cfg, send, recv)
    ensures s.matched[send] > 0 <==> s.matched[recv] > 0
  {
    hide Exact, QueuesOk, AllBalanced, Shaped, ValidConfig;
    if s.matched[send] > 0 {
      assert s.mate[send] == recv;
    }
    if s.matched[recv] > 0 {
      assert s.mate[recv] == send;
    }
  }

  lemma FreeMeansSatisfied(cfg: Config, s: Sim, a: Moment, op: Op)
    requires Inv(cfg, s) && IsOp(cfg, op) && Precedes(cfg, a, Begin(op))
    requires s.trackers[op.host].started[op.off] > 0 || Count(s.aq, Issue, op) > 0
    ensures Happened(cfg, s, a)
  {
    hide QueuesOk, Exclusive, Paired, ValidConfig;
    assert Balanced(cfg, op, Ledger(cfg, s, op));
    var nodes, tr := cfg.sched[op.host], s.trackers[op.host];
    QuietAt(s, op.host);
    OpenIffBlocked(nodes, tr.started, tr.done, op.off, |nodes|);
  }

  lemma EndMeansMatched(cfg: Config, s: Sim, a: Moment, op: Op)
    requires OneToOne(cfg) && Inv(cfg, s) && IsOp(cfg, op) && Precedes(cfg, a, End(op))
    requires s.trackers[op.host].done[op.off] > 0
    ensures Happened(cfg, s, a)
  {
    hide QueuesOk, Exclusive, Exact, ValidConfig, OneToOne, Paired;
    assert Balanced(cfg, op, Ledger(cfg, s, op));
    AtMostOne(cfg, s, op);
    var p := a.op;
    if p != op {
      assert Balanced(cfg, p, Ledger(cfg, s, p));
      if Partners(cfg, p, op) {
        MateIsPartner(cfg, s, p, op);
      } else {
        MateIsPartner(cfg, s, op, p);
      }
    }
  }

  lemma HappenedClosed(cfg: Config, s: Sim, a: Moment, b: Moment)
    requires OneToOne(cfg) && Inv(cfg, s) && Precedes(cfg, a, b) && Happened(cfg, s, b)
    ensures Happened(cfg, s, a)
  {
    hide Inv, OneToOne, TrackersShaped;
    match b
    case Begin(op) => FreeMeansSatisfied(cfg, s, a, op);
    case End(op) => EndMeansMatched(cfg, s, a, op);
  }

  // ---- nothing stays stuck when the queue is empty ----

  lemma BlockedBegin(cfg: Config, s: Sim, op: Op) returns (a: Moment)
    requires Inv(cfg, s) && s.aq == [] && IsOp(cfg, op)
    requires !Happened(cfg, s, Begin(op))
    ensures Precedes(cfg, a, Begin(op)) && !Happened(cfg, s, a)
  {
    hide QueuesOk, Exclusive, Paired, ValidConfig;
    assert Balanced(cfg, op, Ledger(cfg, s, op));
    var nodes, tr := cfg.sched[op.host], s.trackers[op.host];
    QuietAt(s, op.host);
    OpenIffBlocked(nodes, tr.started, tr.done, op.off, |nodes|);
    var p :| 0 <= p < |nodes| && ((op.off in nodes[p].dependOnMe && p !in tr.done)
                               || (op.off in nodes[p].startDependOnMe && p !in tr.started));
    var q := Op(op.host, p);
    assert NodeOf(cfg, q) == nodes[p];
    a := if op.off in nodes[p].dependOnMe && p !in tr.done then End(q) else Begin(q);
  }

  lemma QueuedOps(cfg: Config, s: Sim, op: Op)
    requires Core(cfg, s) && IsOp(cfg, op)
    ensures Ledger(cfg, s, op).inRq > 0 ==> Queue(s.uq, ChannelOf(cfg, op)) == []
    ensures Ledger(cfg, s, op).inUq > 0 ==> Queue(s.rq, ChannelOf(cfg, op)) == []
  {
    hide Exact, QueuesOk, AllBalanced, Paired, Shaped, ValidConfig;
  }

  lemma BlockedEnd(cfg: Config, s: Sim, op: Op) returns (a: Moment)
    requires Agreeing(cfg) && OneToOne(cfg) && Inv(cfg, s) && s.aq == [] && IsOp(cfg, op)
    requires !Happened(cfg, s, End(op))
    ensures Precedes(cfg, a, End(op)) && !Happened(cfg, s, a)
  {
    hide QueuesOk, Exact, ValidConfig, Paired, Exclusive, Agreeing;
    assert Balanced(cfg, op, Ledger(cfg, s, op));
    AtMostOne(cfg, s, op);
    a := Begin(op);
    if Happened(cfg, s, Begin(op)) {
      var other: Op;
      if NodeOf(cfg, op).kind == Send {
        assert IsKind(cfg, op, Send);
        other :| Partners(cfg, op, other);
        MateIsPartner(cfg, s, op, other);
      } else {
        assert IsKind(cfg, op, Recv);
        other :| Partners(cfg, other, op);
        MateIsPartner(cfg, s, other, op);
      }
      assert Balanced(cfg, other, Ledger(cfg, s, other));
      AtMostOne(cfg, s, other);
      QueuedOps(cfg, s, op);
      QueuedOps(cfg, s, other);
      a := Begin(other);
    }
  }

  ghost function MomentsUpTo(cfg: Config, h: nat, k: nat): (r: set<Moment>)
    requires h < |cfg.sched| && k <= |cfg.sched[h]|
    ensures forall m {:trigger m in r} :: m in r <==> m.op.host == h && m.op.off < k
    decreases k
  {
    if k == 0 then {} else MomentsUpTo(cfg, h, k - 1) + {Begin(Op(h, k - 1)), End(Op(h, k - 1))}
  }

  ghost function MomentsOfHosts(cfg: Config, h: nat): (r: set<Moment>)
    requires h <= |cfg.sched|
    ensures forall m {:trigger m in r} :: m in r <==> m.op.host < h && IsOp(cfg, m.op)
  {
    if h == 0 then {} else MomentsOfHosts(cfg, h - 1) + MomentsUpTo(cfg, h - 1, |cfg.sched[h - 1]|)
  }

  /** No deadlock: in an acyclic schedule an empty event queue means that everything has been
      done and that no message or receive is left over. */
  lemma AcyclicCompletes(cfg: Config, s: Sim)
    requires Agreeing(cfg) && OneToOne(cfg) && Inv(cfg, s) && s.aq == []
    requires Digraph.Acyclic(EventGraph(cfg))
    ensures AllDone(cfg, s) && QueuesEmpty(s)
  {
    hide Inv, Agreeing, OneToOne, Precedes, Digraph.Acyclic, TrackersShaped;
    InvShape(cfg, s);
    var all := MomentsOfHosts(cfg, |cfg.sched|);
    var stuck := set m | m in all && !Happened(cfg, s, m);
    forall m | m in stuck ensures Digraph.HasPredecessor(EventGraph(cfg), stuck, m) {
      var a := Blocked(cfg, s, m);
      assert a in stuck;
      assert EventGraph(cfg)(a, m);
    }
    Digraph.AcyclicNotStuck(EventGraph(cfg), stuck);
    forall op | IsOp(cfg, op) ensures s.trackers[op.host].done[op.off] == 1 {
      assert End(op) in all && End(op) !in stuck;
      DoneOnce(cfg, s, op);
    }
    DoneMeansEmpty(cfg, s);
  }

  /** What has not happened waits for something else that has not happened. */
  lemma Blocked(cfg: Config, s: Sim, m: Moment) returns (a: Moment)
    requires Agreeing(cfg) && OneToOne(cfg) && Inv(cfg, s) && s.aq == [] && IsOp(cfg, m.op)
    requires !Happened(cfg, s, m)
    ensures IsOp(cfg, a.op) && Precedes(cfg, a, m) && !Happened(cfg, s, a)
  {
    hide Inv, Agreeing, OneToOne, TrackersShaped;
    match m
    case Begin(op) => a := BlockedBegin(cfg, s, op);
    case End(op) => a := BlockedEnd(cfg, s, op);
  }

  lemma InvShape(cfg: Config, s: Sim)
    requires Inv(cfg, s)
    ensures Shape(cfg, s) && TrackersShaped(cfg, s) && Core(cfg, s)
  {
  }

  lemma DoneOnce(cfg: Config, s: Sim, op: Op)
    requires Inv(cfg, s) && IsOp(cfg, op)
    ensures TrackersShaped(cfg, s) && s.trackers[op.host].done[op.off] <= s.trackers[op.host].started[op.off] <= 1
  {
    hide Exact, QueuesOk, Exclusive, Paired, AllBalanced, Shaped;
    AtMostOne(cfg, s, op);
  }

  lemma DoneMeansEmpty(cfg: Config, s: Sim)
    requires OneToOne(cfg) && Inv(cfg, s) && AllDone(cfg, s)
    ensures QueuesEmpty(s)
  {
    hide Exact, Exclusive, Paired, ValidConfig, Shaped, AllBalanced;
    forall ch ensures Queue(s.rq, ch) == [] && Queue(s.uq, ch) == [] {
      if Queue(s.rq, ch) != [] {
        var recv := Queue(s.rq, ch)[0];
        assert IsKind(cfg, recv, Recv);
        NotQueuedWhenDone(cfg, s, recv, recv);
      }
      if Queue(s.uq, ch) != [] {
        var send := Queue(s.uq, ch)[0].op;
        assert OpsOf(Queue(s.uq, ch))[0] == send;
        assert IsKind(cfg, send, Send);
        var recv :| Partners(cfg, send, recv);
        NotQueuedWhenDone(cfg, s, send, recv);
      }
    }
  }

  lemma NotQueuedWhenDone(cfg: Config, s: Sim, op: Op, recv: Op)
    requires OneToOne(cfg) && Inv(cfg, s) && AllDone(cfg, s)
    requires IsKind(cfg, recv, Recv) && (op == recv || Partners(cfg, op, recv))
    ensures Ledger(cfg, s, op).inRq == Ledger(cfg, s, op).inUq == 0
  {
    hide Exact, QueuesOk, Exclusive, Paired, ValidConfig, Shaped;
    assert Balanced(cfg, op, Ledger(cfg, s, op)) && Balanced(cfg, recv, Ledger(cfg, s, recv));
    AtMostOne(cfg, s, op);
    AtMostOne(cfg, s, recv);
    if op != recv {
      MateIsPartner(cfg, s, op, recv);
    }
  }

  // ---- and conversely: what happens, happens in an order that respects Precedes ----

  /** A step starts nothing but the popped operation, if that is an Issue item. */
  lemma StepStarts(cfg: Config, s: Sim, i: nat, noise: nat, op: Op)
    requires Agreeing(cfg) && Inv(cfg, s) && i < |s.aq| && IsOp(cfg, op)
    requires TrackersShaped(cfg, Step(cfg, s, i, noise))
    requires Starts(Step(cfg, s, i, noise), op) > Starts(s, op)
    ensures Count(s.aq, Issue, op) > 0
  {
    hide Exact, QueuesOk, Exclusive, Paired, AllBalanced, Shaped, Run, Agreeing, Flush, FreeAt, Quiet;
    var e, s0 := s.aq[i], Pop(s, i);
    PopShape(cfg, s, i);
    MayPop(cfg, s, i);
    RunKeepsCore(cfg, s, i, noise);
    var m := Run(cfg, s0, e, noise);
    FlushAdvances(cfg, m, e.op.host, op);
    FlushAdvances(cfg, Flush(cfg, m, e.op.host), NodeOf(cfg, e.op).peer, op);
    if FreeAt(cfg, s0, e) <= e.time {
      RunExecuted(cfg, s0, e, noise);
      ExecutedAdvances(cfg, s0, e, m, op);
      CountMember(s.aq, i);
    } else {
      BusyReinserts(cfg, s0, e, noise);
    }
  }

  /** `rank` numbers what has happened, below `bound`, in an order that respects Precedes. */
  ghost predicate Ordered(cfg: Config, s: Sim, rank: map<Moment, nat>, bound: nat)
    requires TrackersShaped(cfg, s)
  {
    && (forall m {:trigger m in rank} :: m in rank <==> Happened(cfg, s, m))
    && (forall m {:trigger rank[m]} :: m in rank ==> rank[m] < bound)
    && (forall a, b {:trigger Precedes(cfg, a, b)} :: Precedes(cfg, a, b) && b in rank ==> a in rank && rank[a] < rank[b])
  }

  ghost function Extend(cfg: Config, s: Sim, t: Sim, rank: map<Moment, nat>, bound: nat): (r: map<Moment, nat>)
    requires TrackersShaped(cfg, s) && TrackersShaped(cfg, t)
    requires forall m {:trigger m in rank} :: m in rank <==> Happened(cfg, s, m)
    ensures forall m {:trigger m in r} :: m in r <==> Happened(cfg, t, m)
  {
    hide TrackersShaped;
    map m | m in MomentsOfHosts(cfg, |cfg.sched|) && Happened(cfg, t, m) ::
      if Happened(cfg, s, m) then rank[m] else if m.Begin? then bound else bound + 1
  }

  lemma InvStep(cfg: Config, s: Sim, i: nat, noise: nat)
    requires Agreeing(cfg) && Inv(cfg, s) && i < |s.aq|
    ensures Inv(cfg, Step(cfg, s, i, noise))
  {
    hide Exact, Exclusive, Paired, AllBalanced, Shaped, Agreeing, Step, TakesAgreeing, Quiet;
    MayPop(cfg, s, i);
    StepKeepsInv(cfg, s, i, noise);
  }

  lemma OrderedStep(cfg: Config, s: Sim, i: nat, noise: nat, rank: map<Moment, nat>, bound: nat)
    requires Agreeing(cfg) && OneToOne(cfg) && Inv(cfg, s) && i < |s.aq| && Ordered(cfg, s, rank, bound)
    ensures TrackersShaped(cfg, Step(cfg, s, i, noise))
    ensures Ordered(cfg, Step(cfg, s, i, noise), Extend(cfg, s, Step(cfg, s, i, noise), rank, bound), bound + 2)
  {
    hide Inv, Agreeing, OneToOne, Step, TrackersShaped, Precedes, MomentsOfHosts;
    InvShape(cfg, s);
    InvStep(cfg, s, i, noise);
    var t := Step(cfg, s, i, noise);
    InvShape(cfg, t);
    var r := Extend(cfg, s, t, rank, bound);
    forall a, b | Precedes(cfg, a, b) && b in r ensures a in r && r[a] < r[b] {
      HappenedClosed(cfg, t, a, b);
      if Happened(cfg, s, b) {
        HappenedClosed(cfg, s, a, b);
        assert b in rank;
      } else if b.Begin? {
        StepStarts(cfg, s, i, noise, b.op);
        FreeMeansSatisfied(cfg, s, a, b.op);
        assert a in rank;
      } else {
        EndAfterBegin(cfg, a, b);
      }
    }
  }

  lemma EndAfterBegin(cfg: Config, a: Moment, b: Moment)
    requires Precedes(cfg, a, b) && b.End?
    ensures a.Begin?
  {
  }

  lemma {:induction false} ReachedOrdered(cfg: Config, counts: seq<seq<nat>>, s: Sim, n: nat) returns (rank: map<Moment, nat>)
    requires Loaded(cfg, counts) && Agreeing(cfg) && OneToOne(cfg) && ReachedIn(cfg, counts, s, n)
    ensures TrackersShaped(cfg, s) && Ordered(cfg, s, rank, 2 * n)
    decreases n
  {
    hide Inv, Agreeing, OneToOne, Step, TrackersShaped, Precedes, Shape, Extend, Earliest, ValidConfig, FlushUpTo;
    ReachedInv(cfg, counts, s, n);
    InvShape(cfg, s);
    if n == 0 {
      rank := map[];
      forall m ensures !Happened(cfg, s, m) {
        if IsOp(cfg, m.op) {
          NothingYet(cfg, counts, m.op);
        }
      }
    } else {
      var p, i, noise :| ReachedIn(cfg, counts, p, n - 1) && IsStep(cfg, p, i, noise, s);
      var before := ReachedOrdered(cfg, counts, p, n - 1);
      ReachedInv(cfg, counts, p, n - 1);
      EarliestIndex(p, i);
      OrderedStep(cfg, p, i, noise, before, 2 * (n - 1));
      rank := Extend(cfg, p, s, before, 2 * (n - 1));
    }
  }

  lemma EarliestIndex(s: Sim, i: nat)
    requires Earliest(s, i)
    ensures i < |s.aq|
  {
  }

  lemma {:induction false} FlushUpToStarts(cfg: Config, s: Sim, k: nat, op: Op)
    requires TrackersShaped(cfg, s) && IsOp(cfg, op)
    ensures var r := FlushUpTo(cfg, s, k);
      r.trackers[op.host].started == s.trackers[op.host].started && r.trackers[op.host].done == s.trackers[op.host].done
  {
    hide Shaped;
    if k > 0 {
      FlushUpToStarts(cfg, s, k - 1, op);
    }
  }

  lemma NothingYet(cfg: Config, counts: seq<seq<nat>>, op: Op)
    requires Loaded(cfg, counts) && IsOp(cfg, op)
    ensures TrackersShaped(cfg, Start0(cfg, counts))
    ensures !Happened(cfg, Start0(cfg, counts), Begin(op)) && !Happened(cfg, Start0(cfg, counts), End(op))
  {
    hide Exact, Shaped, ValidConfig;
    BootShaped(cfg, counts);
    FlushUpToStarts(cfg, Boot(counts), |cfg.sched|, op);
  }

  /** Every run that reaches an empty event queue has done everything if and only if the
      events of the schedule are acyclic. */
  lemma CompletesIffAcyclic(cfg: Config, counts: seq<seq<nat>>, s: Sim, n: nat)
    requires Loaded(cfg, counts) && Agreeing(cfg) && OneToOne(cfg)
    requires ReachedIn(cfg, counts, s, n) && s.aq == []
    ensures TrackersShaped(cfg, s)
    ensures AllDone(cfg, s) <==> Digraph.Acyclic(EventGraph(cfg))
    ensures AllDone(cfg, s) ==> QueuesEmpty(s)
  {
    hide Inv, Agreeing, OneToOne, Precedes, TrackersShaped, QueuesEmpty, ReachedIn, Digraph.Acyclic;
    ReachedInv(cfg, counts, s, n);
    InvShape(cfg, s);
    if Digraph.Acyclic(EventGraph(cfg)) {
      AcyclicCompletes(cfg, s);
    }
    if AllDone(cfg, s) {
      DoneMeansEmpty(cfg, s);
      var rank := ReachedOrdered(cfg, counts, s, n);
      var number := (m: Moment) => if m in rank then rank[m] else 0;
      forall a, b | EventGraph(cfg)(a, b) ensures number(a) < number(b) {
        PrecedesOps(cfg, a, b);
        DoneOnce(cfg, s, b.op);
        assert Happened(cfg, s, b);
        assert b in rank;
      }
      Digraph.RankedIsAcyclic(EventGraph(cfg), number);
    }
  }

  lemma PrecedesOps(cfg: Config, a: Moment, b: Moment)
    requires Precedes(cfg, a, b)
    ensures IsOp(cfg, a.op) && IsOp(cfg, b.op)
  {
  }
}
