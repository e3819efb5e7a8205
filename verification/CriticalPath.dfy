/** Lower bounds on completion times in every reachable state. */
module CriticalPath {
  import opened Schedule
  import opened DependencyTracker
  import opened StartTimes
  import opened EventLoop
  import opened Accounting
  import opened Effects
  import opened ExactlyOnce
  import opened Runs
  import opened Timing
  import opened Completion
  import SG = SerializedGraph

  lemma BootTimed(cfg: Config, counts: seq<seq<nat>>)
    requires Loaded(cfg, counts)
    ensures Timed(cfg, Boot(counts))
  {
    hide Exact, Shaped, Flight, Handling, Ready, ValidConfig;
    BootShaped(cfg, counts);
    var s := Boot(counts);
    forall h: nat | h < |counts|
      ensures Prompt(cfg.sched[h], s.trackers[h]) && TakenOk(s.trackers[h]) && FreedFrom(s.trackers[h], 0)
    {
      assert WellFormed(cfg.sched[h]) by { WellFormedAt(cfg, h); }
      SG.InitialExact(cfg.sched[h], counts[h]);
      RootsAtZero(counts[h], |counts[h]|);
      InitiallyPrompt(cfg.sched[h], s.trackers[h]);
    }
  }

  lemma {:induction false} RootsAtZero(counts: seq<nat>, k: nat)
    requires k <= |counts|
    ensures forall i :: 0 <= i < |SG.RootsUpTo(counts, k)| ==> SG.RootsUpTo(counts, k)[i].start == 0
  {
    if k > 0 {
      RootsAtZero(counts, k - 1);
    }
  }

  lemma WellFormedAt(cfg: Config, h: nat)
    requires ValidConfig(cfg) && h < |cfg.sched|
    ensures WellFormed(cfg.sched[h])
  {
  }

  lemma {:induction false} FlushUpToTimed(cfg: Config, s: Sim, k: nat)
    requires Timed(cfg, s) && k <= |cfg.sched|
    ensures Timed(cfg, FlushUpTo(cfg, s, k))
  {
    hide Exact, Shaped, TrackersTimed, ItemsTimed, EndsTimed, StartsTimed, UqTimed, RecordsOk, Flush, ValidConfig;
    if k > 0 {
      FlushUpToTimed(cfg, s, k - 1);
      FlushTimed(cfg, FlushUpTo(cfg, s, k - 1), k - 1);
    }
  }

  lemma {:induction false} ReachedTimed(cfg: Config, counts: seq<seq<nat>>, s: Sim, n: nat)
    requires Loaded(cfg, counts) && Agreeing(cfg) && RequiresOnly(cfg) && ReachedIn(cfg, counts, s, n)
    ensures Timed(cfg, s)
    decreases n
  {
    hide Timed, Inv, Agreeing, RequiresOnly, Step, TrackersShaped, Shape, Earliest, FlushUpTo;
    if n == 0 {
      BootTimed(cfg, counts);
      FlushUpToTimed(cfg, Boot(counts), |cfg.sched|);
    } else {
      var p, i, noise :| ReachedIn(cfg, counts, p, n - 1) && IsStep(cfg, p, i, noise, s);
      ReachedTimed(cfg, counts, p, n - 1);
      ReachedInv(cfg, counts, p, n - 1);
      StepAgrees(cfg, p, i, noise, s);
      StepTimed(cfg, p, i, noise);
    }
  }

  // ---- the critical path ----

  /** When a moment that has happened did happen. */
  ghost function When(cfg: Config, s: Sim, m: Moment): nat
    requires TrackersShaped(cfg, s) && Timed(cfg, s) && Happened(cfg, s, m)
  {
    hide Exact, Shaped, ItemsTimed, EndsTimed, StartsTimed, UqTimed, TrackersTimed;
    match m
    case Begin(op) => assert op in s.startedAt; s.startedAt[op]
    case End(op) => assert op.off in s.trackers[op.host].doneAt; s.trackers[op.host].doneAt[op.off]
  }

  /** An arc of the path: what separates b from a, and by how much at least. */
  datatype Arc = Dependency | Work | Transfer | Posted

  ghost predicate IsArc(cfg: Config, s: Sim, a: Moment, arc: Arc, b: Moment)
  {
    && IsOp(cfg, a.op) && IsOp(cfg, b.op)
    && match arc
       case Dependency =>
         a.End? && b.Begin? && a.op.host == b.op.host && b.op.off in NodeOf(cfg, a.op).dependOnMe
       case Work =>
         a.Begin? && b.End? && a.op == b.op && NodeOf(cfg, a.op).kind != Recv
       case Transfer =>  // from a send to the end of the receive it was matched with, or to its own if rendezvous
         a.Begin? && b.End? && NodeOf(cfg, a.op).kind == Send && a.op in s.mate && IsOp(cfg, s.mate[a.op])
         && (b.op == s.mate[a.op] || (b.op == a.op && !Eager(cfg, b.op)))
       case Posted =>    // from a receive to its own end, or to the end of its rendezvous send
         a.Begin? && b.End? && NodeOf(cfg, a.op).kind == Recv && a.op in s.mate && IsOp(cfg, s.mate[a.op])
         && (b.op == a.op || (b.op == s.mate[a.op] && !Eager(cfg, b.op)))
  }

  ghost function Weight(cfg: Config, s: Sim, a: Moment, arc: Arc, b: Moment): nat
    requires ValidConfig(cfg) && IsArc(cfg, s, a, arc, b)
  {
    match arc
    case Dependency => 0
    case Work =>
      if NodeOf(cfg, a.op).kind == Calc then NodeOf(cfg, a.op).size
      else cfg.par.o + (SizeOf(cfg, a.op) - 1) * cfg.par.O
    case Transfer => Flight(cfg, a.op) + Handling(cfg, a.op, s.mate[a.op])
    case Posted => Handling(cfg, s.mate[a.op], a.op)
  }

  lemma ArcTime(cfg: Config, s: Sim, a: Moment, arc: Arc, b: Moment)
    requires ValidConfig(cfg) && TrackersShaped(cfg, s) && Timed(cfg, s) && Core(cfg, s)
    requires IsArc(cfg, s, a, arc, b) && Happened(cfg, s, a) && Happened(cfg, s, b)
    ensures When(cfg, s, a) + Weight(cfg, s, a, arc, b) <= When(cfg, s, b)
  {
    hide Exact, Shaped, ItemsTimed, UqTimed, TrackersTimed, ValidConfig, Flight, Handling, Exclusive, QueuesOk, Shape;
    match arc
    case Dependency => assert Ready(cfg, s, b.op, s.startedAt[b.op]);
    case Work => assert EndTimed(cfg, s, b.op);
    case Transfer =>
      MatchedIsDone(cfg, s, a.op);
      TransferEnd(cfg, s, a.op, b.op);
    case Posted =>
      MatchedIsDone(cfg, s, s.mate[a.op]);
      PostedEnd(cfg, s, a.op, b.op);
  }

  lemma MatchedIsDone(cfg: Config, s: Sim, send: Op)
    requires Core(cfg, s) && IsOp(cfg, send) && send in s.mate && IsOp(cfg, s.mate[send]) && NodeOf(cfg, s.mate[send]).kind == Recv
    ensures TrackersShaped(cfg, s) && s.mate[send].off in s.trackers[s.mate[send].host].done
    ensures IsKind(cfg, send, Send) && s.mate[send] in s.mate && s.mate[s.mate[send]] == send
  {
    hide Exact, Shaped, QueuesOk, Exclusive, ValidConfig;
    var recv := s.mate[send];
    assert Balanced(cfg, recv, Ledger(cfg, s, recv));
  }

  lemma TransferEnd(cfg: Config, s: Sim, send: Op, op: Op)
    requires ValidConfig(cfg) && TrackersShaped(cfg, s) && Timed(cfg, s)
    requires IsKind(cfg, send, Send) && send in s.mate && IsKind(cfg, s.mate[send], Recv)
    requires s.mate[send] in s.mate && s.mate[s.mate[send]] == send
    requires op == s.mate[send] || (op == send && !Eager(cfg, op))
    requires op.off in s.trackers[op.host].doneAt && s.mate[send].off in s.trackers[s.mate[send].host].doneAt
    ensures send in s.startedAt
    ensures s.startedAt[send] + Flight(cfg, send) + Handling(cfg, send, s.mate[send]) <= s.trackers[op.host].doneAt[op.off]
  {
    hide Exact, Shaped, ItemsTimed, UqTimed, TrackersTimed, ValidConfig, Flight, Handling;
    assert EndTimed(cfg, s, s.mate[send]);
  }

  lemma PostedEnd(cfg: Config, s: Sim, recv: Op, op: Op)
    requires ValidConfig(cfg) && TrackersShaped(cfg, s) && Timed(cfg, s) && Paired(cfg, s)
    requires IsKind(cfg, recv, Recv) && recv in s.mate && IsOp(cfg, s.mate[recv])
    requires op == recv || (op == s.mate[recv] && !Eager(cfg, op))
    requires op.off in s.trackers[op.host].doneAt && recv.off in s.trackers[recv.host].doneAt
    ensures recv in s.startedAt
    ensures s.startedAt[recv] + Handling(cfg, s.mate[recv], recv) <= s.trackers[op.host].doneAt[op.off]
  {
    hide Exact, Shaped, ItemsTimed, UqTimed, TrackersTimed, ValidConfig, Flight, Handling;
    assert EndTimed(cfg, s, recv);
  }

  /** A path from a: arcs, each with the moment it leads to. */
  type Path = seq<(Arc, Moment)>

  ghost function EndOf(a: Moment, path: Path): Moment {
    if path == [] then a else path[|path| - 1].1
  }

  ghost predicate IsPath(cfg: Config, s: Sim, a: Moment, path: Path)
    requires TrackersShaped(cfg, s)
  {
    path != [] ==>
      var init, last := path[..|path| - 1], path[|path| - 1];
      IsPath(cfg, s, a, init) && IsArc(cfg, s, EndOf(a, init), last.0, last.1) && Happened(cfg, s, last.1)
  }

  ghost function Length(cfg: Config, s: Sim, a: Moment, path: Path): nat
    requires ValidConfig(cfg) && TrackersShaped(cfg, s) && IsPath(cfg, s, a, path)
  {
    if path == [] then 0
    else
      var init, last := path[..|path| - 1], path[|path| - 1];
      Length(cfg, s, a, init) + Weight(cfg, s, EndOf(a, init), last.0, last.1)
  }

  lemma {:induction false} PathTime(cfg: Config, s: Sim, a: Moment, path: Path)
    requires ValidConfig(cfg) && TrackersShaped(cfg, s) && Timed(cfg, s) && Core(cfg, s)
    requires Happened(cfg, s, a) && IsPath(cfg, s, a, path)
    ensures Happened(cfg, s, EndOf(a, path))
    ensures When(cfg, s, a) + Length(cfg, s, a, path) <= When(cfg, s, EndOf(a, path))
    decreases |path|
  {
    hide Timed, Core, ValidConfig, TrackersShaped, When, Weight, Happened, IsArc;
    if path != [] {
      var init, last := path[..|path| - 1], path[|path| - 1];
      PathTime(cfg, s, a, init);
      ArcTime(cfg, s, EndOf(a, init), last.0, last.1);
    }
  }

  /** In every reachable state, an operation that has ended did so no earlier than the length
      of any path of dependencies, work and messages into it. */
  lemma CriticalPathBound(cfg: Config, counts: seq<seq<nat>>, s: Sim, n: nat, a: Moment, path: Path, op: Op)
    requires Loaded(cfg, counts) && Agreeing(cfg) && RequiresOnly(cfg) && ReachedIn(cfg, counts, s, n)
    requires |s.trackers| == |cfg.sched| && TrackersShaped(cfg, s)
    requires Happened(cfg, s, a) && IsPath(cfg, s, a, path) && EndOf(a, path) == End(op)
    ensures IsOp(cfg, op) && op.off in s.trackers[op.host].doneAt
    ensures Length(cfg, s, a, path) <= s.trackers[op.host].doneAt[op.off]
  {
    hide Agreeing, RequiresOnly, ReachedIn, ValidConfig, TrackersShaped, IsPath, Length, Quiet, AllBalanced, Exclusive, Paired;
    hide ItemsTimed, EndsTimed, StartsTimed, UqTimed, TrackersTimed, RecordsOk;
    ReachedTimed(cfg, counts, s, n);
    ReachedInv(cfg, counts, s, n);
    PathTime(cfg, s, a, path);
    EndWhen(cfg, s, op);
  }

  lemma EndWhen(cfg: Config, s: Sim, op: Op)
    requires TrackersShaped(cfg, s) && Timed(cfg, s) && Happened(cfg, s, End(op))
    ensures op.off in s.trackers[op.host].doneAt && When(cfg, s, End(op)) == s.trackers[op.host].doneAt[op.off]
  {
    hide Exact, Shaped, ItemsTimed, EndsTimed, StartsTimed, UqTimed, TrackersTimed;
  }
}
