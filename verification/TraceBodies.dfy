/** What each kind of call adds to a converted trace. */
module TraceBodies {
  import opened Powers
  import opened Goal
  import opened TraceConversion
  import opened TraceOrder
  import opened TraceProgram
  import opened TraceWaits
  import RD = RecursiveDoubling
  import BT = BinomialTree
  import TF = TreeFlow
  import DI = Dissemination

  /** The operations a call adds, the calculation before it last. */
  lemma CallAdds(o: Options, c: Conv, t: Traced)
    requires o.rank < o.n && DepsOk(c.prev) && !t.call.Coll?
    ensures var d, before := Apply(o, c, t), Exec(o.scaled(t.from - c.start));
      d == c ||
      match t.call
      case Recv(size, src, tag) => d.book.ops == c.book.ops + [GoalOp.Recv(size, src, tag), before] && d.start == t.until
      case Irecv(size, src, tag, _) => d.book.ops == c.book.ops + [GoalOp.Recv(size, src, tag), before] && d.start == t.until
      case Send(size, dest, tag) => d.book.ops == c.book.ops + [GoalOp.Send(size, dest, tag), before] && d.start == t.until
      case Isend(size, dest, tag, _) => d.book.ops == c.book.ops + [GoalOp.Send(size, dest, tag), before] && d.start == t.until
      case Wait(_) => d.book.ops == c.book.ops + [Exec(0), before] && d.start == t.until
      case Waitall(_, _) => d.book.ops == c.book.ops + [Exec(0), before] && d.start == t.until
      case Sendrecv(sendSize, dest, recvSize, src, tag) =>
        d.book.ops == c.book.ops + [GoalOp.Send(sendSize, dest, tag), GoalOp.Recv(recvSize, src, tag), before] && d.start == t.until
      case Finalize => d.book.ops == c.book.ops + [before] && d.start == t.from
      case _ => false
  {
    hide AddAfter, AddBefore;
    var b := c.book;
    match t.call
    case Recv(size, src, tag) => NextOpSize(o, c.(book := AddRecv(b.(tag := tag), size, src)), Blocking(Last(b) + 1), t.from, t.until);
    case Send(size, dest, tag) => NextOpSize(o, c.(book := AddSend(b.(tag := tag), size, dest)), Blocking(Last(b) + 1), t.from, t.until);
    case Irecv(size, src, tag, req) =>
      NextOpSize(o, c.(reqs := c.reqs[req := Last(b) + 1], book := AddRecv(b.(tag := tag), size, src)), Blocking(Last(b) + 1), t.from, t.until);
    case Isend(size, dest, tag, req) =>
      NextOpSize(o, c.(reqs := c.reqs[req := Last(b) + 1], book := AddSend(b.(tag := tag), size, dest)), Blocking(Last(b) + 1), t.from, t.until);
    case Wait(req) =>
      if req in c.reqs {
        var b1 := AddExec(b, 0);
        NextOpSize(o, c.(reqs := c.reqs - {req}, book := AddEdge(b1, Last(b1), c.reqs[req], false)), Blocking(Last(b1)), t.from, t.until);
      }
    case Waitall(req, count) =>
      var b1 := AddExec(b, 0);
      var b2 := RequireAll(b1, Last(b1), Known(c.reqs, req, count));
      RequireAllOps(b1, Last(b1), Known(c.reqs, req, count));
      NextOpSize(o, c.(reqs := c.reqs - {req}, book := b2), Blocking(Last(b2)), t.from, t.until);
    case Sendrecv(sendSize, dest, recvSize, src, tag) =>
      var b2 := AddRecv(AddSend(b.(tag := tag), sendSize, dest), recvSize, src);
      NextOpSize(o, c.(book := b2), [Dep(Last(b2) - 1, false), Dep(Last(b2), false)], t.from, t.until);
    case Finalize => NextOpSize(o, c, [Dep(NO_ID, false)], t.from, t.from);
    case Other =>
  }

  /** The time between calls is split: at most nbcify of it runs in the background, the rest is
      the calculation. */
  lemma CollectAdds(o: Options, c: Conv, kind: Collective, size: nat, tag: nat, from: int, until: int)
    requires o.rank < o.n && DepsOk(c.prev)
    ensures var d, body := Collect(o, c, kind, size, tag, from, until), Body(o, c.book.(tag := tag, start := {}, end := {}), kind, size);
      var elapsed := from - c.start;
      var share := if elapsed < o.nbcify then elapsed else o.nbcify;
      && d.book.ops == body.ops + [Exec(0)] + (if share != 0 then [Exec(share % WORD)] else []) + [Exec(o.scaled(elapsed - share))]
      && d.start == until
  {
    hide AddAfter, AddBefore, Body;
    var b0 := c.book.(tag := tag, start := {}, end := {});
    var b := Body(o, b0, kind, size);
    var c1, starts, ends := c.(book := b), Ascending(b.start, |b.ops|), Ascending(b.end, |b.ops|);
    var b1 := AddExec(b, 0);
    RequireAllOps(b1, Last(b1), ends);
    var b2 := RequireAll(b1, Last(b1), ends);
    var virtstart := if from - o.nbcify - c1.start < 0 then c1.start else from - o.nbcify;
    var nbcify := if from - o.nbcify - c1.start < 0 then from - c1.start else o.nbcify;
    var b3 := if nbcify != 0 then AddEdge(AddExec(b2, nbcify % WORD), Last(b2) + 1, Last(b1), true) else b2;
    NextOpSize(o, c1.(book := b3), DepsOn(starts), virtstart, until);
  }

  /** The operations of a collective, in the rank's schedule from position base on. */
  function Added(o: Options, b: Book, kind: Collective, size: nat): seq<GoalOp>
    requires o.rank < o.n
  {
    var ops := Body(o, b, kind, size).ops;
    if |ops| >= |b.ops| then ops[|b.ops|..] else []
  }

  /** In a broadcast every rank but the root receives, once; in a reduction it sends once. */
  lemma TreesHaveRoots(o: Options, b: Book, kind: Collective, size: nat)
    requires o.rank < o.n && (kind.Bcast? || kind.Reduce?) && kind.root < o.n
    ensures var ops := Added(o, b, kind, size);
      && Body(o, b, kind, size).ops == b.ops + ops
      && (forall i :: 0 <= i < |ops| ==> ((if kind.Bcast? then ops[i].Recv? else ops[i].Send?) <==> o.rank != kind.root && i == 0))
      && (o.rank != kind.root ==> ops != [])
  {
    hide BT.Ops, CeilLog2;
    var dir := if kind.Bcast? then BT.Down else BT.Up;
    BT.AfterOps(b, dir, o.n, kind.root, o.rank, size);
    TF.OnlyRootHasNoParent(dir, o.n, kind.root, o.rank, size, b.tag);
  }

  /** The bytes of each message: a barrier exchanges one. */
  function BytesOf(kind: Collective, size: nat): nat {
    if kind.Barrier? then 1 else size
  }

  /** Barriers, allgathers and non-blocking allreduces exchange with the ranks at all doubling
      distances. */
  lemma DisseminationRounds(o: Options, b: Book, kind: Collective, size: nat, i: nat)
    requires o.rank < o.n && (kind.Barrier? || kind.Allgather? || kind.Iallreduce?) && Pow2(i) < o.n
    ensures var ops, bytes := Added(o, b, kind, size), BytesOf(kind, size);
      && |ops| > 2 * i + 1
      && ops[2 * i] == GoalOp.Send(bytes, DI.Ahead(o.rank, o.n, Pow2(i)), b.tag)
      && ops[2 * i + 1] == GoalOp.Recv(bytes, DI.Behind(o.rank, o.n, Pow2(i)), b.tag)
  {
    hide DI.Comms, Emit, Pow2, DI.Ahead, DI.Behind;
    var comms := DI.Comms(o.rank, o.n, BytesOf(kind, size), 1);
    EmitOps(b, comms, NO_ID);
    DI.RoundHas(o.rank, o.n, BytesOf(kind, size), i);
  }

  /** An all-to-all exchanges with all others. */
  lemma AlltoallSteps(o: Options, b: Book, size: nat, s: nat)
    requires o.rank < o.n && 1 <= s < o.n
    ensures var ops := Added(o, b, Alltoall, size);
      && |ops| == 2 * (o.n - 1)
      && ops[2 * (s - 1)] == GoalOp.Send(size, DI.Ahead(o.rank, o.n, s), b.tag)
      && ops[2 * (s - 1) + 1] == GoalOp.Recv(size, DI.Behind(o.rank, o.n, s), b.tag)
  {
    DI.StepAt(b, o.rank, o.n, size, o.n - 1, s);
  }

  /** An allreduce performs the communications of recursive doubling, in order. */
  lemma AllreduceRounds(o: Options, b: Book, size: nat, i: nat)
    requires o.rank < o.n && i < |RD.Comms(o.n, o.rank, size)|
    ensures var ops, comms := Added(o, b, Allreduce, size), RD.Comms(o.n, o.rank, size);
      && |ops| == |comms|
      && (comms[i].To? ==> ops[i] == GoalOp.Send(comms[i].size, comms[i].peer, b.tag))
      && (comms[i].From? ==> ops[i] == GoalOp.Recv(comms[i].size, comms[i].peer, b.tag))
  {
    hide RD.Comms, Emit;
    EmitOps(b, RD.Comms(o.n, o.rank, size), NO_ID);
  }
}
