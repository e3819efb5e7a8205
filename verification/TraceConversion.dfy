/** Converting one rank's MPI trace to a schedule (LocOp::NextOp, finish_coll and the call kinds
    in process_trace.cpp). */
module TraceConversion {
  import opened Powers
  import opened Goal
  import RD = RecursiveDoubling
  import BT = BinomialTree
  import DI = Dissemination

  const REQ_SIZE: nat := 4
  const WORD: nat := 0x1_0000_0000_0000_0000

  datatype Collective = Barrier | Allreduce | Iallreduce(req: nat) | Bcast(root: nat) | Allgather | Reduce(root: nat) | Alltoall

  /** One traced call.  Source and destination ranks and tags are the final ones. */
  datatype Call =
    | Recv(size: nat, src: nat, tag: nat)
    | Irecv(size: nat, src: nat, tag: nat, req: nat)
    | Send(size: nat, dest: nat, tag: nat)
    | Isend(size: nat, dest: nat, tag: nat, req: nat)
    | Wait(req: nat)
    | Waitall(req: nat, count: nat)
    | Sendrecv(sendSize: nat, dest: nat, recvSize: nat, src: nat, tag: nat)
    | Coll(kind: Collective, size: nat, tag: nat, full: bool)
    | Finalize
    | Other

  /** A call with the times it was entered and left. */
  datatype Traced = Traced(call: Call, from: int, until: int)

  /** The rank's place and the options of the conversion.  `scaled` turns elapsed time into the
      size of a calculation. */
  datatype Options = Options(rank: nat, n: nat, nbcify: nat, scaled: int -> nat)

  /** A pending dependency of the calculation between two calls. */
  datatype Dep = Dep(id: int, immediate: bool)

  /** What the loop over the calls updates. */
  datatype Conv = Conv(book: Book, prev: seq<Dep>, reqs: map<nat, nat>, start: int)

  /** The operations in `deps` come after op. */
  function AddAfter(b: Book, deps: seq<Dep>, op: nat): Book
    requires forall i :: 0 <= i < |deps| ==> NO_ID <= deps[i].id
    decreases |deps|
  {
    if deps == [] then b
    else
      AddAfter(if deps[0].id != NO_ID then AddEdge(b, deps[0].id, op, deps[0].immediate) else b, deps[1..], op)
  }

  /** The operations in `deps` come before op. */
  function AddBefore(b: Book, deps: seq<Dep>, op: nat): Book
    requires forall i :: 0 <= i < |deps| ==> NO_ID <= deps[i].id
    decreases |deps|
  {
    if deps == [] then b
    else
      AddBefore(if deps[0].id != NO_ID then AddEdge(b, op, deps[0].id, deps[0].immediate) else b, deps[1..], op)
  }

  predicate DepsOk(deps: seq<Dep>) {
    forall i :: 0 <= i < |deps| ==> NO_ID <= deps[i].id
  }

  /** The calculation between the last call and this one: `next` depend on it, and it depends on
      `prev`. */
  function NextOp(o: Options, c: Conv, next: seq<Dep>, time: int, end: int): Conv
    requires DepsOk(next) && DepsOk(c.prev)
  {
    var b := AddExec(c.book, o.scaled(time - c.start));
    Conv(AddBefore(AddAfter(b, next, Last(b)), c.prev, Last(b)), [], c.reqs, end)
  }

  function Blocking(id: nat): seq<Dep> {
    [Dep(id, false)]
  }

  function DepsOn(ids: seq<nat>): (r: seq<Dep>)
    ensures |r| == |ids| && DepsOk(r) && forall i :: 0 <= i < |ids| ==> r[i] == Dep(ids[i], false)
  {
    seq(|ids|, i requires 0 <= i < |ids| => Dep(ids[i], false))
  }

  /** The operation waits for each of the others. */
  function RequireAll(b: Book, op: nat, ids: seq<nat>): Book
    decreases |ids|
  {
    if ids == [] then b else RequireAll(AddEdge(b, op, ids[0], false), op, ids[1..])
  }

  /** What the collective itself adds. */
  function Body(o: Options, b: Book, kind: Collective, size: nat): Book
    requires o.rank < o.n
  {
    match kind
    case Barrier => Emit(b, DI.Comms(o.rank, o.n, 1, 1), NO_ID)
    case Allreduce => Emit(b, RD.Comms(o.n, o.rank, size), NO_ID)
    case Iallreduce(_) => Emit(b, DI.Comms(o.rank, o.n, size, 1), NO_ID)
    case Bcast(root) => BT.After(b, BT.Down, o.n, root, BT.Swap(o.rank, root), size, CeilLog2(o.n))
    case Allgather => Emit(b, DI.Comms(o.rank, o.n, size, 1), NO_ID)
    case Reduce(root) => BT.After(b, BT.Up, o.n, root, BT.Swap(o.rank, root), size, CeilLog2(o.n))
    case Alltoall => DI.Exchange(b, o.rank, o.n, size, o.n - 1)
  }

  /** The completion of a collective, its share in the background, and the calculation before
      it. */
  function FinishColl(o: Options, c: Conv, starts: seq<nat>, ends: seq<nat>, from: int, until: int): Conv
    requires DepsOk(c.prev)
  {
    var b := AddExec(c.book, 0);
    var collop := Last(b);
    var b1 := RequireAll(b, collop, ends);
    var virtstart := if from - o.nbcify - c.start < 0 then c.start else from - o.nbcify;
    var nbcify := if from - o.nbcify - c.start < 0 then from - c.start else o.nbcify;
    var b2 := if nbcify != 0 then AddEdge(AddExec(b1, nbcify % WORD), Last(b1) + 1, collop, true) else b1;
    NextOp(o, c.(book := b2), DepsOn(starts), virtstart, until).(prev := Blocking(collop))
  }

  function Collect(o: Options, c: Conv, kind: Collective, size: nat, tag: nat, from: int, until: int): Conv
    requires o.rank < o.n && DepsOk(c.prev)
  {
    var b := Body(o, c.book.(tag := tag, start := {}, end := {}), kind, size);
    var done := FinishColl(o, c.(book := b), Ascending(b.start, |b.ops|), Ascending(b.end, |b.ops|), from, until);
    if kind.Iallreduce? then done.(reqs := done.reqs[kind.req := Last(b) + 1]) else done
  }

  /** The operations of the requests req, req + REQ_SIZE, ... that are known. */
  function Known(reqs: map<nat, nat>, req: nat, count: nat): seq<nat> {
    if count == 0 then []
    else
      Known(reqs, req, count - 1)
      + if req + REQ_SIZE * (count - 1) in reqs then [reqs[req + REQ_SIZE * (count - 1)]] else []
  }

  /** A call whose operation waits for it and for which the next calculation waits. */
  function Single(o: Options, c: Conv, b: Book, immediate: bool, from: int, until: int): Conv
    requires DepsOk(c.prev)
  {
    NextOp(o, c.(book := b), Blocking(Last(b)), from, until).(prev := [Dep(Last(b), immediate)])
  }

  /** One traced call. */
  function Apply(o: Options, c: Conv, t: Traced): (r: Conv)
    requires o.rank < o.n && DepsOk(c.prev)
    ensures DepsOk(r.prev)
  {
    var b := c.book;
    match t.call
    case Recv(size, src, tag) => Single(o, c, AddRecv(b.(tag := tag), size, src), false, t.from, t.until)
    case Send(size, dest, tag) => Single(o, c, AddSend(b.(tag := tag), size, dest), false, t.from, t.until)
    case Irecv(size, src, tag, req) =>
      var b1 := AddRecv(b.(tag := tag), size, src);
      Single(o, c.(reqs := c.reqs[req := Last(b1)]), b1, true, t.from, t.until)
    case Isend(size, dest, tag, req) =>
      var b1 := AddSend(b.(tag := tag), size, dest);
      Single(o, c.(reqs := c.reqs[req := Last(b1)]), b1, true, t.from, t.until)
    case Wait(req) =>
      if req !in c.reqs then c
      else
        var b1 := AddExec(b, 0);
        Single(o, c.(reqs := c.reqs - {req}), AddEdge(b1, Last(b1), c.reqs[req], false), false, t.from, t.until)
    case Waitall(req, count) =>
      var b1 := AddExec(b, 0);
      Single(o, c.(reqs := c.reqs - {req}), RequireAll(b1, Last(b1), Known(c.reqs, req, count)), false, t.from, t.until)
    case Sendrecv(sendSize, dest, recvSize, src, tag) =>
      var b1 := AddSend(b.(tag := tag), sendSize, dest);
      var b2 := AddRecv(b1, recvSize, src);
      var both := [Dep(Last(b1), false), Dep(Last(b2), false)];
      NextOp(o, c.(book := b2), both, t.from, t.until).(prev := both)
    case Coll(kind, size, tag, full) => if full then Collect(o, c, kind, size, tag, t.from, t.until) else c
    case Finalize => NextOp(o, c, [Dep(NO_ID, false)], t.from, t.from)
    case Other => c
  }

  /** The root of a collective, if it has one, takes part in it. */
  predicate RootOk(kind: Collective, n: nat) {
    match kind
    case Bcast(root) => root < n
    case Reduce(root) => root < n
    case _ => true
  }

  /** The calls are well-formed: the roots of collectives exist. */
  predicate WellTraced(calls: seq<Traced>, n: nat) {
    forall i {:trigger calls[i]} :: 0 <= i < |calls| && calls[i].call.Coll? ==> RootOk(calls[i].call.kind, n)
  }

  /** The state before the first call, and after k calls. */
  function Begin(start: int): Conv {
    Conv(Book([], [], 0, {}, {}), [Dep(NO_ID, false)], map[], start)
  }

  function Converted(o: Options, start: int, calls: seq<Traced>, k: nat): (r: Conv)
    requires o.rank < o.n && k <= |calls|
    ensures DepsOk(r.prev)
  {
    if k == 0 then Begin(start) else Apply(o, Converted(o, start, calls, k - 1), calls[k - 1])
  }
}
