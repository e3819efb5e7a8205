/** What waits for whose completion in a converted trace. */
module TraceWaits {
  import opened Goal
  import opened TraceConversion
  import opened TraceOrder
  import opened TraceProgram
  import opened TraceBoundary
  import opened Powers
  import RD = RecursiveDoubling
  import BT = BinomialTree
  import DI = Dissemination

  /** y comes after the end of x, not only after its start. */
  ghost predicate Awaits(b: Book, x: nat, y: nat) {
    exists e :: e in b.reqs && e.head == x && !e.immediate && Reaches(b, e.tail, y)
  }

  // ---- what the calculation between two calls waits for ----

  /** The calculation before the next call that adds anything waits for exactly what is pending
      after the last one: for the end of it, or, where that is marked, for its start alone. */
  lemma CalculationWaits(o: Options, start: int, calls: seq<Traced>, j: nat, e: Edge)
    requires o.rank < o.n && j < |calls| && WellTraced(calls, o.n)
    requires Converted(o, start, calls, j) != Converted(o, start, calls, j + 1)
    ensures var y := |Converted(o, start, calls, j + 1).book.ops|;
      e in Converted(o, start, calls, |calls|).book.reqs && e.tail == y <==> IsPending(Converted(o, start, calls, j).prev, y, e)
  {
    hide Converted, IsPending;
    StepEnds(o, start, calls, j);
    EdgesStay(o, start, calls, j + 1, |calls|, e);
  }

  /** Later calls add no dependency of an earlier operation, and take none back. */
  lemma {:induction false} EdgesStay(o: Options, start: int, calls: seq<Traced>, j: nat, k: nat, e: Edge)
    requires o.rank < o.n && j <= k <= |calls| && WellTraced(calls, o.n)
    ensures |Converted(o, start, calls, j).book.ops| <= |Converted(o, start, calls, k).book.ops|
    ensures e in Converted(o, start, calls, j).book.reqs ==> e in Converted(o, start, calls, k).book.reqs
    ensures e in Converted(o, start, calls, k).book.reqs && e.tail <= |Converted(o, start, calls, j).book.ops|
        ==> e in Converted(o, start, calls, j).book.reqs
    decreases k
  {
    hide Converted;
    if j < k {
      EdgesStay(o, start, calls, j, k - 1, e);
      StepEnds(o, start, calls, k - 1);
      StepIncludes(o, start, calls, k - 1);
    }
  }

  lemma StepIncludes(o: Options, start: int, calls: seq<Traced>, k: nat)
    requires o.rank < o.n && k < |calls| && WellTraced(calls, o.n)
    ensures Includes(Converted(o, start, calls, k + 1).book, Converted(o, start, calls, k).book)
  {
    hide Apply;
    ApplyIncludes(o, Converted(o, start, calls, k), calls[k]);
  }

  lemma NextOpIncludes(o: Options, c: Conv, next: seq<Dep>, time: int, end: int)
    requires DepsOk(next) && DepsOk(c.prev)
    ensures Includes(NextOp(o, c, next, time, end).book, c.book)
  {
    hide Reaches;
    NextOpReaches(o, c, next, time, end);
  }

  lemma ApplyIncludes(o: Options, c: Conv, t: Traced)
    requires o.rank < o.n && DepsOk(c.prev)
    ensures Includes(Apply(o, c, t).book, c.book)
  {
    hide NextOp, FinishColl, Body;
    var b := c.book;
    match t.call
    case Recv(size, src, tag) =>
      NextOpIncludes(o, c.(book := AddRecv(b.(tag := tag), size, src)), Blocking(Last(b) + 1), t.from, t.until);
    case Send(size, dest, tag) =>
      NextOpIncludes(o, c.(book := AddSend(b.(tag := tag), size, dest)), Blocking(Last(b) + 1), t.from, t.until);
    case Irecv(size, src, tag, req) =>
      NextOpIncludes(o, c.(reqs := c.reqs[req := Last(b) + 1], book := AddRecv(b.(tag := tag), size, src)), Blocking(Last(b) + 1), t.from, t.until);
    case Isend(size, dest, tag, req) =>
      NextOpIncludes(o, c.(reqs := c.reqs[req := Last(b) + 1], book := AddSend(b.(tag := tag), size, dest)), Blocking(Last(b) + 1), t.from, t.until);
    case Wait(req) =>
      if req in c.reqs {
        var b1 := AddExec(b, 0);
        NextOpIncludes(o, c.(reqs := c.reqs - {req}, book := AddEdge(b1, Last(b1), c.reqs[req], false)), Blocking(Last(b1)), t.from, t.until);
      }
    case Waitall(req, count) =>
      var b1 := AddExec(b, 0);
      var b2 := RequireAll(b1, Last(b1), Known(c.reqs, req, count));
      RequireAllHas(b1, Last(b1), Known(c.reqs, req, count));
      RequireAllOps(b1, Last(b1), Known(c.reqs, req, count));
      NextOpIncludes(o, c.(reqs := c.reqs - {req}, book := b2), Blocking(Last(b2)), t.from, t.until);
    case Sendrecv(sendSize, dest, recvSize, src, tag) =>
      var b2 := AddRecv(AddSend(b.(tag := tag), sendSize, dest), recvSize, src);
      NextOpIncludes(o, c.(book := b2), [Dep(Last(b2) - 1, false), Dep(Last(b2), false)], t.from, t.until);
    case Coll(kind, size, tag, full) =>
      if full {
        CollectIncludes(o, c, kind, size, tag, t.from, t.until);
      }
    case Finalize => NextOpIncludes(o, c, [Dep(NO_ID, false)], t.from, t.from);
    case Other =>
  }

  lemma CollectIncludes(o: Options, c: Conv, kind: Collective, size: nat, tag: nat, from: int, until: int)
    requires o.rank < o.n && DepsOk(c.prev)
    ensures Includes(Collect(o, c, kind, size, tag, from, until).book, c.book)
  {
    hide NextOp, Body;
    var b0 := c.book.(tag := tag, start := {}, end := {});
    BodyIncludes(o, b0, kind, size);
    var b := Body(o, b0, kind, size);
    var starts, ends := Ascending(b.start, |b.ops|), Ascending(b.end, |b.ops|);
    FinishIncludes(o, c.(book := b), starts, ends, from, until);
  }

  lemma FinishIncludes(o: Options, c: Conv, starts: seq<nat>, ends: seq<nat>, from: int, until: int)
    requires DepsOk(c.prev)
    ensures Includes(FinishColl(o, c, starts, ends, from, until).book, c.book)
  {
    hide NextOp;
    var b := AddExec(c.book, 0);
    var b1 := RequireAll(b, Last(b), ends);
    RequireAllHas(b, Last(b), ends);
    var virtstart := if from - o.nbcify - c.start < 0 then c.start else from - o.nbcify;
    var nbcify := if from - o.nbcify - c.start < 0 then from - c.start else o.nbcify;
    var b2 := if nbcify != 0 then AddEdge(AddExec(b1, nbcify % WORD), Last(b1) + 1, Last(b), true) else b1;
    NextOpIncludes(o, c.(book := b2), DepsOn(starts), virtstart, until);
  }

  /** A call that posts an operation and goes on. */
  predicate Posts(c: Call) {
    c.Irecv? || c.Isend?
  }

  /** A call that returns when its operation is complete. */
  predicate Blocks(c: Call) {
    c.Recv? || c.Send? || c.Wait? || c.Waitall?
  }

  /** Call i adds operation x, and call j is the next that adds anything. */
  ghost predicate Follows(o: Options, start: int, calls: seq<Traced>, i: nat, j: nat)
    requires o.rank < o.n
  {
    && i < j < |calls| && WellTraced(calls, o.n)
    && Converted(o, start, calls, i) != Converted(o, start, calls, i + 1)
    && Converted(o, start, calls, i + 1) == Converted(o, start, calls, j) != Converted(o, start, calls, j + 1)
  }

  /** After a posted operation the next calculation waits for its start only; after a blocking
      call for its end.  It waits for nothing else. */
  lemma NextWaitsFor(o: Options, start: int, calls: seq<Traced>, i: nat, j: nat, e: Edge)
    requires o.rank < o.n && Follows(o, start, calls, i, j)
    ensures var x, y := |Converted(o, start, calls, i).book.ops| + 1, |Converted(o, start, calls, j + 1).book.ops|;
      var waits := e in Converted(o, start, calls, |calls|).book.reqs && e.tail == y;
      && (Posts(calls[i].call) ==> (waits <==> e == Edge(y, x, true)))
      && (Blocks(calls[i].call) ==> (waits <==> e == Edge(y, x, false)))
      && (calls[i].call.Sendrecv? ==> (waits <==> e == Edge(y, x, false) || e == Edge(y, x + 1, false)))
      && (calls[i].call.Coll? && calls[i].call.full ==>
            |Converted(o, start, calls, i + 1).prev| == 1
            && (waits <==> e == Edge(y, Converted(o, start, calls, i + 1).prev[0].id, false)))
      && (calls[i].call.Finalize? ==> !waits)
  {
    hide Apply, Converted, IsPending;
    CalculationWaits(o, start, calls, j, e);
    PendingAfter(o, Converted(o, start, calls, i), calls[i]);
    ConvertedNext(o, start, calls, i);
    var y, prev := |Converted(o, start, calls, j + 1).book.ops|, Converted(o, start, calls, j).prev;
    PendingIs(prev, y, e);
  }

  lemma PendingIs(deps: seq<Dep>, y: nat, e: Edge)
    requires DepsOk(deps)
    ensures deps == [] ==> !IsPending(deps, y, e)
    ensures |deps| == 1 && deps[0].id >= 0 ==> (IsPending(deps, y, e) <==> e == Edge(y, deps[0].id, deps[0].immediate))
    ensures |deps| == 2 && deps[0].id >= 0 && deps[1].id >= 0 ==> (IsPending(deps, y, e) <==>
      e == Edge(y, deps[0].id, deps[0].immediate) || e == Edge(y, deps[1].id, deps[1].immediate))
  {
  }

  lemma ConvertedNext(o: Options, start: int, calls: seq<Traced>, i: nat)
    requires o.rank < o.n && i < |calls|
    ensures Converted(o, start, calls, i + 1) == Apply(o, Converted(o, start, calls, i), calls[i])
  {
  }

  /** What is pending after each kind of call. */
  lemma PendingAfter(o: Options, c: Conv, t: Traced)
    requires o.rank < o.n && DepsOk(c.prev)
    ensures var d, x := Apply(o, c, t), |c.book.ops| + 1;
      && (Posts(t.call) ==> d.prev == [Dep(x, true)])
      && (Blocks(t.call) ==> d == c || d.prev == [Dep(x, false)])
      && (t.call.Sendrecv? ==> d.prev == [Dep(x, false), Dep(x + 1, false)])
      && (t.call.Coll? && t.call.full ==> |d.prev| == 1 && d.prev[0].id > 0 && !d.prev[0].immediate)
      && (t.call.Finalize? ==> d.prev == [])
  {
    hide NextOp, FinishColl, Body;
    match t.call
    case Waitall(req, count) => RequireAllOps(AddExec(c.book, 0), |c.book.ops| + 1, Known(c.reqs, req, count));
    case Coll(kind, size, tag, full) =>
      var b := Body(o, c.book.(tag := tag, start := {}, end := {}), kind, size);
      FinishLast(o, c.(book := b), Ascending(b.start, |b.ops|), Ascending(b.end, |b.ops|), t.from, t.until);
    case Finalize => NextOpPrev(o, c, [Dep(NO_ID, false)], t.from, t.from);
    case _ =>
  }

  lemma NextOpPrev(o: Options, c: Conv, next: seq<Dep>, time: int, end: int)
    requires DepsOk(next) && DepsOk(c.prev)
    ensures NextOp(o, c, next, time, end).prev == []
  {
  }

  // ---- requests ----

  /** The call stores a request under this number or takes it away. */
  predicate Disturbs(c: Call, req: nat) {
    || ((c.Irecv? || c.Isend? || c.Wait? || c.Waitall?) && c.req == req)
    || (c.Coll? && c.full && c.kind.Iallreduce? && c.kind.req == req)
  }

  /** The call waits for this request, if it is known. */
  ghost predicate WaitsFor(c: Call, req: nat) {
    || (c.Wait? && c.req == req)
    || (c.Waitall? && exists k: nat :: InRange(c, req, k))
  }

  predicate InRange(c: Call, req: nat, k: nat)
    requires c.Waitall?
  {
    k < c.count && req == c.req + REQ_SIZE * k
  }

  /** Call i posts operation x under this request. */
  ghost predicate Requests(o: Options, start: int, calls: seq<Traced>, i: nat, req: nat, x: nat)
    requires o.rank < o.n && i < |calls|
  {
    var c, d := Converted(o, start, calls, i), Converted(o, start, calls, i + 1);
    match calls[i].call
    case Irecv(size, src, tag, q) => q == req && x == |c.book.ops| + 1
    case Isend(size, dest, tag, q) => q == req && x == |c.book.ops| + 1
    case Coll(kind, _, _, full) => full && kind.Iallreduce? && kind.req == req && d.prev == Blocking(x)
    case _ => false
  }

  /** What was posted is what the request says. */
  lemma Requested(o: Options, start: int, calls: seq<Traced>, i: nat, req: nat, x: nat)
    requires o.rank < o.n && i < |calls| && Requests(o, start, calls, i, req, x)
    ensures var d := Converted(o, start, calls, i + 1); req in d.reqs && d.reqs[req] == x
    ensures calls[i].call.Irecv? ==>
      var ops, t := Converted(o, start, calls, i + 1).book.ops, calls[i].call;
      |ops| >= x && ops[x - 1] == GoalOp.Recv(t.size, t.src, t.tag)
    ensures calls[i].call.Isend? ==>
      var ops, t := Converted(o, start, calls, i + 1).book.ops, calls[i].call;
      |ops| >= x && ops[x - 1] == GoalOp.Send(t.size, t.dest, t.tag)
  {
    hide NextOp, Body, AddRecv, AddSend, Converted;
    ConvertedNext(o, start, calls, i);
    var c, t := Converted(o, start, calls, i), calls[i];
    match t.call
    case Irecv(size, src, tag, q) => SingleOps(o, c.(reqs := c.reqs[q := x]), AddRecv(c.book.(tag := tag), size, src), true, t.from, t.until);
                                     AddedOp(c.book.(tag := tag), size, src);
    case Isend(size, dest, tag, q) => SingleOps(o, c.(reqs := c.reqs[q := x]), AddSend(c.book.(tag := tag), size, dest), true, t.from, t.until);
                                      AddedOp(c.book.(tag := tag), size, dest);
    case Coll(kind, size, tag, full) =>
      var b := Body(o, c.book.(tag := tag, start := {}, end := {}), kind, size);
      FinishLast(o, c.(book := b), Ascending(b.start, |b.ops|), Ascending(b.end, |b.ops|), t.from, t.until);
      assert Blocking(x)[0].id == x;
  }

  lemma AddedOp(b: Book, size: nat, peer: nat)
    ensures AddRecv(b, size, peer).ops == b.ops + [GoalOp.Recv(size, peer, b.tag)] && AddRecv(b, size, peer).reqs == b.reqs
    ensures AddSend(b, size, peer).ops == b.ops + [GoalOp.Send(size, peer, b.tag)] && AddSend(b, size, peer).reqs == b.reqs
  {
  }

  lemma SingleOps(o: Options, c: Conv, b: Book, immediate: bool, from: int, until: int)
    requires DepsOk(c.prev)
    ensures Single(o, c, b, immediate, from, until).book.ops == b.ops + [Exec(o.scaled(from - c.start))]
    ensures Single(o, c, b, immediate, from, until).reqs == c.reqs
  {
    hide AddAfter, AddBefore;
    NextOpSize(o, c.(book := b), Blocking(Last(b)), from, until);
  }

  /** An undisturbed request stays. */
  lemma RequestStays(o: Options, c: Conv, t: Traced, req: nat)
    requires o.rank < o.n && DepsOk(c.prev) && !Disturbs(t.call, req) && req in c.reqs
    ensures req in Apply(o, c, t).reqs && Apply(o, c, t).reqs[req] == c.reqs[req]
  {
    hide AddAfter, AddBefore, Body;
  }

  lemma {:induction false} RequestsStay(o: Options, start: int, calls: seq<Traced>, i: nat, j: nat, req: nat)
    requires o.rank < o.n && i <= j <= |calls| && req in Converted(o, start, calls, i).reqs
    requires forall k :: i <= k < j ==> !Disturbs(calls[k].call, req)
    ensures req in Converted(o, start, calls, j).reqs
    ensures Converted(o, start, calls, j).reqs[req] == Converted(o, start, calls, i).reqs[req]
    decreases j
  {
    hide Apply, Converted;
    if i < j {
      RequestsStay(o, start, calls, i, j - 1, req);
      ConvertedNext(o, start, calls, j - 1);
      RequestStays(o, Converted(o, start, calls, j - 1), calls[j - 1], req);
    }
  }

  lemma {:induction false} KnownHas(reqs: map<nat, nat>, req: nat, count: nat, k: nat)
    requires k < count && req + REQ_SIZE * k in reqs
    ensures reqs[req + REQ_SIZE * k] in Known(reqs, req, count)
    decreases count
  {
    if k < count - 1 {
      KnownHas(reqs, req, count - 1, k);
    }
  }

  /** A wait requires what its requests stand for to have ended. */
  lemma WaitRequires(o: Options, c: Conv, t: Traced, req: nat)
    requires o.rank < o.n && DepsOk(c.prev) && WaitsFor(t.call, req) && req in c.reqs
    ensures var d, w := Apply(o, c, t), |c.book.ops| + 1;
      Edge(w, c.reqs[req], false) in d.book.reqs && |d.book.ops| == w + 1 && d.prev == [Dep(w, false)]
  {
    hide AddAfter, AddBefore;
    var b1 := AddExec(c.book, 0);
    var w := Last(b1);
    if t.call.Wait? {
      var b2, c2 := AddEdge(b1, w, c.reqs[req], false), c.(reqs := c.reqs - {req});
      assert b2.reqs[|b1.reqs|] == Edge(w, c.reqs[req], false);
      NextOpIncludes(o, c2.(book := b2), Blocking(w), t.from, t.until);
      NextOpSize(o, c2.(book := b2), Blocking(w), t.from, t.until);
    } else {
      var k: nat :| InRange(t.call, req, k);
      var ids := Known(c.reqs, t.call.req, t.call.count);
      KnownHas(c.reqs, t.call.req, t.call.count, k);
      RequireAllHas(b1, w, ids);
      RequireAllOps(b1, w, ids);
      var at :| 0 <= at < |ids| && ids[at] == c.reqs[req];
      var b2, c2 := RequireAll(b1, w, ids), c.(reqs := c.reqs - {t.call.req});
      NextOpIncludes(o, c2.(book := b2), Blocking(w), t.from, t.until);
      NextOpSize(o, c2.(book := b2), Blocking(w), t.from, t.until);
    }
  }

  /** A posted operation has ended before the wait on its request has, if the request was neither
      stored again nor taken away in between. */
  lemma WaitAwaits(o: Options, start: int, calls: seq<Traced>, i: nat, j: nat, req: nat, x: nat)
    requires o.rank < o.n && i < j < |calls| && WellTraced(calls, o.n)
    requires Requests(o, start, calls, i, req, x) && WaitsFor(calls[j].call, req)
    requires forall k :: i < k < j ==> !Disturbs(calls[k].call, req)
    ensures var w := |Converted(o, start, calls, j).book.ops| + 1;
      && w <= |Converted(o, start, calls, j + 1).book.ops| && Foreground(Converted(o, start, calls, j + 1), w)
      && Edge(w, x, false) in Converted(o, start, calls, |calls|).book.reqs
      && Awaits(Converted(o, start, calls, |calls|).book, x, w)
  {
    hide Apply, Converted, Reaches, Requests;
    Requested(o, start, calls, i, req, x);
    RequestsStay(o, start, calls, i + 1, j, req);
    ConvertedNext(o, start, calls, j);
    WaitRequires(o, Converted(o, start, calls, j), calls[j], req);
    var b, w := Converted(o, start, calls, |calls|).book, |Converted(o, start, calls, j).book.ops| + 1;
    EdgesStay(o, start, calls, j + 1, |calls|, Edge(w, x, false));
    ReachesSelf(b, w);
    var e := Edge(w, x, false);
    assert e in b.reqs && e.head == x && !e.immediate && Reaches(b, e.tail, w);
  }

  /** And so has everything else before any operation of a later call starts, up to the next
      Finalize. */
  lemma LaterCallsAwait(o: Options, start: int, calls: seq<Traced>, i: nat, j: nat, k: nat, req: nat, x: nat, y: nat)
    requires o.rank < o.n && o.n >= 2 && i < j < k < |calls| && WellTraced(calls, o.n)
    requires Requests(o, start, calls, i, req, x) && WaitsFor(calls[j].call, req)
    requires forall m :: i < m < j ==> !Disturbs(calls[m].call, req)
    requires forall m :: j <= m < k ==> !calls[m].call.Finalize?
    requires |Converted(o, start, calls, k).book.ops| < y <= |Converted(o, start, calls, k + 1).book.ops|
    ensures Awaits(Converted(o, start, calls, |calls|).book, x, y)
  {
    hide Apply, Converted, Reaches, Requests, Foreground;
    WaitAwaits(o, start, calls, i, j, req, x);
    var b, w := Converted(o, start, calls, |calls|).book, |Converted(o, start, calls, j).book.ops| + 1;
    ProgramOrder(o, start, calls, j, k, w, y);
    var e := Edge(w, x, false);
    assert e in b.reqs && e.head == x && !e.immediate && Reaches(b, e.tail, y);
  }

  /** A wait takes its request away: a second one finds nothing. */
  lemma RequestTaken(o: Options, c: Conv, t: Traced)
    requires o.rank < o.n && DepsOk(c.prev) && (t.call.Wait? || t.call.Waitall?)
    ensures t.call.req !in Apply(o, c, t).reqs
    ensures forall q :: q != t.call.req ==>
      (q in Apply(o, c, t).reqs <==> q in c.reqs) && (q in c.reqs ==> Apply(o, c, t).reqs[q] == c.reqs[q])
    ensures t.call.Wait? && t.call.req !in c.reqs ==> Apply(o, c, t) == c
  {
    hide AddAfter, AddBefore;
  }

  // ---- within a call ----

  /** The operations of a call wait for the end of the calculation before them. */
  lemma OperationsAwaitCalculation(o: Options, c: Conv, t: Traced)
    requires o.rank < o.n && DepsOk(c.prev) && !t.call.Coll? && !t.call.Finalize?
    ensures var d, x := Apply(o, c, t), |c.book.ops| + 1;
      d == c || (Edge(x, |d.book.ops|, false) in d.book.reqs
                 && (t.call.Sendrecv? ==> Edge(x + 1, |d.book.ops|, false) in d.book.reqs))
  {
    hide NextOp;
    var b := c.book;
    match t.call
    case Recv(size, src, tag) => NextAfter(o, c.(book := AddRecv(b.(tag := tag), size, src)), Blocking(Last(b) + 1), t.from, t.until, 0);
    case Send(size, dest, tag) => NextAfter(o, c.(book := AddSend(b.(tag := tag), size, dest)), Blocking(Last(b) + 1), t.from, t.until, 0);
    case Irecv(size, src, tag, req) =>
      NextAfter(o, c.(reqs := c.reqs[req := Last(b) + 1], book := AddRecv(b.(tag := tag), size, src)), Blocking(Last(b) + 1), t.from, t.until, 0);
    case Isend(size, dest, tag, req) =>
      NextAfter(o, c.(reqs := c.reqs[req := Last(b) + 1], book := AddSend(b.(tag := tag), size, dest)), Blocking(Last(b) + 1), t.from, t.until, 0);
    case Wait(req) =>
      if req in c.reqs {
        var b1 := AddExec(b, 0);
        NextAfter(o, c.(reqs := c.reqs - {req}, book := AddEdge(b1, Last(b1), c.reqs[req], false)), Blocking(Last(b1)), t.from, t.until, 0);
      }
    case Waitall(req, count) =>
      var b1 := AddExec(b, 0);
      var b2 := RequireAll(b1, Last(b1), Known(c.reqs, req, count));
      RequireAllOps(b1, Last(b1), Known(c.reqs, req, count));
      NextAfter(o, c.(reqs := c.reqs - {req}, book := b2), Blocking(Last(b2)), t.from, t.until, 0);
    case Sendrecv(sendSize, dest, recvSize, src, tag) =>
      var b2 := AddRecv(AddSend(b.(tag := tag), sendSize, dest), recvSize, src);
      NextAfter(o, c.(book := b2), [Dep(Last(b2) - 1, false), Dep(Last(b2), false)], t.from, t.until, 0);
      NextAfter(o, c.(book := b2), [Dep(Last(b2) - 1, false), Dep(Last(b2), false)], t.from, t.until, 1);
    case Other =>
  }

  lemma NextAfter(o: Options, c: Conv, next: seq<Dep>, time: int, end: int, i: nat)
    requires DepsOk(next) && DepsOk(c.prev) && i < |next| && next[i].id != NO_ID
    ensures var d := NextOp(o, c, next, time, end);
      |d.book.ops| == |c.book.ops| + 1 && Edge(next[i].id, |d.book.ops|, next[i].immediate) in d.book.reqs
  {
    var b := AddExec(c.book, o.scaled(time - c.start));
    NextOpSize(o, c, next, time, end);
    AfterHas(b, next, Last(b));
    BeforeHas(AddAfter(b, next, Last(b)), c.prev, Last(b));
  }

  /** The dependencies within a collective are on completions. */
  lemma BodyFirm(o: Options, b: Book, kind: Collective, size: nat, e: Edge)
    requires o.rank < o.n && e in Body(o, b, kind, size).reqs
    ensures e in b.reqs || !e.immediate
  {
    match kind
    case Barrier => EmitEdges(b, DI.Comms(o.rank, o.n, 1, 1), NO_ID, e);
    case Allreduce => EmitEdges(b, RD.Comms(o.n, o.rank, size), NO_ID, e);
    case Iallreduce(_) => EmitEdges(b, DI.Comms(o.rank, o.n, size, 1), NO_ID, e);
    case Bcast(root) => BT.ReqsAre(BT.Down, o.n, BT.Swap(o.rank, root), |b.ops|, CeilLog2(o.n), e);
    case Allgather => EmitEdges(b, DI.Comms(o.rank, o.n, size, 1), NO_ID, e);
    case Reduce(root) => BT.ReqsAre(BT.Up, o.n, BT.Swap(o.rank, root), |b.ops|, CeilLog2(o.n), e);
    case Alltoall => ExchangeReqs(b, o.rank, o.n, size, o.n - 1);
  }

  /** A collective's completion waits for the end of each of its operations; its share in the
      background starts with the completion, and its first operations wait for the end of the
      calculation before. */
  lemma CollectiveAwaits(o: Options, c: Conv, r: seq<int>, kind: Collective, size: nat, tag: nat, from: int, until: int, x: nat)
    requires Sound(c, r) && o.rank < o.n && RootOk(kind, o.n)
    ensures var d, b := Collect(o, c, kind, size, tag, from, until), Body(o, c.book.(tag := tag, start := {}, end := {}), kind, size);
      var collop := |b.ops| + 1;
      && (|c.book.ops| < x <= |b.ops| ==> Awaits(d.book, x, collop))
      && (x in b.start && |c.book.ops| < x <= |b.ops| ==> Edge(x, |d.book.ops|, false) in d.book.reqs)
      && (|d.book.ops| == collop + 2 ==> Edge(collop + 1, collop, true) in d.book.reqs)
  {
    hide Body, Ranks, Reaches, NextOp, Tracks, Ascending, RequireAll;
    var b0, base := c.book.(tag := tag, start := {}, end := {}), |c.book.ops|;
    MidwaySame(c.book, b0, r);
    var r1 := BodyTracks(o, b0, r, kind, size);
    var b := Body(o, b0, kind, size);
    var starts, ends := Ascending(b.start, |b.ops|), Ascending(b.end, |b.ops|);
    var b1 := AddExec(b, 0);
    var collop := Last(b1);
    RequireAllHas(b1, collop, ends);
    RequireAllOps(b1, collop, ends);
    var b2 := RequireAll(b1, collop, ends);
    var virtstart := if from - o.nbcify - c.start < 0 then c.start else from - o.nbcify;
    var nbcify := if from - o.nbcify - c.start < 0 then from - c.start else o.nbcify;
    var b3 := if nbcify != 0 then AddEdge(AddExec(b2, nbcify % WORD), Last(b2) + 1, collop, true) else b2;
    var d := Collect(o, c, kind, size, tag, from, until);
    SoundOk(c, r);
    NextOpSize(o, c.(book := b3), DepsOn(starts), virtstart, until);
    NextOpIncludes(o, c.(book := b3), DepsOn(starts), virtstart, until);
    if nbcify != 0 {
      assert b3.reqs[|b2.reqs|] == Edge(collop + 1, collop, true);
    }
    if x in b.start && base < x <= |b.ops| {
      StartListed(b, x);
      var at :| 0 <= at < |starts| && starts[at] == x;
      NextAfter(o, c.(book := b3), DepsOn(starts), virtstart, until, at);
    }
    if base < x <= |b.ops| {
      SoundHeads(c, r);
      BodyAwaited(o, b0, r1, kind, size, x);
      var e :| e in b2.reqs && e.head == x && !e.immediate && Reaches(b2, e.tail, collop);
      ReachesMore(b2, d.book, e.tail, collop);
      assert e in d.book.reqs;
    }
  }

  lemma SoundHeads(c: Conv, r: seq<int>)
    requires Sound(c, r)
    ensures forall e :: e in c.book.reqs ==> e.head <= |c.book.ops|
  {
  }

  lemma StartListed(b: Book, x: nat)
    requires x in b.start && 0 < x <= |b.ops|
    ensures x in Ascending(b.start, |b.ops|)
  {
  }

  lemma BodyAwaited(o: Options, b0: Book, r1: seq<int>, kind: Collective, size: nat, x: nat)
    requires o.rank < o.n
    requires var b := Body(o, b0, kind, size); Tracks(b, |b0.ops|) && Midway(b, r1, |b0.ops|) && |b0.ops| < x <= |b.ops|
    requires forall e :: e in b0.reqs ==> e.head <= |b0.ops|
    ensures var b := Body(o, b0, kind, size);
      var b1 := AddExec(b, 0);
      Awaits(RequireAll(b1, Last(b1), Ascending(b.end, |b.ops|)), x, Last(b1))
  {
    hide Body, Reaches, Ascending, RequireAll, Midway;
    var b := Body(o, b0, kind, size);
    var b1, ends := AddExec(b, 0), Ascending(b.end, |b.ops|);
    var b2 := RequireAll(b1, Last(b1), ends);
    RequireAllHas(b1, Last(b1), ends);
    if x in b.end {
      EndListed(b, x);
      var at :| 0 <= at < |ends| && ends[at] == x;
      ReachesSelf(b2, Last(b1));
      var e := Edge(Last(b1), x, false);
      assert e in b2.reqs && e.head == x && !e.immediate && Reaches(b2, e.tail, Last(b1));
    } else {
      var e :| e in b.reqs && e.head == x;
      BodyFirm(o, b0, kind, size, e);
      CompletionReached(b, r1, |b0.ops|, ends, e.tail);
      assert e in b2.reqs && !e.immediate && Reaches(b2, e.tail, Last(b1));
    }
  }

  lemma EndListed(b: Book, x: nat)
    requires x in b.end && 0 < x <= |b.ops|
    ensures x in Ascending(b.end, |b.ops|)
  {
  }
}
