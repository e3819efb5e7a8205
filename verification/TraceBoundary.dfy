/** Where program order ends: the calculation after a Finalize depends on nothing. */
module TraceBoundary {
  import opened Powers
  import opened Goal
  import opened TraceConversion
  import opened TraceOrder
  import opened TraceProgram
  import RD = RecursiveDoubling
  import BT = BinomialTree
  import DI = Dissemination

  /** From b to d operations are added, and dependencies of added operations only. */
  predicate Adds(b: Book, d: Book) {
    && |b.ops| <= |d.ops|
    && forall e :: e in d.reqs ==> e in b.reqs || |b.ops| < e.tail <= |d.ops|
  }

  lemma AddsTrans(a: Book, b: Book, c: Book)
    requires Adds(a, b) && Adds(b, c)
    ensures Adds(a, c)
  {
  }

  lemma AddsOp(b: Book, d: Book)
    requires d.reqs == b.reqs && |d.ops| >= |b.ops|
    ensures Adds(b, d)
  {
  }

  lemma {:induction false} RequireAllAdds(a: Book, b: Book, op: nat, ids: seq<nat>)
    requires Adds(a, b) && |a.ops| < op <= |b.ops|
    ensures Adds(a, RequireAll(b, op, ids)) && RequireAll(b, op, ids).ops == b.ops
    decreases |ids|
  {
    if ids != [] {
      RequireAllAdds(a, AddEdge(b, op, ids[0], false), op, ids[1..]);
    }
  }

  lemma {:induction false} AfterOnly(b: Book, deps: seq<Dep>, op: nat, e: Edge)
    requires DepsOk(deps) && e in AddAfter(b, deps, op).reqs
    ensures e in b.reqs || exists i :: 0 <= i < |deps| && deps[i].id == e.tail
    decreases |deps|
  {
    if deps != [] {
      var b1 := if deps[0].id != NO_ID then AddEdge(b, deps[0].id, op, deps[0].immediate) else b;
      AfterOnly(b1, deps[1..], op, e);
      if i :| 0 <= i < |deps[1..]| && deps[1..][i].id == e.tail {
        assert deps[i + 1].id == e.tail;
      } else if e !in b.reqs {
        assert deps[0].id == e.tail;
      }
    }
  }

  /** The dependency of calculation `work` on a pending operation. */
  predicate IsPending(deps: seq<Dep>, work: nat, e: Edge) {
    exists i :: 0 <= i < |deps| && deps[i].id >= 0 && e == Edge(work, deps[i].id, deps[i].immediate)
  }

  lemma {:induction false} BeforeExactly(b: Book, deps: seq<Dep>, op: nat, e: Edge)
    requires DepsOk(deps)
    ensures e in AddBefore(b, deps, op).reqs <==> e in b.reqs || IsPending(deps, op, e)
    decreases |deps|
  {
    if deps != [] {
      var b1 := if deps[0].id != NO_ID then AddEdge(b, op, deps[0].id, deps[0].immediate) else b;
      BeforeExactly(b1, deps[1..], op, e);
      if i :| 0 <= i < |deps[1..]| && deps[1..][i].id >= 0 && e == Edge(op, deps[1..][i].id, deps[1..][i].immediate) {
        assert deps[i + 1] == deps[1..][i];
      }
      if i :| 0 < i < |deps| && deps[i].id >= 0 && e == Edge(op, deps[i].id, deps[i].immediate) {
        assert deps[1..][i - 1] == deps[i];
      }
    }
  }

  /** No operation is pending: the next calculation has nothing to wait for. */
  predicate Forgotten(c: Conv) {
    forall i :: 0 <= i < |c.prev| ==> c.prev[i].id == NO_ID
  }

  /** A call leads from c to d: its operations, then the calculation before them, which waits for
      exactly what is pending in c. */
  ghost predicate Ends(c: Conv, d: Conv) {
    && Adds(c.book, d.book) && |c.book.ops| < |d.book.ops|
    && forall e :: e in d.book.reqs && e.tail == |d.book.ops| <==> IsPending(c.prev, |d.book.ops|, e)
  }

  lemma NextOpEnds(o: Options, c: Conv, r: seq<int>, c1: Conv, next: seq<Dep>, time: int, end: int, d: Conv)
    requires Sound(c, r) && c1.prev == c.prev && Adds(c.book, c1.book) && Prior(next, |c.book.ops|, |c1.book.ops|)
    requires d.book == NextOp(o, c1, next, time, end).book
    ensures Ends(c, d)
  {
    NextOpSize(o, c1, next, time, end);
    var b, work := AddExec(c1.book, o.scaled(time - c1.start)), |c1.book.ops| + 1;
    var b1 := AddAfter(b, next, work);
    forall e
      ensures e in d.book.reqs ==> e in c.book.reqs || |c.book.ops| < e.tail <= work
      ensures e in d.book.reqs && e.tail == work <==> IsPending(c.prev, work, e)
    {
      BeforeExactly(b1, c1.prev, work, e);
      if e in b1.reqs {
        AfterOnly(b, next, work, e);
      }
    }
  }

  lemma SingleEnds(o: Options, c: Conv, r: seq<int>, b: Book, ids: seq<nat>, reqs: map<nat, nat>, immediate: bool, from: int, until: int)
    requires Sound(c, r) && b.reqs == c.book.reqs && |b.ops| == |c.book.ops| + 1
    ensures Ends(c, Single(o, c.(reqs := reqs), RequireAll(b, Last(b), ids), immediate, from, until))
  {
    AddsOp(c.book, b);
    RequireAllAdds(c.book, b, Last(b), ids);
    var c1 := c.(reqs := reqs, book := RequireAll(b, Last(b), ids));
    NextOpEnds(o, c, r, c1, Blocking(Last(c1.book)), from, until, Single(o, c.(reqs := reqs), c1.book, immediate, from, until));
  }

  lemma BodyAdds(o: Options, b: Book, r: seq<int>, kind: Collective, size: nat)
    requires Ranked(b, r) && o.rank < o.n && RootOk(kind, o.n) && b.start == {} && b.end == {}
    ensures Adds(b, Body(o, b, kind, size))
  {
    var b1 := Body(o, b, kind, size);
    hide Body, Tracks;
    var r1 := BodyTracks(o, b, r, kind, size);
    TracksLength(b1, |b.ops|);
    forall e | e in b1.reqs
      ensures e in b.reqs || |b.ops| < e.tail <= |b1.ops|
    {
      BodyTail(o, b, kind, size, e);
    }
  }

  lemma BodyTail(o: Options, b: Book, kind: Collective, size: nat, e: Edge)
    requires o.rank < o.n && e in Body(o, b, kind, size).reqs
    ensures e in b.reqs || |b.ops| < e.tail
  {
    match kind
    case Barrier => EmitEdges(b, DI.Comms(o.rank, o.n, 1, 1), NO_ID, e);
    case Allreduce => EmitEdges(b, RD.Comms(o.n, o.rank, size), NO_ID, e);
    case Iallreduce(_) => EmitEdges(b, DI.Comms(o.rank, o.n, size, 1), NO_ID, e);
    case Bcast(root) => BT.ReqsAre(BT.Down, o.n, BT.Swap(o.rank, root), |b.ops|, CeilLog2(o.n), e);
    case Allgather => EmitEdges(b, DI.Comms(o.rank, o.n, size, 1), NO_ID, e);
    case Reduce(root) => BT.ReqsAre(BT.Up, o.n, BT.Swap(o.rank, root), |b.ops|, CeilLog2(o.n), e);
    case Alltoall => ExchangeReqs(b, o.rank, o.n, size, o.n - 1);
  }

  lemma FinishEnds(o: Options, c: Conv, r: seq<int>, c1: Conv, starts: seq<nat>, ends: seq<nat>, from: int, until: int)
    requires Sound(c, r) && c1.prev == c.prev && Adds(c.book, c1.book)
    requires forall i :: 0 <= i < |starts| ==> |c.book.ops| < starts[i] <= |c1.book.ops|
    ensures Ends(c, FinishColl(o, c1, starts, ends, from, until))
  {
    hide NextOp, Sound;
    assert DepsOk(c.prev) by { SoundOk(c, r); }
    var b := AddExec(c1.book, 0);
    var collop := Last(b);
    AddsOp(c1.book, b);
    AddsTrans(c.book, c1.book, b);
    RequireAllAdds(c.book, b, collop, ends);
    var b1 := RequireAll(b, collop, ends);
    var virtstart := if from - o.nbcify - c1.start < 0 then c1.start else from - o.nbcify;
    var nbcify := if from - o.nbcify - c1.start < 0 then from - c1.start else o.nbcify;
    var b2 := if nbcify != 0 then AddEdge(AddExec(b1, nbcify % WORD), Last(b1) + 1, collop, true) else b1;
    assert Adds(c.book, b2);
    var c2 := c1.(book := b2);
    NextOpEnds(o, c, r, c2, DepsOn(starts), virtstart, until, FinishColl(o, c1, starts, ends, from, until));
  }

  lemma CollectEnds(o: Options, c: Conv, r: seq<int>, kind: Collective, size: nat, tag: nat, from: int, until: int)
    requires Sound(c, r) && o.rank < o.n && RootOk(kind, o.n)
    ensures Ends(c, Collect(o, c, kind, size, tag, from, until))
  {
    hide Ranks, Body, FinishColl, Adds;
    var b0 := c.book.(tag := tag, start := {}, end := {});
    MidwaySame(c.book, b0, r);
    var r1 := BodyTracks(o, b0, r, kind, size);
    var b := Body(o, b0, kind, size);
    BodyAdds(o, b0, r, kind, size);
    assert Adds(c.book, b) by { AddsSame(c.book, b0, b); }
    MidwayLength(b, r1, |c.book.ops|);
    AscendingIn(b.start, |b.ops|, |c.book.ops|);
    FinishEnds(o, c, r, c.(book := b), Ascending(b.start, |b.ops|), Ascending(b.end, |b.ops|), from, until);
  }

  lemma AddsSame(a: Book, b: Book, d: Book)
    requires Adds(b, d) && a.ops == b.ops && a.reqs == b.reqs
    ensures Adds(a, d)
  {
  }

  lemma ApplyEnds(o: Options, c: Conv, r: seq<int>, t: Traced)
    requires Sound(c, r) && o.rank < o.n && (t.call.Coll? ==> RootOk(t.call.kind, o.n))
    ensures Apply(o, c, t) == c || Ends(c, Apply(o, c, t))
  {
    hide Sound, NextOp, Collect, Single, Ends, Adds;
    assert DepsOk(c.prev) by { SoundOk(c, r); }
    var b, base := c.book, |c.book.ops|;
    match t.call
    case Recv(size, src, tag) => SingleEnds(o, c, r, AddRecv(b.(tag := tag), size, src), [], c.reqs, false, t.from, t.until);
    case Send(size, dest, tag) => SingleEnds(o, c, r, AddSend(b.(tag := tag), size, dest), [], c.reqs, false, t.from, t.until);
    case Irecv(size, src, tag, req) =>
      SingleEnds(o, c, r, AddRecv(b.(tag := tag), size, src), [], c.reqs[req := base + 1], true, t.from, t.until);
    case Isend(size, dest, tag, req) =>
      SingleEnds(o, c, r, AddSend(b.(tag := tag), size, dest), [], c.reqs[req := base + 1], true, t.from, t.until);
    case Wait(req) =>
      if req in c.reqs {
        RequireOne(AddExec(b, 0), base + 1, c.reqs[req]);
        SingleEnds(o, c, r, AddExec(b, 0), [c.reqs[req]], c.reqs - {req}, false, t.from, t.until);
      }
    case Waitall(req, count) =>
      SingleEnds(o, c, r, AddExec(b, 0), Known(c.reqs, req, count), c.reqs - {req}, false, t.from, t.until);
    case Sendrecv(sendSize, dest, recvSize, src, tag) =>
      var b2 := AddRecv(AddSend(b.(tag := tag), sendSize, dest), recvSize, src);
      AddsOp(b, b2);
      NextOpEnds(o, c, r, c.(book := b2), [Dep(base + 1, false), Dep(base + 2, false)], t.from, t.until, Apply(o, c, t));
    case Coll(kind, size, tag, full) =>
      if full {
        CollectEnds(o, c, r, kind, size, tag, t.from, t.until);
      }
    case Finalize =>
      AddsOp(b, b);
      NextOpEnds(o, c, r, c, [Dep(NO_ID, false)], t.from, t.from, Apply(o, c, t));
    case Other =>
  }

  lemma StepEnds(o: Options, start: int, calls: seq<Traced>, k: nat)
    requires o.rank < o.n && k < |calls| && WellTraced(calls, o.n)
    ensures var c, d := Converted(o, start, calls, k), Converted(o, start, calls, k + 1);
      d == c || Ends(c, d)
  {
    hide Apply, Ends;
    var r := ConvertedSound(o, start, calls, k);
    ApplyEnds(o, Converted(o, start, calls, k), r, calls[k]);
  }

  lemma {:induction false} NeverRequired(o: Options, start: int, calls: seq<Traced>, j: nat, k: nat, y: nat)
    requires o.rank < o.n && j <= k <= |calls| && WellTraced(calls, o.n)
    requires y <= |Converted(o, start, calls, j).book.ops|
    requires forall e :: e in Converted(o, start, calls, j).book.reqs ==> e.tail != y
    ensures |Converted(o, start, calls, j).book.ops| <= |Converted(o, start, calls, k).book.ops|
    ensures forall e :: e in Converted(o, start, calls, k).book.reqs ==> e.tail != y
    decreases k
  {
    hide Converted;
    if j < k {
      NeverRequired(o, start, calls, j, k - 1, y);
      StepEnds(o, start, calls, k - 1);
    }
  }

  lemma FinalizeGrows(o: Options, start: int, calls: seq<Traced>, k: nat)
    requires o.rank < o.n && k < |calls| && calls[k].call.Finalize?
    ensures |Converted(o, start, calls, k).book.ops| < |Converted(o, start, calls, k + 1).book.ops|
  {
    NextOpSize(o, Converted(o, start, calls, k), [Dep(NO_ID, false)], calls[k].from, calls[k].from);
  }

  /** Calls that add nothing include no Finalize. */
  lemma {:induction false} NothingBetween(o: Options, start: int, calls: seq<Traced>, i: nat, j: nat)
    requires o.rank < o.n && i <= j <= |calls| && WellTraced(calls, o.n)
    ensures |Converted(o, start, calls, i).book.ops| <= |Converted(o, start, calls, j).book.ops|
    ensures |Converted(o, start, calls, i).book.ops| == |Converted(o, start, calls, j).book.ops|
        ==> forall k :: i <= k < j ==> !calls[k].call.Finalize?
    decreases j
  {
    hide Converted;
    if i < j {
      NothingBetween(o, start, calls, i, j - 1);
      StepEnds(o, start, calls, j - 1);
      if calls[j - 1].call.Finalize? {
        FinalizeGrows(o, start, calls, j - 1);
      }
    }
  }

  /** Between one call and the next that adds anything, order is kept if and only if the first is
      no Finalize: it clears what is pending, and the calculation after it waits for nothing. */
  lemma OrderKeptIff(o: Options, start: int, calls: seq<Traced>, i: nat, j: nat, x: nat)
    requires o.rank < o.n && o.n >= 2 && i < j < |calls| && WellTraced(calls, o.n)
    requires Converted(o, start, calls, i + 1) == Converted(o, start, calls, j) != Converted(o, start, calls, j + 1)
    requires |Converted(o, start, calls, i).book.ops| < x <= |Converted(o, start, calls, i + 1).book.ops|
    requires Foreground(Converted(o, start, calls, i + 1), x)
    ensures var y := |Converted(o, start, calls, j + 1).book.ops|;
      Reaches(Converted(o, start, calls, |calls|).book, x, y) <==> !calls[i].call.Finalize?
  {
    hide Reaches, Converted, Foreground;
    var y := |Converted(o, start, calls, j + 1).book.ops|;
    CallGrows(o, start, calls, j);
    if calls[i].call.Finalize? {
      FinalizeForgets(o, start, calls, i);
      StepEnds(o, start, calls, j);
      NeverRequired(o, start, calls, j + 1, |calls|, y);
      Unreachable(Converted(o, start, calls, |calls|).book, x, y);
    } else {
      NothingBetween(o, start, calls, i + 1, j);
      ProgramOrder(o, start, calls, i, j, x, y);
    }
  }

  lemma CallGrows(o: Options, start: int, calls: seq<Traced>, j: nat)
    requires o.rank < o.n && o.n >= 2 && j < |calls| && WellTraced(calls, o.n)
    requires Converted(o, start, calls, j) != Converted(o, start, calls, j + 1)
    ensures |Converted(o, start, calls, j).book.ops| < |Converted(o, start, calls, j + 1).book.ops|
  {
    hide Converted, Reaches, Hooked;
    StepInOrder(o, start, calls, j);
  }

  lemma FinalizeForgets(o: Options, start: int, calls: seq<Traced>, i: nat)
    requires o.rank < o.n && i < |calls| && calls[i].call.Finalize?
    ensures Forgotten(Converted(o, start, calls, i + 1))
  {
  }
}
