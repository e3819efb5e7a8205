/** Converted traces keep the program order of the trace. */
module TraceProgram {
  import opened Powers
  import opened Goal
  import opened TraceConversion
  import opened TraceOrder
  import RD = RecursiveDoubling
  import BT = BinomialTree
  import DI = Dissemination
  import Digraph

  /** There is a chain of dependencies from u to v. */
  ghost predicate Reaches(b: Book, u: nat, v: nat) {
    exists p: seq<nat> :: |p| > 0 && Digraph.IsWalk(Before(b), p) && p[0] == u && p[|p| - 1] == v
  }

  lemma ReachesSelf(b: Book, u: nat)
    ensures Reaches(b, u, u)
  {
    assert Digraph.IsWalk(Before(b), [u]);
  }

  lemma ReachesEdge(b: Book, e: Edge)
    requires e in b.reqs
    ensures Reaches(b, e.head, e.tail)
  {
    assert Digraph.IsWalk(Before(b), [e.head, e.tail]);
  }

  lemma ReachesOn(b: Book, u: nat, v: nat, w: nat)
    requires Reaches(b, u, v) && Reaches(b, v, w)
    ensures Reaches(b, u, w)
  {
    var p: seq<nat> :| |p| > 0 && Digraph.IsWalk(Before(b), p) && p[0] == u && p[|p| - 1] == v;
    var q: seq<nat> :| |q| > 0 && Digraph.IsWalk(Before(b), q) && q[0] == v && q[|q| - 1] == w;
    var all := p + q[1..];
    forall i | 0 <= i < |all| - 1
      ensures Before(b)(all[i], all[i + 1])
    {
      if i < |p| - 1 {
        assert all[i] == p[i] && all[i + 1] == p[i + 1];
      } else {
        assert all[i] == q[i - |p| + 1] && all[i + 1] == q[i - |p| + 2];
      }
    }
    assert Digraph.IsWalk(Before(b), all);
  }

  predicate Includes(more: Book, b: Book) {
    forall e :: e in b.reqs ==> e in more.reqs
  }

  lemma ReachesMore(b: Book, more: Book, u: nat, v: nat)
    requires Reaches(b, u, v) && Includes(more, b)
    ensures Reaches(more, u, v)
  {
    var p: seq<nat> :| |p| > 0 && Digraph.IsWalk(Before(b), p) && p[0] == u && p[|p| - 1] == v;
    assert Digraph.IsWalk(Before(more), p);
  }

  // ---- the dependencies of the calculation between calls ----

  lemma {:induction false} AfterHas(b: Book, deps: seq<Dep>, op: nat)
    requires DepsOk(deps)
    ensures Includes(AddAfter(b, deps, op), b)
    ensures forall i :: 0 <= i < |deps| && deps[i].id != NO_ID ==>
      Edge(deps[i].id, op, deps[i].immediate) in AddAfter(b, deps, op).reqs
    decreases |deps|
  {
    if deps != [] {
      var b1 := if deps[0].id != NO_ID then AddEdge(b, deps[0].id, op, deps[0].immediate) else b;
      AfterHas(b1, deps[1..], op);
      forall i | 0 <= i < |deps| && deps[i].id != NO_ID
        ensures Edge(deps[i].id, op, deps[i].immediate) in AddAfter(b, deps, op).reqs
      {
        if i == 0 {
          assert b1.reqs[|b.reqs|] == Edge(deps[0].id, op, deps[0].immediate);
        } else {
          assert deps[i] == deps[1..][i - 1];
        }
      }
    }
  }

  lemma {:induction false} BeforeHas(b: Book, deps: seq<Dep>, op: nat)
    requires DepsOk(deps)
    ensures Includes(AddBefore(b, deps, op), b)
    ensures forall i :: 0 <= i < |deps| && deps[i].id != NO_ID ==>
      Edge(op, deps[i].id, deps[i].immediate) in AddBefore(b, deps, op).reqs
    decreases |deps|
  {
    if deps != [] {
      var b1 := if deps[0].id != NO_ID then AddEdge(b, op, deps[0].id, deps[0].immediate) else b;
      BeforeHas(b1, deps[1..], op);
      forall i | 0 <= i < |deps| && deps[i].id != NO_ID
        ensures Edge(op, deps[i].id, deps[i].immediate) in AddBefore(b, deps, op).reqs
      {
        if i == 0 {
          assert b1.reqs[|b.reqs|] == Edge(op, deps[0].id, deps[0].immediate);
        } else {
          assert deps[i] == deps[1..][i - 1];
        }
      }
    }
  }

  lemma {:induction false} RequireAllHas(b: Book, op: nat, ids: seq<nat>)
    ensures Includes(RequireAll(b, op, ids), b)
    ensures forall i :: 0 <= i < |ids| ==> Edge(op, ids[i], false) in RequireAll(b, op, ids).reqs
    decreases |ids|
  {
    if ids != [] {
      var b1 := AddEdge(b, op, ids[0], false);
      RequireAllHas(b1, op, ids[1..]);
      forall i | 0 <= i < |ids|
        ensures Edge(op, ids[i], false) in RequireAll(b, op, ids).reqs
      {
        if i == 0 {
          assert b1.reqs[|b.reqs|] == Edge(op, ids[0], false);
        } else {
          assert ids[i] == ids[1..][i - 1];
        }
      }
    }
  }

  /** The calculation reaches what comes next, and what came before reaches it. */
  lemma NextOpReaches(o: Options, c: Conv, next: seq<Dep>, time: int, end: int)
    requires DepsOk(next) && DepsOk(c.prev)
    ensures var d, work := NextOp(o, c, next, time, end), |c.book.ops| + 1;
      && |d.book.ops| == work && Includes(d.book, c.book)
      && (forall i :: 0 <= i < |next| && next[i].id != NO_ID ==> Reaches(d.book, work, next[i].id))
      && (forall i :: 0 <= i < |c.prev| && c.prev[i].id != NO_ID ==> Reaches(d.book, c.prev[i].id, work))
  {
    hide Reaches;
    var b, d := AddExec(c.book, o.scaled(time - c.start)), NextOp(o, c, next, time, end);
    var b1 := AddAfter(b, next, Last(b));
    NextOpSize(o, c, next, time, end);
    AfterHas(b, next, Last(b));
    AfterOps(b, next, Last(b));
    BeforeHas(b1, c.prev, Last(b));
    forall i | 0 <= i < |next| && next[i].id != NO_ID
      ensures Reaches(d.book, Last(b), next[i].id)
    {
      ReachesEdge(d.book, Edge(next[i].id, Last(b), next[i].immediate));
    }
    forall i | 0 <= i < |c.prev| && c.prev[i].id != NO_ID
      ensures Reaches(d.book, c.prev[i].id, Last(b))
    {
      ReachesEdge(d.book, Edge(Last(b), c.prev[i].id, c.prev[i].immediate));
    }
  }

  // ---- within a collective ----

  /** Every operation of a collective comes after one of its first. */
  lemma {:induction false} FromStart(b: Book, r: seq<int>, base: nat, x: nat) returns (s: nat)
    requires Tracks(b, base) && Midway(b, r, base) && base < x <= |b.ops|
    ensures s in b.start && base < s <= |b.ops| && Reaches(b, s, x)
    decreases r[x - 1]
  {
    hide Reaches;
    if x in b.start {
      s := x;
      ReachesSelf(b, x);
    } else {
      var e :| e in b.reqs && e.tail == x;
      s := FromStart(b, r, base, e.head);
      ReachesEdge(b, e);
      ReachesOn(b, s, e.head, x);
    }
  }

  /** Every operation of a collective comes before one of its last. */
  lemma {:induction false} ToEnd(b: Book, r: seq<int>, base: nat, x: nat) returns (t: nat)
    requires Tracks(b, base) && Midway(b, r, base) && base < x <= |b.ops|
    ensures t in b.end && base < t <= |b.ops| && Reaches(b, x, t)
    decreases |r| - r[x - 1]
  {
    hide Reaches;
    if x in b.end {
      t := x;
      ReachesSelf(b, x);
    } else {
      var e :| e in b.reqs && e.head == x;
      t := ToEnd(b, r, base, e.tail);
      ReachesEdge(b, e);
      ReachesOn(b, x, e.tail, t);
    }
  }

  // ---- one call ----

  /** The next calculation will come after x. */
  ghost predicate Hooked(c: Conv, x: nat) {
    exists i :: 0 <= i < |c.prev| && 0 <= c.prev[i].id && Reaches(c.book, x, c.prev[i].id)
  }

  /** The call has made operations: they come after the calculation before the call, which comes
      after what was pending; and the next calculation will come after all of them up to the
      last pending one. */
  ghost predicate InOrder(c: Conv, d: Conv) {
    var base, work := |c.book.ops|, |d.book.ops|;
    && base < work && Includes(d.book, c.book)
    && (forall x: nat :: Hooked(c, x) ==> Reaches(d.book, x, work))
    && (forall x: nat :: base < x <= work ==> Reaches(d.book, work, x))
    && (d.prev == [] || (
        && 0 < d.prev[|d.prev| - 1].id
        && Hooked(d, work) && forall x: nat :: base < x <= d.prev[|d.prev| - 1].id ==> Hooked(d, x)))
  }

  /** What was pending before the call reaches its calculation. */
  lemma HookedReaches(o: Options, c: Conv, c1: Conv, next: seq<Dep>, time: int, end: int, x: nat)
    requires DepsOk(next) && DepsOk(c.prev) && c1.prev == c.prev && Includes(c1.book, c.book)
    ensures Hooked(c, x) ==> Reaches(NextOp(o, c1, next, time, end).book, x, |c1.book.ops| + 1)
  {
    hide Reaches, NextOp;
    if Hooked(c, x) {
      var i :| 0 <= i < |c.prev| && 0 <= c.prev[i].id && Reaches(c.book, x, c.prev[i].id);
      var d := NextOp(o, c1, next, time, end);
      NextOpReaches(o, c1, next, time, end);
      ReachesMore(c.book, d.book, x, c.prev[i].id);
      ReachesOn(d.book, x, c.prev[i].id, |c1.book.ops| + 1);
    }
  }

  lemma SingleInOrder(o: Options, c: Conv, b: Book, reqs: map<nat, nat>, immediate: bool, from: int, until: int)
    requires DepsOk(c.prev) && |b.ops| == |c.book.ops| + 1 && Includes(b, c.book)
    ensures var d := Single(o, c.(reqs := reqs), b, immediate, from, until); InOrder(c, d) && d.prev != []
  {
    hide Reaches, NextOp;
    var c1 := c.(reqs := reqs, book := b);
    var d := Single(o, c.(reqs := reqs), b, immediate, from, until);
    NextOpReaches(o, c1, Blocking(Last(b)), from, until);
    forall x: nat ensures Hooked(c, x) ==> Reaches(d.book, x, |d.book.ops|) {
      HookedReaches(o, c, c1, Blocking(Last(b)), from, until, x);
    }
    ReachesSelf(d.book, |d.book.ops|);
    ReachesSelf(d.book, Last(b));
    assert Blocking(Last(b))[0].id == Last(b);
    assert Reaches(d.book, |d.book.ops|, d.prev[0].id);
    assert Reaches(d.book, Last(b), d.prev[0].id);
  }

  lemma SendrecvInOrder(o: Options, c: Conv, b: Book, from: int, until: int)
    requires DepsOk(c.prev) && |b.ops| == |c.book.ops| + 2 && Includes(b, c.book)
    ensures var both := [Dep(|b.ops| - 1, false), Dep(|b.ops|, false)];
      InOrder(c, NextOp(o, c.(book := b), both, from, until).(prev := both))
  {
    hide Reaches, NextOp;
    var c1, both := c.(book := b), [Dep(|b.ops| - 1, false), Dep(|b.ops|, false)];
    var d := NextOp(o, c1, both, from, until).(prev := both);
    NextOpReaches(o, c1, both, from, until);
    forall x: nat ensures Hooked(c, x) ==> Reaches(d.book, x, |d.book.ops|) {
      HookedReaches(o, c, c1, both, from, until, x);
    }
    ReachesSelf(d.book, |d.book.ops|);
    ReachesSelf(d.book, both[0].id);
    ReachesSelf(d.book, both[1].id);
    assert Reaches(d.book, |d.book.ops|, both[0].id) && Reaches(d.book, |d.book.ops|, both[1].id);
    assert Reaches(d.book, both[0].id, d.prev[0].id) && Reaches(d.book, both[1].id, d.prev[1].id);
  }

  lemma FinalizeInOrder(o: Options, c: Conv, time: int)
    requires DepsOk(c.prev)
    ensures InOrder(c, NextOp(o, c, [Dep(NO_ID, false)], time, time))
  {
    hide Reaches;
    var next := [Dep(NO_ID, false)];
    var d := NextOp(o, c, next, time, time);
    NextOpReaches(o, c, next, time, time);
    forall x: nat ensures Hooked(c, x) ==> Reaches(d.book, x, |d.book.ops|) {
      HookedReaches(o, c, c, next, time, time, x);
    }
    ReachesSelf(d.book, |d.book.ops|);
  }

  /** Operations of a collective, then its completion, then perhaps its background share. */
  lemma CompletionReached(b: Book, r: seq<int>, base: nat, ends: seq<nat>, x: nat)
    requires Tracks(b, base) && Midway(b, r, base) && base < x <= |b.ops| && ends == Ascending(b.end, |b.ops|)
    ensures var b0 := AddExec(b, 0); Reaches(RequireAll(b0, Last(b0), ends), x, Last(b0))
  {
    hide Reaches;
    var b0 := AddExec(b, 0);
    var b1 := RequireAll(b0, Last(b0), ends);
    var t := ToEnd(b, r, base, x);
    RequireAllHas(b0, Last(b0), ends);
    assert t in ends;
    var i :| 0 <= i < |ends| && ends[i] == t;
    ReachesEdge(b1, Edge(Last(b0), ends[i], false));
    ReachesMore(b, b1, x, t);
    ReachesOn(b1, x, t, Last(b0));
  }

  /** With at least one operation, all of a collective, its completion and its share lie between
      the calculation before it and the next. */
  lemma FinishInOrder(o: Options, c: Conv, c1: Conv, r: seq<int>, from: int, until: int)
    requires DepsOk(c.prev) && c1.prev == c.prev && Includes(c1.book, c.book)
    requires Tracks(c1.book, |c.book.ops|) && Midway(c1.book, r, |c.book.ops|) && |c1.book.ops| > |c.book.ops|
    ensures var b := c1.book;
      InOrder(c, FinishColl(o, c1, Ascending(b.start, |b.ops|), Ascending(b.end, |b.ops|), from, until))
  {
    hide Reaches, Tracks, Midway, NextOp, Ascending, RequireAll;
    var b, base := c1.book, |c.book.ops|;
    var starts, ends := Ascending(b.start, |b.ops|), Ascending(b.end, |b.ops|);
    var b0 := AddExec(b, 0);
    var collop := Last(b0);
    var b1 := RequireAll(b0, collop, ends);
    RequireAllHas(b0, collop, ends);
    RequireAllOps(b0, collop, ends);
    var virtstart := if from - o.nbcify - c1.start < 0 then c1.start else from - o.nbcify;
    var nbcify := if from - o.nbcify - c1.start < 0 then from - c1.start else o.nbcify;
    var b2 := if nbcify != 0 then AddEdge(AddExec(b1, nbcify % WORD), Last(b1) + 1, collop, true) else b1;
    var c2 := c1.(book := b2);
    var d := FinishColl(o, c1, starts, ends, from, until);
    var work := |d.book.ops|;
    assert d == NextOp(o, c2, DepsOn(starts), virtstart, until).(prev := Blocking(collop));
    NextOpReaches(o, c2, DepsOn(starts), virtstart, until);
    assert Includes(d.book, b1) && Includes(d.book, b);
    forall x: nat ensures Hooked(c, x) ==> Reaches(d.book, x, work) {
      HookedReaches(o, c, c2, DepsOn(starts), virtstart, until, x);
    }
    forall x: nat | base < x <= |b.ops|
      ensures Reaches(d.book, work, x) && Reaches(d.book, x, collop)
    {
      CompletionReached(b, r, base, ends, x);
      ReachesMore(b1, d.book, x, collop);
      BodyReached(b, r, base, d.book, work, starts, x);
    }
    ReachesOn(d.book, work, base + 1, collop);
    if nbcify != 0 {
      assert b2.reqs[|b1.reqs|] == Edge(collop + 1, collop, true);
      ReachesEdge(d.book, Edge(collop + 1, collop, true));
      ReachesOn(d.book, work, collop, collop + 1);
    }
    ReachesSelf(d.book, work);
    ReachesSelf(d.book, collop);
    assert d.prev[0].id == collop;
    forall x: nat | x == work || base < x <= collop ensures Hooked(d, x) {
      assert Reaches(d.book, x, d.prev[0].id);
    }
  }

  lemma BodyReached(b: Book, r: seq<int>, base: nat, more: Book, work: nat, starts: seq<nat>, x: nat)
    requires Tracks(b, base) && Midway(b, r, base) && base < x <= |b.ops| && Includes(more, b)
    requires forall s :: s in b.start && 0 < s <= |b.ops| ==> s in starts
    requires forall i :: 0 <= i < |starts| ==> Reaches(more, work, DepsOn(starts)[i].id)
    ensures Reaches(more, work, x)
  {
    hide Reaches, Tracks, Midway;
    var s := FromStart(b, r, base, x);
    var i :| 0 <= i < |starts| && starts[i] == s;
    assert DepsOn(starts)[i].id == s;
    ReachesMore(b, more, s, x);
    ReachesOn(more, work, s, x);
  }

  lemma {:induction false} RequireAllOps(b: Book, op: nat, ids: seq<nat>)
    ensures RequireAll(b, op, ids).ops == b.ops
    decreases |ids|
  {
    if ids != [] {
      RequireAllOps(AddEdge(b, op, ids[0], false), op, ids[1..]);
    }
  }

  lemma CollectInOrder(o: Options, c: Conv, r: seq<int>, kind: Collective, size: nat, tag: nat, from: int, until: int)
    requires Sound(c, r) && o.rank < o.n && o.n >= 2 && RootOk(kind, o.n)
    ensures var d := Collect(o, c, kind, size, tag, from, until); InOrder(c, d) && d.prev != []
  {
    hide Body, FinishColl, Reaches, Ranks, Ascending;
    var b0 := c.book.(tag := tag, start := {}, end := {});
    MidwaySame(c.book, b0, r);
    var r1 := BodyTracks(o, b0, r, kind, size);
    var b := Body(o, b0, kind, size);
    BodyIncludes(o, b0, kind, size);
    assert |b.ops| > |c.book.ops| by { TracksLength(b, |b0.ops|); }
    FinishInOrder(o, c, c.(book := b), r1, from, until);
    var starts, ends := Ascending(b.start, |b.ops|), Ascending(b.end, |b.ops|);
    FinishLast(o, c.(book := b), starts, ends, from, until);
    var done := FinishColl(o, c.(book := b), starts, ends, from, until);
    if kind.Iallreduce? {
      InOrderReqs(c, done, done.reqs[kind.req := Last(b) + 1]);
    }
  }

  lemma InOrderReqs(c: Conv, d: Conv, reqs: map<nat, nat>)
    requires InOrder(c, d)
    ensures InOrder(c, d.(reqs := reqs))
  {
    hide Reaches;
    forall x: nat ensures Hooked(d, x) <==> Hooked(d.(reqs := reqs), x) {
    }
  }

  lemma FinishLast(o: Options, c: Conv, starts: seq<nat>, ends: seq<nat>, from: int, until: int)
    requires DepsOk(c.prev)
    ensures FinishColl(o, c, starts, ends, from, until).prev == Blocking(Last(c.book) + 1)
  {
  }

  lemma TracksLength(b: Book, base: nat)
    requires Tracks(b, base)
    ensures base <= |b.ops|
  {
  }

  /** A collective takes no dependency back. */
  lemma BodyIncludes(o: Options, b: Book, kind: Collective, size: nat)
    requires o.rank < o.n
    ensures Includes(Body(o, b, kind, size), b)
  {
    forall e | e in b.reqs
      ensures e in Body(o, b, kind, size).reqs
    {
      match kind
      case Barrier => EmitEdges(b, DI.Comms(o.rank, o.n, 1, 1), NO_ID, e);
      case Allreduce => EmitEdges(b, RD.Comms(o.n, o.rank, size), NO_ID, e);
      case Iallreduce(_) => EmitEdges(b, DI.Comms(o.rank, o.n, size, 1), NO_ID, e);
      case Bcast(root) =>
      case Allgather => EmitEdges(b, DI.Comms(o.rank, o.n, size, 1), NO_ID, e);
      case Reduce(root) =>
      case Alltoall => ExchangeReqs(b, o.rank, o.n, size, o.n - 1);
    }
  }

  lemma {:induction false} ExchangeReqs(b: Book, rank: nat, n: nat, size: nat, k: nat)
    requires rank < n
    ensures DI.Exchange(b, rank, n, size, k).reqs == b.reqs
  {
    if k > 0 {
      ExchangeReqs(b, rank, n, size, k - 1);
    }
  }

  lemma ApplyInOrder(o: Options, c: Conv, r: seq<int>, t: Traced)
    requires Sound(c, r) && o.rank < o.n && o.n >= 2 && (t.call.Coll? ==> RootOk(t.call.kind, o.n))
    ensures Apply(o, c, t) == c || InOrder(c, Apply(o, c, t))
    ensures Apply(o, c, t) == c || Apply(o, c, t).prev != [] || t.call.Finalize?
  {
    hide Sound, InOrder, NextOp, Collect, Single, RequireAll;
    assert DepsOk(c.prev) by { SoundOk(c, r); }
    var b := c.book;
    match t.call
    case Recv(size, src, tag) => SingleInOrder(o, c, AddRecv(b.(tag := tag), size, src), c.reqs, false, t.from, t.until);
    case Send(size, dest, tag) => SingleInOrder(o, c, AddSend(b.(tag := tag), size, dest), c.reqs, false, t.from, t.until);
    case Irecv(size, src, tag, req) =>
      SingleInOrder(o, c, AddRecv(b.(tag := tag), size, src), c.reqs[req := Last(b) + 1], true, t.from, t.until);
    case Isend(size, dest, tag, req) =>
      SingleInOrder(o, c, AddSend(b.(tag := tag), size, dest), c.reqs[req := Last(b) + 1], true, t.from, t.until);
    case Wait(req) =>
      if req in c.reqs {
        var b1 := AddExec(b, 0);
        SingleInOrder(o, c, AddEdge(b1, Last(b1), c.reqs[req], false), c.reqs - {req}, false, t.from, t.until);
      }
    case Waitall(req, count) =>
      var b1 := AddExec(b, 0);
      RequireAllHas(b1, Last(b1), Known(c.reqs, req, count));
      RequireAllOps(b1, Last(b1), Known(c.reqs, req, count));
      SingleInOrder(o, c, RequireAll(b1, Last(b1), Known(c.reqs, req, count)), c.reqs - {req}, false, t.from, t.until);
    case Sendrecv(sendSize, dest, recvSize, src, tag) =>
      SendrecvInOrder(o, c, AddRecv(AddSend(b.(tag := tag), sendSize, dest), recvSize, src), t.from, t.until);
    case Coll(kind, size, tag, full) =>
      if full {
        CollectInOrder(o, c, r, kind, size, tag, t.from, t.until);
      }
    case Finalize => FinalizeInOrder(o, c, t.from);
    case Other =>
  }

  lemma SoundOk(c: Conv, r: seq<int>)
    requires Sound(c, r)
    ensures DepsOk(c.prev)
  {
  }

  // ---- the whole trace ----

  /** The operation is not the background share of a collective: the next calculation waits for
      it. */
  predicate Foreground(d: Conv, x: nat) {
    x == |d.book.ops| || (d.prev != [] && x <= d.prev[|d.prev| - 1].id)
  }

  lemma StepInOrder(o: Options, start: int, calls: seq<Traced>, k: nat)
    requires o.rank < o.n && o.n >= 2 && k < |calls| && WellTraced(calls, o.n)
    ensures var c, d := Converted(o, start, calls, k), Converted(o, start, calls, k + 1);
      && (d == c || InOrder(c, d))
      && (d == c || d.prev != [] || calls[k].call.Finalize?)
  {
    hide Apply, InOrder;
    var r := ConvertedSound(o, start, calls, k);
    ApplyInOrder(o, Converted(o, start, calls, k), r, calls[k]);
  }

  lemma {:induction false} StaysHooked(o: Options, start: int, calls: seq<Traced>, i: nat, j: nat, x: nat)
    requires o.rank < o.n && o.n >= 2 && i <= j <= |calls| && WellTraced(calls, o.n)
    requires Hooked(Converted(o, start, calls, i), x)
    requires forall k :: i <= k < j ==> !calls[k].call.Finalize?
    ensures Hooked(Converted(o, start, calls, j), x)
    decreases j
  {
    hide Converted, Reaches;
    if i < j {
      StaysHooked(o, start, calls, i, j - 1, x);
      StepInOrder(o, start, calls, j - 1);
      var c, d := Converted(o, start, calls, j - 1), Converted(o, start, calls, j);
      if d != c {
        var work := |d.book.ops|;
        var n :| 0 <= n < |d.prev| && 0 <= d.prev[n].id && Reaches(d.book, work, d.prev[n].id);
        ReachesOn(d.book, x, work, d.prev[n].id);
      }
    }
  }

  lemma {:induction false} StaysReached(o: Options, start: int, calls: seq<Traced>, j: nat, k: nat, x: nat, y: nat)
    requires o.rank < o.n && o.n >= 2 && j <= k <= |calls| && WellTraced(calls, o.n)
    requires Reaches(Converted(o, start, calls, j).book, x, y)
    ensures Reaches(Converted(o, start, calls, k).book, x, y)
    decreases k
  {
    hide Converted, Reaches, Hooked;
    if j < k {
      StaysReached(o, start, calls, j, k - 1, x, y);
      StepInOrder(o, start, calls, k - 1);
      ReachesMore(Converted(o, start, calls, k - 1).book, Converted(o, start, calls, k).book, x, y);
    }
  }

  /** Program order: every operation of an earlier call, except the background share of a
      collective, comes before every operation of a later call. */
  lemma ProgramOrder(o: Options, start: int, calls: seq<Traced>, i: nat, j: nat, x: nat, y: nat)
    requires o.rank < o.n && o.n >= 2 && i < j < |calls| && WellTraced(calls, o.n)
    requires forall k :: i <= k < j ==> !calls[k].call.Finalize?
    requires |Converted(o, start, calls, i).book.ops| < x <= |Converted(o, start, calls, i + 1).book.ops|
    requires |Converted(o, start, calls, j).book.ops| < y <= |Converted(o, start, calls, j + 1).book.ops|
    requires Foreground(Converted(o, start, calls, i + 1), x)
    ensures Reaches(Converted(o, start, calls, |calls|).book, x, y)
  {
    hide Converted, Reaches, Hooked;
    StepInOrder(o, start, calls, i);
    StaysHooked(o, start, calls, i + 1, j, x);
    StepInOrder(o, start, calls, j);
    var d := Converted(o, start, calls, j + 1);
    ReachesOn(d.book, x, |d.book.ops|, y);
    StaysReached(o, start, calls, j + 1, |calls|, x, y);
  }

  /** Within a call everything comes after the calculation before it. */
  lemma CalculationFirst(o: Options, start: int, calls: seq<Traced>, i: nat, x: nat)
    requires o.rank < o.n && o.n >= 2 && i < |calls| && WellTraced(calls, o.n)
    requires |Converted(o, start, calls, i).book.ops| < x <= |Converted(o, start, calls, i + 1).book.ops|
    ensures Reaches(Converted(o, start, calls, |calls|).book, |Converted(o, start, calls, i + 1).book.ops|, x)
  {
    hide Converted, Reaches, Hooked;
    StepInOrder(o, start, calls, i);
    StaysReached(o, start, calls, i + 1, |calls|, |Converted(o, start, calls, i + 1).book.ops|, x);
  }

  // ---- one host ----

  lemma {:induction false} BeforeOnly(b: Book, deps: seq<Dep>, op: nat, e: Edge)
    requires DepsOk(deps) && e in AddBefore(b, deps, op).reqs
    ensures e in b.reqs || e.tail == op
    decreases |deps|
  {
    if deps != [] {
      BeforeOnly(if deps[0].id != NO_ID then AddEdge(b, op, deps[0].id, deps[0].immediate) else b, deps[1..], op, e);
    }
  }

  lemma Unreachable(b: Book, u: nat, v: nat)
    requires u != v && forall e :: e in b.reqs ==> e.tail != v
    ensures !Reaches(b, u, v)
  {
    hide Digraph.IsWalk;
    if Reaches(b, u, v) {
      var p: seq<nat> :| |p| > 0 && Digraph.IsWalk(Before(b), p) && p[0] == u && p[|p| - 1] == v;
      WalkEdge(b, p, |p| - 2);
    }
  }

  lemma WalkEdge(b: Book, p: seq<nat>, i: nat)
    requires Digraph.IsWalk(Before(b), p) && i + 1 < |p|
    ensures exists e :: e in b.reqs && e.head == p[i] && e.tail == p[i + 1]
  {
    assert Before(b)(p[i], p[i + 1]);
  }

  /** The completion of an empty collective depends on nothing. */
  lemma EmptyFinish(o: Options, c: Conv, from: int, until: int)
    requires DepsOk(c.prev) && forall e :: e in c.book.reqs ==> e.tail <= |c.book.ops|
    ensures var d, collop := FinishColl(o, c, [], [], from, until), |c.book.ops| + 1;
      |d.book.ops| > collop && forall e :: e in d.book.reqs ==> e.tail != collop
  {
    hide NextOp;
    var b1 := AddExec(c.book, 0);
    var collop := Last(b1);
    var virtstart := if from - o.nbcify - c.start < 0 then c.start else from - o.nbcify;
    var nbcify := if from - o.nbcify - c.start < 0 then from - c.start else o.nbcify;
    var b2 := if nbcify != 0 then AddEdge(AddExec(b1, nbcify % WORD), Last(b1) + 1, collop, true) else b1;
    var d := FinishColl(o, c, [], [], from, until);
    NextOpSize(o, c.(book := b2), [], virtstart, until);
    assert d == NextOp(o, c.(book := b2), [], virtstart, until).(prev := Blocking(collop)) by {
      assert DepsOn([]) == [];
    }
    forall e | e in d.book.reqs
      ensures e.tail != collop
    {
      NextOpOnly(o, c.(book := b2), virtstart, until, e);
    }
  }

  lemma NextOpOnly(o: Options, c: Conv, time: int, end: int, e: Edge)
    requires DepsOk(c.prev) && e in NextOp(o, c, [], time, end).book.reqs
    ensures e in c.book.reqs || e.tail == |c.book.ops| + 1
  {
    BeforeOnly(AddExec(c.book, o.scaled(time - c.start)), c.prev, |c.book.ops| + 1, e);
  }

  /** The completion of a collective waits for the calculation before it exactly when there are
      two hosts: with one the collective is empty. */
  lemma OrderedIffTwoHosts(o: Options, c: Conv, r: seq<int>, kind: Collective, size: nat, tag: nat, from: int, until: int)
    requires Sound(c, r) && o.rank < o.n && RootOk(kind, o.n)
    ensures var d := Collect(o, c, kind, size, tag, from, until);
      && |d.prev| == 1 && 0 < d.prev[0].id < |d.book.ops|
      && (Reaches(d.book, |d.book.ops|, d.prev[0].id) <==> o.n >= 2)
  {
    var d := Collect(o, c, kind, size, tag, from, until);
    var b0 := c.book.(tag := tag, start := {}, end := {});
    var b := Body(o, b0, kind, size);
    hide Body, FinishColl, Reaches, Ranks, Ascending;
    MidwaySame(c.book, b0, r);
    var r1 := BodyTracks(o, b0, r, kind, size);
    var starts, ends := Ascending(b.start, |b.ops|), Ascending(b.end, |b.ops|);
    FinishLast(o, c.(book := b), starts, ends, from, until);
    if o.n >= 2 {
      FinishInside(o, c, r, kind, size, tag, from, until);
      CollectInOrder(o, c, r, kind, size, tag, from, until);
    } else {
      AscendingNone(b, r1, |c.book.ops|);
      EmptyFinish(o, c.(book := b), from, until);
      Unreachable(d.book, |d.book.ops|, d.prev[0].id);
    }
  }

  lemma FinishInside(o: Options, c: Conv, r: seq<int>, kind: Collective, size: nat, tag: nat, from: int, until: int)
    requires Sound(c, r) && o.rank < o.n && RootOk(kind, o.n)
    ensures var d := Collect(o, c, kind, size, tag, from, until);
      |d.prev| == 1 && |c.book.ops| < d.prev[0].id < |d.book.ops|
  {
    hide Body, Ranks, Ascending;
    var b0 := c.book.(tag := tag, start := {}, end := {});
    MidwaySame(c.book, b0, r);
    var r1 := BodyTracks(o, b0, r, kind, size);
    var b := Body(o, b0, kind, size);
    var starts, ends := Ascending(b.start, |b.ops|), Ascending(b.end, |b.ops|);
    TracksLength(b, |b0.ops|);
    FinishSize(o, c.(book := b), starts, ends, from, until);
  }

  lemma FinishSize(o: Options, c: Conv, starts: seq<nat>, ends: seq<nat>, from: int, until: int)
    requires DepsOk(c.prev)
    ensures var d := FinishColl(o, c, starts, ends, from, until);
      |d.book.ops| > |c.book.ops| + 1 && d.prev == Blocking(|c.book.ops| + 1)
  {
    hide NextOp;
    var b := AddExec(c.book, 0);
    var collop := Last(b);
    var b1 := RequireAll(b, collop, ends);
    RequireAllOps(b, collop, ends);
    var virtstart := if from - o.nbcify - c.start < 0 then c.start else from - o.nbcify;
    var nbcify := if from - o.nbcify - c.start < 0 then from - c.start else o.nbcify;
    var b2 := if nbcify != 0 then AddEdge(AddExec(b1, nbcify % WORD), Last(b1) + 1, collop, true) else b1;
    NextOpSize(o, c.(book := b2), DepsOn(starts), virtstart, until);
  }

  lemma {:induction false} NothingAscending(s: set<nat>, hi: nat)
    requires forall x :: x in s ==> hi < x
    ensures Ascending(s, hi) == []
  {
    if hi > 0 {
      NothingAscending(s, hi - 1);
    }
  }

  lemma AscendingNone(b: Book, r: seq<int>, base: nat)
    requires Tracks(b, base) && Midway(b, r, base) && |b.ops| == base
    ensures Ascending(b.start, base) == [] && Ascending(b.end, base) == []
    ensures forall e :: e in b.reqs ==> e.tail <= base
  {
    NothingAscending(b.start, base);
    NothingAscending(b.end, base);
  }
}
