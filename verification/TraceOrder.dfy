/** Converted traces have no dependency cycle, although operations are not emitted in dependency
    order. */
module TraceOrder {
  import opened Powers
  import opened Goal
  import opened TraceConversion
  import RD = RecursiveDoubling
  import BT = BinomialTree
  import DI = Dissemination
  import Digraph

  /** u comes before v. */
  ghost function Before(b: Book): (nat, nat) -> bool {
    (u: nat, v: nat) => exists e :: e in b.reqs && e.head == u && e.tail == v
  }

  /** Every dependency is on an operation of lower rank. */
  predicate Ranks(b: Book, r: seq<int>) {
    && |r| == |b.ops|
    && forall e :: e in b.reqs ==> 0 < e.head <= |r| && 0 < e.tail <= |r| && r[e.head - 1] < r[e.tail - 1]
  }

  /** Between calls the ranks are also below the number of operations. */
  predicate Ranked(b: Book, r: seq<int>) {
    Ranks(b, r) && forall i :: 0 <= i < |r| ==> 0 <= r[i] < |r|
  }

  /** In the middle of a call that started with `base` operations its own are ranked above
      `base`, so that the calculation before the call can take rank `base`. */
  predicate Midway(b: Book, r: seq<int>, base: nat) {
    && Ranks(b, r) && base <= |r|
    && (forall i :: 0 <= i < base ==> 0 <= r[i] < base)
    && (forall i :: base <= i < |r| ==> base < r[i] <= |r|)
  }

  lemma RanksOp(b: Book, more: Book, r: seq<int>, x: int)
    requires Ranks(b, r) && more.reqs == b.reqs && |more.ops| == |b.ops| + 1
    ensures Ranks(more, r + [x])
  {
  }

  lemma RanksEdge(b: Book, r: seq<int>, tail: nat, head: nat, immediate: bool)
    requires Ranks(b, r) && 0 < tail <= |r| && 0 < head <= |r| && r[head - 1] < r[tail - 1]
    ensures Ranks(AddEdge(b, tail, head, immediate), r)
  {
  }

  lemma {:induction false} RanksAll(b: Book, r: seq<int>, op: nat, ids: seq<nat>)
    requires Ranks(b, r) && 0 < op <= |r|
    requires forall i :: 0 <= i < |ids| ==> 0 < ids[i] <= |r| && r[ids[i] - 1] < r[op - 1]
    ensures Ranks(RequireAll(b, op, ids), r) && RequireAll(b, op, ids).ops == b.ops
    decreases |ids|
  {
    if ids != [] {
      RanksEdge(b, r, op, ids[0], false);
      RanksAll(AddEdge(b, op, ids[0], false), r, op, ids[1..]);
    }
  }

  lemma {:induction false} RanksAfter(b: Book, r: seq<int>, deps: seq<Dep>, op: nat)
    requires Ranks(b, r) && DepsOk(deps) && 0 < op <= |r|
    requires forall i :: 0 <= i < |deps| && deps[i].id != NO_ID ==> 0 < deps[i].id <= |r| && r[op - 1] < r[deps[i].id - 1]
    ensures Ranks(AddAfter(b, deps, op), r) && AddAfter(b, deps, op).ops == b.ops
    decreases |deps|
  {
    if deps != [] {
      RanksAfter(if deps[0].id != NO_ID then AddEdge(b, deps[0].id, op, deps[0].immediate) else b, r, deps[1..], op);
    }
  }

  lemma {:induction false} RanksBefore(b: Book, r: seq<int>, deps: seq<Dep>, op: nat)
    requires Ranks(b, r) && DepsOk(deps) && 0 < op <= |r|
    requires forall i :: 0 <= i < |deps| && deps[i].id != NO_ID ==> 0 < deps[i].id <= |r| && r[deps[i].id - 1] < r[op - 1]
    ensures Ranks(AddBefore(b, deps, op), r) && AddBefore(b, deps, op).ops == b.ops
    decreases |deps|
  {
    if deps != [] {
      RanksBefore(if deps[0].id != NO_ID then AddEdge(b, op, deps[0].id, deps[0].immediate) else b, r, deps[1..], op);
    }
  }

  /** The dependencies of the next calculation are operations of the schedule. */
  predicate Prior(deps: seq<Dep>, lo: nat, hi: nat) {
    DepsOk(deps) && forall i :: 0 <= i < |deps| && deps[i].id != NO_ID ==> lo < deps[i].id <= hi
  }

  /** The calculation before a call goes below the call's operations and above all earlier. */
  lemma NextOpRanked(o: Options, c: Conv, r: seq<int>, base: nat, next: seq<Dep>, time: int, end: int)
    requires Midway(c.book, r, base) && Prior(c.prev, 0, base) && Prior(next, base, |r|)
    ensures Ranked(NextOp(o, c, next, time, end).book, r + [base])
  {
    var b, all := AddExec(c.book, o.scaled(time - c.start)), r + [base];
    RanksOp(c.book, b, r, base);
    RanksAfter(b, all, next, Last(b));
    RanksBefore(AddAfter(b, next, Last(b)), all, c.prev, Last(b));
  }

  // ---- the body of a collective ----

  /** Dependencies stay among the operations after `base`, and `start` and `end` hold those of
      them that require none and that none requires. */
  ghost predicate Tracks(b: Book, base: nat) {
    && base <= |b.ops|
    && (forall e :: e in b.reqs ==>
          (e.tail <= base && e.head <= base) || (base < e.tail <= |b.ops| && base < e.head <= |b.ops|))
    && (forall l :: l in b.start <==> base < l <= |b.ops| && forall e :: e in b.reqs ==> e.tail != l)
    && (forall l :: l in b.end <==> base < l <= |b.ops| && forall e :: e in b.reqs ==> e.head != l)
  }

  lemma TracksOp(b: Book, base: nat, op: GoalOp)
    requires Tracks(b, base)
    ensures var id := |b.ops| + 1;
      Tracks(b.(ops := b.ops + [op], start := b.start + {id}, end := b.end + {id}), base)
  {
  }

  lemma TracksEdge(b: Book, base: nat, tail: nat, head: nat)
    requires Tracks(b, base) && base < tail <= |b.ops| && base < head <= |b.ops|
    ensures Tracks(AddEdge(b, tail, head, false), base)
  {
    var more := AddEdge(b, tail, head, false);
    forall e ensures e in more.reqs <==> e in b.reqs || e == Edge(tail, head, false) {
    }
    assert Edge(tail, head, false) in more.reqs;
  }

  /** Chained communications depend on earlier ones only. */
  lemma {:induction false} EmitTracks(b: Book, base: nat, r: seq<int>, comms: seq<Comm>, prev: int)
    returns (all: seq<int>)
    requires Tracks(b, base) && Midway(b, r, base) && (forall i :: 0 <= i < |comms| ==> !comms[i].Gap?)
    requires prev == NO_ID || base < prev <= |b.ops|
    requires forall i :: base <= i < |r| ==> r[i] == i + 1
    ensures Tracks(Emit(b, comms, prev), base) && Midway(Emit(b, comms, prev), all, base) && r <= all
    ensures |Emit(b, comms, prev).ops| == |b.ops| + |comms|
    decreases |comms|
  {
    all := r;
    if comms != [] {
      var (b1, prev1) := EmitOne(b, comms[0], prev);
      var r1 := r + [|r| + 1];
      EmitOneTracks(b, base, r, comms[0], prev);
      all := EmitTracks(b1, base, r1, comms[1..], prev1);
    }
  }

  lemma EmitOneTracks(b: Book, base: nat, r: seq<int>, c: Comm, prev: int)
    requires Tracks(b, base) && Midway(b, r, base) && !c.Gap?
    requires prev == NO_ID || base < prev <= |b.ops|
    requires forall i :: base <= i < |r| ==> r[i] == i + 1
    ensures var (b1, prev1) := EmitOne(b, c, prev);
      Tracks(b1, base) && Midway(b1, r + [|r| + 1], base) && (prev1 == NO_ID || base < prev1 <= |b1.ops|)
      && |b1.ops| == |b.ops| + 1
  {
    hide Tracks;
    var r1 := r + [|r| + 1];
    match c
    case To(peer, size) =>
      var b1 := AddSend(b, size, peer);
      TracksOp(b, base, GoalOp.Send(size, peer, b.tag));
      RanksOp(b, b1, r, |r| + 1);
      if prev != NO_ID {
        TracksEdge(b1, base, Last(b1), prev);
        RanksEdge(b1, r1, Last(b1), prev, false);
      }
    case From(peer, size) =>
      TracksOp(b, base, GoalOp.Recv(size, peer, b.tag));
      RanksOp(b, AddRecv(b, size, peer), r, |r| + 1);
  }

  predicate IsTail(b: Book, l: nat) {
    exists e :: e in b.reqs && e.tail == l
  }

  predicate IsHead(b: Book, l: nat) {
    exists e :: e in b.reqs && e.head == l
  }

  /** The dependencies of a rank in a tree are the m - 1 links. */
  ghost predicate Links(b: Book, b1: Book, dir: BT.Direction, linked: bool, m: nat) {
    forall e :: e in b1.reqs <==> e in b.reqs || (linked && exists i :: 1 <= i < m && e == BT.Link(dir, |b.ops|, i))
  }

  /** With links, the parent's operation is at one end of all and the children's at the other. */
  lemma LinkEnds(b: Book, r: seq<int>, b1: Book, dir: BT.Direction, linked: bool, m: nat, l: nat)
    requires Ranked(b, r) && Links(b, b1, dir, linked, m) && |b.ops| < l <= |b.ops| + m
    ensures var base := |b.ops|;
      && (IsTail(b1, l) <==> linked && if dir.Down? then base + 1 < l else l == base + 1 && m > 1)
      && (IsHead(b1, l) <==> linked && if dir.Down? then l == base + 1 && m > 1 else base + 1 < l)
  {
    var base := |b.ops|;
    if linked && m > 1 {
      var i := if base + 1 < l then l - base - 1 else 1;
      assert BT.Link(dir, base, i) in b1.reqs;
    }
  }

  lemma ShapeTracks(b: Book, r: seq<int>, dir: BT.Direction, linked: bool, ops: seq<GoalOp>, reqs: seq<Edge>)
    requires Ranked(b, r) && b.start == {} && b.end == {}
    requires Links(b, BT.Shape(b, dir, linked, ops, reqs), dir, linked, |ops|)
    ensures Tracks(BT.Shape(b, dir, linked, ops, reqs), |b.ops|)
  {
    var b1, base := BT.Shape(b, dir, linked, ops, reqs), |b.ops|;
    forall l: nat
      ensures l in b1.start <==> base < l <= |b1.ops| && !IsTail(b1, l)
      ensures l in b1.end <==> base < l <= |b1.ops| && !IsHead(b1, l)
    {
      if base < l <= |b1.ops| {
        LinkEnds(b, r, b1, dir, linked, |ops|, l);
      }
    }
  }

  function TreeRanks(r: seq<int>, dir: BT.Direction, m: nat): (all: seq<int>)
    ensures |all| == |r| + m && r <= all
  {
    r + seq(m, i requires 0 <= i < m => if dir.Down? then |r| + 1 + i else |r| + m - i)
  }

  lemma LinksMidway(b: Book, r: seq<int>, b1: Book, dir: BT.Direction, linked: bool, m: nat)
    requires Ranked(b, r) && Links(b, b1, dir, linked, m) && |b1.ops| == |b.ops| + m
    ensures Midway(b1, TreeRanks(r, dir, m), |b.ops|)
  {
  }

  /** The operations of a rank in a tree: the parent's depends on the children's, or they on
      it. */
  lemma TreeTracks(b: Book, r: seq<int>, dir: BT.Direction, n: nat, root: nat, v: nat, size: nat, k: nat)
    returns (all: seq<int>)
    requires Ranked(b, r) && b.start == {} && b.end == {}
    ensures var b1 := BT.After(b, dir, n, root, v, size, k);
      Tracks(b1, |b.ops|) && Midway(b1, all, |b.ops|) && r <= all && |b1.ops| == |b.ops| + |BT.Ops(dir, n, root, v, size, b.tag, k)|
  {
    var ops, reqs, linked := BT.Ops(dir, n, root, v, size, b.tag, k), BT.Reqs(dir, n, v, |b.ops|, k), BT.Linked(v, k);
    var b1 := BT.After(b, dir, n, root, v, size, k);
    BT.OpsCount(dir, n, root, v, size, b.tag, k);
    BT.NoKidsYet(n, v, k);
    assert linked ==> v > 0;
    all := TreeRanks(r, dir, |ops|);
    hide BT.Ops, BT.Kids, BT.Linked, BT.Reqs, Tracks, Midway, TreeRanks, Ranked, BT.Link;
    assert Links(b, b1, dir, linked, |ops|) by {
      forall e ensures e in b1.reqs <==> e in b.reqs || (linked && exists i :: 1 <= i < |ops| && e == BT.Link(dir, |b.ops|, i))
      {
        BT.ReqsAre(dir, n, v, |b.ops|, k, e);
        TreeEdge(linked, |BT.Kids(n, v, k)|, v, |ops|, dir, |b.ops|, e);
      }
    }
    hide BT.Shape;
    ShapeTracks(b, r, dir, linked, ops, reqs);
    LinksMidway(b, r, b1, dir, linked, |ops|);
  }

  lemma TreeEdge(linked: bool, kids: nat, v: nat, m: nat, dir: BT.Direction, base: nat, e: Edge)
    requires m == kids + (if linked then 1 else 0) && (linked ==> v > 0) && (v > 0 && kids > 0 ==> linked)
    ensures (v > 0 && exists i :: 1 <= i <= kids && e == BT.Link(dir, base, i))
       <==> (linked && exists i :: 1 <= i < m && e == BT.Link(dir, base, i))
  {
  }

  lemma {:induction false} ExchangeTracks(b: Book, r: seq<int>, rank: nat, n: nat, size: nat, k: nat)
    returns (all: seq<int>)
    requires Ranked(b, r) && b.start == {} && b.end == {} && rank < n
    ensures var b1 := DI.Exchange(b, rank, n, size, k);
      Tracks(b1, |b.ops|) && Midway(b1, all, |b.ops|) && r <= all && |b1.ops| == |b.ops| + 2 * k
  {
    hide Tracks, Ranked, Midway;
    if k == 0 {
      all := r;
      FreshTracks(b, r);
    } else {
      all := ExchangeTracks(b, r, rank, n, size, k - 1);
      all := ExchangeStep(DI.Exchange(b, rank, n, size, k - 1), all, |b.ops|, size, (rank + k) % n, (rank - k) % n);
    }
  }

  lemma ExchangeStep(b: Book, r: seq<int>, base: nat, size: nat, dest: nat, src: nat) returns (all: seq<int>)
    requires Tracks(b, base) && Midway(b, r, base)
    ensures var b1 := AddRecv(AddSend(b, size, dest), size, src);
      Tracks(b1, base) && Midway(b1, all, base) && r <= all
  {
    hide Tracks, Midway;
    var b1 := AddSend(b, size, dest);
    TracksOp(b, base, GoalOp.Send(size, dest, b.tag));
    MidwayOp(b, b1, r, base);
    TracksOp(b1, base, GoalOp.Recv(size, src, b1.tag));
    MidwayOp(b1, AddRecv(b1, size, src), r + [|r| + 1], base);
    all := r + [|r| + 1] + [|r| + 2];
    assert (r + [|r| + 1]) + [|r + [|r| + 1]| + 1] == all;
  }

  /** At the start of a call. */
  lemma FreshTracks(b: Book, r: seq<int>)
    requires Ranked(b, r) && b.start == {} && b.end == {}
    ensures Tracks(b, |b.ops|) && Midway(b, r, |b.ops|)
  {
  }

  /** One more operation without dependencies. */
  lemma MidwayOp(b: Book, more: Book, r: seq<int>, base: nat)
    requires Midway(b, r, base) && more.reqs == b.reqs && |more.ops| == |b.ops| + 1
    ensures Midway(more, r + [|r| + 1], base)
  {
    RanksOp(b, more, r, |r| + 1);
  }

  predicate NoGaps(comms: seq<Comm>) {
    forall i :: 0 <= i < |comms| ==> !comms[i].Gap?
  }

  lemma {:induction false} RoundsNoGaps(n: nat, q: nat, size: nat, k: nat)
    requires n > 0
    ensures NoGaps(RD.RoundComms(n, q, size, k))
  {
    if k > 0 {
      RoundsNoGaps(n, q, size, k - 1);
    }
  }

  lemma AllreduceNoGaps(n: nat, r: nat, size: nat)
    requires r < n
    ensures NoGaps(RD.Comms(n, r, size)) && (RD.Comms(n, r, size) == [] <==> n == 1)
  {
    if RD.NewRank(n, r) != NO_ID {
      RD.NewRankBijection(n, r, 0);
      RoundsNoGaps(n, RD.NewRank(n, r), size, RD.Rounds(n));
    }
  }

  lemma {:induction false} DisseminationNoGaps(rank: nat, n: nat, size: nat, dist: nat)
    requires 0 < dist && rank < n
    ensures NoGaps(DI.Comms(rank, n, size, dist)) && (DI.Comms(rank, n, size, dist) == [] <==> dist >= n)
    decreases if dist < n then n - dist else 0
  {
    if dist < n {
      DisseminationNoGaps(rank, n, size, 2 * dist);
    }
  }

  lemma TreeSize(dir: BT.Direction, n: nat, root: nat, rank: nat, size: nat, tag: nat)
    requires root < n && rank < n
    ensures BT.Ops(dir, n, root, BT.Swap(rank, root), size, tag, CeilLog2(n)) == [] <==> n == 1
  {
    var v, k := BT.Swap(rank, root), CeilLog2(n);
    BT.OpsCount(dir, n, root, v, size, tag, k);
    if n > 1 {
      if v == 0 {
        assert BT.HasKid(n, 0, 0);
        BT.KidsPrefix(n, 0, 1, k);
        assert |BT.Kids(n, 0, 1)| == 1;
      } else {
        assert BT.Linked(v, k);
      }
    }
  }

  /** Every collective's operations depend on each other without a cycle, and there are some
      exactly when there are two ranks. */
  lemma BodyTracks(o: Options, b: Book, r: seq<int>, kind: Collective, size: nat) returns (all: seq<int>)
    requires o.rank < o.n && RootOk(kind, o.n) && Ranked(b, r) && b.start == {} && b.end == {}
    ensures var b1 := Body(o, b, kind, size);
      Tracks(b1, |b.ops|) && Midway(b1, all, |b.ops|) && r <= all && (|b1.ops| == |b.ops| <==> o.n == 1)
  {
    hide Tracks, Midway, Ranked, Emit, BT.After, BT.Ops, DI.Exchange, RD.Comms, DI.Comms;
    FreshTracks(b, r);
    RanksLength(b, r);
    match kind
    case Allreduce =>
      AllreduceNoGaps(o.n, o.rank, size);
      all := EmitTracks(b, |b.ops|, r, RD.Comms(o.n, o.rank, size), NO_ID);
    case Bcast(root) =>
      TreeSize(BT.Down, o.n, root, o.rank, size, b.tag);
      all := TreeTracks(b, r, BT.Down, o.n, root, BT.Swap(o.rank, root), size, CeilLog2(o.n));
    case Reduce(root) =>
      TreeSize(BT.Up, o.n, root, o.rank, size, b.tag);
      all := TreeTracks(b, r, BT.Up, o.n, root, BT.Swap(o.rank, root), size, CeilLog2(o.n));
    case Alltoall =>
      all := ExchangeTracks(b, r, o.rank, o.n, size, o.n - 1);
    case _ =>
      var bytes := if kind.Barrier? then 1 else size;
      DisseminationNoGaps(o.rank, o.n, bytes, 1);
      all := EmitTracks(b, |b.ops|, r, DI.Comms(o.rank, o.n, bytes, 1), NO_ID);
  }

  lemma RanksLength(b: Book, r: seq<int>)
    requires Ranked(b, r)
    ensures |r| == |b.ops|
  {
  }

  // ---- one call ----

  /** Between calls: ranks, and pending dependencies and requests that are known operations. */
  ghost predicate Sound(c: Conv, r: seq<int>) {
    && Ranked(c.book, r) && Prior(c.prev, 0, |c.book.ops|)
    && forall q :: q in c.reqs ==> 0 < c.reqs[q] <= |c.book.ops|
  }

  lemma MidwayStart(b: Book, r: seq<int>)
    requires Ranked(b, r)
    ensures Midway(b, r, |b.ops|)
  {
  }

  /** Setting tag, start and end does not matter. */
  lemma MidwaySame(b: Book, more: Book, r: seq<int>)
    requires Ranked(b, r) && more.ops == b.ops && more.reqs == b.reqs
    ensures Ranked(more, r)
  {
  }

  /** The single operation of a call, waiting for older operations. */
  lemma SingleSound(o: Options, c: Conv, r: seq<int>, b: Book, olds: seq<nat>, reqs: map<nat, nat>, immediate: bool, from: int, until: int)
    returns (all: seq<int>)
    requires Sound(c, r) && |b.ops| == |c.book.ops| + 1 && b.reqs == c.book.reqs
    requires forall i :: 0 <= i < |olds| ==> 0 < olds[i] <= |c.book.ops|
    requires forall q :: q in reqs ==> 0 < reqs[q] <= |b.ops|
    ensures var done := Single(o, c.(reqs := reqs), RequireAll(b, Last(b), olds), immediate, from, until);
      Sound(done, all) && r <= all
  {
    hide Ranks;
    RanksLength(c.book, r);
    var base, r1 := |c.book.ops|, r + [|r| + 1];
    MidwayStart(c.book, r);
    MidwayOp(c.book, b, r, base);
    var b1 := RequireAll(b, Last(b), olds);
    assert r1[Last(b) - 1] == base + 1;
    assert forall i :: 0 <= i < |olds| ==> r1[olds[i] - 1] == r[olds[i] - 1] < base;
    RanksAll(b, r1, Last(b), olds);
    assert Midway(b1, r1, base);
    NextOpRanked(o, c.(book := b1, reqs := reqs), r1, base, Blocking(Last(b1)), from, until);
    all := r1 + [base];
    NextOpSize(o, c.(book := b1, reqs := reqs), Blocking(Last(b1)), from, until);
  }

  lemma NextOpSize(o: Options, c: Conv, next: seq<Dep>, time: int, end: int)
    requires DepsOk(next) && DepsOk(c.prev)
    ensures NextOp(o, c, next, time, end).book.ops == c.book.ops + [Exec(o.scaled(time - c.start))]
  {
    var b := AddExec(c.book, o.scaled(time - c.start));
    AfterOps(b, next, Last(b));
    BeforeOps(AddAfter(b, next, Last(b)), c.prev, Last(b));
  }

  lemma {:induction false} AfterOps(b: Book, deps: seq<Dep>, op: nat)
    requires DepsOk(deps)
    ensures AddAfter(b, deps, op).ops == b.ops
    decreases |deps|
  {
    if deps != [] {
      AfterOps(if deps[0].id != NO_ID then AddEdge(b, deps[0].id, op, deps[0].immediate) else b, deps[1..], op);
    }
  }

  lemma {:induction false} BeforeOps(b: Book, deps: seq<Dep>, op: nat)
    requires DepsOk(deps)
    ensures AddBefore(b, deps, op).ops == b.ops
    decreases |deps|
  {
    if deps != [] {
      BeforeOps(if deps[0].id != NO_ID then AddEdge(b, op, deps[0].id, deps[0].immediate) else b, deps[1..], op);
    }
  }

  lemma KnownIn(reqs: map<nat, nat>, req: nat, count: nat, hi: nat)
    requires forall q :: q in reqs ==> 0 < reqs[q] <= hi
    ensures forall i :: 0 <= i < |Known(reqs, req, count)| ==> 0 < Known(reqs, req, count)[i] <= hi
  {
  }

  lemma RequireOne(b: Book, op: nat, id: nat)
    ensures RequireAll(b, op, [id]) == AddEdge(b, op, id, false) && RequireAll(b, op, []) == b
  {
    assert [id][1..] == [];
  }

  /** A send and a receive at once. */
  lemma SendrecvSound(o: Options, c: Conv, r: seq<int>, b: Book, from: int, until: int) returns (all: seq<int>)
    requires Sound(c, r) && |b.ops| == |c.book.ops| + 2 && b.reqs == c.book.reqs
    ensures var both := [Dep(|b.ops| - 1, false), Dep(|b.ops|, false)];
      Sound(NextOp(o, c.(book := b), both, from, until).(prev := both), all) && r <= all
  {
    hide Ranks;
    RanksLength(c.book, r);
    var base, both := |c.book.ops|, [Dep(|b.ops| - 1, false), Dep(|b.ops|, false)];
    var r1 := r + [|r| + 1] + [|r| + 2];
    MidwayStart(c.book, r);
    var half := b.(ops := b.ops[..|b.ops| - 1]);
    MidwayOp(c.book, half, r, base);
    MidwayOp(half, b, r + [|r| + 1], base);
    assert r + [|r| + 1] + [|r + [|r| + 1]| + 1] == r1;
    NextOpRanked(o, c.(book := b), r1, base, both, from, until);
    NextOpSize(o, c.(book := b), both, from, until);
    all := r1 + [base];
  }

  lemma CompletionMidway(b: Book, base: nat, r: seq<int>, ends: seq<nat>)
    requires Midway(b, r, base) && forall i :: 0 <= i < |ends| ==> base < ends[i] <= |r|
    ensures var b0 := AddExec(b, 0); var b1 := RequireAll(b0, Last(b0), ends);
      Midway(b1, r + [|r| + 1], base) && b1.ops == b0.ops
  {
    var b0, r1 := AddExec(b, 0), r + [|r| + 1];
    MidwayOp(b, b0, r, base);
    RanksAll(b0, r1, Last(b0), ends);
  }

  lemma ShareMidway(b: Book, base: nat, r: seq<int>, size: nat, collop: nat)
    requires Midway(b, r, base) && 0 < collop <= |r|
    ensures Midway(AddEdge(AddExec(b, size), Last(b) + 1, collop, true), r + [|r| + 1], base)
  {
    MidwayOp(b, AddExec(b, size), r, base);
    RanksEdge(AddExec(b, size), r + [|r| + 1], Last(b) + 1, collop, true);
  }

  /** The completion of a collective comes after its operations, and the background share after
      that. */
  lemma FinishSound(o: Options, c: Conv, base: nat, r: seq<int>, starts: seq<nat>, ends: seq<nat>, from: int, until: int)
    returns (all: seq<int>)
    requires Midway(c.book, r, base) && Prior(c.prev, 0, base)
    requires forall i :: 0 <= i < |starts| ==> base < starts[i] <= |r|
    requires forall i :: 0 <= i < |ends| ==> base < ends[i] <= |r|
    requires forall q :: q in c.reqs ==> 0 < c.reqs[q] <= |c.book.ops|
    ensures var done := FinishColl(o, c, starts, ends, from, until);
      Sound(done, all) && r <= all && |done.book.ops| > |c.book.ops| + 1
  {
    hide Midway, Ranked, RequireAll;
    assert |r| == |c.book.ops| by { MidwayLength(c.book, r, base); }
    var b0 := AddExec(c.book, 0);
    var collop, r2 := Last(b0), r + [|r| + 1];
    CompletionMidway(c.book, base, r, ends);
    var b2 := RequireAll(b0, collop, ends);
    var virtstart := if from - o.nbcify - c.start < 0 then c.start else from - o.nbcify;
    var nbcify := if from - o.nbcify - c.start < 0 then from - c.start else o.nbcify;
    if nbcify != 0 {
      ShareMidway(b2, base, r2, nbcify % WORD, collop);
      b2, r2 := AddEdge(AddExec(b2, nbcify % WORD), Last(b2) + 1, collop, true), r2 + [|r2| + 1];
    }
    var c2 := c.(book := b2);
    MidwayLength(b2, r2, base);
    NextOpRanked(o, c2, r2, base, DepsOn(starts), virtstart, until);
    NextOpSize(o, c2, DepsOn(starts), virtstart, until);
    all := r2 + [base];
  }

  lemma MidwayLength(b: Book, r: seq<int>, base: nat)
    requires Midway(b, r, base)
    ensures |r| == |b.ops|
  {
  }

  lemma AscendingIn(s: set<nat>, hi: nat, base: nat)
    requires forall x :: x in s ==> base < x
    ensures forall i :: 0 <= i < |Ascending(s, hi)| ==> base < Ascending(s, hi)[i] <= hi
  {
    forall i | 0 <= i < |Ascending(s, hi)|
      ensures base < Ascending(s, hi)[i] <= hi
    {
      assert Ascending(s, hi)[i] in Ascending(s, hi);
    }
  }

  lemma CollectSound(o: Options, c: Conv, r: seq<int>, kind: Collective, size: nat, tag: nat, from: int, until: int)
    returns (all: seq<int>)
    requires Sound(c, r) && o.rank < o.n && RootOk(kind, o.n)
    ensures Sound(Collect(o, c, kind, size, tag, from, until), all) && r <= all
  {
    hide Ranks, Body, FinishColl;
    var b0 := c.book.(tag := tag, start := {}, end := {});
    MidwaySame(c.book, b0, r);
    var r1 := BodyTracks(o, b0, r, kind, size);
    var b := Body(o, b0, kind, size);
    MidwayLength(b, r1, |c.book.ops|);
    AscendingIn(b.start, |b.ops|, |c.book.ops|);
    AscendingIn(b.end, |b.ops|, |c.book.ops|);
    all := FinishSound(o, c.(book := b), |c.book.ops|, r1, Ascending(b.start, |b.ops|), Ascending(b.end, |b.ops|), from, until);
  }

  lemma ApplySound(o: Options, c: Conv, r: seq<int>, t: Traced) returns (all: seq<int>)
    requires Sound(c, r) && o.rank < o.n && (t.call.Coll? ==> RootOk(t.call.kind, o.n))
    ensures Sound(Apply(o, c, t), all) && r <= all
  {
    hide Ranked, NextOp, Collect, Single;
    var b, base := c.book, |c.book.ops|;
    match t.call
    case Recv(size, src, tag) =>
      RequireOne(AddRecv(b.(tag := tag), size, src), base + 1, 0);
      all := SingleSound(o, c, r, AddRecv(b.(tag := tag), size, src), [], c.reqs, false, t.from, t.until);
    case Send(size, dest, tag) =>
      RequireOne(AddSend(b.(tag := tag), size, dest), base + 1, 0);
      all := SingleSound(o, c, r, AddSend(b.(tag := tag), size, dest), [], c.reqs, false, t.from, t.until);
    case Irecv(size, src, tag, req) =>
      RequireOne(AddRecv(b.(tag := tag), size, src), base + 1, 0);
      all := SingleSound(o, c, r, AddRecv(b.(tag := tag), size, src), [], c.reqs[req := base + 1], true, t.from, t.until);
    case Isend(size, dest, tag, req) =>
      RequireOne(AddSend(b.(tag := tag), size, dest), base + 1, 0);
      all := SingleSound(o, c, r, AddSend(b.(tag := tag), size, dest), [], c.reqs[req := base + 1], true, t.from, t.until);
    case Wait(req) =>
      all := r;
      if req in c.reqs {
        RequireOne(AddExec(b, 0), base + 1, c.reqs[req]);
        all := SingleSound(o, c, r, AddExec(b, 0), [c.reqs[req]], c.reqs - {req}, false, t.from, t.until);
      }
    case Waitall(req, count) =>
      KnownIn(c.reqs, req, count, base);
      all := SingleSound(o, c, r, AddExec(b, 0), Known(c.reqs, req, count), c.reqs - {req}, false, t.from, t.until);
    case Sendrecv(sendSize, dest, recvSize, src, tag) =>
      all := SendrecvSound(o, c, r, AddRecv(AddSend(b.(tag := tag), sendSize, dest), recvSize, src), t.from, t.until);
    case Coll(kind, size, tag, full) =>
      all := r;
      if full {
        all := CollectSound(o, c, r, kind, size, tag, t.from, t.until);
      }
    case Finalize =>
      all := FinalizeSound(o, c, r, t.from);
    case Other =>
      all := r;
  }

  lemma FinalizeSound(o: Options, c: Conv, r: seq<int>, time: int) returns (all: seq<int>)
    requires Sound(c, r)
    ensures Sound(NextOp(o, c, [Dep(NO_ID, false)], time, time), all) && r <= all
  {
    RanksLength(c.book, r);
    MidwayStart(c.book, r);
    NextOpRanked(o, c, r, |r|, [Dep(NO_ID, false)], time, time);
    NextOpSize(o, c, [Dep(NO_ID, false)], time, time);
    all := r + [|r|];
  }

  lemma {:induction false} ConvertedSound(o: Options, start: int, calls: seq<Traced>, k: nat) returns (all: seq<int>)
    requires o.rank < o.n && k <= |calls| && WellTraced(calls, o.n)
    ensures Sound(Converted(o, start, calls, k), all)
  {
    hide Apply, Ranked;
    if k == 0 {
      all := [];
      assert Ranked(Begin(start).book, []) by { NothingRanked(start); }
    } else {
      all := ConvertedSound(o, start, calls, k - 1);
      all := ApplySound(o, Converted(o, start, calls, k - 1), all, calls[k - 1]);
    }
  }

  lemma NothingRanked(start: int)
    ensures Ranked(Begin(start).book, [])
  {
  }

  /** Whatever the calls, the schedule has no dependency cycle. */
  lemma ConvertedAcyclic(o: Options, start: int, calls: seq<Traced>)
    requires o.rank < o.n && WellTraced(calls, o.n)
    ensures Digraph.Acyclic(Before(Converted(o, start, calls, |calls|).book))
  {
    hide Converted;
    var b := Converted(o, start, calls, |calls|).book;
    var r := ConvertedSound(o, start, calls, |calls|);
    var rank := (l: nat) => if 0 < l <= |r| then r[l - 1] else 0;
    Digraph.RankedIsAcyclic(Before(b), rank);
  }
}
