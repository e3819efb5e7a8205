/** Broadcast and reduce along a binomial tree (create_binomial_tree_bcast_rank and
    create_binomial_tree_reduce_rank in schedgen.cpp). */
module BinomialTree {
  import opened Powers
  import opened Goal

  /** Virtual ranks: the root changes places with rank 0. */
  function Swap(x: nat, root: nat): nat {
    if x == root then 0 else if x == 0 then root else x
  }

  /** The parent of virtual rank v clears its highest bit. */
  function Parent(v: nat): nat
    requires v > 0
  {
    v - Pow2(FloorLog2(v))
  }

  /** Whether v talks to a child in round r. */
  predicate HasKid(n: nat, v: nat, r: nat) {
    v < Pow2(r) && v + Pow2(r) < n
  }

  /** The children of v in the first k rounds. */
  function Kids(n: nat, v: nat, k: nat): seq<nat> {
    if k == 0 then []
    else Kids(n, v, k - 1) + if HasKid(n, v, k - 1) then [v + Pow2(k - 1)] else []
  }

  /** Whether v has heard from its parent (or has sent to it) after k rounds. */
  predicate Linked(v: nat, k: nat) {
    v > 0 && Pow2(k) > v
  }

  /** Downwards, data is received from the parent and sent to the children; upwards, data is
      received from the children and sent to the parent. */
  datatype Direction = Down | Up

  function ParentOp(dir: Direction, peer: nat, size: nat, tag: nat): GoalOp {
    match dir
    case Down => Recv(size, peer, tag)
    case Up => Send(size, peer, tag)
  }

  function KidOp(dir: Direction, peer: nat, size: nat, tag: nat): GoalOp {
    match dir
    case Down => Send(size, peer, tag)
    case Up => Recv(size, peer, tag)
  }

  function KidOps(dir: Direction, root: nat, kids: seq<nat>, size: nat, tag: nat): (r: seq<GoalOp>)
    ensures |r| == |kids|
  {
    seq(|kids|, i requires 0 <= i < |kids| => KidOp(dir, Swap(kids[i], root), size, tag))
  }

  /** The operations of virtual rank v in the first k rounds. */
  function Ops(dir: Direction, n: nat, root: nat, v: nat, size: nat, tag: nat, k: nat): seq<GoalOp> {
    (if Linked(v, k) then [ParentOp(dir, Swap(Parent(v), root), size, tag)] else [])
    + KidOps(dir, root, Kids(n, v, k), size, tag)
  }

  /** The link between the operation with the parent, which is the first, and the one with the
      i-th child. */
  function Link(dir: Direction, base: nat, i: nat): Edge {
    match dir
    case Down => Edge(base + 1 + i, base + 1, false)
    case Up => Edge(base + 1, base + 1 + i, false)
  }

  /** The dependencies added in the first k rounds: in every round in which there are both, the
      last child and the parent. */
  function Reqs(dir: Direction, n: nat, v: nat, base: nat, k: nat): seq<Edge> {
    if k == 0 then []
    else Reqs(dir, n, v, base, k - 1)
         + if Linked(v, k - 1) && Kids(n, v, k) != [] then [Link(dir, base, |Kids(n, v, k)|)] else []
  }

  function Labels(lo: nat, hi: nat): (r: set<nat>)
    ensures forall x :: x in r <==> lo < x <= hi
    decreases hi
  {
    if hi <= lo then {} else Labels(lo, hi - 1) + {hi}
  }

  /** The schedule with these operations and dependencies added.  If the parent's is among the
      operations, it is the first, and all others depend on it or it on them. */
  function Shape(b: Book, dir: Direction, linked: bool, ops: seq<GoalOp>, reqs: seq<Edge>): Book {
    var base := |b.ops|;
    var all := Labels(base, base + |ops|);
    var parent := if linked && |ops| > 1 then {base + 1} else {};
    var kids := if linked then Labels(base + 1, base + |ops|) else {};
    Book(b.ops + ops, b.reqs + reqs, b.tag,
         b.start + all - (if dir.Down? then kids else parent),
         b.end + all - (if dir.Down? then parent else kids))
  }

  /** The schedule after k rounds. */
  function After(b: Book, dir: Direction, n: nat, root: nat, v: nat, size: nat, k: nat): Book {
    Shape(b, dir, Linked(v, k), Ops(dir, n, root, v, size, b.tag, k), Reqs(dir, n, v, |b.ops|, k))
  }

  lemma {:induction false} NoKidsYet(n: nat, v: nat, k: nat)
    ensures v > 0 && !Linked(v, k) ==> Kids(n, v, k) == [] && !HasKid(n, v, k) && (k > 0 ==> !Linked(v, k - 1))
  {
    if k > 0 {
      NoKidsYet(n, v, k - 1);
    }
  }

  function AddKid(b: Book, dir: Direction, size: nat, peer: nat): Book {
    if dir.Down? then AddSend(b, size, peer) else AddRecv(b, size, peer)
  }

  function AddParent(b: Book, dir: Direction, size: nat, peer: nat): Book {
    if dir.Down? then AddRecv(b, size, peer) else AddSend(b, size, peer)
  }

  function AddLink(b: Book, link: Edge): Book {
    AddEdge(b, link.tail, link.head, link.immediate)
  }

  /** A round as the loop performs it: the child, the dependency, the parent. */
  function Round(b: Book, now: Book, dir: Direction, n: nat, root: nat, v: nat, size: nat, k: nat): Book {
    var b1 := if HasKid(n, v, k) then AddKid(now, dir, size, Swap(v + Pow2(k), root)) else now;
    var b2 := if Linked(v, k) && Kids(n, v, k + 1) != [] then AddLink(b1, Link(dir, |b.ops|, |Kids(n, v, k + 1)|)) else b1;
    if Linked(v, k + 1) && !Linked(v, k) then AddParent(b2, dir, size, Swap(Parent(v), root)) else b2
  }

  lemma OpsNext(dir: Direction, n: nat, root: nat, v: nat, size: nat, tag: nat, k: nat)
    ensures Ops(dir, n, root, v, size, tag, k + 1) ==
      Ops(dir, n, root, v, size, tag, k)
      + (if HasKid(n, v, k) then [KidOp(dir, Swap(v + Pow2(k), root), size, tag)] else [])
      + (if Linked(v, k + 1) && !Linked(v, k) then [ParentOp(dir, Swap(Parent(v), root), size, tag)] else [])
  {
    NoKidsYet(n, v, k);
  }

  lemma ReqsNext(dir: Direction, n: nat, v: nat, base: nat, k: nat)
    ensures Reqs(dir, n, v, base, k + 1) == Reqs(dir, n, v, base, k)
         + if Linked(v, k) && Kids(n, v, k + 1) != [] then [Link(dir, base, |Kids(n, v, k + 1)|)] else []
  {
  }

  lemma ShapeKid(b: Book, dir: Direction, linked: bool, ops: seq<GoalOp>, reqs: seq<Edge>, size: nat, peer: nat)
    requires linked ==> ops != []
    ensures var b1 := AddKid(Shape(b, dir, linked, ops, reqs), dir, size, peer);
      var more := ops + [KidOp(dir, peer, size, b.tag)];
      if linked then
        AddLink(b1, Link(dir, |b.ops|, |ops|)) == Shape(b, dir, true, more, reqs + [Link(dir, |b.ops|, |ops|)])
      else
        b1 == Shape(b, dir, false, more, reqs)
  {
  }

  lemma ShapeLink(b: Book, dir: Direction, ops: seq<GoalOp>, reqs: seq<Edge>)
    requires |ops| > 1
    ensures AddLink(Shape(b, dir, true, ops, reqs), Link(dir, |b.ops|, |ops| - 1))
         == Shape(b, dir, true, ops, reqs + [Link(dir, |b.ops|, |ops| - 1)])
  {
  }

  lemma ShapeParent(b: Book, dir: Direction, reqs: seq<Edge>, size: nat, peer: nat)
    ensures AddParent(Shape(b, dir, false, [], reqs), dir, size, peer)
         == Shape(b, dir, true, [ParentOp(dir, peer, size, b.tag)], reqs)
  {
  }

  lemma RoundIs(b: Book, dir: Direction, n: nat, root: nat, v: nat, size: nat, k: nat)
    ensures Round(b, After(b, dir, n, root, v, size, k), dir, n, root, v, size, k) == After(b, dir, n, root, v, size, k + 1)
  {
    hide Swap, Pow2, FloorLog2, Kids, HasKid, Parent, Reqs, Shape, AddKid, AddParent, AddLink, Link, Linked, Ops;
    var linked, ops, reqs := Linked(v, k), Ops(dir, n, root, v, size, b.tag, k), Reqs(dir, n, v, |b.ops|, k);
    OpsNext(dir, n, root, v, size, b.tag, k);
    ReqsNext(dir, n, v, |b.ops|, k);
    NoKidsYet(n, v, k);
    KidsNext(n, v, k);
    OpsCount(dir, n, root, v, size, b.tag, k);
    if HasKid(n, v, k) {
      assert Ops(dir, n, root, v, size, b.tag, k + 1) == ops + [KidOp(dir, Swap(v + Pow2(k), root), size, b.tag)];
      assert !linked ==> Reqs(dir, n, v, |b.ops|, k + 1) == reqs;
      ShapeKid(b, dir, linked, ops, reqs, size, Swap(v + Pow2(k), root));
    } else if linked && Kids(n, v, k + 1) != [] {
      assert Ops(dir, n, root, v, size, b.tag, k + 1) == ops;
      ShapeLink(b, dir, ops, reqs);
    } else if Linked(v, k + 1) && !linked {
      assert ops == [];
      assert Ops(dir, n, root, v, size, b.tag, k + 1) == [ParentOp(dir, Swap(Parent(v), root), size, b.tag)];
      assert Reqs(dir, n, v, |b.ops|, k + 1) == reqs;
      ShapeParent(b, dir, reqs, size, Swap(Parent(v), root));
    } else {
      assert Ops(dir, n, root, v, size, b.tag, k + 1) == ops;
      assert Reqs(dir, n, v, |b.ops|, k + 1) == reqs;
    }
  }

  lemma OpsCount(dir: Direction, n: nat, root: nat, v: nat, size: nat, tag: nat, k: nat)
    ensures |Ops(dir, n, root, v, size, tag, k)| == |Kids(n, v, k)| + if Linked(v, k) then 1 else 0
  {
  }

  lemma KidsNext(n: nat, v: nat, k: nat)
    ensures |Kids(n, v, k + 1)| == |Kids(n, v, k)| + if HasKid(n, v, k) then 1 else 0
    ensures HasKid(n, v, k) && v > 0 ==> Linked(v, k)
    ensures Linked(v, k) ==> Linked(v, k + 1)
    ensures Linked(v, k + 1) ==> v > 0
  {
  }

  /** The labels the loop remembers after k rounds. */
  function ParentLabel(v: nat, base: nat, k: nat): int {
    if Linked(v, k) then base + 1 else NO_ID
  }

  function KidLabel(n: nat, v: nat, base: nat, k: nat): int {
    var kids := |Kids(n, v, k)|;
    if kids == 0 then NO_ID else if v > 0 then base + 1 + kids else base + kids
  }

  /** What the steps of round k find. */
  lemma RoundFacts(b: Book, dir: Direction, n: nat, root: nat, v: nat, size: nat, k: nat)
    ensures var now, base := After(b, dir, n, root, v, size, k), |b.ops|;
      && now.tag == b.tag
      && Linked(v, k + 1) == (Linked(v, k) || (Pow2(k) <= v < 2 * Pow2(k)))
      && (HasKid(n, v, k) ==> |now.ops| + 1 == KidLabel(n, v, base, k + 1) && !(Pow2(k) <= v))
      && (!HasKid(n, v, k) ==> KidLabel(n, v, base, k + 1) == KidLabel(n, v, base, k))
      && (Linked(v, k + 1) && !Linked(v, k) ==> |now.ops| == base && FloorLog2(v) == k && KidLabel(n, v, base, k + 1) == NO_ID)
  {
    NoKidsYet(n, v, k);
    OpsNext(dir, n, root, v, size, b.tag, k);
    if Pow2(k) <= v < Pow2(k + 1) {
      LogUnique(v, k);
    }
  }

  lemma AfterNothing(b: Book, dir: Direction, n: nat, root: nat, v: nat, size: nat)
    ensures After(b, dir, n, root, v, size, 0) == b
    ensures ParentLabel(v, |b.ops|, 0) == NO_ID == KidLabel(n, v, |b.ops|, 0)
  {
  }

  lemma AfterOps(b: Book, dir: Direction, n: nat, root: nat, rank: nat, size: nat)
    requires n > 0
    ensures After(b, dir, n, root, Swap(rank, root), size, CeilLog2(n)).ops == b.ops + Program(dir, n, root, rank, size, b.tag)
  {
  }

  method CreateBinomialTreeBcastRank(goal: Goal, root: nat, commRank: nat, commSize: nat, dataSize: nat)
    requires root < commSize && commRank < commSize
    modifies goal
    ensures goal.Abs() ==
      After(old(goal.Abs()), Down, commSize, root, Swap(commRank, root), dataSize, CeilLog2(commSize))
    ensures goal.ops == old(goal.ops) + Program(Down, commSize, root, commRank, dataSize, old(goal.curtag))
  {
    hide After, FloorLog2, Pow2;
    ghost var b := goal.Abs();
    var vrank := if commRank == root then 0 else if commRank == 0 then root else commRank;
    var recv, send := NO_ID, NO_ID;
    AfterNothing(b, Down, commSize, root, vrank, dataSize);
    for r := 0 to CeilLog2(commSize)
      invariant goal.Abs() == After(b, Down, commSize, root, vrank, dataSize, r)
      invariant recv == ParentLabel(vrank, |b.ops|, r) && send == KidLabel(commSize, vrank, |b.ops|, r)
    {
      RoundFacts(b, Down, commSize, root, vrank, dataSize, r);
      RoundIs(b, Down, commSize, root, vrank, dataSize, r);
      var vpeer := vrank + Pow2(r);
      if vrank + Pow2(r) < commSize && vrank < Pow2(r) {
        var peer := if vpeer == root then 0 else if vpeer == 0 then root else vpeer;
        send := goal.Send(dataSize, peer);
      }
      if send >= 0 && recv >= 0 {
        goal.Requires(send, recv);
      }
      if Pow2(r) <= vrank < 2 * Pow2(r) {
        vpeer := vrank - Pow2(r);
        var peer := if vpeer == root then 0 else if vpeer == 0 then root else vpeer;
        recv := goal.Recv(dataSize, peer);
      }
    }
    AfterOps(b, Down, commSize, root, commRank, dataSize);
  }

  method CreateBinomialTreeReduceRank(goal: Goal, root: nat, commRank: nat, commSize: nat, dataSize: nat)
    requires root < commSize && commRank < commSize
    modifies goal
    ensures goal.Abs() ==
      After(old(goal.Abs()), Up, commSize, root, Swap(commRank, root), dataSize, CeilLog2(commSize))
    ensures goal.ops == old(goal.ops) + Program(Up, commSize, root, commRank, dataSize, old(goal.curtag))
  {
    hide After, FloorLog2, Pow2;
    ghost var b := goal.Abs();
    var vrank := if commRank == root then 0 else if commRank == 0 then root else commRank;
    var send, recv := NO_ID, NO_ID;
    AfterNothing(b, Up, commSize, root, vrank, dataSize);
    for r := 0 to CeilLog2(commSize)
      invariant goal.Abs() == After(b, Up, commSize, root, vrank, dataSize, r)
      invariant send == ParentLabel(vrank, |b.ops|, r) && recv == KidLabel(commSize, vrank, |b.ops|, r)
    {
      RoundFacts(b, Up, commSize, root, vrank, dataSize, r);
      RoundIs(b, Up, commSize, root, vrank, dataSize, r);
      var vpeer := vrank + Pow2(r);
      if vrank + Pow2(r) < commSize && vrank < Pow2(r) {
        var peer := if vpeer == root then 0 else if vpeer == 0 then root else vpeer;
        recv := goal.Recv(dataSize, peer);
      }
      if send >= 0 && recv >= 0 {
        goal.Requires(send, recv);
      }
      if Pow2(r) <= vrank < 2 * Pow2(r) {
        vpeer := vrank - Pow2(r);
        var peer := if vpeer == root then 0 else if vpeer == 0 then root else vpeer;
        send := goal.Send(dataSize, peer);
      }
    }
    AfterOps(b, Up, commSize, root, commRank, dataSize);
  }

  // ---- a spanning tree ----

  function AllKids(n: nat, v: nat): seq<nat>
    requires n > 0
  {
    Kids(n, v, CeilLog2(n))
  }

  lemma KidOfRound(n: nat, v: nat, k: nat, c: nat)
    requires Pow2(k) <= c < Pow2(k + 1)
    ensures v < c < n && Parent(c) == v <==> HasKid(n, v, k) && c == v + Pow2(k)
  {
    LogUnique(c, k);
  }

  /** The children of v in the first k rounds are the ranks below 2^k whose parent it is. */
  lemma {:induction false} KidsMember(n: nat, v: nat, k: nat, c: nat)
    ensures c in Kids(n, v, k) <==> v < c < n && c < Pow2(k) && Parent(c) == v
  {
    hide Parent, FloorLog2;
    if k > 0 {
      KidsMember(n, v, k - 1, c);
      if Pow2(k - 1) <= c < Pow2(k) {
        KidOfRound(n, v, k - 1, c);
      }
    }
  }

  lemma {:induction false} KidsSorted(n: nat, v: nat, k: nat)
    ensures forall i, j :: 0 <= i < j < |Kids(n, v, k)| ==> Kids(n, v, k)[i] < Kids(n, v, k)[j]
    ensures forall i :: 0 <= i < |Kids(n, v, k)| ==> v < Kids(n, v, k)[i] < n && Kids(n, v, k)[i] < Pow2(k)
  {
    if k > 0 {
      KidsSorted(n, v, k - 1);
    }
  }

  /** Every rank but the root has one parent, which is smaller and lists it once. */
  lemma SpanningTree(n: nat, c: nat, v: nat)
    requires 0 < c < n
    ensures Parent(c) < c
    ensures c in AllKids(n, v) <==> v == Parent(c)
    ensures forall i, j :: 0 <= i < j < |AllKids(n, v)| ==> AllKids(n, v)[i] != AllKids(n, v)[j]
  {
    hide Pow2, Parent, Kids;
    KidsMember(n, v, CeilLog2(n), c);
    KidsSorted(n, v, CeilLog2(n));
    assert Parent(c) < c by { ParentBelow(c); }
  }

  lemma ParentBelow(c: nat)
    requires c > 0
    ensures Parent(c) < c
  {
  }

  // ---- sends meet receives ----

  /** The program of a real rank. */
  function Program(dir: Direction, n: nat, root: nat, rank: nat, size: nat, tag: nat): seq<GoalOp>
    requires n > 0
  {
    Ops(dir, n, root, Swap(rank, root), size, tag, CeilLog2(n))
  }

  lemma SwapBack(x: nat, root: nat, n: nat)
    requires root < n && x < n
    ensures Swap(x, root) < n && Swap(Swap(x, root), root) == x
  {
  }

  /** Where the operations stand: the parent's first, then the children's. */
  lemma ProgramAt(dir: Direction, n: nat, root: nat, v: nat, size: nat, tag: nat)
    requires 0 < n && root < n && v < n
    ensures var p, kids, first := Program(dir, n, root, Swap(v, root), size, tag), AllKids(n, v), if v > 0 then 1 else 0;
      && |p| == first + |kids|
      && (v > 0 ==> p[0] == ParentOp(dir, Swap(Parent(v), root), size, tag))
      && (forall i :: 0 <= i < |kids| ==> p[first + i] == KidOp(dir, Swap(kids[i], root), size, tag))
      && (forall i :: 0 <= i < |kids| ==> v < kids[i] < n)
  {
    hide Pow2, FloorLog2, CeilLog2, Kids, HasKid, Parent;
    SwapBack(v, root, n);
    KidsSorted(n, v, CeilLog2(n));
  }

  /** Ranks a and b exchange a message exactly when one is the other's parent: the one sends it
      and the other receives it. */
  lemma SendsMeetReceives(dir: Direction, n: nat, root: nat, a: nat, b: nat, size: nat, tag: nat)
    requires 0 < n && root < n && a < n && b < n
    ensures Send(size, b, tag) in Program(dir, n, root, a, size, tag) <==> Recv(size, a, tag) in Program(dir, n, root, b, size, tag)
    ensures Send(size, b, tag) in Program(dir, n, root, a, size, tag) <==>
      var v, w := Swap(a, root), Swap(b, root);
      if dir.Down? then w > 0 && Parent(w) == v else v > 0 && Parent(v) == w
  {
    hide Program, Swap, Parent;
    ParentOpIs(dir, n, root, a, b, size, tag);
    ParentOpIs(dir, n, root, b, a, size, tag);
    KidOpIs(dir, n, root, a, b, size, tag);
    KidOpIs(dir, n, root, b, a, size, tag);
  }

  /** Rank a has a parent's operation with b exactly if b is its parent. */
  lemma ParentOpIs(dir: Direction, n: nat, root: nat, a: nat, b: nat, size: nat, tag: nat)
    requires 0 < n && root < n && a < n && b < n
    ensures var v, w := Swap(a, root), Swap(b, root);
      ParentOp(dir, b, size, tag) in Program(dir, n, root, a, size, tag) <==> v > 0 && Parent(v) == w
  {
    hide Pow2, FloorLog2, CeilLog2, AllKids, Program, Parent, Swap;
    var v, w := Swap(a, root), Swap(b, root);
    SwapBack(a, root, n);
    SwapBack(b, root, n);
    ProgramAt(dir, n, root, v, size, tag);
    var p, kids, first := Program(dir, n, root, a, size, tag), AllKids(n, v), if v > 0 then 1 else 0;
    assert forall j :: first <= j < |p| ==> p[j] == KidOp(dir, Swap(kids[j - first], root), size, tag);
    if v > 0 {
      ParentBelow(v);
      SwapBack(Parent(v), root, n);
    }
  }

  /** Rank a has a child's operation with b exactly if b is one of its children. */
  lemma KidOpIs(dir: Direction, n: nat, root: nat, a: nat, b: nat, size: nat, tag: nat)
    requires 0 < n && root < n && a < n && b < n
    ensures var v, w := Swap(a, root), Swap(b, root);
      KidOp(dir, b, size, tag) in Program(dir, n, root, a, size, tag) <==> w > 0 && Parent(w) == v
  {
    hide Pow2, FloorLog2, CeilLog2, AllKids, Program, Parent, Swap;
    var v, w := Swap(a, root), Swap(b, root);
    SwapBack(a, root, n);
    SwapBack(b, root, n);
    ProgramAt(dir, n, root, v, size, tag);
    var p, kids, first := Program(dir, n, root, a, size, tag), AllKids(n, v), if v > 0 then 1 else 0;
    if w > 0 {
      SpanningTree(n, w, v);
      if w in kids {
        var i :| 0 <= i < |kids| && kids[i] == w;
        assert p[first + i] == KidOp(dir, b, size, tag);
      }
    }
    if KidOp(dir, b, size, tag) in p {
      var j :| 0 <= j < |p| && p[j] == KidOp(dir, b, size, tag);
      assert p[first + (j - first)] == KidOp(dir, Swap(kids[j - first], root), size, tag);
      SwapBack(kids[j - first], root, n);
      assert kids[j - first] in kids;
    }
  }

  /** No operation occurs twice: every channel carries one message. */
  lemma OncePerPeer(dir: Direction, n: nat, root: nat, a: nat, size: nat, tag: nat, i: nat, j: nat)
    requires 0 < n && root < n && a < n
    requires i < j < |Program(dir, n, root, a, size, tag)|
    ensures Program(dir, n, root, a, size, tag)[i] != Program(dir, n, root, a, size, tag)[j]
  {
    hide Pow2, FloorLog2, CeilLog2, AllKids, Program, Parent, Swap;
    var v := Swap(a, root);
    SwapBack(a, root, n);
    ProgramAt(dir, n, root, v, size, tag);
    var p, kids, first := Program(dir, n, root, a, size, tag), AllKids(n, v), if v > 0 then 1 else 0;
    if first <= i {
      assert p[i] == p[first + (i - first)] && p[j] == p[first + (j - first)];
      SwapBack(kids[i - first], root, n);
      SwapBack(kids[j - first], root, n);
      KidsDiffer(n, v, i - first, j - first);
    } else {
      assert p[j] == p[first + (j - first)];
    }
  }

  lemma KidsDiffer(n: nat, v: nat, i: nat, j: nat)
    requires 0 < n && i < j < |AllKids(n, v)|
    ensures AllKids(n, v)[i] != AllKids(n, v)[j]
  {
    KidsSorted(n, v, CeilLog2(n));
  }

  // ---- the dependencies ----

  /** The dependencies of a virtual rank are exactly those between its operation with the
      parent and each of those with a child. */
  lemma {:induction false} ReqsAre(dir: Direction, n: nat, v: nat, base: nat, k: nat, e: Edge)
    ensures e in Reqs(dir, n, v, base, k) <==>
      v > 0 && exists i :: 1 <= i <= |Kids(n, v, k)| && e == Link(dir, base, i)
  {
    if k > 0 {
      ReqsAre(dir, n, v, base, k - 1, e);
      NoKidsYet(n, v, k - 1);
      KidsNext(n, v, k - 1);
      NoKidsYet(n, v, k);
      if v > 0 && Kids(n, v, k) != [] {
        assert Linked(v, k - 1);
      }
    }
  }

  /** When a rank performs an operation, given by its place in the rank's program. */
  type Times = (nat, nat) -> int

  /** Every operation comes after those it requires. */
  ghost predicate Respects(dir: Direction, n: nat, root: nat, when: Times)
    requires n > 0
  {
    forall v: nat, e :: v < n && e in Reqs(dir, n, v, 0, CeilLog2(n)) && e.head > 0 && e.tail > 0 ==>
      when(Swap(v, root), e.head - 1) < when(Swap(v, root), e.tail - 1)
  }

  /** Downwards the receive comes before every send, upwards the send after every receive. */
  lemma RespectsOrder(dir: Direction, n: nat, root: nat, when: Times, v: nat, i: nat)
    requires 0 < n && Respects(dir, n, root, when) && 0 < v < n && 1 <= i <= |AllKids(n, v)|
    ensures dir.Down? ==> when(Swap(v, root), 0) < when(Swap(v, root), i)
    ensures dir.Up? ==> when(Swap(v, root), i) < when(Swap(v, root), 0)
  {
    hide Reqs, Kids, Pow2, FloorLog2, CeilLog2, Swap;
    ReqsAre(dir, n, v, 0, CeilLog2(n), Link(dir, 0, i));
  }

  // ---- reduce: the root gets every contribution once ----

  /** What v has collected from itself and its first k children when it sends (the root: in the
      end).  A receive performed after the send comes too late. */
  function Collected(n: nat, root: nat, when: Times, v: nat, k: nat): multiset<nat>
    requires v < n && k <= |AllKids(n, v)|
    decreases n - v, k
  {
    if k == 0 then multiset{Swap(v, root)}
    else
      KidsSorted(n, v, CeilLog2(n));
      var c := AllKids(n, v)[k - 1];
      Collected(n, root, when, v, k - 1)
      + if v == 0 || when(Swap(v, root), k) < when(Swap(v, root), 0) then Collected(n, root, when, c, |AllKids(n, c)|)
        else multiset{}
  }

  /** The number of low bits in which all below v agree. */
  function Bits(v: nat): nat {
    if v == 0 then 0 else FloorLog2(v) + 1
  }

  /** The subtree of v, as far as it was reached in the first q rounds. */
  predicate Below(n: nat, v: nat, q: nat, y: nat) {
    y == v || (y < n && Low(y, Bits(v)) == v && Bits(v) <= q && Low(y, q) != v)
  }

  /** The subtree grows by that of the new child. */
  lemma BelowGrows(n: nat, v: nat, q: nat, y: nat)
    requires v < n
    ensures HasKid(n, v, q) ==> var c := v + Pow2(q);
      && (Below(n, v, q + 1, y) <==> Below(n, v, q, y) || (y < n && Low(y, q + 1) == c))
      && !(Below(n, v, q, y) && y < n && Low(y, q + 1) == c)
      && Bits(c) == q + 1
    ensures !HasKid(n, v, q) ==> (Below(n, v, q + 1, y) <==> Below(n, v, q, y))
  {
    hide Low, FloorLog2;
    ShrNext(y, q);
    LowBelow(y, q);
    LowBelow(y, q + 1);
    if v < Pow2(q) {
      BitsWithin(v, q);
      SmallIsLow(v, q);
      SmallIsLow(v, q + 1);
      if Low(y, q) == v {
        SameBelow(y, v, Bits(v), q);
        SameBelow(v, v, Bits(v), q);
      }
      BitsAll(v);
      if v + Pow2(q) < n {
        LogUnique(v + Pow2(q), q);
      }
    } else {
      BitsWithin(v, q);
    }
  }

  lemma BitsWithin(v: nat, q: nat)
    ensures v < Pow2(q) <==> Bits(v) <= q
  {
    if v > 0 {
      if Bits(v) <= q {
        Pow2Monotone(Bits(v), q);
      } else {
        Pow2Monotone(q, Bits(v) - 1);
      }
    }
  }

  lemma BitsAll(v: nat)
    ensures Low(v, Bits(v)) == v
  {
    BitsWithin(v, Bits(v));
    SmallIsLow(v, Bits(v));
  }

  lemma {:induction false} KidsPrefix(n: nat, v: nat, q: nat, k: nat)
    requires q <= k
    ensures |Kids(n, v, q)| <= |Kids(n, v, k)| && Kids(n, v, k)[..|Kids(n, v, q)|] == Kids(n, v, q)
    decreases k
  {
    if q < k {
      KidsPrefix(n, v, q, k - 1);
    }
  }

  /** All of the subtree. */
  lemma BelowAll(n: nat, v: nat, y: nat)
    requires v < n
    ensures Below(n, v, CeilLog2(n), y) <==> y < n && Low(y, Bits(v)) == v
  {
    hide Low;
    BitsWithin(v, CeilLog2(n));
    BitsAll(v);
    if y < n {
      SmallIsLow(y, CeilLog2(n));
    }
  }

  lemma KidAt(n: nat, v: nat, q: nat)
    requires 0 < n && q < CeilLog2(n) && HasKid(n, v, q)
    ensures |Kids(n, v, q)| < |AllKids(n, v)| && AllKids(n, v)[|Kids(n, v, q)|] == v + Pow2(q)
  {
    hide Pow2, FloorLog2, CeilLog2;
    var i := |Kids(n, v, q)|;
    KidsPrefix(n, v, q + 1, CeilLog2(n));
    assert Kids(n, v, q + 1)[i] == v + Pow2(q);
    assert AllKids(n, v)[i] == AllKids(n, v)[..i + 1][i];
  }

  lemma CollectedNext(n: nat, root: nat, when: Times, v: nat, q: nat)
    requires root < n && v < n && q < CeilLog2(n) && Respects(Up, n, root, when) && HasKid(n, v, q)
    ensures var c, i := v + Pow2(q), |Kids(n, v, q)|;
      && c < n && i < |AllKids(n, v)|
      && Collected(n, root, when, v, i + 1) == Collected(n, root, when, v, i) + Collected(n, root, when, c, |AllKids(n, c)|)
  {
    hide Respects, Pow2, FloorLog2, CeilLog2, Swap, Kids, AllKids;
    var c, i := v + Pow2(q), |Kids(n, v, q)|;
    KidAt(n, v, q);
    if v > 0 {
      RespectsOrder(Up, n, root, when, v, i + 1);
    }
  }

  lemma {:induction false} CollectedIs(n: nat, root: nat, when: Times, v: nat, q: nat, x: nat)
    requires root < n && v < n && q <= CeilLog2(n) && Respects(Up, n, root, when)
    ensures |Kids(n, v, q)| <= |AllKids(n, v)|
    ensures Collected(n, root, when, v, |Kids(n, v, q)|)[x] == if Below(n, v, q, Swap(x, root)) then 1 else 0
    decreases n - v, q
  {
    hide Respects, Below, Low, Pow2, FloorLog2, CeilLog2, Collected, Swap, AllKids, Bits;
    KidsPrefix(n, v, q, CeilLog2(n));
    assert |Kids(n, v, q)| <= |AllKids(n, v)| by { AllKidsIs(n, v); }
    if q == 0 {
      CollectedFirst(n, root, when, v, x);
    } else {
      BelowGrows(n, v, q - 1, Swap(x, root));
      CollectedIs(n, root, when, v, q - 1, x);
      if HasKid(n, v, q - 1) {
        var c := v + Pow2(q - 1);
        CollectedNext(n, root, when, v, q - 1);
        CollectedIs(n, root, when, c, CeilLog2(n), x);
        AllKidsIs(n, c);
        BelowAll(n, c, Swap(x, root));
      }
    }
  }

  lemma AllKidsIs(n: nat, v: nat)
    requires n > 0
    ensures AllKids(n, v) == Kids(n, v, CeilLog2(n))
  {
  }

  lemma CollectedFirst(n: nat, root: nat, when: Times, v: nat, x: nat)
    requires root < n && v < n
    ensures Collected(n, root, when, v, 0)[x] == if Below(n, v, 0, Swap(x, root)) then 1 else 0
  {
    assert Swap(Swap(v, root), root) == v && Swap(Swap(x, root), root) == x;
  }

  /** In whatever order the ranks perform their operations, as long as dependencies are kept,
      the root ends up with the contribution of every rank exactly once. */
  lemma RootCollectsAll(n: nat, root: nat, when: Times, x: nat)
    requires root < n && Respects(Up, n, root, when)
    ensures Collected(n, root, when, 0, |AllKids(n, 0)|)[x] == if x < n then 1 else 0
  {
    CollectedIs(n, root, when, 0, CeilLog2(n), x);
    BelowAll(n, 0, Swap(x, root));
  }

  // ---- broadcast: every rank gets the root's data ----

  /** The data in the buffer of v after its receive; if its parent sent before it received, that
      is whatever the parent had before. */
  function Delivered<T>(n: nat, root: nat, when: Times, data: T, stale: nat -> T, v: nat): T
    requires v < n
  {
    if v == 0 then data
    else
      ParentBelow(v);
      var p := Parent(v);
      SpanningTree(n, v, p);
      var i :| 0 <= i < |AllKids(n, p)| && AllKids(n, p)[i] == v;
      if p == 0 || when(Swap(p, root), 0) < when(Swap(p, root), i + 1) then Delivered(n, root, when, data, stale, p)
      else stale(p)
  }

  lemma {:induction false} EveryoneGetsIt<T>(n: nat, root: nat, when: Times, data: T, stale: nat -> T, v: nat)
    requires v < n && Respects(Down, n, root, when)
    ensures Delivered(n, root, when, data, stale, v) == data
  {
    hide Respects, Pow2, FloorLog2, CeilLog2;
    if v > 0 {
      ParentBelow(v);
      var p := Parent(v);
      SpanningTree(n, v, p);
      EveryoneGetsIt(n, root, when, data, stale, p);
      if p > 0 {
        forall i | 1 <= i <= |AllKids(n, p)|
          ensures when(Swap(p, root), 0) < when(Swap(p, root), i)
        {
          RespectsOrder(Down, n, root, when, p, i);
        }
      }
    }
  }

  /** Orders that keep the dependencies exist. */
  lemma OrderExists(dir: Direction, n: nat, root: nat)
    requires n > 0
    ensures Respects(dir, n, root, (rank, i) => if dir.Down? then i else -i)
  {
    forall v: nat, e | v < n && e in Reqs(dir, n, v, 0, CeilLog2(n))
      ensures dir.Down? ==> e.head < e.tail
      ensures dir.Up? ==> e.tail < e.head
    {
      ReqsAre(dir, n, v, 0, CeilLog2(n), e);
    }
  }
}
