/** What moves along a binomial tree, told from the emitted operations and dependencies of the
    real ranks alone: broadcasts start and reductions end at the root. */
module TreeFlow {
  import opened Powers
  import opened Goal
  import opened BinomialTree

  /** The dependencies among the operations of a real rank, labelled from 1. */
  function Links(dir: Direction, n: nat, root: nat, rank: nat): seq<Edge>
    requires n > 0
  {
    Reqs(dir, n, Swap(rank, root), 0, CeilLog2(n))
  }

  /** The dependencies the loop emits for the rank. */
  lemma AfterLinks(b: Book, dir: Direction, n: nat, root: nat, rank: nat, size: nat, e: Edge)
    requires n > 0
    ensures var base := |b.ops|;
      e in After(b, dir, n, root, Swap(rank, root), size, CeilLog2(n)).reqs <==>
        e in b.reqs || (e.tail > base && e.head > base && Edge(e.tail - base, e.head - base, e.immediate) in Links(dir, n, root, rank))
  {
    hide Kids, Swap, CeilLog2, Reqs, Ops;
    var v, k, base := Swap(rank, root), CeilLog2(n), |b.ops|;
    ReqsAre(dir, n, v, base, k, e);
    if e.tail > base && e.head > base {
      var f := Edge(e.tail - base, e.head - base, e.immediate);
      ReqsAre(dir, n, v, 0, k, f);
      assert forall i: nat :: e == Link(dir, base, i) <==> f == Link(dir, 0, i);
    } else {
      assert forall i: nat :: e != Link(dir, base, i) || i == 0;
    }
  }

  // ---- the root ----

  /** In a broadcast every rank but the root receives, once; in a reduction it sends once. */
  lemma OnlyRootHasNoParent(dir: Direction, n: nat, root: nat, r: nat, size: nat, tag: nat)
    requires root < n && r < n
    ensures var p := Program(dir, n, root, r, size, tag);
      && (r != root ==> p != [] && (if dir.Down? then p[0].Recv? else p[0].Send?))
      && (forall i :: 0 <= i < |p| ==> ((if dir.Down? then p[i].Recv? else p[i].Send?) <==> r != root && i == 0))
  {
    hide Pow2, FloorLog2, CeilLog2, AllKids, Program, Parent;
    var v := Swap(r, root);
    SwapBack(r, root, n);
    ProgramAt(dir, n, root, v, size, tag);
    var p, kids, first := Program(dir, n, root, r, size, tag), AllKids(n, v), if v > 0 then 1 else 0;
    forall i | first <= i < |p| ensures p[i] == KidOp(dir, Swap(kids[i - first], root), size, tag) {
      assert p[i] == p[first + (i - first)];
    }
  }

  /** Rank a sends to rank b, which receives it. */
  predicate Hands(dir: Direction, n: nat, root: nat, size: nat, tag: nat, a: nat, b: nat)
    requires n > 0
  {
    && a < n && b < n
    && Send(size, b, tag) in Program(dir, n, root, a, size, tag)
    && Recv(size, a, tag) in Program(dir, n, root, b, size, tag)
  }

  /** A chain of ranks, each of which hands something to the next. */
  predicate Chain(dir: Direction, n: nat, root: nat, size: nat, tag: nat, path: seq<nat>)
    requires n > 0
  {
    path != [] && forall i :: 0 <= i < |path| - 1 ==> Hands(dir, n, root, size, tag, path[i], path[i + 1])
  }

  /** Every rank is reached from the root in a broadcast, and reaches it in a reduction. */
  lemma {:induction false} ChainToRoot(dir: Direction, n: nat, root: nat, size: nat, tag: nat, r: nat) returns (path: seq<nat>)
    requires root < n && r < n
    ensures Chain(dir, n, root, size, tag, path)
    ensures if dir.Down? then path[0] == root && path[|path| - 1] == r else path[0] == r && path[|path| - 1] == root
    decreases Swap(r, root)
  {
    hide Pow2, FloorLog2, Program, Parent;
    SwapBack(r, root, n);
    if r == root {
      path := [r];
    } else {
      var v := Swap(r, root);
      ParentBelow(v);
      var q := Swap(Parent(v), root);
      SwapBack(Parent(v), root, n);
      SendsMeetReceives(dir, n, root, q, r, size, tag);
      SendsMeetReceives(dir, n, root, r, q, size, tag);
      path := ChainToRoot(dir, n, root, size, tag, q);
      path := if dir.Down? then path + [r] else [r] + path;
    }
  }

  // ---- orders of execution ----

  /** Every rank performs its operations in an order that keeps its dependencies. */
  ghost predicate InOrder(dir: Direction, n: nat, root: nat, when: Times)
    requires n > 0
  {
    forall r: nat, e :: r < n && e in Links(dir, n, root, r) && e.head > 0 && e.tail > 0 ==>
      when(r, e.head - 1) < when(r, e.tail - 1)
  }

  lemma InOrderRespects(dir: Direction, n: nat, root: nat, when: Times)
    requires root < n && InOrder(dir, n, root, when)
    ensures Respects(dir, n, root, when)
  {
    hide Reqs, CeilLog2;
    forall v: nat, e | v < n && e in Reqs(dir, n, v, 0, CeilLog2(n)) && e.head > 0 && e.tail > 0
      ensures when(Swap(v, root), e.head - 1) < when(Swap(v, root), e.tail - 1)
    {
      SwapBack(v, root, n);
      assert e in Links(dir, n, root, Swap(v, root));
    }
  }

  /** The i-th operation of rank r receives what the j-th of rank q sends. */
  predicate Meet(dir: Direction, n: nat, root: nat, size: nat, tag: nat, r: nat, i: nat, q: nat, j: nat)
    requires n > 0
  {
    var mine, theirs := Program(dir, n, root, r, size, tag), Program(dir, n, root, q, size, tag);
    r < n && q < n && i < |mine| && j < |theirs| && mine[i] == Recv(size, q, tag) && theirs[j] == Send(size, r, tag)
  }

  /** The messages: what is received is what was sent. */
  ghost predicate Carries<T>(dir: Direction, n: nat, root: nat, size: nat, tag: nat, value: (nat, nat) -> T)
    requires n > 0
  {
    forall r, i, q, j :: Meet(dir, n, root, size, tag, r, i, q, j) ==> value(r, i) == value(q, j)
  }

  // ---- broadcast ----

  /** A send carries what its rank received last before it, or else what it had. */
  ghost predicate Forwards<T>(prog: seq<GoalOp>, r: nat, when: Times, own: T, value: (nat, nat) -> T)
  {
    forall j: nat :: j < |prog| && prog[j].Send? ==>
      && (forall i: nat :: Latest(prog, r, when, i, when(r, j)) ==> value(r, j) == value(r, i))
      && (NothingYet(prog, r, when, when(r, j)) ==> value(r, j) == own)
  }

  predicate NothingYet(prog: seq<GoalOp>, r: nat, when: Times, t: int) {
    forall i: nat :: i < |prog| && prog[i].Recv? ==> when(r, i) >= t
  }

  /** Operation i is the last receive before time t. */
  ghost predicate Latest(prog: seq<GoalOp>, r: nat, when: Times, i: nat, t: int)
  {
    && i < |prog| && prog[i].Recv? && when(r, i) < t
    && forall k :: 0 <= k < |prog| && prog[k].Recv? && when(r, k) < t ==> when(r, k) <= when(r, i)
  }

  /** Whatever ranks hold at the start, and in whatever order they perform their operations: what
      every other rank receives is what the root had. */
  lemma {:induction false} BroadcastArrives<T>(n: nat, root: nat, size: nat, tag: nat, when: Times, own: nat -> T,
                                               value: (nat, nat) -> T, r: nat)
    requires root < n && r < n && r != root && InOrder(Down, n, root, when)
    requires Carries(Down, n, root, size, tag, value)
    requires forall q: nat :: q < n ==> Forwards(Program(Down, n, root, q, size, tag), q, when, own(q), value)
    ensures Program(Down, n, root, r, size, tag) != [] && Program(Down, n, root, r, size, tag)[0].Recv?
    ensures value(r, 0) == own(root)
    decreases Swap(r, root)
  {
    hide Pow2, FloorLog2, CeilLog2, Program, Parent, InOrder, Respects, Reqs, Kids;
    SwapBack(r, root, n);
    OnlyRootHasNoParent(Down, n, root, r, size, tag);
    var v := Swap(r, root);
    ParentBelow(v);
    var p := Parent(v);
    var q := Swap(p, root);
    SwapBack(p, root, n);
    ProgramAt(Down, n, root, v, size, tag);
    SpanningTree(n, v, p);
    var c :| 0 <= c < |AllKids(n, p)| && AllKids(n, p)[c] == v;
    var first := if p > 0 then 1 else 0;
    ProgramAt(Down, n, root, p, size, tag);
    var prog := Program(Down, n, root, q, size, tag);
    assert prog[first + c] == KidOp(Down, r, size, tag);
    assert Meet(Down, n, root, size, tag, r, 0, q, first + c);
    OnlyRootHasNoParent(Down, n, root, q, size, tag);
    assert Forwards(prog, q, when, own(q), value);
    if q == root {
      assert NothingYet(prog, q, when, when(q, first + c));
    } else {
      InOrderRespects(Down, n, root, when);
      RespectsOrder(Down, n, root, when, p, 1 + c);
      assert Latest(prog, q, when, 0, when(q, 1 + c));
      BroadcastArrives(n, root, size, tag, when, own, value, q);
    }
  }

  // ---- reduction ----

  /** What the first k operations of rank r receive before time t. */
  function Gathered(prog: seq<GoalOp>, r: nat, when: Times, value: (nat, nat) -> multiset<nat>, t: int, k: nat): multiset<nat>
    requires k <= |prog|
  {
    if k == 0 then multiset{}
    else
      Gathered(prog, r, when, value, t, k - 1)
      + if prog[k - 1].Recv? && when(r, k - 1) < t then value(r, k - 1) else multiset{}
  }

  /** A send carries the rank's own contribution and all it received before. */
  ghost predicate Combines(prog: seq<GoalOp>, r: nat, when: Times, value: (nat, nat) -> multiset<nat>)
  {
    forall j: nat :: j < |prog| && prog[j].Send? ==>
      value(r, j) == multiset{r} + Gathered(prog, r, when, value, when(r, j), |prog|)
  }

  /** All operations have been performed by time t. */
  predicate Over(prog: seq<GoalOp>, r: nat, when: Times, t: int) {
    forall i: nat :: i < |prog| ==> when(r, i) < t
  }

  /** The receive from the k-th child. */
  lemma ChildReceive(n: nat, root: nat, size: nat, tag: nat, value: (nat, nat) -> multiset<nat>, v: nat, k: nat)
    requires root < n && v < n && 0 < k <= |AllKids(n, v)| && Carries(Up, n, root, size, tag, value)
    ensures var prog, c, first := Program(Up, n, root, Swap(v, root), size, tag), AllKids(n, v)[k - 1], if v > 0 then 1 else 0;
      && v < c < n && first + k <= |prog| && prog[first + k - 1].Recv?
      && value(Swap(v, root), first + k - 1) == value(Swap(c, root), 0)
  {
    hide Pow2, FloorLog2, CeilLog2, Program, Parent, Kids, AllKids, Carries;
    var r, c, first := Swap(v, root), AllKids(n, v)[k - 1], if v > 0 then 1 else 0;
    var prog, q := Program(Up, n, root, r, size, tag), Swap(c, root);
    ProgramAt(Up, n, root, v, size, tag);
    assert prog[first + (k - 1)] == KidOp(Up, q, size, tag);
    ParentIs(n, v, k - 1);
    SwapBack(c, root, n);
    SwapBack(v, root, n);
    ProgramAt(Up, n, root, c, size, tag);
    assert Meet(Up, n, root, size, tag, r, first + (k - 1), q, 0);
    Carried(Up, n, root, size, tag, value, r, first + (k - 1), q, 0);
  }

  lemma Carried<T>(dir: Direction, n: nat, root: nat, size: nat, tag: nat, value: (nat, nat) -> T, r: nat, i: nat, q: nat, j: nat)
    requires n > 0 && Carries(dir, n, root, size, tag, value) && Meet(dir, n, root, size, tag, r, i, q, j)
    ensures value(r, i) == value(q, j)
  {
  }

  lemma CollectedStep(n: nat, root: nat, when: Times, v: nat, k: nat)
    requires v < n && 0 < k <= |AllKids(n, v)|
    ensures var c := AllKids(n, v)[k - 1];
      && v < c < n
      && Collected(n, root, when, v, k) == Collected(n, root, when, v, k - 1)
           + if v == 0 || when(Swap(v, root), k) < when(Swap(v, root), 0) then Collected(n, root, when, c, |AllKids(n, c)|) else multiset{}
  {
    hide Pow2, FloorLog2, CeilLog2, Swap, Kids, AllKids;
    ParentIs(n, v, k - 1);
  }

  /** Ranks beyond v send what they have collected. */
  ghost predicate SentAbove(n: nat, root: nat, when: Times, value: (nat, nat) -> multiset<nat>, v: nat) {
    forall c: nat {:trigger Collected(n, root, when, c, |AllKids(n, c)|)} ::
      v < c < n ==> value(Swap(c, root), 0) == Collected(n, root, when, c, |AllKids(n, c)|)
  }

  /** What the receives up to the k-th child's amount to. */
  lemma {:induction false} GatheredIs(n: nat, root: nat, size: nat, tag: nat, when: Times, value: (nat, nat) -> multiset<nat>,
                                      v: nat, t: int, k: nat)
    requires root < n && v < n && k <= |AllKids(n, v)|
    requires v > 0 ==> t == when(Swap(v, root), 0)
    requires v == 0 ==> Over(Program(Up, n, root, root, size, tag), root, when, t)
    requires SentAbove(n, root, when, value, v) && Carries(Up, n, root, size, tag, value)
    ensures var prog, first := Program(Up, n, root, Swap(v, root), size, tag), if v > 0 then 1 else 0;
      && first + k <= |prog|
      && multiset{Swap(v, root)} + Gathered(prog, Swap(v, root), when, value, t, first + k) == Collected(n, root, when, v, k)
    decreases k
  {
    hide Pow2, FloorLog2, CeilLog2, Program, Parent, Kids, AllKids, Carries, Collected, Swap, SentAbove;
    var r, first := Swap(v, root), if v > 0 then 1 else 0;
    var prog := Program(Up, n, root, r, size, tag);
    ProgramAt(Up, n, root, v, size, tag);
    if k == 0 {
      assert Gathered(prog, r, when, value, t, 0) == multiset{};
      assert Collected(n, root, when, v, 0) == multiset{r} by { CollectedNone(n, root, when, v); }
    } else {
      GatheredIs(n, root, size, tag, when, value, v, t, k - 1);
      GatheredStep(n, root, size, tag, when, value, v, t, k);
    }
  }

  lemma GatheredStep(n: nat, root: nat, size: nat, tag: nat, when: Times, value: (nat, nat) -> multiset<nat>, v: nat, t: int, k: nat)
    requires root < n && v < n && 0 < k <= |AllKids(n, v)|
    requires v > 0 ==> t == when(Swap(v, root), 0)
    requires v == 0 ==> Over(Program(Up, n, root, root, size, tag), root, when, t)
    requires SentAbove(n, root, when, value, v) && Carries(Up, n, root, size, tag, value)
    ensures var r, first := Swap(v, root), if v > 0 then 1 else 0;
      var prog, got := Program(Up, n, root, r, size, tag), if v == 0 || when(r, k) < t then value(r, first + k - 1) else multiset{};
      && first + k <= |prog|
      && Gathered(prog, r, when, value, t, first + k) == Gathered(prog, r, when, value, t, first + k - 1) + got
      && Collected(n, root, when, v, k) == Collected(n, root, when, v, k - 1) + got
  {
    hide Pow2, FloorLog2, CeilLog2, Program, Parent, Kids, AllKids, Carries, Collected, Swap;
    ChildReceive(n, root, size, tag, value, v, k);
    CollectedStep(n, root, when, v, k);
    RootIs(root);
  }

  lemma RootIs(root: nat)
    ensures Swap(0, root) == root
  {
  }

  lemma CollectedNone(n: nat, root: nat, when: Times, v: nat)
    requires v < n
    ensures Collected(n, root, when, v, 0) == multiset{Swap(v, root)}
  {
  }

  lemma ParentIs(n: nat, v: nat, i: nat)
    requires 0 < n && i < |AllKids(n, v)|
    ensures var c := AllKids(n, v)[i]; v < c < n && Parent(c) == v
  {
    hide Pow2, Parent;
    KidsSorted(n, v, CeilLog2(n));
    KidsMember(n, v, CeilLog2(n), AllKids(n, v)[i]);
  }

  /** What a rank other than the root sends is what its subtree has collected. */
  lemma {:induction false} SentIsCollected(n: nat, root: nat, size: nat, tag: nat, when: Times, value: (nat, nat) -> multiset<nat>, v: nat)
    requires root < n && 0 < v < n && Carries(Up, n, root, size, tag, value)
    requires forall q: nat :: q < n ==> Combines(Program(Up, n, root, q, size, tag), q, when, value)
    ensures value(Swap(v, root), 0) == Collected(n, root, when, v, |AllKids(n, v)|)
    decreases n - v
  {
    hide Pow2, FloorLog2, CeilLog2, Program, Parent, Kids, AllKids;
    var r := Swap(v, root);
    SwapBack(v, root, n);
    forall c: nat | v < c < n
      ensures value(Swap(c, root), 0) == Collected(n, root, when, c, |AllKids(n, c)|)
    {
      SentIsCollected(n, root, size, tag, when, value, c);
    }
    assert SentAbove(n, root, when, value, v);
    ProgramAt(Up, n, root, v, size, tag);
    GatheredIs(n, root, size, tag, when, value, v, when(r, 0), |AllKids(n, v)|);
    assert Combines(Program(Up, n, root, r, size, tag), r, when, value);
  }

  /** In whatever order the ranks perform their operations: once the root has received
      everything, it holds the contribution of every rank exactly once. */
  lemma ReductionArrives(n: nat, root: nat, size: nat, tag: nat, when: Times, value: (nat, nat) -> multiset<nat>, t: int, x: nat)
    requires root < n && InOrder(Up, n, root, when) && Carries(Up, n, root, size, tag, value)
    requires forall q: nat :: q < n ==> Combines(Program(Up, n, root, q, size, tag), q, when, value)
    requires Over(Program(Up, n, root, root, size, tag), root, when, t)
    ensures var prog := Program(Up, n, root, root, size, tag);
      (multiset{root} + Gathered(prog, root, when, value, t, |prog|))[x] == if x < n then 1 else 0
  {
    hide *;
    InOrderRespects(Up, n, root, when);
    RootCollectsAll(n, root, when, x);
    RootIs(root);
    AllSent(n, root, size, tag, when, value);
    ProgramAt(Up, n, root, 0, size, tag);
    GatheredIs(n, root, size, tag, when, value, 0, t, |AllKids(n, 0)|);
  }

  lemma AllSent(n: nat, root: nat, size: nat, tag: nat, when: Times, value: (nat, nat) -> multiset<nat>)
    requires root < n && Carries(Up, n, root, size, tag, value)
    requires forall q: nat :: q < n ==> Combines(Program(Up, n, root, q, size, tag), q, when, value)
    ensures SentAbove(n, root, when, value, 0)
  {
    hide Swap, Carries, Combines, Collected, Program, AllKids;
    forall c: nat | 0 < c < n
      ensures value(Swap(c, root), 0) == Collected(n, root, when, c, |AllKids(n, c)|)
    {
      SentIsCollected(n, root, size, tag, when, value, c);
    }
  }

  // ---- such executions exist ----

  /** In any order that keeps the dependencies. */
  lemma BroadcastExists<T>(n: nat, root: nat, size: nat, tag: nat, when: Times, own: nat -> T) returns (value: (nat, nat) -> T)
    requires root < n && InOrder(Down, n, root, when)
    ensures Carries(Down, n, root, size, tag, value)
    ensures forall q: nat :: q < n ==> Forwards(Program(Down, n, root, q, size, tag), q, when, own(q), value)
  {
    hide Pow2, FloorLog2, CeilLog2, Program, Parent, InOrder, Respects, Reqs, Kids;
    value := (r: nat, i: nat) => own(root);
    InOrderRespects(Down, n, root, when);
    forall q: nat | q < n ensures Forwards(Program(Down, n, root, q, size, tag), q, when, own(q), value) {
      var prog, p := Program(Down, n, root, q, size, tag), Swap(q, root);
      SwapBack(q, root, n);
      OnlyRootHasNoParent(Down, n, root, q, size, tag);
      ProgramAt(Down, n, root, p, size, tag);
      forall j: nat | q != root && j < |prog| && prog[j].Send?
        ensures Latest(prog, q, when, 0, when(q, j))
      {
        RespectsOrder(Down, n, root, when, p, j);
      }
    }
  }

  lemma ReductionExists(n: nat, root: nat, size: nat, tag: nat, when: Times) returns (value: (nat, nat) -> multiset<nat>)
    requires root < n
    ensures Carries(Up, n, root, size, tag, value)
    ensures forall q: nat :: q < n ==> Combines(Program(Up, n, root, q, size, tag), q, when, value)
  {
    hide Pow2, FloorLog2, CeilLog2, Program, Parent, Kids, AllKids, Collected;
    var sent := (r: nat) => if Swap(r, root) < n then Collected(n, root, when, Swap(r, root), |AllKids(n, Swap(r, root))|) else multiset{};
    value := (r: nat, i: nat) =>
      var prog := Program(Up, n, root, r, size, tag);
      if i < |prog| && prog[i].Recv? then sent(prog[i].src) else sent(r);
    forall c: nat | c < n ensures value(Swap(c, root), 0) == Collected(n, root, when, c, |AllKids(n, c)|) || c == 0 {
      SwapBack(c, root, n);
      OnlyRootHasNoParent(Up, n, root, Swap(c, root), size, tag);
    }
    assert forall v :: SentAbove(n, root, when, value, v);
    forall q: nat | q < n ensures Combines(Program(Up, n, root, q, size, tag), q, when, value) {
      var v := Swap(q, root);
      SwapBack(q, root, n);
      OnlyRootHasNoParent(Up, n, root, q, size, tag);
      if q != root {
        ProgramAt(Up, n, root, v, size, tag);
        GatheredIs(n, root, size, tag, when, value, v, when(q, 0), |AllKids(n, v)|);
      }
    }
  }
}
