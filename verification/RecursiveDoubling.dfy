/** Recursive-doubling allreduce for any communicator size (create_allreduce_recdoub_rank in
    schedgen.cpp). */
module RecursiveDoubling {
  import opened Powers
  import opened Goal

  /** The number of doubling rounds. */
  function Rounds(n: nat): nat
    requires n > 0
  {
    FloorLog2(n)
  }

  /** How many ranks are beyond the nearest power of two. */
  function Rem(n: nat): (rem: nat)
    requires n > 0
    ensures n == Pow2(Rounds(n)) + rem && rem < Pow2(Rounds(n))
  {
    n - Pow2(FloorLog2(n))
  }

  /** The rank in the doubling rounds; NO_ID for those that sit them out. */
  function NewRank(n: nat, r: nat): int
    requires n > 0
  {
    if r < 2 * Rem(n) then (if r % 2 == 0 then NO_ID else r / 2) else r - Rem(n)
  }

  function RealRank(n: nat, q: nat): nat
    requires n > 0
  {
    if q < Rem(n) then q * 2 + 1 else q + Rem(n)
  }

  /** Renumbering is a bijection between the ranks that take part and a power of two. */
  lemma NewRankBijection(n: nat, r: nat, q: nat)
    requires 0 < n
    ensures r < n && NewRank(n, r) != NO_ID ==> 0 <= NewRank(n, r) < Pow2(Rounds(n)) && RealRank(n, NewRank(n, r)) == r
    ensures q < Pow2(Rounds(n)) ==> RealRank(n, q) < n && NewRank(n, RealRank(n, q)) == q
  {
  }

  /** Partner of new rank q in round k. */
  function Partner(n: nat, q: nat, k: nat): nat
    requires n > 0
  {
    RealRank(n, Flip(q, k))
  }

  function RoundComms(n: nat, q: nat, size: nat, k: nat): (r: seq<Comm>)
    requires n > 0
    ensures |r| == 2 * k
    ensures forall j {:trigger Partner(n, q, j)} :: 0 <= j < k ==>
      r[2 * j] == To(Partner(n, q, j), size) && r[2 * j + 1] == From(Partner(n, q, j), size)
  {
    if k == 0 then []
    else RoundComms(n, q, size, k - 1) + [To(Partner(n, q, k - 1), size), From(Partner(n, q, k - 1), size)]
  }

  function Stage1(n: nat, r: nat, size: nat): seq<Comm>
    requires n > 0
  {
    if r < 2 * Rem(n) then (if r % 2 == 0 then [To(r + 1, size)] else [From(r - 1, size)]) else []
  }

  function Stage2(n: nat, r: nat, size: nat): seq<Comm>
    requires n > 0
  {
    if NewRank(n, r) != NO_ID then RoundComms(n, NewRank(n, r), size, Rounds(n)) else []
  }

  function Stage3(n: nat, r: nat, size: nat): seq<Comm>
    requires n > 0
  {
    if r < 2 * Rem(n) then (if r % 2 == 1 then [To(r - 1, size)] else [From(r + 1, size)]) else []
  }

  /** The communications of rank r in program order. */
  function Comms(n: nat, r: nat, size: nat): seq<Comm>
    requires n > 0
  {
    Stage1(n, r, size) + Stage2(n, r, size) + Stage3(n, r, size)
  }

  /** What a round of the loop emits. */
  lemma RoundEmits(b: Book, n: nat, q: nat, size: nat, k: nat, prev: int)
    requires 0 < n && NO_ID <= prev
    ensures var comms, p := RoundComms(n, q, size, k), Partner(n, q, k);
      var last := PrevAfter(comms, |b.ops|, prev, 2 * k);
      var b1 := EmitOne(Emit(b, comms, prev), To(p, size), last).0;
      && Emit(b, RoundComms(n, q, size, k + 1), prev) == AddRecv(b1, size, p)
      && PrevAfter(RoundComms(n, q, size, k + 1), |b.ops|, prev, 2 * k + 2) == Last(b1) + 1
  {
    hide Emit, PrevAfter, Partner;
    var comms, p := RoundComms(n, q, size, k), Partner(n, q, k);
    EmitSnoc(b, comms, To(p, size), prev);
    EmitSnoc(b, comms + [To(p, size)], From(p, size), prev);
    assert RoundComms(n, q, size, k + 1) == comms + [To(p, size)] + [From(p, size)];
  }

  /** The while loop of stage 2. */
  method DoublingRounds(goal: Goal, newRank: nat, commSize: nat, dataSize: nat, prev: int) returns (prevRecv: int)
    requires 0 < commSize && newRank < Pow2(Rounds(commSize)) && NO_ID <= prev
    modifies goal
    ensures var comms := RoundComms(commSize, newRank, dataSize, Rounds(commSize));
      && goal.Abs() == Emit(old(goal.Abs()), comms, prev)
      && prevRecv == PrevAfter(comms, |old(goal.ops)|, prev, |comms|)
  {
    ghost var b := goal.Abs();
    var pof2 := Pow2(FloorLog2(commSize));
    var rem := commSize - pof2;
    var mask := 1;
    prevRecv := prev;
    ghost var k := 0;
    while mask < pof2
      invariant k <= Rounds(commSize) && mask == Pow2(k) && NO_ID <= prevRecv
      invariant goal.Abs() == Emit(b, RoundComms(commSize, newRank, dataSize, k), prev)
      invariant prevRecv == PrevAfter(RoundComms(commSize, newRank, dataSize, k), |b.ops|, prev, 2 * k)
      decreases Rounds(commSize) - k
    {
      hide Emit, PrevAfter, RoundComms, FloorLog2, Flip, Xor, CeilLog2;
      XorFlip(newRank, k);
      var newDst := Xor(newRank, mask);
      var dst := if newDst < rem then newDst * 2 + 1 else newDst + rem;
      assert dst == Partner(commSize, newRank, k);
      RoundEmits(b, commSize, newRank, dataSize, k, prev);
      var send := goal.Send(dataSize, dst);
      if prevRecv != -1 {
        goal.Requires(send, prevRecv);
      }
      prevRecv := goal.Recv(dataSize, dst);
      k := k + 1;
      mask := 2 * mask;
    }
    if k < Rounds(commSize) {
      Pow2Monotone(k, Rounds(commSize));
    }
  }

  method CreateAllreduceRecdoubRank(goal: Goal, srcRank: nat, commSize: nat, dataSize: nat)
    requires 0 < commSize && srcRank < commSize
    modifies goal
    ensures goal.Abs() == Emit(old(goal.Abs()), Comms(commSize, srcRank, dataSize), NO_ID)
  {
    hide Emit, PrevAfter, RoundComms, Pow2, FloorLog2;
    ghost var b := goal.Abs();
    var rem := commSize - Pow2(FloorLog2(commSize));
    var newRank, prevRecv := -1, NO_ID;
    ghost var one, two, three := Stage1(commSize, srcRank, dataSize), Stage2(commSize, srcRank, dataSize), Stage3(commSize, srcRank, dataSize);
    EmitThree(b, one, two, three, NO_ID);
    EmitSingle(b, one, NO_ID);
    if srcRank < 2 * rem {
      if srcRank % 2 == 0 {
        var send := goal.Send(dataSize, srcRank + 1);
        newRank := -1;
      } else {
        prevRecv := goal.Recv(dataSize, srcRank - 1);
        newRank := srcRank / 2;
      }
    } else {
      newRank := srcRank - rem;
    }
    ghost var b1, prev1 := goal.Abs(), prevRecv;
    assert b1 == Emit(b, one, NO_ID) && prev1 == PrevAfter(one, |b.ops|, NO_ID, |one|);
    if newRank != -1 {
      prevRecv := DoublingRounds(goal, newRank, commSize, dataSize, prevRecv);
    } else {
      EmitNone(b1, prev1);
    }
    assert goal.Abs() == Emit(b1, two, prev1);
    assert prevRecv == PrevAfter(two, |b1.ops|, prev1, |two|);
    EmitSingle(goal.Abs(), three, prevRecv);
    if srcRank < 2 * rem {
      if srcRank % 2 == 1 {
        var send := goal.Send(dataSize, srcRank - 1);
        if prevRecv != -1 {
          goal.Requires(send, prevRecv);
        }
      } else {
        var recv := goal.Recv(dataSize, srcRank + 1);
      }
    }
  }

  // ---- every send has its receive ----

  predicate Idle(n: nat, r: nat)
    requires n > 0
  {
    NewRank(n, r) == NO_ID
  }

  /** Communications of stage 1 (and of stage 3) of a rank that takes part. */
  function Extra(n: nat, r: nat): nat
    requires n > 0
  {
    if r < 2 * Rem(n) then 1 else 0
  }

  /** What stands at which place of a rank's program. */
  lemma CommsAt(n: nat, r: nat, size: nat, k: nat)
    requires 0 < n && r < n
    ensures Idle(n, r) ==>
      && Comms(n, r, size) == [To(r + 1, size), From(r + 1, size)]
      && r + 1 < n && !Idle(n, r + 1) && Extra(n, r + 1) == 1
    ensures !Idle(n, r) ==>
      var c, q, x := Comms(n, r, size), NewRank(n, r), Extra(n, r);
      && 0 <= q < Pow2(Rounds(n)) && RealRank(n, q) == r
      && |c| == 2 * x + 2 * Rounds(n)
      && (x == 1 ==> r > 0 && Idle(n, r - 1) && c[0] == From(r - 1, size) && c[|c| - 1] == To(r - 1, size))
      && (k < Rounds(n) ==> c[x + 2 * k] == To(Partner(n, q, k), size) && c[x + 2 * k + 1] == From(Partner(n, q, k), size))
  {
    NewRankBijection(n, r, 0);
    if !Idle(n, r) {
      var q := NewRank(n, r);
      var one, two, three := Stage1(n, r, size), Stage2(n, r, size), Stage3(n, r, size);
      assert two == RoundComms(n, q, size, Rounds(n));
      assert Comms(n, r, size) == one + two + three;
      if k < Rounds(n) {
        assert two[2 * k] == To(Partner(n, q, k), size);
      }
    }
  }

  /** 0 is the pairing before the doubling, then come the doubling rounds, then the last. */
  function RoundOf(n: nat, r: nat, i: nat): nat
    requires n > 0
  {
    if Idle(n, r) then (if i == 0 then 0 else Rounds(n) + 1)
    else if i < Extra(n, r) then 0
    else 1 + (i - Extra(n, r)) / 2
  }

  lemma PartnerBack(n: nat, r: nat, k: nat)
    requires 0 < n && r < n && !Idle(n, r) && k < Rounds(n)
    ensures var p := Partner(n, NewRank(n, r), k);
      p < n && p != r && !Idle(n, p) && NewRank(n, p) == Flip(NewRank(n, r), k) && Partner(n, NewRank(n, p), k) == r
  {
    NewRankBijection(n, r, 0);
    var q := NewRank(n, r);
    FlipBlock(q, k);
    FlipBelow(q, k, Rounds(n));
    NewRankBijection(n, r, Flip(q, k));
  }

  /** Every send is received by its destination, in the same round. */
  lemma SendHasRecv(n: nat, a: nat, size: nat, i: nat) returns (j: nat)
    requires 0 < n && a < n && i < |Comms(n, a, size)| && Comms(n, a, size)[i].To?
    ensures var b := Comms(n, a, size)[i].peer;
      && b < n && b != a && Comms(n, a, size)[i] == To(b, size)
      && j < |Comms(n, b, size)| && Comms(n, b, size)[j] == From(a, size)
      && RoundOf(n, b, j) == RoundOf(n, a, i)
  {
    hide Comms, RoundComms, Stage1, Stage2, Stage3, Rem, NewRank, RealRank, Partner, Flip, Pow2, FloorLog2;
    CommsAt(n, a, size, 0);
    if Idle(n, a) {
      CommsAt(n, a + 1, size, 0);
      j := 0;
    } else {
      var x := Extra(n, a);
      if x == 1 && i == 2 * Rounds(n) + 1 {
        CommsAt(n, a - 1, size, 0);
        j := 1;
      } else {
        var k := (i - x) / 2;
        CommsAt(n, a, size, k);
        PartnerBack(n, a, k);
        var b := Partner(n, NewRank(n, a), k);
        CommsAt(n, b, size, k);
        j := Extra(n, b) + 2 * k + 1;
      }
    }
  }

  /** Every receive is sent by its source, in the same round. */
  lemma RecvHasSend(n: nat, b: nat, size: nat, j: nat) returns (i: nat)
    requires 0 < n && b < n && j < |Comms(n, b, size)| && Comms(n, b, size)[j].From?
    ensures var a := Comms(n, b, size)[j].peer;
      && a < n && a != b && Comms(n, b, size)[j] == From(a, size)
      && i < |Comms(n, a, size)| && Comms(n, a, size)[i] == To(b, size)
      && RoundOf(n, a, i) == RoundOf(n, b, j)
  {
    hide Comms, RoundComms, Stage1, Stage2, Stage3, Rem, NewRank, RealRank, Partner, Flip, Pow2, FloorLog2;
    CommsAt(n, b, size, 0);
    if Idle(n, b) {
      CommsAt(n, b + 1, size, 0);
      i := 2 * Rounds(n) + 1;
    } else {
      var x := Extra(n, b);
      if x == 1 && j == 0 {
        CommsAt(n, b - 1, size, 0);
        i := 0;
      } else {
        var k := (j - x) / 2;
        CommsAt(n, b, size, k);
        PartnerBack(n, b, k);
        var a := Partner(n, NewRank(n, b), k);
        CommsAt(n, a, size, k);
        i := Extra(n, a) + 2 * k;
      }
    }
  }

  /** A rank sends to another at most once, and receives from another at most once: each
      channel carries one message. */
  lemma OncePerPeer(n: nat, r: nat, size: nat, i: nat, j: nat)
    requires 0 < n && r < n && i < |Comms(n, r, size)| && j < |Comms(n, r, size)|
    requires Comms(n, r, size)[i] == Comms(n, r, size)[j]
    ensures i == j
  {
    hide Comms, RoundComms, Stage1, Stage2, Stage3, Rem, NewRank, RealRank, Partner, Flip, Pow2, FloorLog2;
    CommsAt(n, r, size, 0);
    if !Idle(n, r) {
      var x, q := Extra(n, r), NewRank(n, r);
      if x <= i < x + 2 * Rounds(n) {
        CommsAt(n, r, size, (i - x) / 2);
        PartnerBack(n, r, (i - x) / 2);
      }
      if x <= j < x + 2 * Rounds(n) {
        CommsAt(n, r, size, (j - x) / 2);
        PartnerBack(n, r, (j - x) / 2);
      }
      if x <= i < x + 2 * Rounds(n) && x <= j < x + 2 * Rounds(n) {
        FlipsDiffer(q, (i - x) / 2, (j - x) / 2);
      }
    }
  }

  // ---- the result ----

  /** The value a rank holds after so many of its communications, as the multiset of the
      contributions in it. */
  type Values = (nat, nat) -> multiset<nat>

  /** The receive of an idle rank delivers the result; all others are summed up. */
  predicate Replaces(n: nat, r: nat)
    requires n > 0
  {
    Idle(n, r)
  }

  /** The i-th communication of rank r: a send changes nothing, and a receive takes the value
      its sender held when sending. */
  ghost predicate Performed(n: nat, size: nat, V: Values, r: nat, i: nat)
    requires 0 < n && i < |Comms(n, r, size)|
  {
    match Comms(n, r, size)[i]
    case To(_, _) => V(r, i + 1) == V(r, i)
    case From(p, _) => forall j: nat :: j < |Comms(n, p, size)| && Comms(n, p, size)[j] == To(r, size) ==>
        V(r, i + 1) == if Replaces(n, r) then V(p, j) else V(r, i) + V(p, j)
    case Gap(_) => true
  }

  /** V is what comes about when each rank performs its communications in program order. */
  ghost predicate Executes(n: nat, size: nat, V: Values)
    requires n > 0
  {
    && (forall r: nat {:trigger V(r, 0)} :: r < n ==> V(r, 0) == multiset{r})
    && (forall r: nat, i: nat :: r < n && i < |Comms(n, r, size)| ==> Performed(n, size, V, r, i))
  }

  /** What new rank q brings into the doubling rounds. */
  function Contribution(n: nat, q: nat): multiset<nat>
    requires n > 0
  {
    if q < Rem(n) then multiset{2 * q, 2 * q + 1} else multiset{q + Rem(n)}
  }

  function Block(n: nat, q: nat, k: nat): multiset<nat>
    requires n > 0
    decreases k
  {
    if k == 0 then Contribution(n, q) else Block(n, q, k - 1) + Block(n, Flip(q, k - 1), k - 1)
  }

  /** The new rank that carries the contribution of rank x. */
  function Carrier(n: nat, x: nat): nat
    requires n > 0
  {
    if x < 2 * Rem(n) then x / 2 else x - Rem(n)
  }

  /** After k rounds a rank holds exactly the contributions of its block of 2^k new ranks. */
  lemma {:induction false} BlockCount(n: nat, q: nat, k: nat, x: nat)
    requires 0 < n && k <= Rounds(n) && q < Pow2(Rounds(n))
    ensures Block(n, q, k)[x] == if x < n && Shr(Carrier(n, x), k) == Shr(q, k) then 1 else 0
    decreases k
  {
    if k > 0 {
      FlipBelow(q, k - 1, Rounds(n));
      BlockCount(n, q, k - 1, x);
      BlockCount(n, Flip(q, k - 1), k - 1, x);
      HalfOfBlock(Carrier(n, x), q, k - 1);
      FlipBlock(q, k - 1);
    }
  }

  lemma ContributionIs(n: nat, r: nat)
    requires 0 < n && r < n && !Idle(n, r)
    ensures 0 <= NewRank(n, r)
    ensures Contribution(n, NewRank(n, r)) == if Extra(n, r) == 1 then multiset{r} + multiset{r - 1} else multiset{r}
  {
    NewRankBijection(n, r, 0);
  }

  /** The value with which a rank enters the doubling rounds. */
  lemma FirstValue(n: nat, size: nat, V: Values, r: nat)
    requires 0 < n && r < n && Executes(n, size, V) && !Idle(n, r)
    ensures 0 <= NewRank(n, r) && V(r, Extra(n, r)) == Contribution(n, NewRank(n, r))
  {
    hide Comms, RoundComms, Stage1, Stage2, Stage3, Rem, NewRank, RealRank, Partner, Flip, Pow2, FloorLog2, Idle;
    CommsAt(n, r, size, 0);
    ContributionIs(n, r);
    if Extra(n, r) == 1 {
      CommsAt(n, r - 1, size, 0);
      assert Performed(n, size, V, r, 0);
      assert Comms(n, r - 1, size)[0] == To(r, size);
    }
  }

  /** One doubling round. */
  lemma NextValue(n: nat, size: nat, V: Values, r: nat, k: nat)
    requires 0 < n && r < n && Executes(n, size, V) && !Idle(n, r) && k < Rounds(n)
    ensures var p := Partner(n, NewRank(n, r), k);
      V(r, Extra(n, r) + 2 * k + 2) == V(r, Extra(n, r) + 2 * k) + V(p, Extra(n, p) + 2 * k)
  {
    hide Comms, RoundComms, Stage1, Stage2, Stage3, Rem, NewRank, RealRank, Partner, Flip, Pow2, FloorLog2, Idle;
    hide Extra, Rounds;
    CommsAt(n, r, size, k);
    PartnerBack(n, r, k);
    var p := Partner(n, NewRank(n, r), k);
    CommsAt(n, p, size, k);
    var i, j := Extra(n, r) + 2 * k, Extra(n, p) + 2 * k;
    assert Performed(n, size, V, r, i) && Performed(n, size, V, r, i + 1);
    assert Comms(n, p, size)[j] == To(r, size);
  }

  /** The values during the doubling rounds. */
  lemma {:induction false} RoundValues(n: nat, size: nat, V: Values, r: nat, k: nat)
    requires 0 < n && r < n && Executes(n, size, V) && !Idle(n, r) && k <= Rounds(n)
    ensures 0 <= NewRank(n, r)
    ensures V(r, Extra(n, r) + 2 * k) == Block(n, NewRank(n, r), k)
    decreases k
  {
    hide Executes, Comms, NewRank, Partner, Flip, Rounds, Idle, Extra, Contribution;
    if k == 0 {
      FirstValue(n, size, V, r);
    } else {
      NextValue(n, size, V, r, k - 1);
      PartnerBack(n, r, k - 1);
      FirstValue(n, size, V, r);
      RoundValues(n, size, V, r, k - 1);
      RoundValues(n, size, V, Partner(n, NewRank(n, r), k - 1), k - 1);
    }
  }

  /** A block after all rounds is everybody. */
  lemma LastBlock(n: nat, q: nat, x: nat)
    requires 0 < n && q < Pow2(Rounds(n))
    ensures Block(n, q, Rounds(n))[x] == if x < n then 1 else 0
  {
    hide Block, Shr;
    BlockCount(n, q, Rounds(n), x);
    SmallIsLow(q, Rounds(n));
    if x < n {
      SmallIsLow(Carrier(n, x), Rounds(n));
    }
  }

  /** At the end every rank holds the contribution of every rank exactly once. */
  lemma AllreduceCorrect(n: nat, size: nat, V: Values, r: nat, x: nat)
    requires 0 < n && r < n && Executes(n, size, V)
    ensures V(r, |Comms(n, r, size)|)[x] == if x < n then 1 else 0
  {
    hide Comms, RoundComms, Stage1, Stage2, Stage3, Rem, NewRank, RealRank, Partner, Flip, Pow2, FloorLog2;
    hide Block;
    CommsAt(n, r, size, 0);
    var holder := if Idle(n, r) then r + 1 else r;
    CommsAt(n, holder, size, 0);
    RoundValues(n, size, V, holder, Rounds(n));
    LastBlock(n, NewRank(n, holder), x);
    var last := Extra(n, holder) + 2 * Rounds(n);
    if Idle(n, r) {
      assert Performed(n, size, V, r, 1);
      assert Comms(n, holder, size)[last] == To(r, size);
    } else if Extra(n, r) == 1 {
      assert Performed(n, size, V, r, last);
    }
  }

  // ---- such an execution exists ----

  /** The value of rank r after i communications. */
  function Run(n: nat, r: nat, i: nat): multiset<nat>
    requires 0 < n
  {
    if r >= n then multiset{}
    else if Idle(n, r) then (if i < 2 then multiset{r} else Block(n, New(n, r + 1), Rounds(n)))
    else if i < Extra(n, r) then multiset{r}
    else Block(n, New(n, r), if i < Extra(n, r) + 2 * Rounds(n) then (i - Extra(n, r)) / 2 else Rounds(n))
  }

  function Runs(n: nat): Values
    requires 0 < n
  {
    (r, i) => Run(n, r, i)
  }

  function New(n: nat, r: nat): nat
    requires 0 < n
  {
    if NewRank(n, r) < 0 then 0 else NewRank(n, r)
  }

  /** The only place where p sends to r. */
  lemma OnlySend(n: nat, size: nat, r: nat, p: nat, i: nat)
    requires 0 < n && p < n && i < |Comms(n, p, size)| && Comms(n, p, size)[i] == To(r, size)
    ensures forall j :: 0 <= j < |Comms(n, p, size)| && Comms(n, p, size)[j] == To(r, size) ==> j == i
  {
    forall j | 0 <= j < |Comms(n, p, size)| && Comms(n, p, size)[j] == To(r, size)
      ensures j == i
    {
      OncePerPeer(n, p, size, j, i);
    }
  }

  lemma BlockStart(n: nat, q: nat)
    requires 0 < n
    ensures Block(n, q, 0) == Contribution(n, q)
  {
  }

  lemma BlockNext(n: nat, r: nat, k: nat)
    requires 0 < n && r < n && !Idle(n, r) && k < Rounds(n)
    ensures var p := Partner(n, NewRank(n, r), k);
      Block(n, New(n, r), k + 1) == Block(n, New(n, r), k) + Block(n, New(n, p), k)
  {
    PartnerBack(n, r, k);
  }

  lemma RunRound(n: nat, size: nat, r: nat, k: nat)
    requires 0 < n && r < n && !Idle(n, r) && k < Rounds(n)
    ensures var i := Extra(n, r) + 2 * k;
      && i + 1 < |Comms(n, r, size)|
      && Performed(n, size, Runs(n), r, i)
      && Performed(n, size, Runs(n), r, i + 1)
  {
    hide Comms, RoundComms, Stage1, Stage2, Stage3, Rem, RealRank, Partner, Flip, Pow2, FloorLog2, Idle, Block;
    hide NewRank, Extra, Rounds;
    CommsAt(n, r, size, k);
    PartnerBack(n, r, k);
    var p := Partner(n, NewRank(n, r), k);
    CommsAt(n, p, size, k);
    BlockNext(n, r, k);
    OnlySend(n, size, r, p, Extra(n, p) + 2 * k);
  }

  lemma RunStarts(n: nat, size: nat, r: nat)
    requires 0 < n && r < n && !Idle(n, r) && Extra(n, r) == 1
    ensures 0 < |Comms(n, r, size)| && Performed(n, size, Runs(n), r, 0)
  {
    hide Comms, RoundComms, Stage1, Stage2, Stage3, Rem, RealRank, Partner, Flip, Pow2, FloorLog2, Idle, Block, NewRank,
      Contribution, Extra, Rounds;
    CommsAt(n, r, size, 0);
    CommsAt(n, r - 1, size, 0);
    ContributionIs(n, r);
    BlockStart(n, New(n, r));
    OnlySend(n, size, r, r - 1, 0);
  }

  lemma RunPerforms(n: nat, size: nat, r: nat, i: nat)
    requires 0 < n && r < n && i < |Comms(n, r, size)|
    ensures Performed(n, size, Runs(n), r, i)
  {
    hide Comms, RoundComms, Stage1, Stage2, Stage3, Rem, RealRank, Partner, Flip, Pow2, FloorLog2, Idle, Block;
    CommsAt(n, r, size, 0);
    var x := Extra(n, r);
    if Idle(n, r) {
      CommsAt(n, r + 1, size, 0);
      OnlySend(n, size, r, r + 1, 1 + 2 * Rounds(n));
    } else if i < x {
      RunStarts(n, size, r);
    } else if i < x + 2 * Rounds(n) {
      RunRound(n, size, r, (i - x) / 2);
    }
  }

  lemma RunExecutes(n: nat, size: nat)
    requires 0 < n
    ensures Executes(n, size, Runs(n))
  {
    forall r: nat | r < n
      ensures Run(n, r, 0) == multiset{r}
    {
      if !Idle(n, r) {
        ContributionIs(n, r);
        BlockStart(n, New(n, r));
      }
    }
    forall r: nat, i: nat | r < n && i < |Comms(n, r, size)|
      ensures Performed(n, size, Runs(n), r, i)
    {
      RunPerforms(n, size, r, i);
    }
  }
}
