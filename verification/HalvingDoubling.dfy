/** Allreduce by reduce-scatter with recursive halving and allgather with recursive doubling
    (create_reduce_scatter_allgather_rank in schedgen.cpp). */
module HalvingDoubling {
  import opened Powers
  import opened Goal

  /** No gap between messages. */
  const NO_GAP: int := -1

  /** A data size halved k times, rounding down. */
  function Half(d: nat, k: nat): nat {
    if k == 0 then d else Half(d, k - 1) / 2
  }

  /** The steps of the two phases are numbered 0..steps - 1 and steps..2 * steps - 1.  The
      second phase pairs the ranks in the opposite order. */
  function Bit(steps: nat, t: nat): nat
    requires t < 2 * steps
  {
    if t < steps then t else 2 * steps - 1 - t
  }

  function Peer(steps: nat, r: nat, t: nat): nat
    requires t < 2 * steps
  {
    Flip(r, Bit(steps, t))
  }

  function Size(steps: nat, d: nat, t: nat): nat
    requires t < 2 * steps
  {
    if t < steps then Half(d, t + 1) else Half(d, steps) * Pow2(t - steps)
  }

  function Gaps(steps: nat, gap: int, t: nat): seq<Comm>
    requires NO_GAP <= gap
  {
    if gap == NO_GAP || t == 2 * steps - 1 then [] else [Gap(gap)]
  }

  /** The communications of rank r in its first t steps. */
  function Program(steps: nat, r: nat, d: nat, gap: int, t: nat): (p: seq<Comm>)
    requires NO_GAP <= gap && t <= 2 * steps
  {
    if t == 0 then []
    else
      Program(steps, r, d, gap, t - 1)
      + [To(Peer(steps, r, t - 1), Size(steps, d, t - 1)), From(Peer(steps, r, t - 1), Size(steps, d, t - 1))]
      + Gaps(steps, gap, t - 1)
  }

  function Comms(n: nat, r: nat, d: nat, gap: int): seq<Comm>
    requires 0 < n && NO_GAP <= gap
  {
    Program(FloorLog2(n), r, d, gap, 2 * FloorLog2(n))
  }

  method CreateReduceScatterAllgatherRank(goal: Goal, srcRank: nat, commSize: nat, dataSize: nat, replaceComptime: int)
    requires 0 < commSize && NO_GAP <= replaceComptime
    modifies goal
    ensures goal.Abs() == Emit(old(goal.Abs()), Comms(commSize, srcRank, dataSize, replaceComptime), NO_ID)
  {
    hide Built, Emit, Xor, Flip, FloorLog2, Peer, Size, Comms;
    ghost var b := goal.Abs();
    var mask, nextDataSize, lastRecv := 1, dataSize, NO_ID;
    var numSteps := FloorLog2(commSize);
    BuiltNone(b, numSteps, srcRank, dataSize, replaceComptime);
    for step := 0 to numSteps
      invariant NO_ID <= lastRecv && mask == Pow2(step) && nextDataSize == Half(dataSize, step)
      invariant Built(b, goal.Abs(), lastRecv, numSteps, srcRank, dataSize, replaceComptime, step)
    {
      StepScatters(srcRank, numSteps, dataSize, step);
      BuiltNext(b, goal.Abs(), lastRecv, numSteps, srcRank, dataSize, replaceComptime, step);
      var dest := Xor(srcRank, mask);
      nextDataSize := nextDataSize / 2;
      var send := goal.Send(nextDataSize, dest);
      if lastRecv != -1 {
        goal.Requires(send, lastRecv);
      }
      lastRecv := goal.Recv(nextDataSize, dest);
      if replaceComptime != -1 {
        lastRecv := goal.Exec(replaceComptime);
      }
      mask := 2 * mask;
    }
    mask := mask / 2;
    for step := 0 to numSteps
      invariant mask == if step < numSteps then Pow2(numSteps - 1 - step) else 0
      invariant NO_ID <= lastRecv && nextDataSize == Half(dataSize, numSteps) * Pow2(step)
      invariant Built(b, goal.Abs(), lastRecv, numSteps, srcRank, dataSize, replaceComptime, numSteps + step)
    {
      StepGathers(srcRank, numSteps, dataSize, step);
      BuiltNext(b, goal.Abs(), lastRecv, numSteps, srcRank, dataSize, replaceComptime, numSteps + step);
      var dest := Xor(srcRank, mask);
      var send := goal.Send(nextDataSize, dest);
      if lastRecv != -1 {
        goal.Requires(send, lastRecv);
      }
      lastRecv := goal.Recv(nextDataSize, dest);
      if replaceComptime != -1 && step != numSteps - 1 {
        lastRecv := goal.Exec(replaceComptime);
      }
      nextDataSize := nextDataSize * 2;
      mask := mask / 2;
    }
    BuiltAll(b, goal.Abs(), lastRecv, commSize, srcRank, dataSize, replaceComptime);
  }

  /** The first t steps have been emitted. */
  predicate Built(b: Book, now: Book, last: int, steps: nat, r: nat, d: nat, gap: int, t: nat)
    requires NO_GAP <= gap
  {
    && t <= 2 * steps
    && var p := Program(steps, r, d, gap, t);
       now == Emit(b, p, NO_ID) && last == PrevAfter(p, |b.ops|, NO_ID, |p|)
  }

  /** What step t adds. */
  function Step(now: Book, last: int, steps: nat, r: nat, d: nat, gap: int, t: nat): Book
    requires NO_GAP <= gap && NO_ID <= last && t < 2 * steps
  {
    var b := AddRecv(EmitOne(now, To(Peer(steps, r, t), Size(steps, d, t)), last).0, Size(steps, d, t), Peer(steps, r, t));
    if gap == NO_GAP || t == 2 * steps - 1 then b else AddExec(b, gap)
  }

  lemma BuiltNext(b: Book, now: Book, last: int, steps: nat, r: nat, d: nat, gap: int, t: nat)
    requires NO_GAP <= gap && NO_ID <= last && t < 2 * steps
    requires Built(b, now, last, steps, r, d, gap, t)
    ensures var next := Step(now, last, steps, r, d, gap, t); Built(b, next, Last(next), steps, r, d, gap, t + 1)
  {
    hide Emit, PrevAfter, Peer, Size;
    EmitExchange(b, Program(steps, r, d, gap, t), Peer(steps, r, t), Size(steps, d, t), Gaps(steps, gap, t), NO_ID);
  }

  lemma StepScatters(r: nat, steps: nat, d: nat, t: nat)
    requires t < steps
    ensures Peer(steps, r, t) == Xor(r, Pow2(t)) && Size(steps, d, t) == Half(d, t) / 2
  {
    XorFlip(r, t);
  }

  lemma StepGathers(r: nat, steps: nat, d: nat, s: nat)
    requires s < steps
    ensures Peer(steps, r, steps + s) == Xor(r, Pow2(steps - 1 - s)) && Size(steps, d, steps + s) == Half(d, steps) * Pow2(s)
  {
    XorFlip(r, steps - 1 - s);
  }

  lemma BuiltAll(b: Book, now: Book, last: int, n: nat, r: nat, d: nat, gap: int)
    requires 0 < n && NO_GAP <= gap
    requires Built(b, now, last, FloorLog2(n), r, d, gap, 2 * FloorLog2(n))
    ensures now == Emit(b, Comms(n, r, d, gap), NO_ID)
  {
  }

  lemma BuiltNone(b: Book, steps: nat, r: nat, d: nat, gap: int)
    requires NO_GAP <= gap
    ensures Built(b, b, NO_ID, steps, r, d, gap, 0)
  {
  }

  // ---- who talks to whom ----

  /** Where step t starts in a rank's program. */
  function At(gap: int, t: nat): nat {
    if gap == NO_GAP then 2 * t else 3 * t
  }

  /** In every step the rank exchanges messages of one size with its peer, and it sends and
      receives at no other place. */
  lemma {:induction false} ProgramAt(steps: nat, r: nat, d: nat, gap: int, t: nat, u: nat, i: nat)
    requires NO_GAP <= gap && u < t <= 2 * steps
    ensures var p := Program(steps, r, d, gap, t);
      && At(gap, u) + 1 < |p| <= At(gap, t)
      && (t < 2 * steps ==> |p| == At(gap, t))
      && p[At(gap, u)] == To(Peer(steps, r, u), Size(steps, d, u))
      && p[At(gap, u) + 1] == From(Peer(steps, r, u), Size(steps, d, u))
      && (gap != NO_GAP && u + 1 < 2 * steps ==> At(gap, u) + 2 < |p| && p[At(gap, u) + 2] == Gap(gap))
      && (i < |p| && p[i].To? ==> exists v :: 0 <= v < t && i == At(gap, v))
      && (i < |p| && p[i].From? ==> exists v :: 0 <= v < t && i == At(gap, v) + 1)
    decreases t
  {
    hide Peer, Size;
    var before := Program(steps, r, d, gap, t - 1);
    if 0 < t - 1 {
      ProgramAt(steps, r, d, gap, t - 1, if u < t - 1 then u else 0, i);
    }
    assert |before| == At(gap, t - 1);
    var p := Program(steps, r, d, gap, t);
    assert forall k :: 0 <= k < |before| ==> p[k] == before[k];
    if |before| <= i < |p| {
      assert i == At(gap, t - 1) || i == At(gap, t - 1) + 1 || p[i].Gap?;
    }
  }

  /** For a power of two the peer exists, and it performs the same step with us: what we send
      it receives and the other way round. */
  lemma StepsMatch(steps: nat, r: nat, d: nat, gap: int, t: nat)
    requires NO_GAP <= gap && r < Pow2(steps) && t < 2 * steps
    ensures var p, mine := Peer(steps, r, t), Comms(Pow2(steps), r, d, gap);
      var theirs := Comms(Pow2(steps), p, d, gap);
      && p < Pow2(steps) && p != r
      && At(gap, t) + 1 < |mine| == |theirs|
      && (exists size :: mine[At(gap, t)] == To(p, size) && theirs[At(gap, t) + 1] == From(r, size)
                      && theirs[At(gap, t)] == To(r, size) && mine[At(gap, t) + 1] == From(p, size))
  {
    hide Program, Flip;
    StepsOf(steps);
    var p, size := Peer(steps, r, t), Size(steps, d, t);
    FlipBlock(r, Bit(steps, t));
    FlipBelow(r, Bit(steps, t), steps);
    assert Peer(steps, p, t) == r;
    ProgramAt(steps, r, d, gap, 2 * steps, t, 0);
    ProgramAt(steps, p, d, gap, 2 * steps, t, 0);
    SameLength(steps, r, p, d, gap, 2 * steps);
    assert Comms(Pow2(steps), r, d, gap)[At(gap, t)] == To(p, size);
  }

  lemma {:induction false} SameLength(steps: nat, r: nat, p: nat, d: nat, gap: int, t: nat)
    requires NO_GAP <= gap && t <= 2 * steps
    ensures |Program(steps, r, d, gap, t)| == |Program(steps, p, d, gap, t)|
  {
    if t > 0 {
      SameLength(steps, r, p, d, gap, t - 1);
    }
  }

  /** All peers are ranks of the communicator exactly when its size is a power of two. */
  lemma PeersExistIff(n: nat)
    requires n > 0
    ensures (forall r, t :: 0 <= r < n && 0 <= t < 2 * FloorLog2(n) ==> Peer(FloorLog2(n), r, t) < n)
       <==> n == Pow2(FloorLog2(n))
  {
    var steps := FloorLog2(n);
    if n == Pow2(steps) {
      forall r, t | 0 <= r < n && 0 <= t < 2 * steps
        ensures Peer(steps, r, t) < n
      {
        FlipBelow(r, Bit(steps, t), steps);
      }
    } else {
      LowBelow(n - 1, steps);
      SmallIsLow(n - 1, steps + 1);
      ShrNext(n - 1, steps);
      var k := ZeroBit(n - 1, steps);
      assert Peer(steps, n - 1, k) >= n;
    }
  }

  lemma {:induction false} ZeroBit(a: nat, m: nat) returns (k: nat)
    requires Low(a, m) + 1 < Pow2(m)
    ensures k < m && Flip(a, k) > a
    decreases m
  {
    if a % 2 == 0 {
      k := 0;
    } else {
      k := ZeroBit(a / 2, m - 1);
      k := k + 1;
    }
  }

  // ---- how much is sent ----

  /** Bytes sent by a list of communications. */
  function Sent(comms: seq<Comm>): nat {
    if comms == [] then 0
    else Sent(comms[..|comms| - 1]) + match comms[|comms| - 1] case To(_, size) => size case From(_, _) => 0 case Gap(_) => 0
  }

  lemma {:induction false} SentAppends(a: seq<Comm>, b: seq<Comm>)
    ensures Sent(a + b) == Sent(a) + Sent(b)
    decreases |b|
  {
    if b == [] {
      assert a + b == a;
    } else {
      assert (a + b)[..|a + b| - 1] == a + b[..|b| - 1];
      SentAppends(a, b[..|b| - 1]);
    }
  }

  lemma SentInStep(steps: nat, r: nat, d: nat, gap: int, t: nat)
    requires NO_GAP <= gap && t < 2 * steps
    ensures Sent(Program(steps, r, d, gap, t + 1)) == Sent(Program(steps, r, d, gap, t)) + Size(steps, d, t)
  {
    hide Size, Peer;
    var x := [To(Peer(steps, r, t), Size(steps, d, t)), From(Peer(steps, r, t), Size(steps, d, t))];
    var before, gaps := Program(steps, r, d, gap, t), Gaps(steps, gap, t);
    SentAppends(before + x, gaps);
    SentAppends(before, x);
    assert x[..1] == [x[0]] && [x[0]][..0] == [];
    assert Sent(x) == Size(steps, d, t);
    if gaps != [] {
      assert gaps[..0] == [];
    }
  }

  /** u doubled k times. */
  function Doubled(u: nat, k: nat): nat {
    if k == 0 then u else 2 * Doubled(u, k - 1)
  }

  lemma {:induction false} DoubledIs(u: nat, k: nat)
    ensures Doubled(u, k) == u * Pow2(k)
  {
    if k > 0 {
      DoubledIs(u, k - 1);
      assert u * Pow2(k) == 2 * (u * Pow2(k - 1));
    }
  }

  /** Halving what was doubled; e is the remainder. */
  lemma {:induction false} HalfDoubled(u: nat, e: nat, steps: nat, k: nat)
    requires e < Pow2(steps) && k <= steps
    ensures Half(Doubled(u, steps) + e, k) == Doubled(u, steps - k) + Half(e, k) && Half(e, k) < Pow2(steps - k)
  {
    if k > 0 {
      HalfDoubled(u, e, steps, k - 1);
    }
  }

  lemma {:induction false} HalfSmall(d: nat, k: nat)
    ensures d <= 1 && 0 < k ==> Half(d, k) == 0
    ensures d == 0 ==> Half(d, k) == 0
  {
    if k > 0 {
      HalfSmall(d, k - 1);
    }
  }

  /** The message sizes when each of the 2^steps ranks gets u bytes and e bytes are left over. */
  lemma SizeIs(steps: nat, u: nat, e: nat, t: nat)
    requires t < 2 * steps && e < Pow2(steps)
    ensures Size(steps, Doubled(u, steps) + e, t) ==
      if t < steps then Doubled(u, steps - 1 - t) + Half(e, t + 1) else Doubled(u, t - steps)
  {
    HalfDoubled(u, e, steps, if t < steps then t + 1 else steps);
    if t >= steps {
      DoubledIs(u, t - steps);
    }
  }

  lemma {:induction false} SentAfter(steps: nat, r: nat, u: nat, gap: int, t: nat)
    requires NO_GAP <= gap && t <= 2 * steps
    ensures Sent(Program(steps, r, Doubled(u, steps), gap, t)) ==
      if t <= steps then Doubled(u, steps) - Doubled(u, steps - t) else Doubled(u, steps) - u + Doubled(u, t - steps) - u
  {
    hide Program, Sent, Size;
    if t > 0 {
      SentAfter(steps, r, u, gap, t - 1);
      SentInStep(steps, r, Doubled(u, steps), gap, t - 1);
      SizeIs(steps, u, 0, t - 1);
      HalfSmall(0, t);
    } else {
      SentNothing(steps, r, Doubled(u, steps), gap);
    }
  }

  lemma SentNothing(steps: nat, r: nat, d: nat, gap: int)
    requires NO_GAP <= gap
    ensures Sent(Program(steps, r, d, gap, 0)) == 0
  {
  }

  lemma StepsOf(steps: nat)
    ensures FloorLog2(Pow2(steps)) == steps
  {
    Pow2Monotone(steps, steps + 1);
    LogUnique(Pow2(steps), steps);
  }

  /** Every rank sends 2 (d - d / n) bytes. */
  lemma TotalSent(steps: nat, r: nat, d: nat, gap: int)
    requires NO_GAP <= gap && d % Pow2(steps) == 0
    ensures Sent(Comms(Pow2(steps), r, d, gap)) == 2 * (d - d / Pow2(steps))
  {
    hide Program, Sent, FloorLog2, Pow2;
    var u := d / Pow2(steps);
    assert d == Doubled(u, steps) by { DoubledIs(u, steps); }
    StepsOf(steps);
    SentAfter(steps, r, u, gap, 2 * steps);
    assert Doubled(u, 2 * steps - steps) == d;
    assert Doubled(u, steps - steps) == u;
  }

  lemma Split(steps: nat, d: nat) returns (u: nat, e: nat)
    ensures d == Doubled(u, steps) + e && e == d % Pow2(steps) < Pow2(steps)
  {
    hide Pow2, Doubled;
    var n := Pow2(steps);
    Euclid(d, n);
    u, e := d / n, d % n;
    DoubledIs(u, steps);
  }

  lemma Euclid(d: nat, n: nat)
    requires n > 0
    ensures d == d / n * n + d % n
  {
  }

  predicate SizesMirrored(steps: nat, d: nat) {
    forall t :: 0 <= t < steps ==> Size(steps, d, 2 * steps - 1 - t) == Size(steps, d, t)
  }

  /** The second phase mirrors the first in partner always, and in size exactly when the data
      size leaves remainder at most one. */
  lemma MirrorIff(steps: nat, r: nat, d: nat)
    requires 0 < steps
    ensures forall t :: 0 <= t < steps ==> Peer(steps, r, 2 * steps - 1 - t) == Peer(steps, r, t)
    ensures SizesMirrored(steps, d) <==> d % Pow2(steps) <= 1
  {
    var u, e := Split(steps, d);
    hide Size, Flip, Doubled, Pow2;
    if e <= 1 {
      forall t | 0 <= t < steps
        ensures Size(steps, d, 2 * steps - 1 - t) == Size(steps, d, t)
      {
        SizeIs(steps, u, e, t);
        SizeIs(steps, u, e, 2 * steps - 1 - t);
        HalfSmall(e, t + 1);
      }
    } else {
      SizeIs(steps, u, e, 0);
      SizeIs(steps, u, e, 2 * steps - 1);
      assert Half(e, 1) == e / 2;
      assert Size(steps, d, 2 * steps - 1 - 0) != Size(steps, d, 0);
    }
  }

  // ---- the result ----
  // The data is cut into one block per rank.  A rank gives away, in the first phase, the half
  // of its blocks that its peer keeps, and adds up what it gets; in the second phase it passes
  // on all it has.  A block is described by the multiset of ranks whose contribution is in it.

  /** Whether the rank holds block b after t steps. */
  predicate Owns(steps: nat, r: nat, t: nat, b: nat)
    requires t <= 2 * steps
  {
    Low(b, if t <= steps then t else 2 * steps - t) == Low(r, if t <= steps then t else 2 * steps - t)
  }

  /** Whether the rank sends block b in step t. */
  predicate Carries(steps: nat, r: nat, t: nat, b: nat)
    requires t < 2 * steps
  {
    Owns(steps, r, t, b) && (t < steps ==> Low(b, t + 1) == Low(Peer(steps, r, t), t + 1))
  }

  /** What rank r holds of block b after t steps: the blocks it sends in the first phase are
      gone, the blocks it receives are added to its own. */
  function Held(steps: nat, r: nat, t: nat, b: nat): multiset<nat>
    requires t <= 2 * steps
    decreases t
  {
    if t == 0 then multiset{r}
    else
      var peer := Peer(steps, r, t - 1);
      var got := if Carries(steps, peer, t - 1, b) then Held(steps, peer, t - 1, b) else multiset{};
      var kept := if t - 1 < steps && Carries(steps, r, t - 1, b) then multiset{} else Held(steps, r, t - 1, b);
      kept + got
  }

  lemma LowSplit(b: nat, r: nat, k: nat)
    ensures var f := Flip(r, k);
      && Low(f, k) == Low(r, k) && Low(f, k + 1) != Low(r, k + 1)
      && (Low(b, k) == Low(r, k) <==> Low(b, k + 1) == Low(r, k + 1) || Low(b, k + 1) == Low(f, k + 1))
  {
    hide Low, Shr, Flip;
    var f := Flip(r, k);
    FlipBlock(r, k);
    ShrNext(b, k);
    ShrNext(r, k);
    ShrNext(f, k);
    LowBelow(b, k);
    LowBelow(r, k);
  }

  /** In the first phase a block is kept by one of the two. */
  lemma OwnsScatter(steps: nat, r: nat, t: nat, b: nat)
    requires t < steps
    ensures var p := Peer(steps, r, t);
      && (Owns(steps, p, t, b) <==> Owns(steps, r, t, b))
      && (Carries(steps, p, t, b) <==> Owns(steps, r, t + 1, b))
      && (Carries(steps, r, t, b) <==> Owns(steps, p, t + 1, b))
      && (Owns(steps, r, t, b) <==> Owns(steps, r, t + 1, b) || Owns(steps, p, t + 1, b))
      && !(Owns(steps, r, t + 1, b) && Owns(steps, p, t + 1, b))
  {
    hide Low, Shr, Flip;
    LowSplit(b, r, t);
    FlipBlock(r, t);
  }

  /** In the second phase a block that either has goes to both. */
  lemma OwnsGather(steps: nat, r: nat, t: nat, b: nat)
    requires steps <= t < 2 * steps
    ensures var p := Peer(steps, r, t);
      && (Owns(steps, r, t + 1, b) <==> Owns(steps, r, t, b) || Owns(steps, p, t, b))
      && !(Owns(steps, r, t, b) && Owns(steps, p, t, b))
      && (Carries(steps, p, t, b) <==> Owns(steps, p, t, b))
  {
    hide Low, Shr, Flip;
    LowSplit(b, r, Bit(steps, t));
    if t == steps {
    }
  }

  /** Whether rank x has contributed to what rank r holds after t steps. */
  predicate Summed(steps: nat, r: nat, t: nat, x: nat)
    requires t <= 2 * steps
  {
    x < Pow2(steps) && (t < steps ==> Shr(x, t) == Shr(r, t))
  }

  lemma SummedScatter(steps: nat, r: nat, t: nat, x: nat)
    requires t < steps && r < Pow2(steps)
    ensures var p := Peer(steps, r, t);
      && (Summed(steps, r, t + 1, x) <==> Summed(steps, r, t, x) || Summed(steps, p, t, x))
      && !(Summed(steps, r, t, x) && Summed(steps, p, t, x))
  {
    hide Shr, Flip;
    FlipBlock(r, t);
    HalfOfBlock(x, r, t);
    SmallIsLow(r, steps);
    SmallIsLow(x, steps);
  }

  lemma HeldFirst(steps: nat, r: nat, b: nat, x: nat)
    requires r < Pow2(steps)
    ensures Owns(steps, r, 0, b)
    ensures Held(steps, r, 0, b)[x] == if Summed(steps, r, 0, x) then 1 else 0
  {
  }

  lemma HeldNext(steps: nat, r: nat, t: nat, b: nat)
    requires t < 2 * steps
    ensures var p := Peer(steps, r, t);
      && (t < steps && Carries(steps, r, t, b) && !Carries(steps, p, t, b) ==> Held(steps, r, t + 1, b) == multiset{})
      && (t < steps && Carries(steps, r, t, b) && Carries(steps, p, t, b) ==>
            Held(steps, r, t + 1, b) == Held(steps, p, t, b))
      && (!(t < steps && Carries(steps, r, t, b)) ==>
            Held(steps, r, t + 1, b) == Held(steps, r, t, b) + if Carries(steps, p, t, b) then Held(steps, p, t, b) else multiset{})
  {
    hide Carries, Peer;
  }

  /** Block b after t steps: halved to one owner each, then doubled back to all, with the
      contributions of the group summed up so far. */
  lemma {:induction false} HeldIs(steps: nat, r: nat, t: nat, b: nat, x: nat)
    requires t <= 2 * steps && r < Pow2(steps)
    ensures Held(steps, r, t, b)[x] == if Owns(steps, r, t, b) && Summed(steps, r, t, x) then 1 else 0
    decreases t
  {
    hide Pow2, Owns, Carries, Summed, Held, Flip;
    if t == 0 {
      HeldFirst(steps, r, b, x);
    } else {
      var p := Peer(steps, r, t - 1);
      FlipBelow(r, Bit(steps, t - 1), steps);
      HeldIs(steps, r, t - 1, b, x);
      HeldIs(steps, p, t - 1, b, x);
      HeldNext(steps, r, t - 1, b);
      if t <= steps {
        OwnsScatter(steps, r, t - 1, b);
        SummedScatter(steps, r, t - 1, x);
      } else {
        OwnsGather(steps, r, t - 1, b);
        SummedAll(steps, r, p, t - 1, x);
      }
    }
  }

  lemma SummedAll(steps: nat, r: nat, p: nat, t: nat, x: nat)
    requires steps <= t < 2 * steps
    ensures Summed(steps, r, t + 1, x) == Summed(steps, r, t, x) == Summed(steps, p, t, x)
  {
  }

  /** At the end every rank holds every block with every contribution exactly once. */
  lemma AllreduceCorrect(steps: nat, r: nat, b: nat, x: nat)
    requires r < Pow2(steps)
    ensures Held(steps, r, 2 * steps, b)[x] == if x < Pow2(steps) then 1 else 0
  {
    HeldIs(steps, r, 2 * steps, b, x);
  }

  /** After the first phase each block has one owner. */
  lemma OneOwnerEach(steps: nat, r: nat, b: nat)
    requires r < Pow2(steps) && b < Pow2(steps)
    ensures Owns(steps, r, steps, b) <==> b == r
  {
    SmallIsLow(r, steps);
    SmallIsLow(b, steps);
  }

  /** The blocks rank r holds after t steps, and those it sends in step t. */
  function Owned(steps: nat, r: nat, t: nat): set<nat>
    requires t <= 2 * steps
  {
    set b: nat | b < Pow2(steps) && Owns(steps, r, t, b)
  }

  function Carried(steps: nat, r: nat, t: nat): set<nat>
    requires t < 2 * steps
  {
    set b: nat | b < Pow2(steps) && Carries(steps, r, t, b)
  }

  /** They halve and double. */
  lemma {:induction false} OwnedCount(steps: nat, r: nat, t: nat)
    requires t <= 2 * steps && r < Pow2(steps)
    ensures |Owned(steps, r, t)| == Pow2(if t <= steps then steps - t else t - steps)
    decreases if t <= steps then steps - t else t - steps
  {
    hide Owns, Low, Flip;
    if t == steps {
      forall b: nat | b < Pow2(steps)
        ensures b in Owned(steps, r, t) <==> b == r
      {
        OneOwnerEach(steps, r, b);
      }
      assert Owned(steps, r, t) == {r};
    } else {
      var s := if t < steps then t else t - 1;
      var next := if t < steps then t + 1 else t - 1;
      var p := Peer(steps, r, s);
      FlipBelow(r, Bit(steps, s), steps);
      OwnedCount(steps, r, next);
      OwnedCount(steps, p, next);
      forall b: nat | b < Pow2(steps)
        ensures b in Owned(steps, r, t) <==> b in Owned(steps, r, next) || b in Owned(steps, p, next)
        ensures !(b in Owned(steps, r, next) && b in Owned(steps, p, next))
      {
        if t < steps {
          OwnsScatter(steps, r, s, b);
        } else {
          OwnsGather(steps, r, s, b);
        }
      }
      assert Owned(steps, r, t) == Owned(steps, r, next) + Owned(steps, p, next);
      assert Owned(steps, r, next) * Owned(steps, p, next) == {};
    }
  }

  /** With u bytes in a block, each message has the size of the blocks it carries. */
  lemma SizeIsBlocks(steps: nat, r: nat, u: nat, t: nat)
    requires t < 2 * steps && r < Pow2(steps)
    ensures Size(steps, u * Pow2(steps), t) == |Carried(steps, r, t)| * u
  {
    hide Owns, Carries, Low, Flip, Size;
    DoubledIs(u, steps);
    SizeIs(steps, u, 0, t);
    HalfSmall(0, t + 1);
    var p := Peer(steps, r, t);
    FlipBelow(r, Bit(steps, t), steps);
    if t < steps {
      OwnedCount(steps, p, t + 1);
      forall b: nat | b < Pow2(steps)
        ensures b in Carried(steps, r, t) <==> b in Owned(steps, p, t + 1)
      {
        OwnsScatter(steps, r, t, b);
      }
      assert Carried(steps, r, t) == Owned(steps, p, t + 1);
      DoubledIs(u, steps - 1 - t);
    } else {
      OwnedCount(steps, r, t);
      CarriesAll(steps, r, t);
      DoubledIs(u, t - steps);
    }
  }

  lemma CarriesAll(steps: nat, r: nat, t: nat)
    requires steps <= t < 2 * steps
    ensures Carried(steps, r, t) == Owned(steps, r, t)
  {
  }
}
