/** The dissemination pattern and the linear all-to-all (create_dissemination_rank and
    create_linear_alltoall_rank in schedgen.cpp). */
module Dissemination {
  import opened Powers
  import opened Goal

  /** The exchanges from distance `dist` on. */
  function Comms(rank: nat, n: nat, size: nat, dist: nat): seq<Comm>
    requires 0 < dist && rank < n
    decreases if dist < n then n - dist else 0
  {
    if dist >= n then []
    else
      [To((rank + dist + n) % n, size), From((rank - dist + n) % n, size)] + Comms(rank, n, size, 2 * dist)
  }

  method CreateDisseminationRank(goal: Goal, commRank: nat, commSize: nat, dataSize: nat)
    requires commRank < commSize
    modifies goal
    ensures goal.Abs() == Emit(old(goal.Abs()), Comms(commRank, commSize, dataSize, 1), NO_ID)
  {
    hide Emit;
    ghost var b, all := goal.Abs(), Comms(commRank, commSize, dataSize, 1);
    var dist, recv := 1, NO_ID;
    while dist < commSize
      invariant 0 < dist && NO_ID <= recv
      invariant Emit(goal.Abs(), Comms(commRank, commSize, dataSize, dist), recv) == Emit(b, all, NO_ID)
      decreases if dist < commSize then commSize - dist else 0
    {
      ghost var now, last := goal.Abs(), recv;
      var dest, src := (commRank + dist + commSize) % commSize, (commRank - dist + commSize) % commSize;
      EmitPair(now, dest, src, dataSize, Comms(commRank, commSize, dataSize, 2 * dist), last);
      var send := goal.Send(dataSize, dest);
      if recv != -1 {
        goal.Requires(send, recv);
      }
      recv := goal.Recv(dataSize, src);
      dist := 2 * dist;
    }
    EmitNone(goal.Abs(), recv);
  }

  lemma EmitPair(b: Book, dest: nat, src: nat, size: nat, rest: seq<Comm>, prev: int)
    requires NO_ID <= prev
    ensures var b1 := AddRecv(EmitOne(b, To(dest, size), prev).0, size, src);
      Emit(b, [To(dest, size), From(src, size)] + rest, prev) == Emit(b1, rest, Last(b1))
  {
    var comms := [To(dest, size), From(src, size)] + rest;
    assert comms[1..] == [From(src, size)] + rest;
    assert comms[1..][1..] == rest;
  }

  /** A send and a receive in each of the first k steps, without dependencies. */
  function Exchange(b: Book, rank: nat, n: nat, size: nat, k: nat): Book
    requires rank < n
  {
    if k == 0 then b
    else AddRecv(AddSend(Exchange(b, rank, n, size, k - 1), size, (rank + k) % n), size, (rank - k) % n)
  }

  method CreateLinearAlltoallRank(goal: Goal, srcRank: nat, commSize: nat, dataSize: nat)
    requires srcRank < commSize
    modifies goal
    ensures goal.Abs() == Exchange(old(goal.Abs()), srcRank, commSize, dataSize, commSize - 1)
  {
    for step := 1 to commSize
      invariant goal.Abs() == Exchange(old(goal.Abs()), srcRank, commSize, dataSize, step - 1)
    {
      var send := goal.Send(dataSize, (srcRank + step) % commSize);
      var recv := goal.Recv(dataSize, (srcRank - step) % commSize);
    }
  }

  // ---- who talks to whom ----

  /** The rank s places further on, and the one s places back. */
  function Ahead(rank: nat, n: nat, s: nat): nat
    requires n > 0
  {
    (rank + s) % n
  }

  function Behind(rank: nat, n: nat, s: nat): nat
    requires n > 0
  {
    (rank - s) % n
  }

  /** The same without division. */
  lemma Around(rank: nat, n: nat, s: nat)
    requires rank < n && s < n
    ensures Ahead(rank, n, s) == (rank + s + n) % n == if rank + s < n then rank + s else rank + s - n
    ensures Behind(rank, n, s) == (rank - s + n) % n == if s <= rank then rank - s else rank - s + n
  {
    if rank + s < n {
      Remainder(rank + s, n, 0, rank + s);
      Remainder(rank + s + n, n, 1, rank + s);
    } else {
      Remainder(rank + s, n, 1, rank + s - n);
      Remainder(rank + s + n, n, 2, rank + s - n);
    }
    if s <= rank {
      Remainder(rank - s, n, 0, rank - s);
      Remainder(rank - s + n, n, 1, rank - s);
    } else {
      Remainder(rank - s, n, -1, rank - s + n);
      Remainder(rank - s + n, n, 0, rank - s + n);
    }
  }

  lemma Remainder(x: int, n: nat, q: int, r: nat)
    requires r < n && x == q * n + r
    ensures x % n == r
  {
    var d, m := x / n, x % n;
    assert x == d * n + m && 0 <= m < n;
    assert (q - d) * n == m - r;
    NoMultiple(q - d, n);
  }

  lemma NoMultiple(k: int, n: nat)
    ensures k >= 1 ==> k * n >= n
    ensures k <= -1 ==> k * n <= 0 - n
  {
  }

  /** Round i of the pattern that starts at distance dist. */
  lemma {:induction false} RoundAt(rank: nat, n: nat, size: nat, dist: nat, i: nat)
    requires 0 < dist && rank < n && dist * Pow2(i) < n
    ensures var c, d := Comms(rank, n, size, dist), dist * Pow2(i);
      |c| > 2 * i + 1 && c[2 * i] == To((rank + d + n) % n, size) && c[2 * i + 1] == From((rank - d + n) % n, size)
    decreases i
  {
    if i > 0 {
      assert dist * Pow2(i) == 2 * dist * Pow2(i - 1);
      assert dist <= dist * Pow2(i);
      RoundAt(rank, n, size, 2 * dist, i - 1);
    } else {
      assert dist * Pow2(0) == dist;
    }
  }

  /** The pattern has as many rounds as distances below the size fit. */
  lemma {:induction false} RoundsCount(rank: nat, n: nat, size: nat, dist: nat, k: nat)
    requires 0 < dist && rank < n && dist * Pow2(k) >= n && (k > 0 ==> dist * Pow2(k - 1) < n)
    ensures |Comms(rank, n, size, dist)| == 2 * k
    decreases k
  {
    if k > 0 {
      assert dist * Pow2(k) == 2 * dist * Pow2(k - 1);
      assert k > 1 ==> dist * Pow2(k - 1) == 2 * dist * Pow2(k - 2);
      assert dist <= dist * Pow2(k - 1);
      RoundsCount(rank, n, size, 2 * dist, k - 1);
    } else {
      assert dist * Pow2(0) == dist;
    }
  }

  /** The send of a round meets the receive of the same round, in both directions, for every
      communicator size. */
  lemma RoundsMeet(rank: nat, n: nat, size: nat, i: nat)
    requires rank < n && Pow2(i) < n
    ensures var to, from := Ahead(rank, n, Pow2(i)), Behind(rank, n, Pow2(i));
      && to < n && to != rank && from < n && from != rank
      && RoundIs(rank, n, size, i, to, from)
      && RoundIs(to, n, size, i, Ahead(to, n, Pow2(i)), rank)
      && RoundIs(from, n, size, i, rank, Behind(from, n, Pow2(i)))
  {
    hide Comms, Pow2, Ahead, Behind;
    var d := Pow2(i);
    var to, from := Ahead(rank, n, d), Behind(rank, n, d);
    Around(rank, n, d);
    Around(to, n, d);
    Around(from, n, d);
    RoundHas(rank, n, size, i);
    RoundHas(to, n, size, i);
    RoundHas(from, n, size, i);
  }

  /** Round i of a rank consists of a send to one rank and a receive from another. */
  predicate RoundIs(rank: nat, n: nat, size: nat, i: nat, to: nat, from: nat)
    requires rank < n
  {
    var c := Comms(rank, n, size, 1);
    2 * i + 1 < |c| && c[2 * i] == To(to, size) && c[2 * i + 1] == From(from, size)
  }

  lemma RoundHas(rank: nat, n: nat, size: nat, i: nat)
    requires rank < n && Pow2(i) < n
    ensures RoundIs(rank, n, size, i, Ahead(rank, n, Pow2(i)), Behind(rank, n, Pow2(i)))
  {
    hide Comms, Pow2;
    RoundAt(rank, n, size, 1, i);
    Around(rank, n, Pow2(i));
  }

  /** No two rounds have the same destination or the same source. */
  lemma RoundsDiffer(rank: nat, n: nat, i: nat, j: nat)
    requires rank < n && i < j && Pow2(j) < n
    ensures Ahead(rank, n, Pow2(i)) != Ahead(rank, n, Pow2(j)) && Behind(rank, n, Pow2(i)) != Behind(rank, n, Pow2(j))
  {
    hide Ahead, Behind;
    Pow2Monotone(i + 1, j);
    Around(rank, n, Pow2(i));
    Around(rank, n, Pow2(j));
  }

  /** The operations of step s of an all-to-all. */
  lemma {:induction false} StepAt(b: Book, rank: nat, n: nat, size: nat, k: nat, s: nat)
    requires rank < n && 1 <= s <= k
    ensures var r, at := Exchange(b, rank, n, size, k), |b.ops| + 2 * (s - 1);
      && |r.ops| == |b.ops| + 2 * k && r.reqs == b.reqs && b.ops <= r.ops && r.tag == b.tag
      && r.ops[at] == GoalOp.Send(size, Ahead(rank, n, s), b.tag) && r.ops[at + 1] == GoalOp.Recv(size, Behind(rank, n, s), b.tag)
    decreases k
  {
    if s < k {
      StepAt(b, rank, n, size, k - 1, s);
    } else if k > 1 {
      StepAt(b, rank, n, size, k - 1, 1);
    }
  }

  /** In an all-to-all the send of a step meets the receive of the same step, and every other
      rank is sent to in exactly one step and received from in exactly one. */
  lemma AlltoallMeets(rank: nat, n: nat, peer: nat)
    requires rank < n && peer < n && peer != rank
    ensures forall s :: 1 <= s < n ==> Ahead(rank, n, s) != rank && Behind(Ahead(rank, n, s), n, s) == rank
    ensures var s := Behind(peer, n, rank);
      1 <= s < n && forall u :: 1 <= u < n ==> (Ahead(rank, n, u) == peer <==> u == s)
    ensures var s := Behind(rank, n, peer);
      1 <= s < n && forall u :: 1 <= u < n ==> (Behind(rank, n, u) == peer <==> u == s)
  {
    hide Ahead, Behind;
    Around(peer, n, rank);
    Around(rank, n, peer);
    forall s: nat | 1 <= s < n
      ensures Ahead(rank, n, s) != rank && Behind(Ahead(rank, n, s), n, s) == rank
      ensures Ahead(rank, n, s) == peer <==> s == Behind(peer, n, rank)
      ensures Behind(rank, n, s) == peer <==> s == Behind(rank, n, peer)
    {
      Around(rank, n, s);
      Around(Ahead(rank, n, s), n, s);
    }
  }
}
