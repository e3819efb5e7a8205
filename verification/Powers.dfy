/** Powers of two, logarithms and the bit operations of the collective generators. */
module Powers {

  function Pow2(k: nat): (p: nat)
    ensures p >= 1
  {
    if k == 0 then 1 else 2 * Pow2(k - 1)
  }

  /** (int) log2(n), for n > 0. */
  function FloorLog2(n: nat): (k: nat)
    requires n > 0
    ensures Pow2(k) <= n < Pow2(k + 1)
  {
    if n == 1 then 0 else 1 + FloorLog2(n / 2)
  }

  /** ceil(log2(n)), for n > 0. */
  function CeilLog2(n: nat): (k: nat)
    requires n > 0
    ensures Pow2(k) >= n && (k > 0 ==> Pow2(k - 1) < n)
  {
    if n == 1 then 0 else 1 + FloorLog2(n - 1)
  }

  /** Bitwise exclusive or. */
  function Xor(a: nat, b: nat): nat {
    if a == 0 && b == 0 then 0 else 2 * Xor(a / 2, b / 2) + (if a % 2 != b % 2 then 1 else 0)
  }

  /** a >> k */
  function Shr(a: nat, k: nat): nat {
    if k == 0 then a else Shr(a / 2, k - 1)
  }

  /** The k lowest bits of a. */
  function Low(a: nat, k: nat): nat {
    if k == 0 then 0 else 2 * Low(a / 2, k - 1) + a % 2
  }

  /** a with bit k flipped. */
  function Flip(a: nat, k: nat): nat {
    if k == 0 then (if a % 2 == 0 then a + 1 else a - 1) else 2 * Flip(a / 2, k - 1) + a % 2
  }

  lemma {:induction false} Pow2Monotone(j: nat, k: nat)
    requires j <= k
    ensures Pow2(j) <= Pow2(k)
    ensures j < k ==> Pow2(j) < Pow2(k)
    decreases k
  {
    if j < k {
      Pow2Monotone(j, k - 1);
    }
  }

  /** The logarithm is unique. */
  lemma LogUnique(n: nat, k: nat)
    requires Pow2(k) <= n < Pow2(k + 1)
    ensures n > 0 && FloorLog2(n) == k
  {
    var j := FloorLog2(n);
    if j < k {
      Pow2Monotone(j + 1, k);
    } else if k < j {
      Pow2Monotone(k + 1, j);
    }
  }

  lemma {:induction false} ShrNext(a: nat, k: nat)
    ensures Shr(a, k + 1) == Shr(a, k) / 2
    ensures Low(a, k + 1) == Low(a, k) + if Shr(a, k) % 2 == 0 then 0 else Pow2(k)
  {
    if k > 0 {
      ShrNext(a / 2, k - 1);
    }
  }

  lemma {:induction false} LowBelow(a: nat, k: nat)
    ensures Low(a, k) < Pow2(k) && Low(a, k) <= a
  {
    if k > 0 {
      LowBelow(a / 2, k - 1);
    }
  }

  /** Numbers below 2^k are all low bits. */
  lemma {:induction false} SmallIsLow(a: nat, k: nat)
    ensures a < Pow2(k) <==> Shr(a, k) == 0
    ensures a < Pow2(k) ==> Low(a, k) == a
  {
    if k > 0 {
      SmallIsLow(a / 2, k - 1);
    }
  }

  /** Flipping bit k exchanges the two halves of a block of size 2^(k+1). */
  lemma {:induction false} FlipBlock(a: nat, k: nat)
    ensures var f := Flip(a, k);
      && Low(f, k) == Low(a, k)
      && Shr(f, k + 1) == Shr(a, k + 1)
      && Shr(f, k) != Shr(a, k)
      && Flip(f, k) == a
      && f != a
  {
    if k > 0 {
      FlipBlock(a / 2, k - 1);
    }
  }

  /** The two halves are all there is to the block. */
  lemma HalfOfBlock(x: nat, a: nat, k: nat)
    ensures Shr(x, k + 1) == Shr(a, k + 1) <==> Shr(x, k) == Shr(a, k) || Shr(x, k) == Shr(Flip(a, k), k)
  {
    ShrNext(x, k);
    ShrNext(a, k);
    ShrNext(Flip(a, k), k);
    FlipBlock(a, k);
  }

  /** Exclusive or with a single bit flips that bit. */
  lemma {:induction false} XorFlip(a: nat, k: nat)
    ensures Xor(a, Pow2(k)) == Flip(a, k)
    decreases k
  {
    if k == 0 {
      XorZero(a / 2);
      assert Xor(a, 1) == 2 * Xor(a / 2, 0) + (if a % 2 != 1 then 1 else 0);
    } else {
      XorFlip(a / 2, k - 1);
      assert Pow2(k) / 2 == Pow2(k - 1);
    }
  }

  lemma {:induction false} XorZero(a: nat)
    ensures Xor(a, 0) == a
  {
    if a > 0 {
      XorZero(a / 2);
    }
  }

  lemma {:induction false} SameAbove(a: nat, b: nat, j: nat, n: nat)
    requires j <= n && Shr(a, j) == Shr(b, j)
    ensures Shr(a, n) == Shr(b, n)
    decreases n
  {
    if j < n {
      SameAbove(a, b, j, n - 1);
      ShrNext(a, n - 1);
      ShrNext(b, n - 1);
    }
  }

  lemma {:induction false} SameBelow(a: nat, b: nat, j: nat, n: nat)
    requires j <= n && Low(a, n) == Low(b, n)
    ensures Low(a, j) == Low(b, j)
    decreases n
  {
    if 0 < j {
      assert a % 2 == b % 2;
      SameBelow(a / 2, b / 2, j - 1, n - 1);
    }
  }

  lemma FlipBelow(a: nat, k: nat, n: nat)
    requires k < n && a < Pow2(n)
    ensures Flip(a, k) < Pow2(n)
  {
    FlipBlock(a, k);
    SmallIsLow(a, n);
    SameAbove(a, Flip(a, k), k + 1, n);
    SmallIsLow(Flip(a, k), n);
  }

  /** Different bits flipped, different results. */
  lemma {:induction false} FlipsDiffer(a: nat, j: nat, k: nat)
    requires Flip(a, j) == Flip(a, k)
    ensures j == k
    decreases j
  {
    if j == 0 && k > 0 {
    } else if k == 0 && j > 0 {
    } else if j > 0 {
      FlipsDiffer(a / 2, j - 1, k - 1);
    }
  }
}
