/** Counting facts about finite ranges and sequences without repetition. */
module Finite {
  ghost function Range(n: nat): (r: set<nat>)
    ensures |r| == n && forall k: nat {:trigger k in r} :: k in r <==> k < n
  {
    if n == 0 then {} else Range(n - 1) + {n - 1}
  }

  ghost predicate NoRepeat<T>(s: seq<T>)
  {
    forall i, j :: 0 <= i < j < |s| ==> s[i] != s[j]
  }

  ghost function Elements<T(!new)>(s: seq<T>): (r: set<T>)
    ensures forall x :: x in r <==> x in s
  {
    if s == [] then {} else Elements(s[..|s| - 1]) + {s[|s| - 1]}
  }

  lemma {:induction false} NoRepeatSize<T(!new)>(s: seq<T>)
    requires NoRepeat(s)
    ensures |Elements(s)| == |s|
  {
    if s != [] {
      NoRepeatSize(s[..|s| - 1]);
    }
  }

  /** A sequence of distinct numbers below n is no longer than n, and is that long exactly
      when no number is missing. */
  lemma {:induction false} NoRepeatBound(s: seq<nat>, n: nat)
    requires NoRepeat(s) && forall i :: 0 <= i < |s| ==> s[i] < n
    ensures |s| <= n
    ensures |s| == n <==> forall k: nat :: k < n ==> k in s
  {
    NoRepeatSize(s);
    var e, r := Elements(s), Range(n);
    assert e <= r;
    SubsetSize(e, r);
  }

  lemma {:induction false} SubsetSize<T>(a: set<T>, b: set<T>)
    requires a <= b
    ensures |a| <= |b|
    ensures |a| == |b| <==> a == b
  {
    var rest := b - a;
    assert b == a + rest && a * rest == {};
    assert |b| == |a| + |rest|;
  }
}
