/** Little-endian numbers in a byte buffer. */
module Bytes {

  type Byte = b: nat | b < 256

  /** The number of different values of k bytes. */
  function Limit(k: nat): (n: nat)
    ensures n > 0
  {
    if k == 0 then 1 else 256 * Limit(k - 1)
  }

  const LIMIT32: nat := 0x1_0000_0000
  const LIMIT64: nat := 0x1_0000_0000_0000_0000

  lemma Limits()
    ensures Limit(1) == 256 && Limit(4) == LIMIT32 && Limit(8) == LIMIT64
  {
    assert Limit(2) == 65536;
    assert Limit(4) == 256 * Limit(3) == 65536 * Limit(2);
    assert Limit(6) == 65536 * Limit(4);
  }

  /** The k low bytes of v, least significant first. */
  function Encode(v: nat, k: nat): (s: seq<Byte>)
    ensures |s| == k
  {
    if k == 0 then [] else [v % 256] + Encode(v / 256, k - 1)
  }

  function Decode(s: seq<Byte>): nat {
    if s == [] then 0 else s[0] + 256 * Decode(s[1..])
  }

  /** A number that fits is read back as it was written. */
  lemma {:induction false} DecodeEncode(v: nat, k: nat)
    requires v < Limit(k)
    ensures Decode(Encode(v, k)) == v
  {
    if k > 0 {
      DecodeEncode(v / 256, k - 1);
      assert Encode(v, k)[1..] == Encode(v / 256, k - 1);
    }
  }

  /** The lowest byte comes first. */
  lemma LowestFirst()
    ensures Encode(0x0102_0304, 4) == [4, 3, 2, 1]
  {
    assert Encode(1, 1) == [1] && Encode(0x0102, 2) == [2, 1] && Encode(0x0102_03, 3) == [3, 2, 1];
  }

  /** The bytes `part` stand at position pos. */
  predicate HasAt(bytes: seq<Byte>, pos: nat, part: seq<Byte>) {
    pos + |part| <= |bytes| && bytes[pos..pos + |part|] == part
  }

  lemma HasBoth(bytes: seq<Byte>, pos: nat, a: seq<Byte>, b: seq<Byte>)
    ensures HasAt(bytes, pos, a + b) <==> HasAt(bytes, pos, a) && HasAt(bytes, pos + |a|, b)
  {
    if HasAt(bytes, pos, a + b) {
      assert bytes[pos..pos + |a|] == (a + b)[..|a|] == a;
      assert bytes[pos + |a|..pos + |a| + |b|] == (a + b)[|a|..] == b;
    }
    if HasAt(bytes, pos, a) && HasAt(bytes, pos + |a|, b) {
      assert bytes[pos..pos + |a| + |b|] == bytes[pos..pos + |a|] + bytes[pos + |a|..pos + |a| + |b|];
    }
  }

  /** A stretch of bytes is the same in both buffers. */
  predicate SameFrom(a: seq<Byte>, b: seq<Byte>, lo: nat, hi: nat) {
    lo <= hi <= |a| && hi <= |b| && forall i {:trigger a[i]} {:trigger b[i]} :: lo <= i < hi ==> a[i] == b[i]
  }

  lemma StillHas(a: seq<Byte>, b: seq<Byte>, lo: nat, hi: nat, pos: nat, part: seq<Byte>)
    requires HasAt(a, pos, part) && SameFrom(a, b, lo, hi) && lo <= pos && pos + |part| <= hi
    ensures HasAt(b, pos, part)
  {
    assert forall i :: 0 <= i < |part| ==> part[i] == a[pos + i] == b[pos + i];
    assert b[pos..pos + |part|] == part;
  }

  /** 32-bit words, one after the other. */
  function Words(s: seq<nat>): (r: seq<Byte>)
    ensures |r| == 4 * |s|
  {
    if s == [] then [] else Words(s[..|s| - 1]) + Encode(s[|s| - 1], 4)
  }

  lemma {:induction false} WordsAppend(s: seq<nat>, t: seq<nat>)
    ensures Words(s + t) == Words(s) + Words(t)
    decreases |t|
  {
    if t == [] {
      assert s + t == s;
    } else {
      assert (s + t)[..|s + t| - 1] == s + t[..|t| - 1];
      WordsAppend(s, t[..|t| - 1]);
    }
  }

  lemma {:induction false} WordAt(bytes: seq<Byte>, pos: nat, s: seq<nat>, i: nat)
    requires HasAt(bytes, pos, Words(s)) && i < |s|
    ensures HasAt(bytes, pos + 4 * i, Encode(s[i], 4))
    decreases |s|
  {
    HasBoth(bytes, pos, Words(s[..|s| - 1]), Encode(s[|s| - 1], 4));
    if i < |s| - 1 {
      WordAt(bytes, pos, s[..|s| - 1], i);
    }
  }

  /** Nothing but a number of k bytes has changed. */
  predicate Stored(before: seq<Byte>, after: seq<Byte>, pos: nat, v: nat, k: nat) {
    pos + k <= |before| && after == before[..pos] + Encode(v, k) + before[pos + k..]
  }

  /** What storing a number leaves alone. */
  lemma PutKeeps(before: seq<Byte>, after: seq<Byte>, pos: nat, v: nat, k: nat)
    requires Stored(before, after, pos, v, k)
    ensures |after| == |before| && HasAt(after, pos, Encode(v, k))
    ensures SameFrom(before, after, 0, pos) && SameFrom(before, after, pos + k, |before|)
  {
  }

  /** Store a number of k bytes. */
  method Put(a: array<Byte>, pos: nat, v: nat, k: nat) returns (next: nat)
    requires pos + k <= a.Length
    modifies a
    ensures next == pos + k && Stored(old(a[..]), a[..], pos, v, k)
  {
    next := pos + k;
    var bytes := Encode(v, k);
    forall i | 0 <= i < k {
      a[pos + i] := bytes[i];
    }
  }

  /** Load a number of k bytes. */
  method Get(a: array<Byte>, pos: nat, k: nat) returns (v: nat)
    requires pos + k <= a.Length
    ensures v == Decode(a[pos..pos + k])
  {
    v := Decode(a[pos..pos + k]);
  }

  /** Reading a number that stands there. */
  lemma Reads(bytes: seq<Byte>, pos: nat, v: nat, k: nat)
    requires HasAt(bytes, pos, Encode(v, k)) && v < Limit(k)
    ensures Decode(bytes[pos..pos + k]) == v
  {
    DecodeEncode(v, k);
  }
}
