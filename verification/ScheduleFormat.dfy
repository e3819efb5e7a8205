/** The layout of a binary schedule file: header, jump table, and for every rank its roots, its
    39-byte node records and the appendix of edge targets (Parser.hpp). */
module ScheduleFormat {
  import opened Bytes
  import opened Schedule

  const MAGIC_COOKIE: nat := 4223
  const COOKIE_BYTES: nat := 8
  const HEADER_BYTES: nat := 6
  const JUMP_BYTES: nat := 16
  const NODE_BYTES: nat := 39

  function TypeCode(kind: Kind): Byte {
    match kind
    case Send => 1
    case Recv => 2
    case Calc => 3
  }

  /** Everything stored for one rank. */
  datatype Rank = Rank(nodes: seq<Node>, counts: seq<nat>, roots: seq<nat>)

  /** The edge targets of the first k nodes, in the order of the appendix. */
  function Targets(nodes: seq<Node>, k: nat): seq<nat>
    requires k <= |nodes|
  {
    if k == 0 then [] else Targets(nodes, k - 1) + nodes[k - 1].dependOnMe + nodes[k - 1].startDependOnMe
  }

  function Record(node: Node, count: nat, apdx: nat): (r: seq<Byte>)
    requires node.proc < 256 && node.nic < 256
    ensures |r| == NODE_BYTES
  {
    Encode(count, 4) + Encode(TypeCode(node.kind), 1) + Encode(node.peer, 4) + Encode(node.size, 8)
    + Encode(node.tag, 4) + Encode(node.proc, 1) + Encode(node.nic, 1)
    + Encode(|node.dependOnMe|, 4) + Encode(apdx, 4)
    + Encode(|node.startDependOnMe|, 4) + Encode(apdx + |node.dependOnMe|, 4)
  }

  predicate Fits(d: Rank) {
    && |d.nodes| < LIMIT32 && |Targets(d.nodes, |d.nodes|)| < LIMIT32 && |d.roots| <= |d.nodes| == |d.counts|
    && (forall i {:trigger d.roots[i]} :: 0 <= i < |d.roots| ==> d.roots[i] < |d.nodes|)
    && (forall i {:trigger d.nodes[i]} {:trigger d.counts[i]} :: 0 <= i < |d.nodes| ==>
          && d.counts[i] < LIMIT32
          && d.nodes[i].peer < LIMIT32 && d.nodes[i].size < LIMIT64 && d.nodes[i].tag < LIMIT32
          && d.nodes[i].proc < 256 && d.nodes[i].nic < 256)
  }

  function Records(d: Rank, k: nat): (r: seq<Byte>)
    requires Fits(d) && k <= |d.nodes|
    ensures |r| == NODE_BYTES * k
  {
    if k == 0 then []
    else Records(d, k - 1) + Record(d.nodes[k - 1], d.counts[k - 1], |Targets(d.nodes, k - 1)|)
  }

  function RankBytes(d: Rank): (r: seq<Byte>)
    requires Fits(d)
    ensures |r| == RankSize(|d.nodes|, |d.roots|, |Targets(d.nodes, |d.nodes|)|)
  {
    Encode(|d.nodes|, 4) + Encode(|d.roots|, 4) + Words(d.roots) + Records(d, |d.nodes|)
    + Words(Targets(d.nodes, |d.nodes|))
  }

  function RankSize(nodes: nat, roots: nat, edges: nat): nat {
    8 + 4 * roots + NODE_BYTES * nodes + 4 * edges
  }

  predicate AllFit(ranks: seq<Rank>) {
    forall i :: 0 <= i < |ranks| ==> Fits(ranks[i])
  }

  /** Where rank r's data start, counted from behind the cookie. */
  function Start(ranks: seq<Rank>, numRanks: nat, r: nat): nat
    requires r <= |ranks| && AllFit(ranks)
  {
    if r == 0 then HEADER_BYTES + JUMP_BYTES * numRanks
    else Start(ranks, numRanks, r - 1) + |RankBytes(ranks[r - 1])|
  }

  predicate HoldsJump(bytes: seq<Byte>, r: nat, start: nat, end: nat) {
    && HasAt(bytes, COOKIE_BYTES + HEADER_BYTES + JUMP_BYTES * r, Encode(start, 8))
    && HasAt(bytes, COOKIE_BYTES + HEADER_BYTES + JUMP_BYTES * r + 8, Encode(end, 8))
  }

  predicate HoldsHeader(bytes: seq<Byte>, numRanks: nat, maxCpu: nat, maxNic: nat) {
    && HasAt(bytes, COOKIE_BYTES, Encode(numRanks, 4))
    && HasAt(bytes, COOKIE_BYTES + 4, Encode(maxCpu, 1))
    && HasAt(bytes, COOKIE_BYTES + 5, Encode(maxNic, 1))
  }

  /** Rank r's entry in the jump table, and its data. */
  predicate HoldsPart(bytes: seq<Byte>, r: nat, start: nat, d: Rank)
    requires Fits(d)
  {
    HoldsJump(bytes, r, start, start + |RankBytes(d)|) && HasAt(bytes, COOKIE_BYTES + start, RankBytes(d))
  }

  predicate HoldsParts(bytes: seq<Byte>, ranks: seq<Rank>, numRanks: nat)
    requires AllFit(ranks)
  {
    forall r: nat :: r < |ranks| ==> HoldsPart(bytes, r, Start(ranks, numRanks, r), ranks[r])
  }

  /** The file holds the first |ranks| of numRanks ranks, and not a byte more. */
  predicate Holds(bytes: seq<Byte>, ranks: seq<Rank>, numRanks: nat, maxCpu: nat, maxNic: nat) {
    && 0 < |ranks| <= numRanks && AllFit(ranks)
    && |bytes| == COOKIE_BYTES + Start(ranks, numRanks, |ranks|)
    && HasAt(bytes, 0, Encode(MAGIC_COOKIE, 8))
    && HoldsHeader(bytes, numRanks, maxCpu, maxNic)
    && HoldsParts(bytes, ranks, numRanks)
  }

  lemma {:induction false} StartPrefix(ranks: seq<Rank>, more: seq<Rank>, numRanks: nat, r: nat)
    requires r <= |ranks| && AllFit(ranks + more)
    ensures AllFit(ranks)
    ensures Start(ranks + more, numRanks, r) == Start(ranks, numRanks, r)
  {
    hide Fits, RankBytes;
    forall i | 0 <= i < |ranks| ensures Fits(ranks[i]) {
      assert (ranks + more)[i] == ranks[i];
    }
    if r > 0 {
      StartPrefix(ranks, more, numRanks, r - 1);
    }
  }

  lemma StartNext(ranks: seq<Rank>, numRanks: nat, r: nat)
    requires r < |ranks| && AllFit(ranks)
    ensures Start(ranks, numRanks, r + 1) == Start(ranks, numRanks, r) + |RankBytes(ranks[r])|
  {
    hide Fits, RankBytes;
  }

  lemma {:induction false} StartMonotone(ranks: seq<Rank>, numRanks: nat, r: nat, q: nat)
    requires r <= q <= |ranks| && AllFit(ranks)
    ensures HEADER_BYTES + JUMP_BYTES * numRanks <= Start(ranks, numRanks, r) <= Start(ranks, numRanks, q)
  {
    hide Fits, RankBytes;
    if r < q {
      StartMonotone(ranks, numRanks, r, q - 1);
    } else if r > 0 {
      StartMonotone(ranks, numRanks, r - 1, r - 1);
    }
  }

  // ---- finding things again ----

  /** Node i's record within the records. */
  lemma {:induction false} RecordAt(bytes: seq<Byte>, pos: nat, d: Rank, k: nat, i: nat)
    requires Fits(d) && i < k <= |d.nodes| && HasAt(bytes, pos, Records(d, k))
    ensures HasAt(bytes, pos + NODE_BYTES * i, Record(d.nodes[i], d.counts[i], |Targets(d.nodes, i)|))
    decreases k
  {
    hide Record;
    HasBoth(bytes, pos, Records(d, k - 1), Record(d.nodes[k - 1], d.counts[k - 1], |Targets(d.nodes, k - 1)|));
    if i < k - 1 {
      RecordAt(bytes, pos, d, k - 1, i);
    }
  }

  /** Node i's targets within the appendix. */
  lemma {:induction false} TargetsAt(nodes: seq<Node>, k: nat, i: nat, j: nat)
    requires i < k <= |nodes|
    ensures var t, from, n := Targets(nodes, k), |Targets(nodes, i)|, nodes[i];
      && (j < |n.dependOnMe| ==> from + j < |t| && t[from + j] == n.dependOnMe[j])
      && (j < |n.startDependOnMe| ==>
            from + |n.dependOnMe| + j < |t| && t[from + |n.dependOnMe| + j] == n.startDependOnMe[j])
    decreases k
  {
    if i < k - 1 {
      TargetsAt(nodes, k - 1, i, j);
    }
  }

  /** The parts of a rank's data. */
  lemma RankParts(bytes: seq<Byte>, pos: nat, d: Rank)
    requires Fits(d)
    ensures var records := pos + 8 + 4 * |d.roots|;
      HasAt(bytes, pos, RankBytes(d)) <==>
      && HasAt(bytes, pos, Encode(|d.nodes|, 4))
      && HasAt(bytes, pos + 4, Encode(|d.roots|, 4))
      && HasAt(bytes, pos + 8, Words(d.roots))
      && HasAt(bytes, records, Records(d, |d.nodes|))
      && HasAt(bytes, records + NODE_BYTES * |d.nodes|, Words(Targets(d.nodes, |d.nodes|)))
  {
    hide HasAt, Words, Records, Encode, Fits;
    var a, b, c, e, f := Encode(|d.nodes|, 4), Encode(|d.roots|, 4), Words(d.roots), Records(d, |d.nodes|),
      Words(Targets(d.nodes, |d.nodes|));
    HasBoth(bytes, pos, a + b + c + e, f);
    HasBoth(bytes, pos, a + b + c, e);
    HasBoth(bytes, pos, a + b, c);
    HasBoth(bytes, pos, a, b);
  }

  /** The fields of a record. */
  lemma RecordParts(bytes: seq<Byte>, pos: nat, node: Node, count: nat, apdx: nat)
    requires node.proc < 256 && node.nic < 256
    ensures HasAt(bytes, pos, Record(node, count, apdx)) <==>
      && HasAt(bytes, pos, Encode(count, 4))
      && HasAt(bytes, pos + 4, Encode(TypeCode(node.kind), 1))
      && HasAt(bytes, pos + 5, Encode(node.peer, 4))
      && HasAt(bytes, pos + 9, Encode(node.size, 8))
      && HasAt(bytes, pos + 17, Encode(node.tag, 4))
      && HasAt(bytes, pos + 21, Encode(node.proc, 1))
      && HasAt(bytes, pos + 22, Encode(node.nic, 1))
      && HasAt(bytes, pos + 23, Encode(|node.dependOnMe|, 4))
      && HasAt(bytes, pos + 27, Encode(apdx, 4))
      && HasAt(bytes, pos + 31, Encode(|node.startDependOnMe|, 4))
      && HasAt(bytes, pos + 35, Encode(apdx + |node.dependOnMe|, 4))
  {
    hide HasAt, Encode;
    var a, b, c, d := Encode(count, 4), Encode(TypeCode(node.kind), 1), Encode(node.peer, 4), Encode(node.size, 8);
    var e, f, g, h := Encode(node.tag, 4), Encode(node.proc, 1), Encode(node.nic, 1), Encode(|node.dependOnMe|, 4);
    var i, j, k := Encode(apdx, 4), Encode(|node.startDependOnMe|, 4), Encode(apdx + |node.dependOnMe|, 4);
    HasBoth(bytes, pos, a + b + c + d + e + f + g + h + i + j, k);
    HasBoth(bytes, pos, a + b + c + d + e + f + g + h + i, j);
    HasBoth(bytes, pos, a + b + c + d + e + f + g + h, i);
    HasBoth(bytes, pos, a + b + c + d + e + f + g, h);
    HasBoth(bytes, pos, a + b + c + d + e + f, g);
    HasBoth(bytes, pos, a + b + c + d + e, f);
    HasBoth(bytes, pos, a + b + c + d, e);
    HasBoth(bytes, pos, a + b + c, d);
    HasBoth(bytes, pos, a + b, c);
    HasBoth(bytes, pos, a, b);
  }
}
