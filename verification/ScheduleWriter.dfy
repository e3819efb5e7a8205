/** Writing the schedules of all ranks to one file (Graph::serialize_mmap in Parser.hpp). */
module ScheduleWriter {
  import opened Schedule
  import opened Bytes
  import opened ScheduleFormat
  import B = ScheduleBuilder

  /** The bytes from position `start` on are `part`, and those before are as they were. */
  predicate Written(base: seq<Byte>, now: seq<Byte>, start: nat, part: seq<Byte>) {
    |now| == |base| && SameFrom(base, now, 0, start) && HasAt(now, start, part)
  }

  lemma WrittenMore(base: seq<Byte>, before: seq<Byte>, now: seq<Byte>, start: nat, part: seq<Byte>, more: seq<Byte>)
    requires Written(base, before, start, part) && Written(before, now, start + |part|, more)
    ensures Written(base, now, start, part + more)
  {
    StillHas(before, now, 0, start + |part|, start, part);
    HasBoth(now, start, part, more);
  }

  /** Store one more number at the end of what was written. */
  method Append(a: array<Byte>, ghost base: seq<Byte>, ghost start: nat, ghost part: seq<Byte>, pos: nat, v: nat, k: nat)
    returns (next: nat)
    requires Written(base, a[..], start, part) && pos == start + |part| && pos + k <= a.Length
    modifies a
    ensures next == pos + k && Written(base, a[..], start, part + Encode(v, k))
  {
    ghost var before := a[..];
    next := Put(a, pos, v, k);
    PutKeeps(before, a[..], pos, v, k);
    WrittenMore(base, before, a[..], start, part, Encode(v, k));
  }

  /** Store 32-bit words one after the other. */
  method AppendWords(a: array<Byte>, ghost base: seq<Byte>, ghost start: nat, ghost part: seq<Byte>, pos: nat, s: seq<nat>)
    returns (next: nat)
    requires Written(base, a[..], start, part) && pos == start + |part| && pos + 4 * |s| <= a.Length
    modifies a
    ensures next == pos + 4 * |s| && Written(base, a[..], start, part + Words(s))
  {
    hide Written, Encode;
    next := pos;
    assert part + Words(s[..0]) == part;
    for i := 0 to |s|
      invariant next == pos + 4 * i && Written(base, a[..], start, part + Words(s[..i]))
    {
      next := Append(a, base, start, part + Words(s[..i]), next, s[i], 4);
      assert s[..i + 1][..i] == s[..i];
      assert part + Words(s[..i + 1]) == part + Words(s[..i]) + Encode(s[i], 4);
    }
    assert s[..|s|] == s;
  }

  /** Store a node record. */
  method AppendRecord(a: array<Byte>, ghost base: seq<Byte>, ghost start: nat, ghost part: seq<Byte>, pos: nat,
                      node: Node, count: nat, apdx: nat)
    returns (next: nat)
    requires node.proc < 256 && node.nic < 256
    requires Written(base, a[..], start, part) && pos == start + |part| && pos + NODE_BYTES <= a.Length
    modifies a
    ensures next == pos + NODE_BYTES && Written(base, a[..], start, part + Record(node, count, apdx))
  {
    hide Written, Encode;
    ghost var before, r := a[..], Encode(count, 4);
    WrittenNothing(before, pos);
    next := Append(a, before, pos, [], pos, count, 4);
    assert [] + r == r;
    next := Append(a, before, pos, r, next, TypeCode(node.kind), 1);
    r := r + Encode(TypeCode(node.kind), 1);
    next := Append(a, before, pos, r, next, node.peer, 4);
    r := r + Encode(node.peer, 4);
    next := Append(a, before, pos, r, next, node.size, 8);
    r := r + Encode(node.size, 8);
    next := Append(a, before, pos, r, next, node.tag, 4);
    r := r + Encode(node.tag, 4);
    next := Append(a, before, pos, r, next, node.proc, 1);
    r := r + Encode(node.proc, 1);
    next := Append(a, before, pos, r, next, node.nic, 1);
    r := r + Encode(node.nic, 1);
    next := Append(a, before, pos, r, next, |node.dependOnMe|, 4);
    r := r + Encode(|node.dependOnMe|, 4);
    next := Append(a, before, pos, r, next, apdx, 4);
    r := r + Encode(apdx, 4);
    next := Append(a, before, pos, r, next, |node.startDependOnMe|, 4);
    r := r + Encode(|node.startDependOnMe|, 4);
    next := Append(a, before, pos, r, next, apdx + |node.dependOnMe|, 4);
    r := r + Encode(apdx + |node.dependOnMe|, 4);
    WrittenMore(base, before, a[..], start, part, r);
  }

  lemma WrittenNothing(a: seq<Byte>, pos: nat)
    requires pos <= |a|
    ensures Written(a, a, pos, [])
  {
  }

  /** Store the records of all nodes. */
  method AppendRecords(a: array<Byte>, ghost base: seq<Byte>, ghost start: nat, ghost part: seq<Byte>, from: nat, d: Rank)
    returns (pos: nat)
    requires Fits(d) && Written(base, a[..], start, part) && from == start + |part|
    requires from + NODE_BYTES * |d.nodes| <= a.Length
    modifies a
    ensures pos == from + NODE_BYTES * |d.nodes| && Written(base, a[..], start, part + Records(d, |d.nodes|))
  {
    hide Written, Encode, Record;
    pos := from;
    var numInAppendix := 0;
    assert part + Records(d, 0) == part;
    for k := 0 to |d.nodes|
      invariant numInAppendix == |Targets(d.nodes, k)| && pos == from + NODE_BYTES * k
      invariant Written(base, a[..], start, part + Records(d, k))
    {
      pos := AppendRecord(a, base, start, part + Records(d, k), pos, d.nodes[k], d.counts[k], numInAppendix);
      assert part + Records(d, k + 1) == part + Records(d, k) + Record(d.nodes[k], d.counts[k], numInAppendix);
      numInAppendix := numInAppendix + |d.nodes[k].dependOnMe| + |d.nodes[k].startDependOnMe|;
    }
  }

  /** Store the appendix. */
  method AppendTargets(a: array<Byte>, ghost base: seq<Byte>, ghost start: nat, ghost part: seq<Byte>, from: nat, nodes: seq<Node>)
    returns (pos: nat)
    requires Written(base, a[..], start, part) && from == start + |part|
    requires from + 4 * |Targets(nodes, |nodes|)| <= a.Length
    modifies a
    ensures pos == from + 4 * |Targets(nodes, |nodes|)|
    ensures Written(base, a[..], start, part + Words(Targets(nodes, |nodes|)))
  {
    hide Written, Words, Targets;
    pos := from;
    TargetsStep(part, nodes, 0);
    for k := 0 to |nodes|
      invariant pos == from + 4 * |Targets(nodes, k)|
      invariant Written(base, a[..], start, part + Words(Targets(nodes, k)))
    {
      TargetsGrow(nodes, k + 1, |nodes|);
      TargetsStep(part, nodes, k);
      pos := AppendWords(a, base, start, part + Words(Targets(nodes, k)), pos, nodes[k].dependOnMe);
      pos := AppendWords(a, base, start, part + Words(Targets(nodes, k)) + Words(nodes[k].dependOnMe), pos,
                         nodes[k].startDependOnMe);
    }
  }

  lemma TargetsStep(part: seq<Byte>, nodes: seq<Node>, k: nat)
    requires k <= |nodes|
    ensures k == 0 ==> Targets(nodes, k) == [] && part + Words(Targets(nodes, k)) == part
    ensures k < |nodes| ==>
      && |Targets(nodes, k + 1)| == |Targets(nodes, k)| + |nodes[k].dependOnMe| + |nodes[k].startDependOnMe|
      && part + Words(Targets(nodes, k + 1))
         == part + Words(Targets(nodes, k)) + Words(nodes[k].dependOnMe) + Words(nodes[k].startDependOnMe)
  {
    if k < |nodes| {
      WordsAppend(Targets(nodes, k), nodes[k].dependOnMe);
      WordsAppend(Targets(nodes, k) + nodes[k].dependOnMe, nodes[k].startDependOnMe);
    }
  }

  /** Store the data of a rank. */
  method PutRank(a: array<Byte>, start: nat, d: Rank) returns (pos: nat)
    requires Fits(d) && start + |RankBytes(d)| <= a.Length
    modifies a
    ensures pos == start + |RankBytes(d)| && Written(old(a[..]), a[..], start, RankBytes(d))
  {
    hide Written, Encode, Words, Records, Targets, Fits;
    ghost var base := a[..];
    WrittenNothing(base, start);
    ghost var part := Encode(|d.nodes|, 4);
    pos := Append(a, base, start, [], start, |d.nodes|, 4);
    assert [] + part == part;
    pos := Append(a, base, start, part, pos, |d.roots|, 4);
    part := part + Encode(|d.roots|, 4);
    pos := AppendWords(a, base, start, part, pos, d.roots);
    part := part + Words(d.roots);
    pos := AppendRecords(a, base, start, part, pos, d);
    part := part + Records(d, |d.nodes|);
    pos := AppendTargets(a, base, start, part, pos, d.nodes);
  }

  lemma {:induction false} TargetsGrow(nodes: seq<Node>, j: nat, k: nat)
    requires j <= k <= |nodes|
    ensures |Targets(nodes, j)| <= |Targets(nodes, k)|
    decreases k
  {
    if j < k {
      TargetsGrow(nodes, j, k - 1);
    }
  }

  /** Store the header and one entry of the jump table. */
  method PutHeader(a: array<Byte>, rank: nat, numRanks: nat, maxCpu: nat, maxNic: nat, start: nat, end: nat)
    requires COOKIE_BYTES + HEADER_BYTES + JUMP_BYTES * (rank + 1) <= a.Length
    modifies a
    ensures HoldsHeader(a[..], numRanks, maxCpu, maxNic) && HoldsJump(a[..], rank, start, end)
    ensures HeaderKeeps(old(a[..]), a[..], rank)
  {
    hide Stored, HeaderKeeps, HoldsHeader, HoldsJump, Encode;
    ghost var s0 := a[..];
    var pos := Put(a, COOKIE_BYTES, numRanks, 4);
    ghost var s1 := a[..];
    pos := Put(a, COOKIE_BYTES + 4, maxCpu, 1);
    ghost var s2 := a[..];
    pos := Put(a, COOKIE_BYTES + 5, maxNic, 1);
    ghost var s3 := a[..];
    pos := Put(a, COOKIE_BYTES + HEADER_BYTES + 8 * (2 * rank), start, 8);
    ghost var s4 := a[..];
    pos := Put(a, COOKIE_BYTES + HEADER_BYTES + 8 * (2 * rank + 1), end, 8);
    HeaderHolds(s0, s1, s2, s3, s4, a[..], rank, numRanks, maxCpu, maxNic, start, end);
  }

  /** All but the header and the rank's entry stay. */
  predicate HeaderKeeps(before: seq<Byte>, after: seq<Byte>, rank: nat) {
    var jumps := COOKIE_BYTES + HEADER_BYTES;
    && |after| == |before|
    && SameFrom(before, after, 0, COOKIE_BYTES)
    && SameFrom(before, after, jumps, jumps + JUMP_BYTES * rank)
    && SameFrom(before, after, jumps + JUMP_BYTES * (rank + 1), |before|)
  }

  lemma HeaderHolds(s0: seq<Byte>, s1: seq<Byte>, s2: seq<Byte>, s3: seq<Byte>, s4: seq<Byte>, s5: seq<Byte>,
                    rank: nat, numRanks: nat, maxCpu: nat, maxNic: nat, start: nat, end: nat)
    requires COOKIE_BYTES + HEADER_BYTES + JUMP_BYTES * (rank + 1) <= |s0|
    requires Stored(s0, s1, COOKIE_BYTES, numRanks, 4) && Stored(s1, s2, COOKIE_BYTES + 4, maxCpu, 1)
    requires Stored(s2, s3, COOKIE_BYTES + 5, maxNic, 1)
    requires Stored(s3, s4, COOKIE_BYTES + HEADER_BYTES + 8 * (2 * rank), start, 8)
    requires Stored(s4, s5, COOKIE_BYTES + HEADER_BYTES + 8 * (2 * rank + 1), end, 8)
    ensures HoldsHeader(s5, numRanks, maxCpu, maxNic) && HoldsJump(s5, rank, start, end)
    ensures HeaderKeeps(s0, s5, rank)
  {
    hide Encode, HasAt, Stored;
    var jump := COOKIE_BYTES + HEADER_BYTES + JUMP_BYTES * rank;
    PutKeeps(s0, s1, COOKIE_BYTES, numRanks, 4);
    PutKeeps(s1, s2, COOKIE_BYTES + 4, maxCpu, 1);
    PutKeeps(s2, s3, COOKIE_BYTES + 5, maxNic, 1);
    PutKeeps(s3, s4, jump, start, 8);
    PutKeeps(s4, s5, jump + 8, end, 8);
    assert SameFrom(s1, s5, COOKIE_BYTES, COOKIE_BYTES + 4);
    StillHas(s1, s5, COOKIE_BYTES, COOKIE_BYTES + 4, COOKIE_BYTES, Encode(numRanks, 4));
    StillHas(s2, s5, COOKIE_BYTES + 4, COOKIE_BYTES + 5, COOKIE_BYTES + 4, Encode(maxCpu, 1));
    StillHas(s3, s5, COOKIE_BYTES + 5, COOKIE_BYTES + 6, COOKIE_BYTES + 5, Encode(maxNic, 1));
    StillHas(s4, s5, jump, jump + 8, jump, Encode(start, 8));
  }

  /** A rank's data stay where they are when only what lies outside is changed. */
  lemma PartStays(before: seq<Byte>, after: seq<Byte>, r: nat, start: nat, d: Rank, k: nat, last: nat)
    requires Fits(d) && HoldsPart(before, r, start, d) && r < k
    requires HEADER_BYTES + JUMP_BYTES * (k + 1) <= start && COOKIE_BYTES + start + |RankBytes(d)| <= last
    requires var jumps := COOKIE_BYTES + HEADER_BYTES;
      SameFrom(before, after, jumps, jumps + JUMP_BYTES * k) && SameFrom(before, after, jumps + JUMP_BYTES * (k + 1), last)
    ensures HoldsPart(after, r, start, d)
  {
    hide Encode, HasAt, SameFrom, Fits, RankBytes;
    var jumps := COOKIE_BYTES + HEADER_BYTES;
    StillHas(before, after, jumps, jumps + JUMP_BYTES * k, jumps + JUMP_BYTES * r, Encode(start, 8));
    StillHas(before, after, jumps, jumps + JUMP_BYTES * k, jumps + JUMP_BYTES * r + 8, Encode(start + |RankBytes(d)|, 8));
    StillHas(before, after, jumps + JUMP_BYTES * (k + 1), last, COOKIE_BYTES + start, RankBytes(d));
  }

  /** The cookie and the ranks so far are in place; the file may go on. */
  predicate Begun(bytes: seq<Byte>, ranks: seq<Rank>, numRanks: nat) {
    && AllFit(ranks) && |ranks| <= numRanks
    && |bytes| >= COOKIE_BYTES + Start(ranks, numRanks, |ranks|)
    && HasAt(bytes, 0, Encode(MAGIC_COOKIE, 8))
    && HoldsParts(bytes, ranks, numRanks)
  }

  lemma BegunStays(before: seq<Byte>, after: seq<Byte>, ranks: seq<Rank>, numRanks: nat)
    requires Begun(before, ranks, numRanks) && |ranks| < numRanks && |after| >= |before|
    requires var jumps, last := COOKIE_BYTES + HEADER_BYTES, COOKIE_BYTES + Start(ranks, numRanks, |ranks|);
      && SameFrom(before, after, 0, COOKIE_BYTES)
      && SameFrom(before, after, jumps, jumps + JUMP_BYTES * |ranks|)
      && SameFrom(before, after, jumps + JUMP_BYTES * (|ranks| + 1), last)
    ensures Begun(after, ranks, numRanks)
  {
    hide Encode, HasAt, SameFrom, Fits, RankBytes, HoldsPart, Start, RankSize;
    StillHas(before, after, 0, COOKIE_BYTES, 0, Encode(MAGIC_COOKIE, 8));
    forall r: nat | r < |ranks|
      ensures HoldsPart(after, r, Start(ranks, numRanks, r), ranks[r])
    {
      StartMonotone(ranks, numRanks, 0, r);
      StartMonotone(ranks, numRanks, r + 1, |ranks|);
      StartNext(ranks, numRanks, r);
      PartStays(before, after, r, Start(ranks, numRanks, r), ranks[r], |ranks|, COOKIE_BYTES + Start(ranks, numRanks, |ranks|));
    }
  }

  /** Nothing before a position has changed, so the ranks up to there are still in place. */
  lemma BegunPrefix(before: seq<Byte>, after: seq<Byte>, ranks: seq<Rank>, numRanks: nat)
    requires Begun(before, ranks, numRanks) && |ranks| < numRanks && |after| >= |before|
    requires SameFrom(before, after, 0, COOKIE_BYTES + Start(ranks, numRanks, |ranks|))
    ensures Begun(after, ranks, numRanks)
  {
    hide Begun, Start, Fits;
    assert AllFit(ranks) by { BegunFits(before, ranks, numRanks); }
    StartMonotone(ranks, numRanks, 0, |ranks|);
    BegunStays(before, after, ranks, numRanks);
  }

  lemma BegunFits(bytes: seq<Byte>, ranks: seq<Rank>, numRanks: nat)
    requires Begun(bytes, ranks, numRanks)
    ensures AllFit(ranks)
  {
  }

  /** The jump table tells where the last rank ended. */
  lemma LastEnd(bytes: seq<Byte>, ranks: seq<Rank>, numRanks: nat)
    requires Begun(bytes, ranks, numRanks) && ranks != [] && Start(ranks, numRanks, |ranks|) < LIMIT64
    ensures var pos := COOKIE_BYTES + HEADER_BYTES + 8 * (2 * (|ranks| - 1) + 1);
      pos + 8 <= |bytes| && Decode(bytes[pos..pos + 8]) == Start(ranks, numRanks, |ranks|)
  {
    hide Encode, Fits, RankBytes, Decode, Start, RankSize;
    var r := |ranks| - 1;
    StartNext(ranks, numRanks, r);
    assert HoldsPart(bytes, r, Start(ranks, numRanks, r), ranks[r]);
    Limits();
    Reads(bytes, COOKIE_BYTES + HEADER_BYTES + JUMP_BYTES * r + 8, Start(ranks, numRanks, |ranks|), 8);
  }

  /** With the data of one more rank behind the others, its entry and the header, the file is
      complete up to that rank. */
  lemma OneMore(before: seq<Byte>, data: seq<Byte>, after: seq<Byte>, ranks: seq<Rank>, d: Rank,
                numRanks: nat, maxCpu: nat, maxNic: nat)
    requires Begun(before, ranks, numRanks) && |ranks| < numRanks && Fits(d)
    requires |before| == COOKIE_BYTES + Start(ranks, numRanks, |ranks|) + |RankBytes(d)|
    requires Written(before, data, COOKIE_BYTES + Start(ranks, numRanks, |ranks|), RankBytes(d))
    requires HeaderKeeps(data, after, |ranks|) && HoldsHeader(after, numRanks, maxCpu, maxNic)
    requires var start := Start(ranks, numRanks, |ranks|); HoldsJump(after, |ranks|, start, start + |RankBytes(d)|)
    ensures Holds(after, ranks + [d], numRanks, maxCpu, maxNic)
  {
    hide Encode, HasAt, SameFrom, Fits, RankBytes, HoldsPart, HoldsHeader, HoldsJump, Start, RankSize, HeaderKeeps;
    var all, start := ranks + [d], Start(ranks, numRanks, |ranks|);
    BegunPrefix(before, data, ranks, numRanks);
    StartMonotone(ranks, numRanks, 0, |ranks|);
    HeaderWithin(data, after, |ranks|, COOKIE_BYTES + start, |RankBytes(d)|);
    BegunStays(data, after, ranks, numRanks);
    StillHas(data, after, COOKIE_BYTES + start, |data|, COOKIE_BYTES + start, RankBytes(d));
    assert AllFit(all);
    StartNext(all, numRanks, |ranks|);
    forall r: nat | r < |all|
      ensures HoldsPart(after, r, Start(all, numRanks, r), all[r])
    {
      StartPrefix(ranks, [d], numRanks, if r < |ranks| then r else |ranks|);
      if r < |ranks| {
        assert all[r] == ranks[r];
      } else {
        PartFromBoth(after, r, start, d);
      }
    }
    StartPrefix(ranks, [d], numRanks, |ranks|);
  }

  lemma PartFromBoth(bytes: seq<Byte>, r: nat, start: nat, d: Rank)
    requires Fits(d) && HoldsJump(bytes, r, start, start + |RankBytes(d)|) && HasAt(bytes, COOKIE_BYTES + start, RankBytes(d))
    ensures HoldsPart(bytes, r, start, d)
  {
  }

  lemma HeaderWithin(before: seq<Byte>, after: seq<Byte>, rank: nat, start: nat, size: nat)
    requires HeaderKeeps(before, after, rank) && |before| == start + size
    requires COOKIE_BYTES + HEADER_BYTES + JUMP_BYTES * (rank + 1) <= start
    ensures |after| == |before|
    ensures var jumps := COOKIE_BYTES + HEADER_BYTES;
      && SameFrom(before, after, 0, COOKIE_BYTES)
      && SameFrom(before, after, jumps, jumps + JUMP_BYTES * rank)
      && SameFrom(before, after, jumps + JUMP_BYTES * (rank + 1), start)
      && SameFrom(before, after, start, start + size)
  {
  }

  class ScheduleFile {
    var file: array<Byte>
    var filesize: nat
    ghost var ranks: seq<Rank>
    ghost var numRanks: nat
    ghost var maxCpu: nat
    ghost var maxNic: nat

    /** The computed size is the size of the file, which holds the ranks written so far. */
    ghost predicate Valid()
      reads this, file
    {
      && (forall r {:trigger ranks[r]} :: 0 <= r < |ranks| ==> B.Complete(ranks[r]))
      && if ranks == [] then file.Length == 0
         else filesize == file.Length && Holds(file[..], ranks, numRanks, maxCpu, maxNic)
    }

    constructor ()
      ensures Valid() && ranks == [] && fresh(file)
    {
      file := new Byte[0];
      filesize, ranks, numRanks, maxCpu, maxNic := 0, [], 0, 0, 0;
    }

    /** Add the schedule of the next rank. */
    method SerializeMmap(g: B.Graph, rank: nat, numRanks: nat, maxCpu: nat, maxNic: nat)
      requires Valid() && g.Valid() && rank == |ranks| < numRanks < LIMIT32
      requires maxCpu < 256 && maxNic < 256 && (rank > 0 ==> numRanks == this.numRanks)
      requires AllFit(ranks + [Rank(g.nodes, g.counts, B.RootOffsets(g.counts, |g.counts|))])
      requires Start(ranks + [Rank(g.nodes, g.counts, B.RootOffsets(g.counts, |g.counts|))], numRanks, rank + 1) < LIMIT64
      modifies this
      ensures Valid() && fresh(file) && this.numRanks == numRanks && this.maxCpu == maxCpu && this.maxNic == maxNic
      ensures ranks == old(ranks) + [Rank(g.nodes, g.counts, B.RootOffsets(g.counts, |g.counts|))]
    {
      hide Holds, Begun, Fits, RankBytes, Encode, Start, HoldsHeader, HoldsJump, SameFrom, Stored, Written, HeaderKeeps;
      hide B.RootOffsets, Targets, CountsInDegrees, WellFormed, Decode, AllFit;
      ghost var d, earlier := Rank(g.nodes, g.counts, B.RootOffsets(g.counts, |g.counts|)), ranks;
      var roots := g.FindRootNodes();
      if rank == 0 {
        filesize := COOKIE_BYTES + HEADER_BYTES + JUMP_BYTES * numRanks;
      }
      filesize := filesize + 8 + 4 * |roots| + NODE_BYTES * |g.nodes| + 4 * g.numEdges;
      ghost var start := Sizes(file[..], earlier, d, this.numRanks, this.maxCpu, this.maxNic, numRanks);
      var bigger := Enlarged(file, filesize);
      var endOfLast := HEADER_BYTES + JUMP_BYTES * numRanks;
      if rank == 0 {
        ghost var empty := bigger[..];
        var pos := Put(bigger, 0, MAGIC_COOKIE, 8);
        BegunFirst(empty, bigger[..], numRanks);
      } else {
        BegunBefore(file[..], bigger[..], earlier, numRanks, this.maxCpu, this.maxNic);
        LastEnd(bigger[..], earlier, numRanks);
        endOfLast := Get(bigger, COOKIE_BYTES + HEADER_BYTES + 8 * (2 * (rank - 1) + 1), 8);
      }
      ghost var before := bigger[..];
      var pos := PutRank(bigger, COOKIE_BYTES + endOfLast, Rank(g.nodes, g.counts, roots));
      ghost var data := bigger[..];
      PutHeader(bigger, rank, numRanks, maxCpu, maxNic, endOfLast, pos - COOKIE_BYTES);
      OneMore(before, data, bigger[..], earlier, d, numRanks, maxCpu, maxNic);
      file := bigger;
      assert B.Complete(d);
      ranks, this.numRanks, this.maxCpu, this.maxNic := earlier + [d], numRanks, maxCpu, maxNic;
      HoldsSize(file[..], ranks, numRanks, maxCpu, maxNic);
    }
  }

  lemma HoldsSize(bytes: seq<Byte>, ranks: seq<Rank>, numRanks: nat, maxCpu: nat, maxNic: nat)
    requires Holds(bytes, ranks, numRanks, maxCpu, maxNic)
    ensures AllFit(ranks) && |bytes| == COOKIE_BYTES + Start(ranks, numRanks, |ranks|)
  {
  }

  /** Where the next rank starts. */
  lemma Sizes(bytes: seq<Byte>, ranks: seq<Rank>, d: Rank, was: nat, maxCpu: nat, maxNic: nat, numRanks: nat) returns (start: nat)
    requires AllFit(ranks + [d]) && (ranks != [] ==> was == numRanks && Holds(bytes, ranks, was, maxCpu, maxNic))
    ensures AllFit(ranks) && Fits(d) && start == Start(ranks, numRanks, |ranks|)
    ensures start == if ranks == [] then HEADER_BYTES + JUMP_BYTES * numRanks else |bytes| - COOKIE_BYTES
    ensures Start(ranks + [d], numRanks, |ranks| + 1) == start + |RankBytes(d)|
    ensures HEADER_BYTES + JUMP_BYTES * numRanks <= start
  {
    hide RankBytes, Fits;
    StartPrefix(ranks, [d], numRanks, |ranks|);
    assert (ranks + [d])[|ranks|] == d;
    start := Start(ranks, numRanks, |ranks|);
    StartMonotone(ranks, numRanks, 0, |ranks|);
  }

  lemma BegunFirst(before: seq<Byte>, after: seq<Byte>, numRanks: nat)
    requires Stored(before, after, 0, MAGIC_COOKIE, 8) && |before| >= COOKIE_BYTES + HEADER_BYTES + JUMP_BYTES * numRanks
    ensures Begun(after, [], numRanks)
  {
    PutKeeps(before, after, 0, MAGIC_COOKIE, 8);
  }

  lemma BegunBefore(before: seq<Byte>, after: seq<Byte>, ranks: seq<Rank>, numRanks: nat, maxCpu: nat, maxNic: nat)
    requires Holds(before, ranks, numRanks, maxCpu, maxNic) && |ranks| < numRanks
    requires |after| >= |before| && SameFrom(before, after, 0, |before|)
    ensures Begun(after, ranks, numRanks)
  {
    hide HasAt, Encode, Fits, RankBytes, SameFrom, HoldsPart, Start;
    assert Begun(before, ranks, numRanks);
    BegunPrefix(before, after, ranks, numRanks);
  }

  /** A longer file with the same beginning. */
  method Enlarged(file: array<Byte>, size: nat) returns (bigger: array<Byte>)
    requires file.Length <= size
    ensures fresh(bigger) && bigger.Length == size && SameFrom(file[..], bigger[..], 0, file.Length)
  {
    var s := file[..];
    bigger := new Byte[size](i requires 0 <= i < size => if i < |s| then s[i] else 0);
  }
}
