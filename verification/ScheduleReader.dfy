/** Reading one rank's schedule back by offset arithmetic, and counting down its dependency
    counters inside the mapped file (class SerializedGraph in Parser.hpp). */
module ScheduleReader {
  import opened Schedule
  import opened Bytes
  import opened ScheduleFormat
  import opened DependencyTracker

  /** struct DeserializedNode */
  datatype Loaded = Loaded(
    offset: nat,
    count: nat,
    typeCode: nat,
    peer: nat,
    size: nat,
    tag: nat,
    proc: nat,
    nic: nat,
    dependOnMe: seq<nat>,
    startDependOnMe: seq<nat>)

  /** What was written for a node. */
  function Original(d: Rank, offset: nat): Loaded
    requires offset < |d.nodes| == |d.counts|
  {
    var n := d.nodes[offset];
    Loaded(offset, d.counts[offset], TypeCode(n.kind), n.peer, n.size, n.tag, n.proc, n.nic,
           n.dependOnMe, n.startDependOnMe)
  }

  /** The data of the rank stand at `start`. */
  ghost predicate Stands(bytes: seq<Byte>, start: nat, d: Rank) {
    Fits(d) && WellFormed(d.nodes) && HasAt(bytes, start, RankBytes(d))
  }

  /** Where node i's record is found. */
  lemma RecordStands(bytes: seq<Byte>, start: nat, d: Rank, i: nat)
    requires Stands(bytes, start, d) && i < |d.nodes|
    ensures Fits(d) && i < |d.counts|
    ensures HasAt(bytes, start + 8 + 4 * |d.roots| + NODE_BYTES * i, Record(d.nodes[i], d.counts[i], |Targets(d.nodes, i)|))
  {
    hide Record, Encode, Records, Words, RankBytes, HasAt, WellFormed;
    RankParts(bytes, start, d);
    RecordAt(bytes, start + 8 + 4 * |d.roots|, d, |d.nodes|, i);
  }

  /** A word of the appendix. */
  lemma TargetStands(bytes: seq<Byte>, start: nat, d: Rank, i: nat)
    requires Stands(bytes, start, d) && i < |Targets(d.nodes, |d.nodes|)| && Targets(d.nodes, |d.nodes|)[i] < LIMIT32
    ensures var pos := start + 8 + 4 * |d.roots| + NODE_BYTES * |d.nodes| + 4 * i;
      pos + 4 <= |bytes| && Decode(bytes[pos..pos + 4]) == Targets(d.nodes, |d.nodes|)[i]
  {
    hide Record, Encode, Records, Words, RankBytes, HasAt, WellFormed, Decode, Targets;
    var all, words := Targets(d.nodes, |d.nodes|), start + 8 + 4 * |d.roots| + NODE_BYTES * |d.nodes|;
    RankParts(bytes, start, d);
    WordAt(bytes, words, all, i);
    Limits();
    Within(bytes, words + 4 * i, Encode(all[i], 4));
    Reads(bytes, words + 4 * i, all[i], 4);
  }

  lemma TargetsInRange(bytes: seq<Byte>, start: nat, d: Rank, i: nat, j: nat)
    requires Stands(bytes, start, d) && i < |d.nodes|
    ensures |d.nodes| < LIMIT32
    ensures j < |d.nodes[i].dependOnMe| ==> d.nodes[i].dependOnMe[j] < |d.nodes|
    ensures j < |d.nodes[i].startDependOnMe| ==> d.nodes[i].startDependOnMe[j] < |d.nodes|
  {
    hide HasAt, RankBytes, Targets;
    assert InRange(d.nodes[i].dependOnMe, |d.nodes|) && InRange(d.nodes[i].startDependOnMe, |d.nodes|);
  }

  /** The targets of a node are read from the appendix. */
  lemma TargetsRead(bytes: seq<Byte>, start: nat, d: Rank, i: nat, j: nat)
    requires Stands(bytes, start, d) && i < |d.nodes|
    ensures var n, words, apdx := d.nodes[i], start + 8 + 4 * |d.roots| + NODE_BYTES * |d.nodes|, |Targets(d.nodes, i)|;
      && (j < |n.dependOnMe| ==> var pos := words + 4 * (apdx + j);
            pos + 4 <= |bytes| && Decode(bytes[pos..pos + 4]) == n.dependOnMe[j] < |d.nodes|)
      && (j < |n.startDependOnMe| ==> var pos := words + 4 * (apdx + |n.dependOnMe| + j);
            pos + 4 <= |bytes| && Decode(bytes[pos..pos + 4]) == n.startDependOnMe[j] < |d.nodes|)
  {
    var n, apdx := d.nodes[i], |Targets(d.nodes, i)|;
    TargetsInRange(bytes, start, d, i, j);
    hide Stands, Decode, Targets, WellFormed, Fits, InRange, Limit;
    TargetsAt(d.nodes, |d.nodes|, i, j);
    if j < |n.dependOnMe| {
      TargetStands(bytes, start, d, apdx + j);
    }
    if j < |n.startDependOnMe| {
      TargetStands(bytes, start, d, apdx + |n.dependOnMe| + j);
    }
  }

  lemma Within(bytes: seq<Byte>, pos: nat, part: seq<Byte>)
    requires HasAt(bytes, pos, part)
    ensures pos + |part| <= |bytes|
  {
  }

  lemma {:induction false} DegreesFit(nodes: seq<Node>, i: nat, k: nat)
    requires i < k <= |nodes|
    ensures |Targets(nodes, i)| + |nodes[i].dependOnMe| + |nodes[i].startDependOnMe| <= |Targets(nodes, k)|
    decreases k
  {
    if i < k - 1 {
      DegreesFit(nodes, i, k - 1);
    }
  }

  lemma NodeFits(d: Rank, i: nat)
    requires Fits(d) && i < |d.nodes|
    ensures |d.counts| == |d.nodes| && d.counts[i] < LIMIT32 && |Targets(d.nodes, |d.nodes|)| < LIMIT32
    ensures d.nodes[i].peer < LIMIT32 && d.nodes[i].size < LIMIT64 && d.nodes[i].tag < LIMIT32
    ensures d.nodes[i].proc < 256 && d.nodes[i].nic < 256
  {
  }

  /** What is read at the places of the fields is what was written. */
  lemma FieldsRead(bytes: seq<Byte>, pos: nat, d: Rank, i: nat)
    requires Fits(d) && i < |d.nodes|
    requires HasAt(bytes, pos, Record(d.nodes[i], d.counts[i], |Targets(d.nodes, i)|))
    ensures pos + NODE_BYTES <= |bytes|
    ensures var n, apdx := d.nodes[i], |Targets(d.nodes, i)|;
      && Decode(bytes[pos..pos + 4]) == d.counts[i]
      && Decode(bytes[pos + 4..pos + 5]) == TypeCode(n.kind)
      && Decode(bytes[pos + 5..pos + 9]) == n.peer
      && Decode(bytes[pos + 9..pos + 17]) == n.size
      && Decode(bytes[pos + 17..pos + 21]) == n.tag
      && Decode(bytes[pos + 21..pos + 22]) == n.proc
      && Decode(bytes[pos + 22..pos + 23]) == n.nic
      && Decode(bytes[pos + 23..pos + 27]) == |n.dependOnMe|
      && Decode(bytes[pos + 27..pos + 31]) == apdx
      && Decode(bytes[pos + 31..pos + 35]) == |n.startDependOnMe|
      && Decode(bytes[pos + 35..pos + 39]) == apdx + |n.dependOnMe|
  {
    NodeFits(d, i);
    hide Encode, HasAt, Decode, Record, Limit, Fits, Targets;
    Within(bytes, pos, Record(d.nodes[i], d.counts[i], |Targets(d.nodes, i)|));
    DegreesFit(d.nodes, i, |d.nodes|);
    ValuesRead(bytes, pos, d.nodes[i], d.counts[i], |Targets(d.nodes, i)|);
    EdgesRead(bytes, pos, d.nodes[i], d.counts[i], |Targets(d.nodes, i)|);
  }

  lemma ValuesRead(bytes: seq<Byte>, pos: nat, n: Node, count: nat, apdx: nat)
    requires count < LIMIT32 && n.peer < LIMIT32 && n.size < LIMIT64 && n.tag < LIMIT32 && n.proc < 256 && n.nic < 256
    requires HasAt(bytes, pos, Record(n, count, apdx)) && pos + NODE_BYTES <= |bytes|
    ensures Decode(bytes[pos..pos + 4]) == count && Decode(bytes[pos + 4..pos + 5]) == TypeCode(n.kind)
    ensures Decode(bytes[pos + 5..pos + 9]) == n.peer && Decode(bytes[pos + 9..pos + 17]) == n.size
    ensures Decode(bytes[pos + 17..pos + 21]) == n.tag && Decode(bytes[pos + 21..pos + 22]) == n.proc
    ensures Decode(bytes[pos + 22..pos + 23]) == n.nic
  {
    hide Encode, HasAt, Decode, Record, Limit;
    RecordParts(bytes, pos, n, count, apdx);
    Limits();
    Reads(bytes, pos, count, 4);
    Reads(bytes, pos + 4, TypeCode(n.kind), 1);
    Reads(bytes, pos + 5, n.peer, 4);
    Reads(bytes, pos + 9, n.size, 8);
    Reads(bytes, pos + 17, n.tag, 4);
    Reads(bytes, pos + 21, n.proc, 1);
    Reads(bytes, pos + 22, n.nic, 1);
  }

  lemma EdgesRead(bytes: seq<Byte>, pos: nat, n: Node, count: nat, apdx: nat)
    requires n.proc < 256 && n.nic < 256 && apdx + |n.dependOnMe| + |n.startDependOnMe| < LIMIT32
    requires HasAt(bytes, pos, Record(n, count, apdx)) && pos + NODE_BYTES <= |bytes|
    ensures Decode(bytes[pos + 23..pos + 27]) == |n.dependOnMe| && Decode(bytes[pos + 27..pos + 31]) == apdx
    ensures Decode(bytes[pos + 31..pos + 35]) == |n.startDependOnMe|
    ensures Decode(bytes[pos + 35..pos + 39]) == apdx + |n.dependOnMe|
  {
    hide Encode, HasAt, Decode, Record, Limit;
    RecordParts(bytes, pos, n, count, apdx);
    Limits();
    Reads(bytes, pos + 23, |n.dependOnMe|, 4);
    Reads(bytes, pos + 27, apdx, 4);
    Reads(bytes, pos + 31, |n.startDependOnMe|, 4);
    Reads(bytes, pos + 35, apdx + |n.dependOnMe|, 4);
  }

  /** Words that are read back as these numbers. */
  predicate Listed(bytes: seq<Byte>, pos: nat, targets: seq<nat>) {
    forall j: nat :: j < |targets| ==> ListedAt(bytes, pos, targets, j)
  }

  predicate ListedAt(bytes: seq<Byte>, pos: nat, targets: seq<nat>, j: nat)
    requires j < |targets|
  {
    pos + 4 * j + 4 <= |bytes| && Decode(bytes[pos + 4 * j..pos + 4 * j + 4]) == targets[j]
  }

  lemma TargetsListed(bytes: seq<Byte>, start: nat, d: Rank, i: nat)
    requires Stands(bytes, start, d) && i < |d.nodes|
    ensures var n, words, apdx := d.nodes[i], start + 8 + 4 * |d.roots| + NODE_BYTES * |d.nodes|, |Targets(d.nodes, i)|;
      Listed(bytes, words + 4 * apdx, n.dependOnMe) && Listed(bytes, words + 4 * (apdx + |n.dependOnMe|), n.startDependOnMe)
  {
    hide Stands, Decode, Targets;
    var n, words, apdx := d.nodes[i], start + 8 + 4 * |d.roots| + NODE_BYTES * |d.nodes|, |Targets(d.nodes, i)|;
    var deps, startDeps := words + 4 * apdx, words + 4 * (apdx + |n.dependOnMe|);
    forall j: nat | j < |n.dependOnMe|
      ensures ListedAt(bytes, deps, n.dependOnMe, j)
    {
      TargetsRead(bytes, start, d, i, j);
      assert words + 4 * (apdx + j) == words + 4 * apdx + 4 * j;
    }
    forall j: nat | j < |n.startDependOnMe|
      ensures ListedAt(bytes, startDeps, n.startDependOnMe, j)
    {
      TargetsRead(bytes, start, d, i, j);
      assert words + 4 * (apdx + |n.dependOnMe| + j) == words + 4 * (apdx + |n.dependOnMe|) + 4 * j;
    }
  }

  // ---- reading anything at all ----

  /** What get_node_by_offset comes to: it refuses the offset, fails on the way (an assertion, or
      a read behind the end of the file), or returns what it read. */
  datatype Answer = Refused | Failed | Found(node: Loaded)

  /** Word i of a node's targets; the index has 32 bits. */
  function WordPos(apdx: nat, from: nat, i: nat): nat {
    apdx + 4 * ((from + i) % LIMIT32)
  }

  predicate Readable(bytes: seq<Byte>, apdx: nat, from: nat, count: nat) {
    forall i {:trigger WordPos(apdx, from, i)} :: 0 <= i < count ==> WordPos(apdx, from, i) + 4 <= |bytes|
  }

  function ReadWords(bytes: seq<Byte>, apdx: nat, from: nat, count: nat): (r: seq<nat>)
    requires Readable(bytes, apdx, from, count)
    ensures |r| == count
  {
    seq(count, i requires 0 <= i < count => Decode(bytes[WordPos(apdx, from, i)..WordPos(apdx, from, i) + 4]))
  }

  function Num(bytes: seq<Byte>, pos: nat, k: nat): nat
    requires pos + k <= |bytes|
  {
    Decode(bytes[pos..pos + k])
  }

  predicate AllBelow(s: seq<nat>, bound: nat) {
    forall i :: 0 <= i < |s| ==> s[i] < bound
  }

  /** The fixed part of a record. */
  function RawFields(bytes: seq<Byte>, at: nat, offset: nat): Loaded
    requires at + NODE_BYTES <= |bytes|
  {
    Loaded(offset, Num(bytes, at, 4), Num(bytes, at + 4, 1), Num(bytes, at + 5, 4), Num(bytes, at + 9, 8),
           Num(bytes, at + 17, 4), Num(bytes, at + 21, 1), Num(bytes, at + 22, 1), [], [])
  }

  /** The record with its targets, if all can be read and those to be completed are nodes. */
  function WithTargets(bytes: seq<Byte>, n: Loaded, apdx: nat, deps: nat, numDeps: nat, starts: nat, numStarts: nat, numNodes: nat): Answer {
    if Readable(bytes, apdx, deps, numDeps) && AllBelow(ReadWords(bytes, apdx, deps, numDeps), numNodes)
       && Readable(bytes, apdx, starts, numStarts)
    then Found(n.(dependOnMe := ReadWords(bytes, apdx, deps, numDeps), startDependOnMe := ReadWords(bytes, apdx, starts, numStarts)))
    else Failed
  }

  /** What the bytes at position `at` amount to when they are taken for a node. */
  function Raw(bytes: seq<Byte>, at: nat, apdx: nat, offset: nat, numNodes: nat): Answer {
    if at + NODE_BYTES > |bytes| then Failed
    else
      WithTargets(bytes, RawFields(bytes, at, offset), apdx, Num(bytes, at + 27, 4), Num(bytes, at + 23, 4),
                  Num(bytes, at + 35, 4), Num(bytes, at + 31, 4), numNodes)
  }

  lemma ListedWords(bytes: seq<Byte>, apdx: nat, from: nat, targets: seq<nat>)
    requires Listed(bytes, apdx + 4 * from, targets) && from + |targets| < LIMIT32
    ensures Readable(bytes, apdx, from, |targets|) && ReadWords(bytes, apdx, from, |targets|) == targets
  {
    hide Decode;
    forall i | 0 <= i < |targets|
      ensures WordPos(apdx, from, i) + 4 <= |bytes|
      ensures Decode(bytes[WordPos(apdx, from, i)..WordPos(apdx, from, i) + 4]) == targets[i]
    {
      assert ListedAt(bytes, apdx + 4 * from, targets, i);
      assert WordPos(apdx, from, i) == apdx + 4 * from + 4 * i;
    }
  }

  /** The bytes of a node amount to that node. */
  lemma RawIsOriginal(bytes: seq<Byte>, start: nat, d: Rank, offset: nat)
    requires Stands(bytes, start, d) && offset < |d.nodes|
    ensures |d.nodes| == |d.counts|
    ensures var records := start + 8 + 4 * |d.roots|;
      Raw(bytes, records + NODE_BYTES * offset, records + NODE_BYTES * |d.nodes|, offset, |d.nodes|) == Found(Original(d, offset))
  {
    hide Stands, Decode, Targets, Fits, Record, RankBytes, Encode, HasAt, WellFormed, WithTargets;
    StandsFits(bytes, start, d);
    RecordStands(bytes, start, d, offset);
    FieldsRead(bytes, start + 8 + 4 * |d.roots| + NODE_BYTES * offset, d, offset);
    TargetsRaw(bytes, start, d, offset, Original(d, offset).(dependOnMe := [], startDependOnMe := []));
  }

  lemma TargetsRaw(bytes: seq<Byte>, start: nat, d: Rank, offset: nat, n: Loaded)
    requires Stands(bytes, start, d) && offset < |d.nodes|
    ensures var node, from, apdx := d.nodes[offset], |Targets(d.nodes, offset)|, start + 8 + 4 * |d.roots| + NODE_BYTES * |d.nodes|;
      WithTargets(bytes, n, apdx, from, |node.dependOnMe|, from + |node.dependOnMe|, |node.startDependOnMe|, |d.nodes|)
      == Found(n.(dependOnMe := node.dependOnMe, startDependOnMe := node.startDependOnMe))
  {
    hide Stands, Decode, Targets, Fits, WellFormed, Listed, Readable, ReadWords;
    var node, from := d.nodes[offset], |Targets(d.nodes, offset)|;
    var apdx := start + 8 + 4 * |d.roots| + NODE_BYTES * |d.nodes|;
    forall j | 0 <= j < |node.dependOnMe|
      ensures node.dependOnMe[j] < |d.nodes|
    {
      TargetsInRange(bytes, start, d, offset, j);
    }
    TargetsFit(bytes, start, d);
    TargetsListed(bytes, start, d, offset);
    DegreesFit(d.nodes, offset, |d.nodes|);
    ListedWords(bytes, apdx, from, node.dependOnMe);
    ListedWords(bytes, apdx, from + |node.dependOnMe|, node.startDependOnMe);
  }

  lemma TargetsFit(bytes: seq<Byte>, start: nat, d: Rank)
    requires Stands(bytes, start, d)
    ensures |Targets(d.nodes, |d.nodes|)| < LIMIT32
  {
  }

  /** The offset just behind the last node is let through, and the appendix is taken for a node:
      its first edge target for the counter, and so on. */
  lemma RawBehindLast(bytes: seq<Byte>, start: nat, d: Rank)
    requires Stands(bytes, start, d)
    ensures var apdx := start + 8 + 4 * |d.roots| + NODE_BYTES * |d.nodes|;
      var r, words := Raw(bytes, apdx, apdx, |d.nodes|, |d.nodes|), Targets(d.nodes, |d.nodes|);
      && (r.Found? && |words| >= 1 ==> r.node.count == words[0])
      && (|bytes| < apdx + NODE_BYTES ==> r == Failed)
  {
    var words := Targets(d.nodes, |d.nodes|);
    if |words| >= 1 {
      AllTargetsBelow(bytes, start, d, |d.nodes|);
      hide Stands, Decode, Targets, Fits, RankBytes, WellFormed;
      TargetStands(bytes, start, d, 0);
    }
  }

  lemma {:induction false} AllTargetsBelow(bytes: seq<Byte>, start: nat, d: Rank, k: nat)
    requires Stands(bytes, start, d) && k <= |d.nodes|
    ensures AllBelow(Targets(d.nodes, k), |d.nodes|) && |d.nodes| < LIMIT32
  {
    hide HasAt, RankBytes;
    if k > 0 {
      AllTargetsBelow(bytes, start, d, k - 1);
      assert InRange(d.nodes[k - 1].dependOnMe, |d.nodes|) && InRange(d.nodes[k - 1].startDependOnMe, |d.nodes|);
    }
  }

  /** The parts of the file that opening a rank's schedule reads. */
  lemma Opened(bytes: seq<Byte>, rank: nat, ranks: seq<Rank>, numRanks: nat, maxCpu: nat, maxNic: nat)
    requires Holds(bytes, ranks, numRanks, maxCpu, maxNic) && rank < |ranks| && WellFormed(ranks[rank].nodes)
    requires |bytes| < LIMIT64
    ensures var d, start, jump := ranks[rank], Start(ranks, numRanks, rank), COOKIE_BYTES + HEADER_BYTES + JUMP_BYTES * rank;
      && jump + 8 <= |bytes| && Decode(bytes[jump..jump + 8]) == start
      && Stands(bytes, COOKIE_BYTES + start, d) && |RankBytes(d)| >= 8
  {
    hide Encode, HasAt, Decode, RankBytes, Limit, Start, Fits, WellFormed;
    var start, jump := Start(ranks, numRanks, rank), COOKIE_BYTES + HEADER_BYTES + JUMP_BYTES * rank;
    assert HoldsPart(bytes, rank, start, ranks[rank]);
    StartMonotone(ranks, numRanks, rank, |ranks|);
    Limits();
    Within(bytes, jump, Encode(start, 8));
    Reads(bytes, jump, start, 8);
  }

  /** The sizes and the roots in front of a rank's data. */
  lemma SizesRead(bytes: seq<Byte>, start: nat, d: Rank, i: nat)
    requires Stands(bytes, start, d)
    ensures start + 8 + 4 * |d.roots| <= |bytes| && |d.roots| <= |d.nodes|
    ensures Decode(bytes[start..start + 4]) == |d.nodes| && Decode(bytes[start + 4..start + 8]) == |d.roots|
    ensures i < |d.roots| ==> d.roots[i] < |d.nodes| && Decode(bytes[start + 8 + 4 * i..start + 8 + 4 * i + 4]) == d.roots[i]
  {
    hide Encode, HasAt, Decode, RankBytes, Limit, WellFormed, Records, Words, Targets;
    RankParts(bytes, start, d);
    Limits();
    Reads(bytes, start, |d.nodes|, 4);
    Reads(bytes, start + 4, |d.roots|, 4);
    Within(bytes, start + 8, Words(d.roots));
    if i < |d.roots| {
      WordAt(bytes, start + 8, d.roots, i);
      Reads(bytes, start + 8 + 4 * i, d.roots[i], 4);
    }
  }

  /** The nodes read for the first k roots. */
  predicate RootsRead(executable: seq<Loaded>, d: Rank, k: nat) {
    && |executable| == k <= |d.roots| && |d.nodes| == |d.counts|
    && forall i :: 0 <= i < k ==> d.roots[i] < |d.nodes| && executable[i] == Original(d, d.roots[i])
  }

  /** The rank with one counter set. */
  function WithCount(d: Rank, i: nat, v: nat): Rank
    requires i < |d.counts|
  {
    d.(counts := d.counts[i := v])
  }

  /** A counter stored in its record changes that record alone. */
  lemma {:induction false} RecordsPatched(before: seq<Byte>, after: seq<Byte>, pos: nat, d: Rank, i: nat, v: nat, k: nat)
    requires Fits(d) && i < |d.nodes| && v < LIMIT32 && k <= |d.nodes|
    requires HasAt(before, pos, Records(d, k)) && Stored(before, after, pos + NODE_BYTES * i, v, 4)
    ensures Fits(WithCount(d, i, v)) && HasAt(after, pos, Records(WithCount(d, i, v), k))
    decreases k
  {
    hide HasAt, Record, Encode, Stored, SameFrom;
    PutKeeps(before, after, pos + NODE_BYTES * i, v, 4);
    if k > 0 {
      var node, count, apdx := d.nodes[k - 1], d.counts[k - 1], |Targets(d.nodes, k - 1)|;
      var at := pos + NODE_BYTES * (k - 1);
      HasBoth(before, pos, Records(d, k - 1), Record(node, count, apdx));
      RecordsPatched(before, after, pos, d, i, v, k - 1);
      if k - 1 == i {
        RecordPatched(before, after, at, node, count, apdx, v);
      } else if k - 1 < i {
        StillHas(before, after, 0, pos + NODE_BYTES * i, at, Record(node, count, apdx));
      } else {
        Within(before, at, Record(node, count, apdx));
        StillHas(before, after, pos + NODE_BYTES * i + 4, |before|, at, Record(node, count, apdx));
      }
      HasBoth(after, pos, Records(WithCount(d, i, v), k - 1), Record(node, if k - 1 == i then v else count, apdx));
    } else {
      NoRecords(before, after, pos, d, WithCount(d, i, v));
    }
  }

  lemma NoRecords(before: seq<Byte>, after: seq<Byte>, pos: nat, d: Rank, e: Rank)
    requires Fits(d) && Fits(e) && HasAt(before, pos, Records(d, 0)) && |before| == |after|
    ensures HasAt(after, pos, Records(e, 0))
  {
  }

  lemma RecordPatched(before: seq<Byte>, after: seq<Byte>, pos: nat, node: Node, count: nat, apdx: nat, v: nat)
    requires node.proc < 256 && node.nic < 256
    requires HasAt(before, pos, Record(node, count, apdx)) && Stored(before, after, pos, v, 4)
    ensures HasAt(after, pos, Record(node, v, apdx))
  {
    hide HasAt, Encode, Stored, SameFrom, Record;
    PutKeeps(before, after, pos, v, 4);
    Within(before, pos, Record(node, count, apdx));
    RecordParts(before, pos, node, count, apdx);
    RecordParts(after, pos, node, v, apdx);
    var lo, hi := pos + 4, |before|;
    StillHas(before, after, lo, hi, pos + 4, Encode(TypeCode(node.kind), 1));
    StillHas(before, after, lo, hi, pos + 5, Encode(node.peer, 4));
    StillHas(before, after, lo, hi, pos + 9, Encode(node.size, 8));
    StillHas(before, after, lo, hi, pos + 17, Encode(node.tag, 4));
    StillHas(before, after, lo, hi, pos + 21, Encode(node.proc, 1));
    StillHas(before, after, lo, hi, pos + 22, Encode(node.nic, 1));
    StillHas(before, after, lo, hi, pos + 23, Encode(|node.dependOnMe|, 4));
    StillHas(before, after, lo, hi, pos + 27, Encode(apdx, 4));
    StillHas(before, after, lo, hi, pos + 31, Encode(|node.startDependOnMe|, 4));
    StillHas(before, after, lo, hi, pos + 35, Encode(apdx + |node.dependOnMe|, 4));
  }

  /** Where the counter of node i is kept. */
  function CounterAt(start: nat, d: Rank, i: nat): nat {
    start + 8 + 4 * |d.roots| + NODE_BYTES * i
  }

  /** Counting down in the file is counting down in the schedule. */
  lemma CounterStored(before: seq<Byte>, after: seq<Byte>, start: nat, d: Rank, i: nat, v: nat)
    requires Stands(before, start, d) && i < |d.nodes| && v < LIMIT32
    requires Stored(before, after, CounterAt(start, d, i), v, 4)
    ensures |d.counts| == |d.nodes| && Stands(after, start, WithCount(d, i, v))
  {
    hide HasAt, Encode, Stored, SameFrom, Records, Words, Targets, RankBytes, WellFormed;
    var pos, records, n := CounterAt(start, d, i), start + 8 + 4 * |d.roots|, |d.nodes|;
    PutKeeps(before, after, pos, v, 4);
    RankParts(before, start, d);
    RecordsPatched(before, after, records, d, i, v, n);
    RankParts(after, start, WithCount(d, i, v));
    StillHas(before, after, 0, pos, start, Encode(n, 4));
    StillHas(before, after, 0, pos, start + 4, Encode(|d.roots|, 4));
    StillHas(before, after, 0, pos, start + 8, Words(d.roots));
    Within(before, records + NODE_BYTES * n, Words(Targets(d.nodes, n)));
    StillHas(before, after, pos + 4, |before|, records + NODE_BYTES * n, Words(Targets(d.nodes, n)));
  }

  lemma {:induction false} StartSame(ranks: seq<Rank>, d: Rank, q: nat, numRanks: nat, r: nat)
    requires q < |ranks| && AllFit(ranks) && Fits(d) && AllFit(ranks[q := d]) && r <= |ranks|
    requires |RankBytes(d)| == |RankBytes(ranks[q])|
    ensures Start(ranks[q := d], numRanks, r) == Start(ranks, numRanks, r)
  {
    hide RankBytes, Fits;
    if r > 0 {
      StartSame(ranks, d, q, numRanks, r - 1);
    }
  }

  /** The other ranks in the file are not touched. */
  lemma CounterKeepsOthers(before: seq<Byte>, after: seq<Byte>, ranks: seq<Rank>, q: nat, i: nat, v: nat,
                           numRanks: nat, maxCpu: nat, maxNic: nat)
    requires Holds(before, ranks, numRanks, maxCpu, maxNic) && q < |ranks| && WellFormed(ranks[q].nodes)
    requires i < |ranks[q].nodes| && v < LIMIT32
    requires Stored(before, after, CounterAt(COOKIE_BYTES + Start(ranks, numRanks, q), ranks[q], i), v, 4)
    ensures |ranks[q].counts| == |ranks[q].nodes|
    ensures Holds(after, ranks[q := WithCount(ranks[q], i, v)], numRanks, maxCpu, maxNic)
  {
    hide HasAt, Encode, Stored, SameFrom, RankBytes, WellFormed, Start, HoldsHeader;
    var start, d := Start(ranks, numRanks, q), ranks[q];
    var pos := CounterAt(COOKIE_BYTES + start, d, i);
    PutKeeps(before, after, pos, v, 4);
    assert HoldsPart(before, q, start, d);
    CounterStored(before, after, COOKIE_BYTES + start, d, i, v);
    var e := WithCount(d, i, v);
    var now := ranks[q := e];
    hide Fits;
    assert AllFit(now);
    StartSame(ranks, e, q, numRanks, |ranks|);
    StartMonotone(ranks, numRanks, 0, q);
    HeaderStays(before, after, pos, numRanks, maxCpu, maxNic);
    forall r: nat | r < |now|
      ensures HoldsPart(after, r, Start(now, numRanks, r), now[r])
    {
      StartSame(ranks, e, q, numRanks, r);
      assert HoldsPart(before, r, Start(ranks, numRanks, r), ranks[r]);
      OtherStays(before, after, ranks, q, i, v, numRanks, r);
    }
  }

  lemma HeaderStays(before: seq<Byte>, after: seq<Byte>, pos: nat, numRanks: nat, maxCpu: nat, maxNic: nat)
    requires SameFrom(before, after, 0, pos) && COOKIE_BYTES + HEADER_BYTES <= pos
    requires HoldsHeader(before, numRanks, maxCpu, maxNic) && HasAt(before, 0, Encode(MAGIC_COOKIE, 8))
    ensures HoldsHeader(after, numRanks, maxCpu, maxNic) && HasAt(after, 0, Encode(MAGIC_COOKIE, 8))
  {
    hide HasAt, Encode, SameFrom;
    StillHas(before, after, 0, pos, 0, Encode(MAGIC_COOKIE, 8));
    StillHas(before, after, 0, pos, COOKIE_BYTES, Encode(numRanks, 4));
    StillHas(before, after, 0, pos, COOKIE_BYTES + 4, Encode(maxCpu, 1));
    StillHas(before, after, 0, pos, COOKIE_BYTES + 5, Encode(maxNic, 1));
  }

  /** Rank r's entry and, unless it is the rank itself, its data are outside the counter. */
  lemma OtherStays(before: seq<Byte>, after: seq<Byte>, ranks: seq<Rank>, q: nat, i: nat, v: nat, numRanks: nat, r: nat)
    requires AllFit(ranks) && q < |ranks| <= numRanks && r < |ranks| && i < |ranks[q].nodes|
    requires HoldsPart(before, r, Start(ranks, numRanks, r), ranks[r])
    requires var pos := CounterAt(COOKIE_BYTES + Start(ranks, numRanks, q), ranks[q], i);
      SameFrom(before, after, 0, pos) && SameFrom(before, after, pos + 4, |before|)
    ensures var start, end := Start(ranks, numRanks, r), Start(ranks, numRanks, r) + |RankBytes(ranks[r])|;
      && HoldsJump(after, r, start, end)
      && (r != q ==> HoldsPart(after, r, start, ranks[r]))
  {
    hide HasAt, Encode, SameFrom, Start, RankBytes, Fits, Words, Records;
    var start := Start(ranks, numRanks, r);
    var pos := CounterAt(COOKIE_BYTES + Start(ranks, numRanks, q), ranks[q], i);
    StartMonotone(ranks, numRanks, 0, q);
    StillHas(before, after, 0, pos, COOKIE_BYTES + HEADER_BYTES + JUMP_BYTES * r, Encode(start, 8));
    StillHas(before, after, 0, pos, COOKIE_BYTES + HEADER_BYTES + JUMP_BYTES * r + 8, Encode(start + |RankBytes(ranks[r])|, 8));
    StartNext(ranks, numRanks, r);
    StartNext(ranks, numRanks, q);
    if r < q {
      StartMonotone(ranks, numRanks, r + 1, q);
      StillHas(before, after, 0, pos, COOKIE_BYTES + start, RankBytes(ranks[r]));
    } else if q < r {
      StartMonotone(ranks, numRanks, q + 1, r);
      Within(before, COOKIE_BYTES + start, RankBytes(ranks[r]));
      StillHas(before, after, pos + 4, |before|, COOKIE_BYTES + start, RankBytes(ranks[r]));
    }
  }

  lemma StandsFits(bytes: seq<Byte>, start: nat, d: Rank)
    requires Stands(bytes, start, d)
    ensures Fits(d) && |d.nodes| == |d.counts|
  {
  }

  class MappedGraph {
    const mapping: array<Byte>
    const start: nat
    const numNodes: nat
    const numRoots: nat
    var executable: seq<Loaded>

    /** The mapping holds this rank's data, and the sizes were read from it. */
    ghost predicate Reading(d: Rank)
      reads mapping
    {
      Stands(mapping[..], start, d) && numNodes == |d.nodes| && numRoots == |d.roots|
    }

    /** Open the schedule of one of the ranks in the file. */
    constructor (mapping: array<Byte>, rank: nat, ghost ranks: seq<Rank>, ghost numRanks: nat, ghost maxCpu: nat, ghost maxNic: nat)
      requires Holds(mapping[..], ranks, numRanks, maxCpu, maxNic) && rank < |ranks|
      requires mapping.Length < LIMIT64 && WellFormed(ranks[rank].nodes)
      ensures this.mapping == mapping && Reading(ranks[rank])
      ensures start == COOKIE_BYTES + Start(ranks, numRanks, rank)
      ensures RootsRead(executable, ranks[rank], |ranks[rank].roots|)
    {
      hide Holds, Stands, WellFormed, RankBytes, Decode, Fits;
      ghost var d := ranks[rank];
      Opened(mapping[..], rank, ranks, numRanks, maxCpu, maxNic);
      var scheduleStart := Get(mapping, COOKIE_BYTES + HEADER_BYTES + JUMP_BYTES * rank, 8);
      this.mapping, start := mapping, COOKIE_BYTES + scheduleStart;
      SizesRead(mapping[..], COOKIE_BYTES + scheduleStart, d, 0);
      numNodes := Decode(mapping[COOKIE_BYTES + scheduleStart..COOKIE_BYTES + scheduleStart + 4]);
      numRoots := Decode(mapping[COOKIE_BYTES + scheduleStart + 4..COOKIE_BYTES + scheduleStart + 8]);
      executable := [];
      new;
      AddRootNodes(d);
    }

    method AddRootNodes(ghost d: Rank)
      requires Reading(d) && executable == []
      modifies this
      ensures Reading(d) && RootsRead(executable, d, |d.roots|)
    {
      hide Stands, Decode, Raw, Original;
      assert |d.nodes| == |d.counts| by { StandsFits(mapping[..], start, d); }
      SizesRead(mapping[..], start, d, 0);
      for cnt := 0 to numRoots
        invariant RootsRead(executable, d, cnt)
      {
        SizesRead(mapping[..], start, d, cnt);
        var offset := Get(mapping, start + 8 + 4 * cnt, 4);
        var n := GetNodeByOffset(offset);
        executable := executable + [n.node];
      }
    }

    /** The targets of a node, if all can be read and, where that is asked for, are nodes. */
    method GetTargets(apdx: nat, from: nat, count: nat, nodesOnly: bool) returns (ok: bool, targets: seq<nat>)
      ensures ok <==> Readable(mapping[..], apdx, from, count)
                      && (nodesOnly ==> AllBelow(ReadWords(mapping[..], apdx, from, count), numNodes))
      ensures ok ==> targets == ReadWords(mapping[..], apdx, from, count)
    {
      hide Decode;
      ok, targets := true, [];
      for cnt := 0 to count
        invariant ok && Readable(mapping[..], apdx, from, cnt) && targets == ReadWords(mapping[..], apdx, from, cnt)
        invariant nodesOnly ==> AllBelow(targets, numNodes)
      {
        var pos := WordPos(apdx, from, cnt);
        if pos + 4 > mapping.Length {
          return false, [];
        }
        var target := Get(mapping, pos, 4);
        if nodesOnly && target >= numNodes {
          assert Readable(mapping[..], apdx, from, count) ==> ReadWords(mapping[..], apdx, from, count)[cnt] == target;
          return false, [];
        }
        targets := targets + [target];
      }
    }

    /** The fixed part of a record, and how many targets follow from where. */
    method GetFields(node: nat, offset: nat) returns (n: Loaded, numDeps: nat, depsStart: nat, numStartDeps: nat, startDepsStart: nat)
      requires node + NODE_BYTES <= mapping.Length
      ensures n == RawFields(mapping[..], node, offset)
      ensures numDeps == Num(mapping[..], node + 23, 4) && depsStart == Num(mapping[..], node + 27, 4)
      ensures numStartDeps == Num(mapping[..], node + 31, 4) && startDepsStart == Num(mapping[..], node + 35, 4)
    {
      hide Decode;
      var count := Get(mapping, node, 4);
      var typeCode := Get(mapping, node + 4, 1);
      var peer := Get(mapping, node + 5, 4);
      var size := Get(mapping, node + 9, 8);
      var tag := Get(mapping, node + 17, 4);
      var proc := Get(mapping, node + 21, 1);
      var nic := Get(mapping, node + 22, 1);
      n := Loaded(offset, count, typeCode, peer, size, tag, proc, nic, [], []);
      numDeps := Get(mapping, node + 23, 4);
      depsStart := Get(mapping, node + 27, 4);
      numStartDeps := Get(mapping, node + 31, 4);
      startDepsStart := Get(mapping, node + 35, 4);
    }

    /** Offsets beyond the number of nodes are refused; any other is read, and every node is read
        back with its fields, its targets and its counter. */
    method GetNodeByOffset(offset: nat) returns (r: Answer)
      ensures r == if offset > numNodes then Refused
                   else Raw(mapping[..], RecordsAt() + NODE_BYTES * offset, RecordsAt() + NODE_BYTES * numNodes, offset, numNodes)
      ensures forall d :: Reading(d) && offset < numNodes ==> |d.nodes| == |d.counts| && r == Found(Original(d, offset))
    {
      hide Decode, Stands, Readable, ReadWords, Raw, Num, RawFields;
      forall d | Reading(d) && offset < numNodes
        ensures |d.nodes| == |d.counts|
        ensures Raw(mapping[..], RecordsAt() + NODE_BYTES * offset, RecordsAt() + NODE_BYTES * numNodes, offset, numNodes)
             == Found(Original(d, offset))
      {
        RawIsOriginal(mapping[..], start, d, offset);
      }
      r := if offset > numNodes then Refused else Failed;
      if offset <= numNodes {
        r := Read(offset);
      }
    }

    /** Whatever stands where the node would be. */
    method Read(offset: nat) returns (r: Answer)
      ensures r == Raw(mapping[..], RecordsAt() + NODE_BYTES * offset, RecordsAt() + NODE_BYTES * numNodes, offset, numNodes)
    {
      hide Decode, Readable, ReadWords, Num, RawFields;
      r := Failed;
      var node, apdx := RecordsAt() + NODE_BYTES * offset, RecordsAt() + NODE_BYTES * numNodes;
      if node + NODE_BYTES <= mapping.Length {
        var n, numDeps, depsStart, numStartDeps, startDepsStart := GetFields(node, offset);
        var ok, dependOnMe := GetTargets(apdx, depsStart, numDeps, true);
        if ok {
          var startDependOnMe: seq<nat>;
          ok, startDependOnMe := GetTargets(apdx, startDepsStart, numStartDeps, false);
          if ok {
            r := Found(n.(dependOnMe := dependOnMe, startDependOnMe := startDependOnMe));
          }
        }
      }
    }

    /** Where the records begin. */
    function RecordsAt(): nat {
      start + 8 + 4 * numRoots
    }

    /** One dependency of a node is satisfied: its counter in the file goes down by one, and from
        zero around to the largest value of 32 bits. */
    method DecrementCounter(offset: nat, ghost d: Rank) returns (count: nat)
      requires Reading(d) && offset < numNodes
      modifies mapping
      ensures offset < |d.counts| && count == Decrement(d.counts[offset]) && Reading(WithCount(d, offset, count))
      ensures Stored(old(mapping[..]), mapping[..], CounterAt(start, d, offset), count, 4)
    {
      hide Stands, Decode, Fits, Stored, WellFormed;
      StandsFits(mapping[..], start, d);
      var depCnt := start + 8 + 4 * numRoots + NODE_BYTES * offset;
      CounterRead(mapping[..], start, d, offset);
      var was := Get(mapping, depCnt, 4);
      count := Decrement(was);
      ghost var before := mapping[..];
      var pos := Put(mapping, depCnt, count, 4);
      CounterStored(before, mapping[..], start, d, offset, count);
    }
  }

  lemma CounterRead(bytes: seq<Byte>, start: nat, d: Rank, i: nat)
    requires Stands(bytes, start, d) && i < |d.nodes|
    ensures var pos := CounterAt(start, d, i);
      pos + 4 <= |bytes| && i < |d.counts| && Decode(bytes[pos..pos + 4]) == d.counts[i] < LIMIT32
  {
    hide RankBytes, HasAt, Record, Records, Decode, WellFormed;
    RecordStands(bytes, start, d, i);
    FieldsRead(bytes, CounterAt(start, d, i), d, i);
  }
}
