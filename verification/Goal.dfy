/** The schedule under construction (class Goal in schedgen.hpp and schedgen.cpp). */
module Goal {

  datatype GoalOp = Send(size: nat, dest: nat, tag: nat) | Recv(size: nat, src: nat, tag: nat) | Exec(time: nat)

  /** "l<tail> requires l<head>", or "irequires" if immediate. */
  datatype Edge = Edge(tail: nat, head: nat, immediate: bool)

  /** Label l<k> names ops[k - 1].  `start` and `end` hold the operations of the current
      collective that nothing inside it precedes or follows. */
  datatype Book = Book(ops: seq<GoalOp>, reqs: seq<Edge>, tag: nat, start: set<nat>, end: set<nat>)

  /** The label of the operation added last. */
  function Last(b: Book): nat {
    |b.ops|
  }

  function AddSend(b: Book, size: nat, dest: nat): Book {
    var id := |b.ops| + 1;
    b.(ops := b.ops + [Send(size, dest, b.tag)], start := b.start + {id}, end := b.end + {id})
  }

  function AddRecv(b: Book, size: nat, src: nat): Book {
    var id := |b.ops| + 1;
    b.(ops := b.ops + [Recv(size, src, b.tag)], start := b.start + {id}, end := b.end + {id})
  }

  function AddExec(b: Book, time: nat): Book {
    b.(ops := b.ops + [Exec(time)])
  }

  function AddEdge(b: Book, tail: nat, head: nat, immediate: bool): Book {
    b.(reqs := b.reqs + [Edge(tail, head, immediate)], start := b.start - {tail}, end := b.end - {head})
  }

  /** One communication of a chained collective: a send, a receive, or a fixed gap. */
  datatype Comm = To(peer: nat, size: nat) | From(peer: nat, size: nat) | Gap(time: nat)

  /** No label. */
  const NO_ID: int := -1

  /** Append communications, each send requiring the last receive or gap before it. */
  function Emit(b: Book, comms: seq<Comm>, prev: int): Book
    requires NO_ID <= prev
    decreases |comms|
  {
    if comms == [] then b
    else
      var (b1, prev1) := EmitOne(b, comms[0], prev);
      Emit(b1, comms[1..], prev1)
  }

  function EmitOne(b: Book, c: Comm, prev: int): (r: (Book, int))
    requires NO_ID <= prev
    ensures NO_ID <= r.1
  {
    match c
    case To(peer, size) =>
      var b1 := AddSend(b, size, peer);
      (if prev != NO_ID then AddEdge(b1, Last(b1), prev, false) else b1, prev)
    case From(peer, size) =>
      var b1 := AddRecv(b, size, peer);
      (b1, Last(b1))
    case Gap(time) =>
      var b1 := AddExec(b, time);
      (b1, Last(b1))
  }

  /** The label of the last receive or gap among the first k communications, which are
      labelled from base + 1 on, or prev. */
  function PrevAfter(comms: seq<Comm>, base: nat, prev: int, k: nat): (r: int)
    requires NO_ID <= prev && k <= |comms|
    ensures NO_ID <= r
  {
    if k == 0 then prev
    else if comms[k - 1].To? then PrevAfter(comms, base, prev, k - 1)
    else base + k
  }

  function OpOf(c: Comm, tag: nat): GoalOp {
    match c
    case To(peer, size) => Send(size, peer, tag)
    case From(peer, size) => Recv(size, peer, tag)
    case Gap(time) => Exec(time)
  }

  function OpsOf(comms: seq<Comm>, tag: nat): (r: seq<GoalOp>)
    ensures |r| == |comms| && forall i :: 0 <= i < |comms| ==> r[i] == OpOf(comms[i], tag)
  {
    seq(|comms|, i requires 0 <= i < |comms| => OpOf(comms[i], tag))
  }

  lemma {:induction false} EmitAppends(b: Book, one: seq<Comm>, two: seq<Comm>, prev: int)
    requires NO_ID <= prev
    ensures Emit(b, one + two, prev) == Emit(Emit(b, one, prev), two, PrevAfter(one, |b.ops|, prev, |one|))
    decreases |one|
  {
    if one == [] {
      assert one + two == two;
    } else {
      assert (one + two)[1..] == one[1..] + two;
      var (b1, prev1) := EmitOne(b, one[0], prev);
      EmitAppends(b1, one[1..], two, prev1);
      PrevShift(one, |b.ops|, prev, |one|);
    }
  }

  lemma {:induction false} PrevShift(comms: seq<Comm>, base: nat, prev: int, k: nat)
    requires NO_ID <= prev && 0 < k <= |comms|
    ensures PrevAfter(comms, base, prev, k)
         == PrevAfter(comms[1..], base + 1, if comms[0].To? then prev else base + 1, k - 1)
  {
    if k > 1 {
      PrevShift(comms, base, prev, k - 1);
    }
  }

  lemma {:induction false} PrevAppends(one: seq<Comm>, two: seq<Comm>, base: nat, prev: int, k: nat)
    requires NO_ID <= prev && k <= |two|
    ensures PrevAfter(one + two, base, prev, |one| + k)
         == PrevAfter(two, base + |one|, PrevAfter(one, base, prev, |one|), k)
  {
    if k > 0 {
      PrevAppends(one, two, base, prev, k - 1);
    } else {
      PrevPrefix(one, two, base, prev, |one|);
    }
  }

  lemma {:induction false} PrevPrefix(one: seq<Comm>, two: seq<Comm>, base: nat, prev: int, k: nat)
    requires NO_ID <= prev && k <= |one|
    ensures PrevAfter(one + two, base, prev, k) == PrevAfter(one, base, prev, k)
  {
    if k > 0 {
      PrevPrefix(one, two, base, prev, k - 1);
    }
  }

  lemma {:induction false} EmitCount(b: Book, comms: seq<Comm>, prev: int)
    requires NO_ID <= prev
    ensures |Emit(b, comms, prev).ops| == |b.ops| + |comms|
    decreases |comms|
  {
    if comms != [] {
      var (b1, prev1) := EmitOne(b, comms[0], prev);
      EmitCount(b1, comms[1..], prev1);
    }
  }

  /** Emitting three batches one after the other. */
  lemma EmitThree(b: Book, one: seq<Comm>, two: seq<Comm>, three: seq<Comm>, prev: int)
    requires NO_ID <= prev
    ensures var b1, prev1 := Emit(b, one, prev), PrevAfter(one, |b.ops|, prev, |one|);
      var b2, prev2 := Emit(b1, two, prev1), PrevAfter(two, |b1.ops|, prev1, |two|);
      Emit(b, one + two + three, prev) == Emit(b2, three, prev2)
  {
    EmitAppends(b, one + two, three, prev);
    EmitAppends(b, one, two, prev);
    PrevAppends(one, two, |b.ops|, prev, |two|);
    EmitCount(b, one, prev);
  }

  lemma EmitNone(b: Book, prev: int)
    requires NO_ID <= prev
    ensures Emit(b, [], prev) == b && PrevAfter([], |b.ops|, prev, 0) == prev
  {
  }

  /** Emitting at most one communication. */
  lemma EmitSingle(b: Book, comms: seq<Comm>, prev: int)
    requires NO_ID <= prev && |comms| <= 1
    ensures Emit(b, comms, prev) == if comms == [] then b else EmitOne(b, comms[0], prev).0
    ensures PrevAfter(comms, |b.ops|, prev, |comms|) == if comms == [] then prev else EmitOne(b, comms[0], prev).1
  {
    if comms != [] {
      assert comms[1..] == [];
      assert Emit(b, comms, prev) == Emit(EmitOne(b, comms[0], prev).0, [], EmitOne(b, comms[0], prev).1);
    }
  }

  /** Emitting one more communication at the end. */
  lemma EmitSnoc(b: Book, comms: seq<Comm>, c: Comm, prev: int)
    requires NO_ID <= prev
    ensures var last := PrevAfter(comms, |b.ops|, prev, |comms|);
      && Emit(b, comms + [c], prev) == EmitOne(Emit(b, comms, prev), c, last).0
      && PrevAfter(comms + [c], |b.ops|, prev, |comms| + 1) == EmitOne(Emit(b, comms, prev), c, last).1
  {
    EmitAppends(b, comms, [c], prev);
    var b1, last := Emit(b, comms, prev), PrevAfter(comms, |b.ops|, prev, |comms|);
    assert [c][1..] == [];
    assert Emit(b1, [c], last) == Emit(EmitOne(b1, c, last).0, [], EmitOne(b1, c, last).1);
    PrevAppends(comms, [c], |b.ops|, prev, 1);
    EmitCount(b, comms, prev);
  }

  /** Emitting an exchange: a send, then a receive, then perhaps a gap. */
  lemma EmitExchange(b: Book, comms: seq<Comm>, peer: nat, size: nat, gaps: seq<Comm>, prev: int)
    requires NO_ID <= prev
    requires gaps == [] || exists time :: gaps == [Gap(time)]
    ensures var last := PrevAfter(comms, |b.ops|, prev, |comms|);
      var b1 := AddRecv(EmitOne(Emit(b, comms, prev), To(peer, size), last).0, size, peer);
      var b2 := if gaps == [] then b1 else AddExec(b1, gaps[0].time);
      var all := comms + [To(peer, size), From(peer, size)] + gaps;
      && Emit(b, all, prev) == b2
      && PrevAfter(all, |b.ops|, prev, |all|) == Last(b2)
  {
    hide Emit, PrevAfter;
    EmitSnoc(b, comms, To(peer, size), prev);
    EmitSnoc(b, comms + [To(peer, size)], From(peer, size), prev);
    var two := comms + [To(peer, size)] + [From(peer, size)];
    assert comms + [To(peer, size), From(peer, size)] == two;
    if gaps == [] {
      assert two + gaps == two;
    } else {
      assert gaps == [gaps[0]];
      EmitSnoc(b, two, gaps[0], prev);
    }
  }

  /** The operations emitted are the communications in order. */
  lemma {:induction false} EmitOps(b: Book, comms: seq<Comm>, prev: int)
    requires NO_ID <= prev
    ensures Emit(b, comms, prev).ops == b.ops + OpsOf(comms, b.tag) && Emit(b, comms, prev).tag == b.tag
    decreases |comms|
  {
    if comms != [] {
      var (b1, prev1) := EmitOne(b, comms[0], prev);
      EmitOps(b1, comms[1..], prev1);
      assert OpsOf(comms, b.tag) == [OpOf(comms[0], b.tag)] + OpsOf(comms[1..], b.tag);
    }
  }

  /** A new edge is exactly one of a send on the last receive or gap before it. */
  lemma {:induction false} EmitEdges(b: Book, comms: seq<Comm>, prev: int, e: Edge)
    requires NO_ID <= prev
    ensures e in Emit(b, comms, prev).reqs <==>
      e in b.reqs || exists i :: 0 <= i < |comms| && comms[i].To? && PrevAfter(comms, |b.ops|, prev, i) != NO_ID
                          && e == Edge(|b.ops| + i + 1, PrevAfter(comms, |b.ops|, prev, i), false)
    decreases |comms|
  {
    if comms != [] {
      var (b1, prev1) := EmitOne(b, comms[0], prev);
      EmitEdges(b1, comms[1..], prev1, e);
      forall i | 0 < i < |comms|
        ensures PrevAfter(comms, |b.ops|, prev, i) == PrevAfter(comms[1..], |b1.ops|, prev1, i - 1)
      {
        PrevShift(comms, |b.ops|, prev, i);
      }
      assert PrevAfter(comms, |b.ops|, prev, 0) == prev;
      if i :| 0 <= i < |comms[1..]| && comms[1..][i].To? && PrevAfter(comms[1..], |b1.ops|, prev1, i) != NO_ID
              && e == Edge(|b1.ops| + i + 1, PrevAfter(comms[1..], |b1.ops|, prev1, i), false) {
        assert comms[i + 1].To? && PrevAfter(comms, |b.ops|, prev, i + 1) == PrevAfter(comms[1..], |b1.ops|, prev1, i);
      }
      if i :| 0 <= i < |comms| && comms[i].To? && PrevAfter(comms, |b.ops|, prev, i) != NO_ID
              && e == Edge(|b.ops| + i + 1, PrevAfter(comms, |b.ops|, prev, i), false) {
        if i > 0 {
          assert comms[1..][i - 1].To?;
        }
      }
    }
  }

  /** Elements of a set of labels up to `hi`, ascending. */
  function Ascending(s: set<nat>, hi: nat): (r: seq<nat>)
    ensures forall x :: x in r <==> x in s && 0 < x <= hi
  {
    if hi == 0 then [] else Ascending(s, hi - 1) + if hi in s then [hi] else []
  }

  class Goal {
    var ops: seq<GoalOp>
    var reqs: seq<Edge>
    var curtag: nat
    var start: set<nat>
    var end: set<nat>

    function Abs(): Book
      reads this
    {
      Book(ops, reqs, curtag, start, end)
    }

    constructor ()
      ensures Abs() == Book([], [], 0, {}, {})
    {
      ops, reqs, curtag, start, end := [], [], 0, {}, {};
    }

    method StartOp()
      modifies `start, `end
      ensures Abs() == old(Abs()).(start := {}, end := {})
    {
      start, end := {}, {};
    }

    /** The independent operations of the collective, in label order. */
    method EndOp() returns (starts: seq<nat>, ends: seq<nat>)
      ensures starts == Ascending(start, |ops|) && ends == Ascending(end, |ops|)
    {
      starts, ends := [], [];
      for id := 1 to |ops| + 1
        invariant starts == Ascending(start, id - 1) && ends == Ascending(end, id - 1)
      {
        if id in start {
          starts := starts + [id];
        }
        if id in end {
          ends := ends + [id];
        }
      }
    }

    method SetTag(tag: nat)
      modifies `curtag
      ensures Abs() == old(Abs()).(tag := tag)
    {
      curtag := tag;
    }

    method Send(size: nat, dest: nat) returns (id: nat)
      modifies `ops, `start, `end
      ensures Abs() == AddSend(old(Abs()), size, dest) && id == |ops|
    {
      id := |ops| + 1;
      ops := ops + [GoalOp.Send(size, dest, curtag)];
      start := start + {id};
      end := end + {id};
    }

    method Recv(size: nat, src: nat) returns (id: nat)
      modifies `ops, `start, `end
      ensures Abs() == AddRecv(old(Abs()), size, src) && id == |ops|
    {
      id := |ops| + 1;
      ops := ops + [GoalOp.Recv(size, src, curtag)];
      start := start + {id};
      end := end + {id};
    }

    method Exec(time: nat) returns (id: nat)
      modifies `ops
      ensures Abs() == AddExec(old(Abs()), time) && id == |ops|
    {
      ops := ops + [GoalOp.Exec(time)];
      id := |ops|;
    }

    method Requires(tail: nat, head: nat)
      modifies `reqs, `start, `end
      ensures Abs() == AddEdge(old(Abs()), tail, head, false)
    {
      reqs := reqs + [Edge(tail, head, false)];
      start := start - {tail};
      end := end - {head};
    }

    method Irequires(tail: nat, head: nat)
      modifies `reqs, `start, `end
      ensures Abs() == AddEdge(old(Abs()), tail, head, true)
    {
      reqs := reqs + [Edge(tail, head, true)];
      start := start - {tail};
      end := end - {head};
    }
  }
}
