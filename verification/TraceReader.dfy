/** The loop over a rank's calls, updating the schedule in place (process_trace.cpp). */
module TraceReader {
  import opened Powers
  import opened G = Goal
  import opened TraceConversion
  import RD = RecursiveDoubling
  import BT = BinomialTree
  import DI = Dissemination

  /** class LocOp: the calculation between two calls. */
  class LocOp {
    const goal: G.Goal
    const options: Options
    var prev: seq<Dep>
    var next: seq<Dep>
    var start: int

    constructor (goal: G.Goal, options: Options, start: int)
      ensures this.goal == goal && this.options == options && this.start == start
      ensures prev == [Dep(NO_ID, false)] && next == []
    {
      this.goal, this.options, this.start := goal, options, start;
      prev, next := [Dep(NO_ID, false)], [];
    }

    function Abs(reqs: map<nat, nat>): Conv
      reads this, goal
    {
      Conv(goal.Abs(), prev, reqs, start)
    }

    method NextOp(time: int, end: int, ghost reqs: map<nat, nat>)
      requires DepsOk(prev) && DepsOk(next)
      modifies this, goal
      ensures next == [] && prev == []
      ensures Abs(reqs) == TraceConversion.NextOp(options, old(Abs(reqs)), old(next), time, end)
    {
      hide AddAfter, AddBefore;
      var op := goal.Exec(options.scaled(time - start));
      ghost var b := goal.Abs();
      AfterNone(b, op);
      for i := 0 to |next|
        invariant prev == old(prev) && next == old(next) && start == old(start)
        invariant AddAfter(goal.Abs(), next[i..], op) == AddAfter(b, next, op)
      {
        AfterStep(goal.Abs(), next[i..], op);
        assert next[i..][1..] == next[i + 1..];
        if next[i].id != NO_ID {
          if next[i].immediate {
            goal.Irequires(next[i].id, op);
          } else {
            goal.Requires(next[i].id, op);
          }
        }
      }
      AfterNone(goal.Abs(), op);
      ghost var b1 := goal.Abs();
      for i := 0 to |prev|
        invariant prev == old(prev) && next == old(next) && start == old(start)
        invariant AddBefore(goal.Abs(), prev[i..], op) == AddBefore(b1, prev, op)
      {
        BeforeStep(goal.Abs(), prev[i..], op);
        assert prev[i..][1..] == prev[i + 1..];
        if prev[i].id != NO_ID {
          if prev[i].immediate {
            goal.Irequires(op, prev[i].id);
          } else {
            goal.Requires(op, prev[i].id);
          }
        }
      }
      AfterNone(goal.Abs(), op);
      prev, next, start := [], [], end;
    }

    /** The completion of a collective whose operations are in the schedule. */
    method FinishColl(starts: seq<nat>, ends: seq<nat>, from: int, until: int, ghost reqs: map<nat, nat>)
      returns (collop: nat)
      requires DepsOk(prev) && next == []
      modifies this, goal
      ensures next == [] && DepsOk(prev) && collop == |old(goal.ops)| + 1
      ensures Abs(reqs) == TraceConversion.FinishColl(options, old(Abs(reqs)), starts, ends, from, until)
    {
      hide RequireAll, TraceConversion.NextOp;
      collop := goal.Exec(0);
      ghost var b := goal.Abs();
      for i := 0 to |ends|
        invariant prev == old(prev) && next == [] && start == old(start)
        invariant RequireAll(goal.Abs(), collop, ends[i..]) == RequireAll(b, collop, ends)
      {
        RequireStep(goal.Abs(), collop, ends[i..]);
        assert ends[i..][1..] == ends[i + 1..];
        goal.Requires(collop, ends[i]);
      }
      RequireNone(goal.Abs(), collop);
      for i := 0 to |starts|
        invariant prev == old(prev) && next == DepsOn(starts[..i]) && start == old(start)
        invariant goal.Abs() == RequireAll(b, collop, ends)
      {
        next := next + [Dep(starts[i], false)];
        assert next == DepsOn(starts[..i + 1]);
      }
      assert starts[..|starts|] == starts;
      var nbcify := options.nbcify;
      var virtstart := from - nbcify;
      var share: int := nbcify;
      if virtstart - start < 0 {
        virtstart := start;
        share := from - virtstart;
      }
      if share != 0 {
        var nbcop := goal.Exec(share % WORD);
        goal.Irequires(nbcop, collop);
      }
      NextOp(virtstart, until, reqs);
      prev := [Dep(collop, false)];
    }

    /** A call with one operation. */
    method FinishSingle(id: nat, immediate: bool, from: int, until: int, ghost reqs: map<nat, nat>)
      requires DepsOk(prev) && id == |goal.ops|
      modifies this, goal
      ensures next == [] && DepsOk(prev)
      ensures Abs(reqs) == Single(options, old(Abs(reqs)), old(goal.Abs()), immediate, from, until)
    {
      hide TraceConversion.NextOp;
      next := [Dep(id, false)];
      NextOp(from, until, reqs);
      prev := [Dep(id, immediate)];
    }
  }

  class TraceRank {
    const goal: G.Goal
    const loc: LocOp
    const options: Options
    var reqs: map<nat, nat>

    ghost predicate Valid()
      reads this, loc
    {
      loc.goal == goal && loc.options == options && options.rank < options.n && loc.next == [] && DepsOk(loc.prev)
    }

    function Abs(): Conv
      reads this, loc, goal, loc.goal
    {
      loc.Abs(reqs)
    }

    constructor (goal: G.Goal, options: Options, start: int)
      requires options.rank < options.n && goal.Abs() == Book([], [], 0, {}, {})
      ensures Valid() && fresh(loc) && this.goal == goal && this.options == options && Abs() == Begin(start)
    {
      this.goal, this.options, reqs := goal, options, map[];
      loc := new LocOp(goal, options, start);
    }

    /** What a collective itself adds. */
    method CreateBody(kind: Collective, size: nat)
      requires options.rank < options.n && RootOk(kind, options.n)
      modifies goal
      ensures goal.Abs() == Body(options, old(goal.Abs()), kind, size)
    {
      hide Emit, BT.After;
      match kind
      case Barrier => DI.CreateDisseminationRank(goal, options.rank, options.n, 1);
      case Allreduce => RD.CreateAllreduceRecdoubRank(goal, options.rank, options.n, size);
      case Iallreduce(_) => DI.CreateDisseminationRank(goal, options.rank, options.n, size);
      case Bcast(root) => BT.CreateBinomialTreeBcastRank(goal, root, options.rank, options.n, size);
      case Allgather => DI.CreateDisseminationRank(goal, options.rank, options.n, size);
      case Reduce(root) => BT.CreateBinomialTreeReduceRank(goal, root, options.rank, options.n, size);
      case Alltoall => DI.CreateLinearAlltoallRank(goal, options.rank, options.n, size);
    }

    method Collect(kind: Collective, size: nat, tag: nat, from: int, until: int)
      requires Valid() && RootOk(kind, options.n)
      modifies this, loc, goal
      ensures Valid() && Abs() == TraceConversion.Collect(options, old(Abs()), kind, size, tag, from, until)
    {
      hide Body, FinishColl, Ascending;
      goal.SetTag(tag);
      goal.StartOp();
      CreateBody(kind, size);
      var starts, ends := goal.EndOp();
      var collop := loc.FinishColl(starts, ends, from, until, reqs);
      if kind.Iallreduce? {
        reqs := reqs[kind.req := collop];
      }
    }

    /** One traced call. */
    method Process(t: Traced)
      requires Valid() && (t.call.Coll? ==> RootOk(t.call.kind, options.n))
      modifies this, loc, goal
      ensures Valid() && Abs() == Apply(options, old(Abs()), t)
    {
      hide TraceConversion.NextOp, TraceConversion.Collect, RequireAll, Known;
      match t.call
      case Recv(size, src, tag) =>
        goal.SetTag(tag);
        var id := goal.Recv(size, src);
        loc.FinishSingle(id, false, t.from, t.until, reqs);
      case Irecv(size, src, tag, req) =>
        goal.SetTag(tag);
        var id := goal.Recv(size, src);
        reqs := reqs[req := id];
        loc.FinishSingle(id, true, t.from, t.until, reqs);
      case Send(size, dest, tag) =>
        goal.SetTag(tag);
        var id := goal.Send(size, dest);
        loc.FinishSingle(id, false, t.from, t.until, reqs);
      case Isend(size, dest, tag, req) =>
        goal.SetTag(tag);
        var id := goal.Send(size, dest);
        reqs := reqs[req := id];
        loc.FinishSingle(id, true, t.from, t.until, reqs);
      case Wait(req) =>
        if req in reqs {
          var id := goal.Exec(0);
          goal.Requires(id, reqs[req]);
          reqs := reqs - {req};
          loc.FinishSingle(id, false, t.from, t.until, reqs);
        }
      case Waitall(req, count) =>
        var id := goal.Exec(0);
        RequireKnown(id, req, count);
        reqs := reqs - {req};
        loc.FinishSingle(id, false, t.from, t.until, reqs);
      case Sendrecv(sendSize, dest, recvSize, src, tag) =>
        goal.SetTag(tag);
        var sid := goal.Send(sendSize, dest);
        goal.SetTag(tag);
        var rid := goal.Recv(recvSize, src);
        loc.next := loc.next + [Dep(sid, false)] + [Dep(rid, false)];
        assert loc.next == [Dep(sid, false), Dep(rid, false)];
        loc.NextOp(t.from, t.until, reqs);
        loc.prev := loc.prev + [Dep(sid, false)] + [Dep(rid, false)];
        assert loc.prev == [Dep(sid, false), Dep(rid, false)];
      case Coll(kind, size, tag, full) =>
        if full {
          Collect(kind, size, tag, t.from, t.until);
        }
      case Finalize =>
        loc.next := [Dep(NO_ID, false)];
        loc.NextOp(t.from, t.from, reqs);
      case Other =>
    }

    /** The loop of a wait for several requests. */
    method RequireKnown(id: nat, req: nat, count: nat)
      modifies goal
      ensures goal.Abs() == RequireAll(old(goal.Abs()), id, Known(reqs, req, count)) && goal.ops == old(goal.ops)
    {
      ghost var b := goal.Abs();
      RequireNone(b, id);
      for k := 0 to count
        invariant goal.Abs() == RequireAll(b, id, Known(reqs, req, k)) && goal.ops == b.ops
      {
        assert Known(reqs, req, k) + [] == Known(reqs, req, k);
        if req + REQ_SIZE * k in reqs {
          RequireSnoc(b, id, Known(reqs, req, k), reqs[req + REQ_SIZE * k]);
          goal.Requires(id, reqs[req + REQ_SIZE * k]);
        }
      }
    }

    /** All calls of the rank. */
    method Convert(calls: seq<Traced>, ghost start: int)
      requires Valid() && Abs() == Begin(start) && WellTraced(calls, options.n)
      modifies this, loc, goal
      ensures Valid() && Abs() == Converted(options, start, calls, |calls|)
    {
      hide Apply;
      for k := 0 to |calls|
        invariant Valid() && Abs() == Converted(options, start, calls, k)
      {
        Process(calls[k]);
      }
    }
  }

  lemma {:induction false} RequireSnoc(b: Book, op: nat, ids: seq<nat>, id: nat)
    ensures RequireAll(b, op, ids + [id]) == AddEdge(RequireAll(b, op, ids), op, id, false)
    decreases |ids|
  {
    if ids == [] {
      assert [] + [id] == [id] && [id][1..] == [];
    } else {
      assert (ids + [id])[1..] == ids[1..] + [id];
      RequireSnoc(AddEdge(b, op, ids[0], false), op, ids[1..], id);
    }
  }

  lemma AfterNone(b: Book, op: nat)
    ensures AddAfter(b, [], op) == b && AddBefore(b, [], op) == b
  {
  }

  lemma AfterStep(b: Book, deps: seq<Dep>, op: nat)
    requires DepsOk(deps) && deps != []
    ensures AddAfter(b, deps, op) ==
      AddAfter(if deps[0].id != NO_ID then AddEdge(b, deps[0].id, op, deps[0].immediate) else b, deps[1..], op)
  {
  }

  lemma BeforeStep(b: Book, deps: seq<Dep>, op: nat)
    requires DepsOk(deps) && deps != []
    ensures AddBefore(b, deps, op) ==
      AddBefore(if deps[0].id != NO_ID then AddEdge(b, op, deps[0].id, deps[0].immediate) else b, deps[1..], op)
  {
  }

  lemma RequireNone(b: Book, op: nat)
    ensures RequireAll(b, op, []) == b
  {
  }

  lemma RequireStep(b: Book, op: nat, ids: seq<nat>)
    requires ids != []
    ensures RequireAll(b, op, ids) == RequireAll(AddEdge(b, op, ids[0], false), op, ids[1..])
  {
  }
}
