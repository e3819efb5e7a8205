/** The incrementally maintained congestion index of class SimpleNetwork (Network.hpp). */
module Congestion {
  import opened Finite
  import opened Topology

  datatype Msg = Msg(bytesLeft: int, lastTime: nat, src: nat, dst: nat, maxCong: nat)

  /** Live messages by handle. */
  type MsgDb = map<nat, Msg>

  /** The messages on each link. */
  type LinkDb = map<nat, seq<nat>>

  function OnLink(lnk: LinkDb, e: nat): seq<nat> {
    if e in lnk then lnk[e] else []
  }

  function Load(lnk: LinkDb, e: nat): nat {
    |OnLink(lnk, e)|
  }

  function Max(a: nat, b: nat): nat {
    if a < b then b else a
  }

  /** The largest load on a route, recomputed from scratch. */
  function MaxLoad(lnk: LinkDb, path: seq<nat>): nat {
    if path == [] then 0 else Max(MaxLoad(lnk, path[..|path| - 1]), Load(lnk, path[|path| - 1]))
  }

  /** Transfer progress up to now at the rate that has been in force since the last update. */
  function Charged(m: Msg, now: nat): Msg
    requires m.lastTime <= now && m.maxCong > 0
  {
    m.(bytesLeft := m.bytesLeft - (now - m.lastTime) * 10000 / m.maxCong, lastTime := now)
  }

  /** In dt a message transfers the whole part of dt / maxCong, counted in 1 / 10000 bytes. */
  lemma ChargedIs(m: Msg, now: nat)
    requires m.lastTime <= now && m.maxCong > 0
    ensures var used := m.bytesLeft - Charged(m, now).bytesLeft;
      && used >= 0 && used * m.maxCong <= (now - m.lastTime) * 10000 < (used + 1) * m.maxCong
      && Charged(m, now).lastTime == now && Charged(m, now).maxCong == m.maxCong
  {
    var dt := (now - m.lastTime) * 10000;
    assert dt == dt / m.maxCong * m.maxCong + dt % m.maxCong;
  }

  /** Undisturbed, a message with this much left has arrived exactly when its index times that
      has passed. */
  lemma ArrivedIff(m: Msg, now: nat)
    requires m.lastTime <= now && m.maxCong > 0 && m.bytesLeft > 0
    ensures Charged(m, now).bytesLeft <= 0 <==> (now - m.lastTime) * 10000 >= m.bytesLeft * m.maxCong
  {
    ChargedIs(m, now);
    var used, left, c := m.bytesLeft - Charged(m, now).bytesLeft, m.bytesLeft, m.maxCong;
    if used >= left {
      Scales(left, used, c);
    } else {
      Scales(used + 1, left, c);
    }
  }

  lemma Scales(a: int, b: int, c: nat)
    requires a <= b
    ensures a * c <= b * c
  {
  }

  /** So a new message of `size` bytes takes its index times its size. */
  lemma SizeTimesIndex(size: nat, start: nat, src: nat, dst: nat, index: nat, now: nat)
    requires size > 0 && index > 0 && start <= now
    ensures Charged(Msg(size * 10000, start, src, dst, index), now).bytesLeft <= 0 <==> now >= start + size * index
  {
    ArrivedIff(Msg(size * 10000, start, src, dst, index), now);
    assert size * 10000 * index == 10000 * (size * index);
  }

  /** The time a query announces is no later than the arrival. */
  lemma NotBeforeAnnounced(m: Msg, now: nat)
    requires m.lastTime <= now < m.lastTime + (m.bytesLeft + 9999) / 10000 && m.maxCong > 0
    ensures Charged(m, now).bytesLeft > 0
  {
    ArrivedIff(m, now);
    Scales(1, m.maxCong, m.bytesLeft);
  }

  lemma {:induction false} MaxLoadCovers(lnk: LinkDb, path: seq<nat>, i: nat)
    requires i < |path|
    ensures Load(lnk, path[i]) <= MaxLoad(lnk, path)
  {
    if i < |path| - 1 {
      MaxLoadCovers(lnk, path[..|path| - 1], i);
    }
  }

  /** The largest load is the load of some link. */
  lemma {:induction false} MaxLoadAttained(lnk: LinkDb, path: seq<nat>)
    ensures MaxLoad(lnk, path) == 0 || exists i :: 0 <= i < |path| && Load(lnk, path[i]) == MaxLoad(lnk, path)
  {
    if path != [] {
      MaxLoadAttained(lnk, path[..|path| - 1]);
    }
  }

  lemma {:induction false} MaxLoadSame(a: LinkDb, b: LinkDb, path: seq<nat>)
    requires forall e :: e in path ==> Load(a, e) == Load(b, e)
    ensures MaxLoad(a, path) == MaxLoad(b, path)
  {
    if path != [] {
      MaxLoadSame(a, b, path[..|path| - 1]);
    }
  }

  /** One more message on link e raises the maximum exactly where e was the maximum. */
  lemma {:induction false} MaxLoadRaised(a: LinkDb, b: LinkDb, path: seq<nat>, e: nat)
    requires e in path && Load(b, e) == Load(a, e) + 1
    requires forall l :: l != e ==> Load(b, l) == Load(a, l)
    ensures MaxLoad(b, path) == if MaxLoad(a, path) == Load(a, e) then Load(a, e) + 1 else MaxLoad(a, path)
    ensures MaxLoad(a, path) >= Load(a, e)
  {
    var init, last := path[..|path| - 1], path[|path| - 1];
    if e in init {
      MaxLoadRaised(a, b, init, e);
    } else {
      assert last == e;
      MaxLoadSame(a, b, init);
    }
  }

  ghost predicate AllRoutable(t: Topology, db: MsgDb)
  {
    forall m {:trigger db[m]} :: m in db ==> Routable(t, db[m].src, db[m].dst)
  }

  /** Each live message stands exactly once on each link of its route, and nowhere else. */
  ghost predicate Listed(t: Topology, db: MsgDb, lnk: LinkDb, index: nat)
  {
    && AllRoutable(t, db)
    && (forall e {:trigger OnLink(lnk, e)} :: NoRepeat(OnLink(lnk, e)))
    && (forall m, e {:trigger m in OnLink(lnk, e)} :: m in OnLink(lnk, e) <==> m in db && e in RouteOf(t, db[m].src, db[m].dst))
    && (forall m :: m in db ==> m < index)
  }

  /** The cached index of each message is the largest load on its route, and at least 1. */
  ghost predicate Cached(t: Topology, db: MsgDb, lnk: LinkDb)
    requires AllRoutable(t, db)
  {
    forall m {:trigger db[m]} :: m in db ==> db[m].maxCong == Max(1, MaxLoad(lnk, RouteOf(t, db[m].src, db[m].dst)))
  }

  // ---- one pass over a route ----

  ghost predicate Shares(a: seq<nat>, b: seq<nat>)
  {
    exists e :: e in a && e in b
  }

  /** Raise the index of a message for which a link with this load was the busiest. */
  function Bump(m: Msg, load: nat): Msg {
    if m.maxCong == load then m.(maxCong := load + 1) else m
  }

  /** What an insert or the end of another message makes of a message: progress is charged
      once, at the old rate, if a link is shared; the index is that of the new loads. */
  ghost function Expected(t: Topology, m: Msg, touched: bool, now: nat, lnk: LinkDb): Msg
    requires Routable(t, m.src, m.dst) && m.lastTime <= now && m.maxCong > 0
  {
    (if touched then Charged(m, now) else m).(maxCong := Max(1, MaxLoad(lnk, RouteOf(t, m.src, m.dst))))
  }

  ghost predicate Past(db: MsgDb, now: nat)
  {
    forall m {:trigger db[m]} :: m in db ==> db[m].lastTime <= now && db[m].maxCong > 0
  }

  /** After adding message `index` to the links in `done`. */
  ghost predicate Inserting(t: Topology, was: MsgDb, oldLnk: LinkDb, db: MsgDb, lnk: LinkDb, index: nat, now: nat, done: seq<nat>)
    requires AllRoutable(t, was) && Past(was, now)
  {
    && db.Keys == was.Keys + {index}
    && (forall e {:trigger OnLink(lnk, e)} :: OnLink(lnk, e) == OnLink(oldLnk, e) + if e in done then [index] else [])
    && (forall m {:trigger db[m]} :: m in was ==>
          db[m] == Expected(t, was[m], Shares(RouteOf(t, was[m].src, was[m].dst), done), now, lnk))
  }

  lemma AddLink(lnk: LinkDb, e: nat, index: nat) returns (next: LinkDb)
    ensures next == lnk[e := OnLink(lnk, e) + [index]]
    ensures Load(next, e) == Load(lnk, e) + 1
    ensures forall l :: l != e ==> OnLink(next, l) == OnLink(lnk, l)
  {
    next := lnk[e := OnLink(lnk, e) + [index]];
  }

  /** The step of an insert on one old message and one link. */
  lemma InsertStep(t: Topology, m: Msg, cur: Msg, done: seq<nat>, e: nat, now: nat, oldLnk: LinkDb, lnk: LinkDb, next: LinkDb, on: bool)
    requires Routable(t, m.src, m.dst) && m.lastTime <= now && m.maxCong > 0
    requires m.maxCong == Max(1, MaxLoad(oldLnk, RouteOf(t, m.src, m.dst)))
    requires forall l {:trigger Load(lnk, l)} :: l !in done ==> Load(lnk, l) == Load(oldLnk, l)
    requires Load(next, e) == Load(lnk, e) + 1 && forall l :: l != e ==> Load(next, l) == Load(lnk, l)
    requires cur == Expected(t, m, Shares(RouteOf(t, m.src, m.dst), done), now, lnk)
    requires on == (e in RouteOf(t, m.src, m.dst)) && (on ==> Load(lnk, e) > 0)
    ensures cur.lastTime <= now && cur.maxCong > 0
    ensures (if on then Bump(Charged(cur, now), Load(lnk, e)) else cur)
         == Expected(t, m, Shares(RouteOf(t, m.src, m.dst), done + [e]), now, next)
  {
    var r := RouteOf(t, m.src, m.dst);
    assert Shares(r, done + [e]) == (Shares(r, done) || e in r) by {
      SharesMore(r, done, e);
    }
    if on {
      MaxLoadRaised(lnk, next, r, e);
      if Shares(r, done) {
        assert (now - cur.lastTime) * 10000 / cur.maxCong == 0 by { ZeroCharge(cur.maxCong); }
      } else {
        MaxLoadSame(oldLnk, lnk, r);
      }
    } else {
      MaxLoadSame(lnk, next, r);
    }
  }

  lemma ZeroCharge(d: nat)
    requires d > 0
    ensures 0 * 10000 / d == 0
  {
  }

  lemma SharesMore(r: seq<nat>, done: seq<nat>, e: nat)
    ensures Shares(r, done + [e]) == (Shares(r, done) || e in r)
  {
    if Shares(r, done) {
      var x :| x in r && x in done;
      assert x in done + [e];
    }
    if e in r {
      assert e in done + [e];
    }
  }

  class SimpleNetwork {
    const topo: Topology
    var msgDb: MsgDb
    var lnkDb: LinkDb
    var msgIndex: nat

    constructor (topo: Topology)
      requires LinksUnique(topo)
      ensures this.topo == topo && Valid() && msgDb == map[]
    {
      this.topo := topo;
      msgDb, lnkDb, msgIndex := map[], map[], 0;
    }

    ghost predicate Valid()
      reads this
    {
      LinksUnique(topo) && Listed(topo, msgDb, lnkDb, msgIndex) && Cached(topo, msgDb, lnkDb)
    }

    /** The messages already on a link make progress, and those for which it was the busiest
        link see it become busier. */
    method ChargeAndBump(ids: seq<nat>, now: nat, load: nat)
      requires NoRepeat(ids) && forall i :: 0 <= i < |ids| ==> ids[i] in msgDb
      requires forall i :: 0 <= i < |ids| ==> msgDb[ids[i]].lastTime <= now && msgDb[ids[i]].maxCong > 0
      modifies `msgDb
      ensures msgDb.Keys == old(msgDb.Keys)
      ensures forall m {:trigger msgDb[m]} :: m in msgDb ==>
        msgDb[m] == if m in ids then Bump(Charged(old(msgDb)[m], now), load) else old(msgDb)[m]
    {
      for i := 0 to |ids|
        invariant msgDb.Keys == old(msgDb.Keys)
        invariant forall m {:trigger msgDb[m]} :: m in msgDb ==>
          msgDb[m] == if m in ids[..i] then Bump(Charged(old(msgDb)[m], now), load) else old(msgDb)[m]
      {
        assert ids[i] !in ids[..i];
        assert ids[..i + 1] == ids[..i] + [ids[i]];
        var m := Charged(msgDb[ids[i]], now);
        if m.maxCong == load {
          m := m.(maxCong := m.maxCong + 1);
        }
        msgDb := msgDb[ids[i] := m];
      }
      assert ids[..|ids|] == ids;
    }

    /** No message on the route is overdue: the program asserts this at each insert. */
    ghost predicate NoneOverdue(path: seq<nat>, now: nat)
      requires AllRoutable(topo, msgDb) && Past(msgDb, now)
      reads this
    {
      forall m {:trigger msgDb[m]} :: m in msgDb && Shares(RouteOf(topo, msgDb[m].src, msgDb[m].dst), path)
        ==> Charged(msgDb[m], now).bytesLeft > 0
    }

    /** Start the transfer of a message; `finish` is its earliest end. */
    method Insert(now: nat, src: nat, dest: nat, size: nat) returns (finish: nat, handle: nat)
      requires Valid() && Routable(topo, src, dest) && size > 0 && Past(msgDb, now)
      requires NoneOverdue(RouteOf(topo, src, dest), now)
      modifies this
      ensures Valid() && handle == old(msgIndex) && finish == now + size
      ensures Inserting(topo, old(msgDb), old(lnkDb), msgDb, lnkDb, handle, now, RouteOf(topo, src, dest))
      ensures msgDb[handle] == Msg(size * 10000, now, src, dest, Max(1, MaxLoad(lnkDb, RouteOf(topo, src, dest))))
    {
      hide Inserting, Listed, Cached, Past, NoneOverdue, AllRoutable, MaxLoad, Route, Arrives;
      ghost var db0, lnk0 := msgDb, lnkDb;
      ValidParts();
      RoutableHalts(topo, src, dest);
      var found := FindRoute(topo, src, dest);
      var path := found.value;
      handle := msgIndex;
      msgDb := msgDb[handle := Msg(size * 10000, now, src, dest, 1)];
      assert path[..0] == [];
      InsertBegins(topo, db0, lnk0, msgDb, handle, now);
      assert MaxLoad(lnkDb, path[..0]) == 0 by { MaxLoadEmpty(lnkDb); }
      for k := 0 to |path|
        invariant msgIndex == handle
        invariant Inserting(topo, db0, lnk0, msgDb, lnkDb, handle, now, path[..k])
        invariant handle in msgDb
        invariant msgDb[handle] == Msg(size * 10000, now, src, dest, Max(1, MaxLoad(lnkDb, path[..k])))
      {
        InsertLink(db0, lnk0, handle, now, path, k);
      }
      assert path[..|path|] == path;
      msgIndex := msgIndex + 1;
      finish := now + size;
      InsertEnds(topo, db0, lnk0, msgDb, lnkDb, handle, now, path);
    }

    /** Body of the loop of insert: one link of the route. */
    method InsertLink(ghost db0: MsgDb, ghost lnk0: LinkDb, handle: nat, now: nat, path: seq<nat>, k: nat)
      requires LinksUnique(topo) && Listed(topo, db0, lnk0, handle) && Cached(topo, db0, lnk0) && Past(db0, now)
      requires NoRepeat(path) && k < |path|
      requires Inserting(topo, db0, lnk0, msgDb, lnkDb, handle, now, path[..k])
      requires msgDb[handle].maxCong == Max(1, MaxLoad(lnkDb, path[..k]))
      modifies `msgDb, `lnkDb
      ensures handle in msgDb && handle in old(msgDb)
      ensures Inserting(topo, db0, lnk0, msgDb, lnkDb, handle, now, path[..k + 1])
      ensures msgDb[handle] == old(msgDb)[handle].(maxCong := Max(1, MaxLoad(lnkDb, path[..k + 1])))
    {
      hide Inserting, Listed, Cached, MaxLoad, Route, Arrives, Expected, Charged, Bump, LinksUnique, Past;
      var e := path[k];
      assert path[..k + 1] == path[..k] + [e] && e !in path[..k];
      ghost var before, lnk := msgDb, lnkDb;
      var ids := OnLink(lnkDb, e);
      InsertingFacts(topo, db0, lnk0, msgDb, lnkDb, handle, now, path[..k], e);
      if e in lnkDb && msgDb[handle].maxCong < |ids| + 1 {
        msgDb := msgDb[handle := msgDb[handle].(maxCong := |ids| + 1)];
      }
      ghost var mid := msgDb;
      ChargeAndBump(ids, now, |ids|);
      ghost var next := AddLink(lnkDb, e, handle);
      lnkDb := lnkDb[e := ids + [handle]];
      NewIndex(lnk, lnkDb, path[..k], e);
      assert forall m :: m in db0 ==> mid[m] == before[m];
      LinkInserted(topo, db0, lnk0, before, lnk, msgDb, lnkDb, handle, now, path[..k], e);
    }

    /** Has a message arrived?  If not, only its own progress is recorded and the next time
        it could arrive is returned; if so, it is taken off its links and the messages it
        shared a link with get the progress and the index that follow from that. */
    method Query(now: nat, src: nat, dest: nat, handle: nat) returns (next: nat)
      requires Valid() && handle in msgDb && Past(msgDb, now)
      requires msgDb[handle].src == src && msgDb[handle].dst == dest
      modifies this
      ensures Valid() && msgIndex == old(msgIndex)
      ensures var charged := Charged(old(msgDb)[handle], now);
        if charged.bytesLeft > 0
        then next == now + (charged.bytesLeft + 9999) / 10000
             && msgDb == old(msgDb)[handle := charged] && lnkDb == old(lnkDb)
        else next == now && Removed(topo, old(msgDb), old(lnkDb), msgDb, lnkDb, handle, now, RouteOf(topo, src, dest))
    {
      hide Listed, Cached, MaxLoad, Route, Arrives, LinksUnique, Shares, Charged, Expected, Past, AllRoutable;
      ghost var db0, lnk0 := msgDb, lnkDb;
      ValidParts();
      PastAt(msgDb, now, handle);
      var msg := Charged(msgDb[handle], now);
      if msg.bytesLeft > 0 {
        msgDb := msgDb[handle := msg];
        next := now + (msg.bytesLeft + 9999) / 10000;
        StillMoving(topo, db0, lnkDb, msgIndex, handle, now);
      } else {
        msgDb := msgDb - {handle};
        RoutableAt(topo, db0, handle);
        RoutableHalts(topo, src, dest);
        var found := FindRoute(topo, src, dest);
        var path := found.value;
        var recalc: set<nat> := {};
        assert path[..0] == [];
        LeavingBegins(topo, db0, lnk0, msgDb, handle, now);
        for k := 0 to |path|
          invariant msgIndex == old(msgIndex)
          invariant Leaving(topo, db0, lnk0, msgDb, lnkDb, handle, now, path[..k], recalc)
        {
          recalc := LeaveLink(db0, lnk0, handle, now, path, k, recalc);
        }
        assert path[..|path|] == path;
        Recalculate(db0, lnk0, handle, now, path, recalc);
        next := now;
      }
    }

    /** Body of the loop over the route in query: one link is left. */
    method LeaveLink(ghost db0: MsgDb, ghost lnk0: LinkDb, handle: nat, now: nat, path: seq<nat>, k: nat, recalc: set<nat>)
      returns (more: set<nat>)
      requires Before(topo, db0, lnk0, msgIndex, now) && handle in db0
      requires path == RouteOf(topo, db0[handle].src, db0[handle].dst) && NoRepeat(path) && k < |path|
      requires Leaving(topo, db0, lnk0, msgDb, lnkDb, handle, now, path[..k], recalc)
      modifies `msgDb, `lnkDb
      ensures Leaving(topo, db0, lnk0, msgDb, lnkDb, handle, now, path[..k + 1], more)
    {
      hide Leaving, Before, Listed, Cached, MaxLoad, Route, Arrives, Shares, Charged, Expected, Past, AllRoutable;
      var e := path[k];
      assert path[..k + 1] == path[..k] + [e] && e !in path[..k];
      LeavingFacts(topo, db0, lnk0, msgDb, lnkDb, msgIndex, handle, now, path, path[..k], e, recalc);
      ghost var db, lnk := msgDb, lnkDb;
      var ids := lnkDb[e];
      more := recalc;
      var pos := 0;
      for i := 0 to |ids|
        invariant lnkDb == lnk && msgDb.Keys == db.Keys
        invariant forall m {:trigger msgDb[m]} :: m in msgDb ==>
          msgDb[m] == if m in ids[..i] then Charged(db[m], now) else db[m]
        invariant more == recalc + (set m | m in ids[..i] && m != handle)
        invariant handle in ids[..i] ==> pos < i && ids[pos] == handle
      {
        assert ids[i] !in ids[..i];
        assert ids[..i + 1] == ids[..i] + [ids[i]];
        if ids[i] == handle {
          pos := i;
        } else {
          more := more + {ids[i]};
          msgDb := msgDb[ids[i] := Charged(msgDb[ids[i]], now)];
        }
      }
      assert ids[..|ids|] == ids;
      lnkDb := lnkDb[e := ids[..pos] + ids[pos + 1..]];
      LinkLeft(topo, db0, lnk0, db, lnk, msgDb, lnkDb, msgIndex, handle, now, path, path[..k], e, pos, recalc, more);
    }

    /** Recompute the index of every message that shared a link with the one that left. */
    method Recalculate(ghost db0: MsgDb, ghost lnk0: LinkDb, ghost handle: nat, ghost now: nat, ghost path: seq<nat>, recalc: set<nat>)
      requires LinksUnique(topo) && Before(topo, db0, lnk0, msgIndex, now) && handle in db0
      requires path == RouteOf(topo, db0[handle].src, db0[handle].dst)
      requires Leaving(topo, db0, lnk0, msgDb, lnkDb, handle, now, path, recalc)
      modifies `msgDb
      ensures Removed(topo, db0, lnk0, msgDb, lnkDb, handle, now, path)
      ensures Valid()
    {
      hide Leaving, Before, Listed, Cached, Route, Arrives, Shares, Charged, Expected, Past, AllRoutable, LinksUnique, MaxLoad;
      ghost var db := msgDb;
      var todo := recalc;
      RecalcRoutable(topo, db0, lnk0, msgDb, lnkDb, msgIndex, handle, now, path, recalc);
      while todo != {}
        invariant todo <= recalc && msgDb.Keys == db.Keys
        invariant forall m {:trigger msgDb[m]} :: m in db ==>
          msgDb[m] == if m in recalc && m !in todo
                      then db[m].(maxCong := MaxLoad(lnkDb, RouteOf(topo, db[m].src, db[m].dst))) else db[m]
        decreases todo
      {
        var m :| m in todo;
        RoutableHalts(topo, msgDb[m].src, msgDb[m].dst);
        var found := FindRoute(topo, msgDb[m].src, msgDb[m].dst);
        var route := found.value;
        var cong := 0;
        assert route[..0] == [];
        MaxLoadEmpty(lnkDb);
        ghost var cur := msgDb;
        for i := 0 to |route|
          invariant msgDb == cur
          invariant cong == MaxLoad(lnkDb, route[..i])
        {
          MaxLoadNext(lnkDb, route, i);
          if Load(lnkDb, route[i]) > cong {
            cong := Load(lnkDb, route[i]);
          }
        }
        assert route[..|route|] == route;
        msgDb := msgDb[m := msgDb[m].(maxCong := cong)];
        todo := todo - {m};
      }
      Recalculated(topo, db0, lnk0, db, msgDb, lnkDb, msgIndex, handle, now, path, recalc);
    }

    /** The object invariant, spelled out. */
    lemma ValidParts()
      requires Valid()
      ensures LinksUnique(topo) && AllRoutable(topo, msgDb) && Listed(topo, msgDb, lnkDb, msgIndex) && Cached(topo, msgDb, lnkDb)
      ensures msgIndex !in msgDb
    {
    }
  }

  // ---- taking a message off its links ----

  ghost predicate Before(t: Topology, db: MsgDb, lnk: LinkDb, index: nat, now: nat)
  {
    Listed(t, db, lnk, index) && Cached(t, db, lnk) && Past(db, now)
  }

  /** s without the element x. */
  ghost function Without(s: seq<nat>, x: nat): (r: seq<nat>)
    ensures forall y {:trigger y in r} :: y in r <==> y in s && y != x
  {
    if s == [] then []
    else
      var init := Without(s[..|s| - 1], x);
      if s[|s| - 1] == x then init else init + [s[|s| - 1]]
  }

  lemma {:induction false} WithoutNoRepeat(s: seq<nat>, x: nat)
    requires NoRepeat(s)
    ensures NoRepeat(Without(s, x))
  {
    if s != [] {
      var init, last := s[..|s| - 1], s[|s| - 1];
      WithoutNoRepeat(init, x);
      assert last !in init;
      assert last !in Without(init, x);
    }
  }

  lemma {:induction false} WithoutAt(s: seq<nat>, x: nat, pos: nat)
    requires NoRepeat(s) && pos < |s| && s[pos] == x
    ensures s[..pos] + s[pos + 1..] == Without(s, x)
  {
    var last := |s| - 1;
    if pos == last {
      WithoutNone(s[..last], x);
    } else {
      WithoutAt(s[..last], x, pos);
      assert s[..pos] + s[pos + 1..] == (s[..last][..pos] + s[..last][pos + 1..]) + [s[last]];
    }
  }

  lemma {:induction false} WithoutNone(s: seq<nat>, x: nat)
    requires x !in s
    ensures Without(s, x) == s
  {
    if s != [] {
      WithoutNone(s[..|s| - 1], x);
    }
  }

  /** After message `handle` has left the links in `gone`; indices are not recomputed yet. */
  ghost predicate Leaving(t: Topology, db0: MsgDb, lnk0: LinkDb, db: MsgDb, lnk: LinkDb, handle: nat, now: nat, gone: seq<nat>, recalc: set<nat>)
    requires AllRoutable(t, db0) && Past(db0, now)
  {
    && db.Keys == db0.Keys - {handle}
    && (forall e {:trigger OnLink(lnk, e)} :: OnLink(lnk, e) == if e in gone then Without(OnLink(lnk0, e), handle) else OnLink(lnk0, e))
    && (forall m {:trigger db[m]} :: m in db ==>
          db[m] == if Shares(RouteOf(t, db0[m].src, db0[m].dst), gone) then Charged(db0[m], now) else db0[m])
    && (forall m {:trigger m in recalc} :: m in recalc <==> m in db && Shares(RouteOf(t, db0[m].src, db0[m].dst), gone))
  }

  /** After message `handle` has left the route `path`. */
  ghost predicate Removed(t: Topology, db0: MsgDb, lnk0: LinkDb, db: MsgDb, lnk: LinkDb, handle: nat, now: nat, path: seq<nat>)
    requires AllRoutable(t, db0) && Past(db0, now)
  {
    && db.Keys == db0.Keys - {handle}
    && (forall e {:trigger OnLink(lnk, e)} :: OnLink(lnk, e) == Without(OnLink(lnk0, e), handle))
    && (forall m {:trigger db[m]} :: m in db ==>
          db[m] == Expected(t, db0[m], Shares(RouteOf(t, db0[m].src, db0[m].dst), path), now, lnk))
  }

  lemma PastAt(db: MsgDb, now: nat, m: nat)
    requires Past(db, now) && m in db
    ensures db[m].lastTime <= now && db[m].maxCong > 0
  {
  }

  lemma RoutableAt(t: Topology, db: MsgDb, m: nat)
    requires AllRoutable(t, db) && m in db
    ensures Routable(t, db[m].src, db[m].dst)
  {
  }

  lemma StillMoving(t: Topology, db: MsgDb, lnk: LinkDb, index: nat, handle: nat, now: nat)
    requires Listed(t, db, lnk, index) && Cached(t, db, lnk) && Past(db, now) && handle in db
    ensures var db1 := db[handle := Charged(db[handle], now)];
      Listed(t, db1, lnk, index) && Cached(t, db1, lnk)
  {
    hide MaxLoad, Route, Arrives;
    var db1 := db[handle := Charged(db[handle], now)];
    forall m | m in db1 ensures db1[m].src == db[m].src && db1[m].dst == db[m].dst && db1[m].maxCong == db[m].maxCong {
    }
  }

  lemma LeavingBegins(t: Topology, db0: MsgDb, lnk0: LinkDb, db: MsgDb, handle: nat, now: nat)
    requires AllRoutable(t, db0) && Past(db0, now)
    requires db == db0 - {handle}
    ensures Leaving(t, db0, lnk0, db, lnk0, handle, now, [], {})
  {
    hide Route, Arrives;
  }

  lemma LeavingFacts(t: Topology, db0: MsgDb, lnk0: LinkDb, db: MsgDb, lnk: LinkDb, index: nat, handle: nat, now: nat,
                     path: seq<nat>, gone: seq<nat>, e: nat, recalc: set<nat>)
    requires Before(t, db0, lnk0, index, now) && handle in db0 && path == RouteOf(t, db0[handle].src, db0[handle].dst)
    requires Leaving(t, db0, lnk0, db, lnk, handle, now, gone, recalc) && e in path && e !in gone
    ensures e in lnk && OnLink(lnk, e) == OnLink(lnk0, e) && lnk[e] == OnLink(lnk, e)
    ensures NoRepeat(lnk[e]) && handle in lnk[e] && handle !in db
    ensures forall i :: 0 <= i < |lnk[e]| && lnk[e][i] != handle ==> lnk[e][i] in db
    ensures forall m {:trigger db[m]} :: m in db ==> db[m].lastTime <= now && db[m].maxCong > 0
  {
    hide Route, Arrives, MaxLoad;
    assert OnLink(lnk, e) == OnLink(lnk0, e);
    IdsKnown(t, db0, lnk0, index, e);
    forall m | m in db ensures db[m].lastTime <= now && db[m].maxCong > 0 {
      PastAt(db0, now, m);
    }
  }

  lemma ChargedTwice(m: Msg, now: nat)
    requires m.lastTime <= now && m.maxCong > 0
    ensures Charged(Charged(m, now), now) == Charged(m, now)
  {
    ZeroCharge(m.maxCong);
  }

  lemma LinkLeft(t: Topology, db0: MsgDb, lnk0: LinkDb, db: MsgDb, lnk: LinkDb, db1: MsgDb, lnk1: LinkDb, index: nat,
                 handle: nat, now: nat, path: seq<nat>, gone: seq<nat>, e: nat, pos: nat, recalc: set<nat>, more: set<nat>)
    requires Before(t, db0, lnk0, index, now) && handle in db0 && path == RouteOf(t, db0[handle].src, db0[handle].dst)
    requires Leaving(t, db0, lnk0, db, lnk, handle, now, gone, recalc) && e in path && e !in gone && e in lnk
    requires pos < |lnk[e]| && lnk[e][pos] == handle
    requires lnk1 == lnk[e := lnk[e][..pos] + lnk[e][pos + 1..]]
    requires db1.Keys == db.Keys
    requires forall m {:trigger db1[m]} :: m in db1 ==>
      && db[m].lastTime <= now && db[m].maxCong > 0
      && db1[m] == if m in lnk[e] then Charged(db[m], now) else db[m]
    requires more == recalc + set m | m in lnk[e] && m != handle
    ensures Leaving(t, db0, lnk0, db1, lnk1, handle, now, gone + [e], more)
  {
    hide Route, Arrives, MaxLoad, Charged, Cached;
    LeavingFacts(t, db0, lnk0, db, lnk, index, handle, now, path, gone, e, recalc);
    IdsKnown(t, db0, lnk0, index, e);
    WithoutAt(lnk[e], handle, pos);
    forall l ensures OnLink(lnk1, l) == if l in gone + [e] then Without(OnLink(lnk0, l), handle) else OnLink(lnk0, l) {
      assert OnLink(lnk, l) == if l in gone then Without(OnLink(lnk0, l), handle) else OnLink(lnk0, l);
    }
    forall m | m in db
      ensures Shares(RouteOf(t, db0[m].src, db0[m].dst), gone + [e])
          <==> Shares(RouteOf(t, db0[m].src, db0[m].dst), gone) || m in lnk[e]
      ensures db1[m] == if Shares(RouteOf(t, db0[m].src, db0[m].dst), gone + [e]) then Charged(db0[m], now) else db0[m]
    {
      SharesMore(RouteOf(t, db0[m].src, db0[m].dst), gone, e);
      PastAt(db0, now, m);
      ChargedTwice(db0[m], now);
    }
    forall m ensures m in more <==> m in db1 && Shares(RouteOf(t, db0[m].src, db0[m].dst), gone + [e]) {
      if m in lnk[e] && m != handle {
        var i :| 0 <= i < |lnk[e]| && lnk[e][i] == m;
      }
    }
  }

  lemma RecalcRoutable(t: Topology, db0: MsgDb, lnk0: LinkDb, db: MsgDb, lnk: LinkDb, index: nat, handle: nat, now: nat,
                       path: seq<nat>, recalc: set<nat>)
    requires Before(t, db0, lnk0, index, now) && Leaving(t, db0, lnk0, db, lnk, handle, now, path, recalc)
    ensures forall m {:trigger m in recalc} :: m in recalc ==> m in db
    ensures forall m {:trigger db[m]} :: m in db ==> Routable(t, db[m].src, db[m].dst)
  {
    hide Route, Arrives, MaxLoad;
    forall m | m in db ensures Routable(t, db[m].src, db[m].dst) {
      RoutableAt(t, db0, m);
    }
  }

  lemma MaxLoadNext(lnk: LinkDb, path: seq<nat>, i: nat)
    requires i < |path|
    ensures MaxLoad(lnk, path[..i + 1]) == Max(MaxLoad(lnk, path[..i]), Load(lnk, path[i]))
  {
    assert path[..i + 1][..i] == path[..i];
  }

  lemma Recalculated(t: Topology, db0: MsgDb, lnk0: LinkDb, db: MsgDb, db1: MsgDb, lnk: LinkDb, index: nat, handle: nat, now: nat,
                     path: seq<nat>, recalc: set<nat>)
    requires Before(t, db0, lnk0, index, now) && handle in db0 && path == RouteOf(t, db0[handle].src, db0[handle].dst)
    requires Leaving(t, db0, lnk0, db, lnk, handle, now, path, recalc)
    requires db1.Keys == db.Keys
    requires forall m {:trigger db1[m]} :: m in db ==>
      && Routable(t, db[m].src, db[m].dst)
      && db1[m] == if m in recalc then db[m].(maxCong := MaxLoad(lnk, RouteOf(t, db[m].src, db[m].dst))) else db[m]
    ensures Removed(t, db0, lnk0, db1, lnk, handle, now, path)
    ensures Listed(t, db1, lnk, index) && Cached(t, db1, lnk)
  {
    hide Route, Arrives, MaxLoad;
    forall e ensures OnLink(lnk, e) == Without(OnLink(lnk0, e), handle) {
      if e !in path {
        IdsKnown(t, db0, lnk0, index, e);
        WithoutNone(OnLink(lnk0, e), handle);
      }
    }
    forall m | m in db1
      ensures db1[m] == Expected(t, db0[m], Shares(RouteOf(t, db0[m].src, db0[m].dst), path), now, lnk)
    {
      RecalculatedOne(t, db0, lnk0, db, db1, lnk, index, handle, now, path, recalc, m);
    }
    assert Removed(t, db0, lnk0, db1, lnk, handle, now, path);
    RemovedValid(t, db0, lnk0, db1, lnk, index, handle, now, path);
  }

  lemma RecalculatedOne(t: Topology, db0: MsgDb, lnk0: LinkDb, db: MsgDb, db1: MsgDb, lnk: LinkDb, index: nat, handle: nat, now: nat,
                        path: seq<nat>, recalc: set<nat>, m: nat)
    requires Before(t, db0, lnk0, index, now) && handle in db0 && path == RouteOf(t, db0[handle].src, db0[handle].dst)
    requires Leaving(t, db0, lnk0, db, lnk, handle, now, path, recalc) && m in db && m in db1
    requires Routable(t, db[m].src, db[m].dst)
    requires db1[m] == if m in recalc then db[m].(maxCong := MaxLoad(lnk, RouteOf(t, db[m].src, db[m].dst))) else db[m]
    ensures db1[m] == Expected(t, db0[m], Shares(RouteOf(t, db0[m].src, db0[m].dst), path), now, lnk)
  {
    hide Route, Arrives, MaxLoad;
    PastAt(db0, now, m);
    CachedAt(t, db0, lnk0, m);
    var r := RouteOf(t, db0[m].src, db0[m].dst);
    if Shares(r, path) {
      var e :| e in r && e in path;
      IdsKnown(t, db0, lnk0, index, e);
      assert m in Without(OnLink(lnk0, e), handle);
      OnLoad(lnk, e, m);
      var i :| 0 <= i < |r| && r[i] == e;
      MaxLoadCovers(lnk, r, i);
    } else {
      MaxLoadSame(lnk0, lnk, r);
    }
  }

  lemma RemovedValid(t: Topology, db0: MsgDb, lnk0: LinkDb, db: MsgDb, lnk: LinkDb, index: nat, handle: nat, now: nat, path: seq<nat>)
    requires Before(t, db0, lnk0, index, now) && Removed(t, db0, lnk0, db, lnk, handle, now, path)
    ensures Listed(t, db, lnk, index) && Cached(t, db, lnk)
  {
    hide Route, Arrives, MaxLoad, Cached;
    forall m | m in db ensures db[m].src == db0[m].src && db[m].dst == db0[m].dst {
      PastAt(db0, now, m);
    }
    forall e ensures NoRepeat(OnLink(lnk, e)) {
      IdsKnown(t, db0, lnk0, index, e);
      WithoutNoRepeat(OnLink(lnk0, e), handle);
    }
    forall m, e
      ensures m in OnLink(lnk, e) <==> m in db && Routable(t, db[m].src, db[m].dst) && e in RouteOf(t, db[m].src, db[m].dst)
    {
      IdsKnown(t, db0, lnk0, index, e);
      assert m in OnLink(lnk, e) <==> m in OnLink(lnk0, e) && m != handle;
    }
    RemovedCached(t, db0, lnk0, db, lnk, handle, now, path);
  }

  lemma RemovedCached(t: Topology, db0: MsgDb, lnk0: LinkDb, db: MsgDb, lnk: LinkDb, handle: nat, now: nat, path: seq<nat>)
    requires AllRoutable(t, db0) && Past(db0, now) && AllRoutable(t, db)
    requires Removed(t, db0, lnk0, db, lnk, handle, now, path)
    ensures Cached(t, db, lnk)
  {
    hide Route, Arrives, MaxLoad;
    forall m | m in db ensures db[m].maxCong == Max(1, MaxLoad(lnk, RouteOf(t, db[m].src, db[m].dst))) {
      PastAt(db0, now, m);
    }
  }

  lemma MaxLoadEmpty(lnk: LinkDb)
    ensures MaxLoad(lnk, []) == 0
  {
  }

  /** What ChargeAndBump needs to know about the messages on link e. */
  lemma InsertingFacts(t: Topology, db0: MsgDb, lnk0: LinkDb, db: MsgDb, lnk: LinkDb, index: nat, now: nat, done: seq<nat>, e: nat)
    requires Listed(t, db0, lnk0, index) && Cached(t, db0, lnk0) && Past(db0, now) && e !in done
    requires Inserting(t, db0, lnk0, db, lnk, index, now, done)
    ensures var ids := OnLink(lnk, e);
      && ids == OnLink(lnk0, e) && NoRepeat(ids) && index !in ids && index !in db0
      && (forall i :: 0 <= i < |ids| ==> ids[i] in db0)
      && db.Keys == db0.Keys + {index}
      && (forall m :: m in db0 ==> db[m].lastTime <= now && db[m].maxCong > 0)
  {
    hide MaxLoad, Route, Arrives;
    assert OnLink(lnk, e) == OnLink(lnk0, e) + [];
    IdsKnown(t, db0, lnk0, index, e);
    forall m | m in db0 ensures db[m].lastTime <= now && db[m].maxCong > 0 {
      assert db[m] == Expected(t, db0[m], Shares(RouteOf(t, db0[m].src, db0[m].dst), done), now, lnk);
    }
  }

  lemma MessageCharged(t: Topology, db0: MsgDb, lnk0: LinkDb, db: MsgDb, lnk: LinkDb, db1: MsgDb, lnk1: LinkDb,
                       index: nat, now: nat, done: seq<nat>, e: nat, m: nat)
    requires Listed(t, db0, lnk0, index) && Cached(t, db0, lnk0) && Past(db0, now) && e !in done
    requires Inserting(t, db0, lnk0, db, lnk, index, now, done)
    requires lnk1 == lnk[e := OnLink(lnk, e) + [index]]
    requires m in db0 && m in db1
    requires m in OnLink(lnk, e) ==> db[m].lastTime <= now && db[m].maxCong > 0 && db1[m] == Bump(Charged(db[m], now), Load(lnk, e))
    requires m !in OnLink(lnk, e) ==> db1[m] == db[m]
    ensures db1[m] == Expected(t, db0[m], Shares(RouteOf(t, db0[m].src, db0[m].dst), done + [e]), now, lnk1)
  {
    hide MaxLoad, Route, Arrives, Charged, Bump, Cached, Listed, Expected, Shares;
    var next := AddLink(lnk, e, index);
    LoadsOutside(lnk0, lnk, done, index);
    InsertingFacts(t, db0, lnk0, db, lnk, index, now, done, e);
    IdsKnown(t, db0, lnk0, index, e);
    CachedAt(t, db0, lnk0, m);
    OnLoad(lnk, e, m);
    InsertStep(t, db0[m], db[m], done, e, now, lnk0, lnk, lnk1, m in OnLink(lnk, e));
  }

  lemma LinkInserted(t: Topology, db0: MsgDb, lnk0: LinkDb, db: MsgDb, lnk: LinkDb, db1: MsgDb, lnk1: LinkDb,
                     index: nat, now: nat, done: seq<nat>, e: nat)
    requires Listed(t, db0, lnk0, index) && Cached(t, db0, lnk0) && Past(db0, now) && e !in done
    requires Inserting(t, db0, lnk0, db, lnk, index, now, done)
    requires lnk1 == lnk[e := OnLink(lnk, e) + [index]]
    requires db1.Keys == db.Keys && forall m {:trigger db1[m]} :: m in db0 ==>
      (m in OnLink(lnk, e) ==> db[m].lastTime <= now && db[m].maxCong > 0
                               && db1[m] == Bump(Charged(db[m], now), Load(lnk, e)))
      && (m !in OnLink(lnk, e) ==> db1[m] == db[m])
    ensures Inserting(t, db0, lnk0, db1, lnk1, index, now, done + [e])
  {
    hide MaxLoad, Route, Arrives, Charged, Bump, Cached, Listed, Expected, Shares, Load, OnLink;
    forall m | m in db0
      ensures db1[m] == Expected(t, db0[m], Shares(RouteOf(t, db0[m].src, db0[m].dst), done + [e]), now, lnk1)
    {
      MessageCharged(t, db0, lnk0, db, lnk, db1, lnk1, index, now, done, e, m);
    }
    LinksAfter(lnk0, lnk, lnk1, index, done, e);
  }

  lemma LinksAfter(lnk0: LinkDb, lnk: LinkDb, lnk1: LinkDb, index: nat, done: seq<nat>, e: nat)
    requires forall l {:trigger OnLink(lnk, l)} :: OnLink(lnk, l) == OnLink(lnk0, l) + if l in done then [index] else []
    requires e !in done && lnk1 == lnk[e := OnLink(lnk, e) + [index]]
    ensures forall l {:trigger OnLink(lnk1, l)} :: OnLink(lnk1, l) == OnLink(lnk0, l) + if l in done + [e] then [index] else []
  {
    forall l ensures OnLink(lnk1, l) == OnLink(lnk0, l) + if l in done + [e] then [index] else [] {
      assert OnLink(lnk, l) == OnLink(lnk0, l) + if l in done then [index] else [];
      if l == e {
        assert OnLink(lnk0, e) + [] == OnLink(lnk0, e);
      }
    }
  }

  lemma CachedAt(t: Topology, db: MsgDb, lnk: LinkDb, m: nat)
    requires AllRoutable(t, db) && Cached(t, db, lnk) && m in db
    ensures db[m].maxCong == Max(1, MaxLoad(lnk, RouteOf(t, db[m].src, db[m].dst)))
  {
  }

  lemma OnLoad(lnk: LinkDb, e: nat, m: nat)
    ensures m in OnLink(lnk, e) ==> Load(lnk, e) > 0
  {
  }

  lemma LoadsOutside(lnk0: LinkDb, lnk: LinkDb, done: seq<nat>, index: nat)
    requires forall e {:trigger OnLink(lnk, e)} :: OnLink(lnk, e) == OnLink(lnk0, e) + if e in done then [index] else []
    ensures forall l {:trigger Load(lnk, l)} :: l !in done ==> Load(lnk, l) == Load(lnk0, l)
  {
  }

  lemma NewIndex(lnk: LinkDb, next: LinkDb, done: seq<nat>, e: nat)
    requires e !in done && Load(next, e) == Load(lnk, e) + 1 && forall l :: l != e ==> Load(next, l) == Load(lnk, l)
    ensures MaxLoad(next, done + [e]) == Max(MaxLoad(lnk, done), Load(lnk, e) + 1)
  {
    assert (done + [e])[..|done|] == done;
    MaxLoadSame(lnk, next, done);
  }

  lemma IdsKnown(t: Topology, db: MsgDb, lnk: LinkDb, index: nat, e: nat)
    requires Listed(t, db, lnk, index)
    ensures NoRepeat(OnLink(lnk, e)) && index !in OnLink(lnk, e)
    ensures forall i :: 0 <= i < |OnLink(lnk, e)| ==> OnLink(lnk, e)[i] in db
    ensures forall m :: m in db ==> (m in OnLink(lnk, e) <==> e in RouteOf(t, db[m].src, db[m].dst))
  {
    forall i | 0 <= i < |OnLink(lnk, e)| ensures OnLink(lnk, e)[i] in db {
      assert OnLink(lnk, e)[i] in OnLink(lnk, e);
    }
  }

  lemma InsertBegins(t: Topology, db0: MsgDb, lnk0: LinkDb, db: MsgDb, index: nat, now: nat)
    requires Listed(t, db0, lnk0, index) && Cached(t, db0, lnk0) && Past(db0, now)
    requires db.Keys == db0.Keys + {index} && forall m :: m in db0 ==> db[m] == db0[m]
    ensures Inserting(t, db0, lnk0, db, lnk0, index, now, [])
  {
  }

  lemma InsertEnds(t: Topology, db0: MsgDb, lnk0: LinkDb, db: MsgDb, lnk: LinkDb, index: nat, now: nat, path: seq<nat>)
    requires Listed(t, db0, lnk0, index) && Cached(t, db0, lnk0) && Past(db0, now) && NoRepeat(path)
    requires Inserting(t, db0, lnk0, db, lnk, index, now, path)
    requires Routable(t, db[index].src, db[index].dst) && path == RouteOf(t, db[index].src, db[index].dst)
    requires db[index].maxCong == Max(1, MaxLoad(lnk, path))
    ensures Listed(t, db, lnk, index + 1) && Cached(t, db, lnk)
  {
    hide MaxLoad, Route, Arrives, Cached;
    forall m | m in db0
      ensures m in db && db[m].src == db0[m].src && db[m].dst == db0[m].dst && m != index
    {
      assert db[m] == Expected(t, db0[m], Shares(RouteOf(t, db0[m].src, db0[m].dst), path), now, lnk);
    }
    forall e ensures NoRepeat(OnLink(lnk, e)) {
      IdsKnown(t, db0, lnk0, index, e);
      assert OnLink(lnk, e) == OnLink(lnk0, e) + if e in path then [index] else [];
    }
    forall m, e
      ensures m in OnLink(lnk, e) <==> m in db && Routable(t, db[m].src, db[m].dst) && e in RouteOf(t, db[m].src, db[m].dst)
    {
      MemberAfter(lnk0, lnk, e, path, index, m);
      if m in db0 {
        IdsKnown(t, db0, lnk0, index, e);
      }
    }
    InsertEndsCached(t, db0, lnk0, db, lnk, index, now, path);
  }

  lemma MemberAfter(lnk0: LinkDb, lnk: LinkDb, e: nat, path: seq<nat>, index: nat, m: nat)
    requires OnLink(lnk, e) == OnLink(lnk0, e) + if e in path then [index] else []
    ensures m in OnLink(lnk, e) <==> m in OnLink(lnk0, e) || (e in path && m == index)
  {
  }

  lemma InsertEndsCached(t: Topology, db0: MsgDb, lnk0: LinkDb, db: MsgDb, lnk: LinkDb, index: nat, now: nat, path: seq<nat>)
    requires AllRoutable(t, db0) && Past(db0, now) && AllRoutable(t, db)
    requires Inserting(t, db0, lnk0, db, lnk, index, now, path)
    requires path == RouteOf(t, db[index].src, db[index].dst)
    requires db[index].maxCong == Max(1, MaxLoad(lnk, path))
    ensures Cached(t, db, lnk)
  {
    hide MaxLoad, Route, Arrives;
    forall m | m in db ensures db[m].maxCong == Max(1, MaxLoad(lnk, RouteOf(t, db[m].src, db[m].dst))) {
      if m in db0 {
        assert db[m] == Expected(t, db0[m], Shares(RouteOf(t, db0[m].src, db0[m].dst), path), now, lnk);
      }
    }
  }
}
