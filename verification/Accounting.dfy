/** Where every operation is: one entry per operation, and what each update does to it. */
module Accounting {
  import opened Schedule
  import opened DependencyTracker
  import opened EventLoop

  /** How many items of this kind the queue holds for op. */
  ghost function Count(aq: seq<Event>, kind: EventKind, op: Op): nat {
    if aq == [] then 0
    else
      var last := aq[|aq| - 1];
      Count(aq[..|aq| - 1], kind, op) + if last.kind == kind && last.op == op then 1 else 0
  }

  function OpsOf(q: seq<Unexpected>): (r: seq<Op>)
    ensures |r| == |q| && forall i :: 0 <= i < |q| ==> r[i] == q[i].op
  {
    seq(|q|, i requires 0 <= i < |q| => q[i].op)
  }

  /** `handed` counts how often the dependency tracker has handed op out, less the Issue
      items still queued; the rest counts the places an operation can be in. */
  datatype Entry = Entry(handed: int, started: int, done: int, messages: int, inUq: int, inRq: int, matched: int)

  ghost function Ledger(cfg: Config, s: Sim, op: Op): Entry
    requires TrackersShaped(cfg, s) && IsOp(cfg, op)
  {
    var tr, ch := s.trackers[op.host], ChannelOf(cfg, op);
    Entry(Taken(tr, op.off) - Count(s.aq, Issue, op),
          tr.started[op.off],
          tr.done[op.off],
          Count(s.aq, Message, op),
          multiset(OpsOf(Queue(s.uq, ch)))[op],
          multiset(Queue(s.rq, ch))[op],
          s.matched[op])
  }

  // ---- the queue of items ----

  lemma CountPush(aq: seq<Event>, e: Event, kind: EventKind, op: Op)
    ensures Count(aq + [e], kind, op) == Count(aq, kind, op) + if e.kind == kind && e.op == op then 1 else 0
  {
    assert (aq + [e])[..|aq|] == aq;
  }

  lemma RemoveBeforeLast<T>(s: seq<T>, i: nat)
    requires i < |s| - 1
    ensures var init := s[..|s| - 1]; s[..i] + s[i + 1..] == (init[..i] + init[i + 1..]) + [s[|s| - 1]]
  {
    var init, last := s[..|s| - 1], s[|s| - 1];
    assert init[i + 1..] + [last] == s[i + 1..];
  }

  lemma {:induction false} CountRemove(aq: seq<Event>, i: nat, kind: EventKind, op: Op)
    requires i < |aq|
    ensures Count(aq, kind, op)
         == Count(aq[..i] + aq[i + 1..], kind, op) + if aq[i].kind == kind && aq[i].op == op then 1 else 0
  {
    var last := |aq| - 1;
    if i == last {
      assert aq[..i] + aq[i + 1..] == aq[..last];
    } else {
      CountRemove(aq[..last], i, kind, op);
      var rest := aq[..last][..i] + aq[..last][i + 1..];
      RemoveBeforeLast(aq, i);
      CountPush(rest, aq[last], kind, op);
    }
  }

  lemma {:induction false} CountFreed(cfg: Config, s: Sim, aq: seq<Event>, host: nat, ex: seq<Freed>, kind: EventKind, op: Op)
    requires host < |cfg.sched| && forall i :: 0 <= i < |ex| ==> ex[i].node < |cfg.sched[host]|
    ensures Count(aq + FreedEvents(cfg, s, host, ex), kind, op)
         == Count(aq, kind, op) + if kind == Issue && op.host == host then Listed(ex)[op.off] else 0
  {
    var events := FreedEvents(cfg, s, host, ex);
    if ex == [] {
      assert aq + events == aq;
    } else {
      var init := ex[..|ex| - 1];
      CountFreed(cfg, s, aq, host, init, kind, op);
      assert aq + events == (aq + events[..|ex| - 1]) + [events[|ex| - 1]];
      CountPush(aq + events[..|ex| - 1], events[|ex| - 1], kind, op);
    }
  }

  // ---- effect of each update on the entries ----

  lemma PopLedger(cfg: Config, s: Sim, i: nat, op: Op)
    requires TrackersShaped(cfg, s) && i < |s.aq| && IsOp(cfg, op)
    ensures var l, e := Ledger(cfg, s, op), s.aq[i];
      Ledger(cfg, Pop(s, i), op)
      == if e.op != op then l
         else if e.kind == Issue then l.(handed := l.handed + 1)
         else l.(messages := l.messages - 1)
  {
    CountRemove(s.aq, i, Issue, op);
    CountRemove(s.aq, i, Message, op);
  }

  lemma InsertLedger(cfg: Config, s: Sim, e: Event, op: Op)
    requires TrackersShaped(cfg, s) && IsOp(cfg, op)
    ensures var l := Ledger(cfg, s, op);
      Ledger(cfg, Insert(s, e), op)
      == if e.op != op then l
         else if e.kind == Issue then l.(handed := l.handed - 1)
         else l.(messages := l.messages + 1)
  {
    CountPush(s.aq, e, Issue, op);
    CountPush(s.aq, e, Message, op);
  }

  /** Replacing one tracker by another with the same nodes taken. */
  lemma TrackerLedger(cfg: Config, s: Sim, host: nat, r: Tracker, op: Op)
    requires TrackersOk(cfg, s) && IsOp(cfg, op) && host < |cfg.sched|
    requires Exact(cfg.sched[host], r) && SameTaken(s.trackers[host], r)
    ensures var s1 := s.(trackers := s.trackers[host := r]);
      && TrackersOk(cfg, s1)
      && Ledger(cfg, s1, op)
         == if op.host != host then Ledger(cfg, s, op)
            else Ledger(cfg, s, op).(started := r.started[op.off], done := r.done[op.off])
  {
    if op.host == host {
      assert Taken(s.trackers[host], op.off) == Taken(r, op.off);
    }
  }

  lemma StartLedger(cfg: Config, s: Sim, p: Op, op: Op)
    requires TrackersOk(cfg, s) && IsOp(cfg, p) && IsOp(cfg, op)
    requires Ledger(cfg, s, p).started == 0
    ensures TrackersOk(cfg, Start(cfg, s, p))
    ensures var l := Ledger(cfg, s, op);
      Ledger(cfg, Start(cfg, s, p), op) == if p != op then l else l.(started := l.started + 1)
  {
    var nodes, tr, s1 := cfg.sched[p.host], s.trackers[p.host], s.(startedAt := s.startedAt[p := s.now]);
    MarkStartedExact(nodes, tr, p.off);
    var r := MarkStarted(nodes, tr, p.off);
    StampLedger(cfg, s, s1, op);
    TrackerLedger(cfg, s1, p.host, r, op);
    hide Exact, MarkStarted, SameTaken, Taken, Count, Shaped, OpsOf, ChannelOf, TrackersOk, TrackersShaped;
    if p.host == op.host {
      assert r.started[op.off] == tr.started[op.off] + if op == p then 1 else 0;
    }
  }

  lemma StampLedger(cfg: Config, s: Sim, s1: Sim, op: Op)
    requires TrackersOk(cfg, s) && IsOp(cfg, op) && s1 == s.(startedAt := s1.startedAt)
    ensures TrackersOk(cfg, s1) && Ledger(cfg, s1, op) == Ledger(cfg, s, op)
  {
    hide Exact, Taken, Count, OpsOf, ChannelOf;
  }

  lemma CompleteLedger(cfg: Config, s: Sim, p: Op, at: nat, op: Op)
    requires TrackersOk(cfg, s) && IsOp(cfg, p) && IsOp(cfg, op)
    requires Ledger(cfg, s, p).done == 0
    ensures TrackersOk(cfg, Complete(cfg, s, p, at))
    ensures var l := Ledger(cfg, s, op);
      Ledger(cfg, Complete(cfg, s, p, at), op) == if p != op then l else l.(done := l.done + 1)
  {
    var nodes, tr := cfg.sched[p.host], s.trackers[p.host];
    MarkDoneExact(nodes, tr, p.off, at);
    hide Exact, MarkDone, SameTaken;
    TrackerLedger(cfg, s, p.host, MarkDone(nodes, tr, p.off, at), op);
  }

  lemma PushRqLedger(cfg: Config, s: Sim, p: Op, op: Op)
    requires TrackersShaped(cfg, s) && IsOp(cfg, p) && IsOp(cfg, op)
    ensures var l := Ledger(cfg, s, op);
      Ledger(cfg, PushRq(cfg, s, p), op) == if p != op then l else l.(inRq := l.inRq + 1)
  {
  }

  lemma PopRqLedger(cfg: Config, s: Sim, ch: Channel, op: Op)
    requires TrackersShaped(cfg, s) && IsOp(cfg, op)
    requires Queue(s.rq, ch) != [] && IsOp(cfg, Queue(s.rq, ch)[0]) && ChannelOf(cfg, Queue(s.rq, ch)[0]) == ch
    ensures var l := Ledger(cfg, s, op);
      Ledger(cfg, PopRq(s, ch), op) == if Queue(s.rq, ch)[0] != op then l else l.(inRq := l.inRq - 1)
  {
    hide Shaped, Taken, Count;
    var q, r := Queue(s.rq, ch), PopRq(s, ch);
    assert q == [q[0]] + q[1..];
    assert multiset(q) == multiset{q[0]} + multiset(q[1..]);
    assert ChannelOf(cfg, op) == ch ==> Queue(r.rq, ChannelOf(cfg, op)) == q[1..];
  }

  lemma PushUqLedger(cfg: Config, s: Sim, p: Op, since: nat, op: Op)
    requires TrackersShaped(cfg, s) && IsOp(cfg, p) && IsOp(cfg, op)
    ensures var l := Ledger(cfg, s, op);
      Ledger(cfg, PushUq(cfg, s, p, since), op) == if p != op then l else l.(inUq := l.inUq + 1)
  {
    var ch := ChannelOf(cfg, p);
    var q := Queue(s.uq, ch);
    assert Queue(PushUq(cfg, s, p, since).uq, ch) == q + [Unexpected(p, since)];
    OpsPush(q, Unexpected(p, since));
  }

  lemma OpsPush(q: seq<Unexpected>, u: Unexpected)
    ensures multiset(OpsOf(q + [u])) == multiset(OpsOf(q)) + multiset{u.op}
  {
    assert OpsOf(q + [u]) == OpsOf(q) + [u.op];
  }

  lemma OpsPop(q: seq<Unexpected>)
    requires q != []
    ensures multiset(OpsOf(q)) == multiset(OpsOf(q[1..])) + multiset{q[0].op}
  {
    assert OpsOf(q) == [q[0].op] + OpsOf(q[1..]);
  }

  lemma PopUqLedger(cfg: Config, s: Sim, ch: Channel, op: Op)
    requires TrackersShaped(cfg, s) && IsOp(cfg, op)
    requires Queue(s.uq, ch) != [] && IsOp(cfg, Queue(s.uq, ch)[0].op) && ChannelOf(cfg, Queue(s.uq, ch)[0].op) == ch
    ensures var l := Ledger(cfg, s, op);
      Ledger(cfg, PopUq(s, ch), op) == if Queue(s.uq, ch)[0].op != op then l else l.(inUq := l.inUq - 1)
  {
    OpsPop(Queue(s.uq, ch));
  }

  lemma FlushLedger(cfg: Config, s: Sim, host: nat, op: Op)
    requires TrackersOk(cfg, s) && IsOp(cfg, op)
    ensures TrackersOk(cfg, Flush(cfg, s, host))
    ensures Ledger(cfg, Flush(cfg, s, host), op) == Ledger(cfg, s, op)
  {
    if host < |s.trackers| {
      var ex := s.trackers[host].executable;
      CountFreed(cfg, s, s.aq, host, ex, Issue, op);
      CountFreed(cfg, s, s.aq, host, ex, Message, op);
    }
  }
}
