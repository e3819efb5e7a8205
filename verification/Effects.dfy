/** What handling an item can change at all: which dependency counters, which queues and
    which clocks.  Nothing here depends on the books of module ExactlyOnce. */
module Effects {
  import opened Schedule
  import opened DependencyTracker
  import opened EventLoop
  import opened Accounting

  ghost function Starts(s: Sim, op: Op): nat
    requires op.host < |s.trackers|
  {
    s.trackers[op.host].started[op.off]
  }

  ghost function Completions(s: Sim, op: Op): nat
    requires op.host < |s.trackers|
  {
    s.trackers[op.host].done[op.off]
  }

  ghost predicate ClockBelow(c: Clock, bound: nat) {
    forall k {:trigger c[k]} :: k in c ==> c[k] <= bound
  }

  ghost predicate ClocksBounded(s: Sim) {
    ClockBelow(s.nexto, s.horizon) && ClockBelow(s.nextgr, s.horizon) && ClockBelow(s.nextgs, s.horizon)
  }

  /** Unexpected messages stand in their queue in the order they came, none of them in the
      future. */
  ghost predicate UqPast(s: Sim) {
    && (forall ch, i {:trigger Queue(s.uq, ch)[i]} :: 0 <= i < |Queue(s.uq, ch)| ==> Queue(s.uq, ch)[i].since <= s.now)
    && (forall ch, i, j {:trigger Queue(s.uq, ch)[i], Queue(s.uq, ch)[j]} :: 0 <= i <= j < |Queue(s.uq, ch)| ==>
          Queue(s.uq, ch)[i].since <= Queue(s.uq, ch)[j].since)
  }

  /** Completions on some hosts, none before time t. */
  ghost predicate Follows(a: seq<Tracker>, b: seq<Tracker>, hosts: set<nat>, t: nat)
  {
    && |b| == |a|
    && forall h {:trigger b[h]} :: 0 <= h < |a| ==>
         && b[h].started == a[h].started
         && FreedSince(a[h].executable, b[h].executable, t)
         && (h in hosts || b[h] == a[h])
  }

  /** From a to b some operations are completed, none before time t, and clocks may be set. */
  ghost predicate Completes(a: Sim, b: Sim, ops: multiset<Op>, hosts: set<nat>, t: nat)
  {
    && b.aq == a.aq && b.rq == a.rq && b.uq == a.uq && b.now == a.now
    && Follows(a.trackers, b.trackers, hosts, t)
    && (forall op: Op {:trigger Completions(b, op)} :: op.host < |a.trackers| ==> Completions(b, op) == Completions(a, op) + ops[op])
    && (ClocksBounded(a) ==> ClocksBounded(b))
  }

  lemma FollowsTrans(a: seq<Tracker>, b: seq<Tracker>, c: seq<Tracker>, hosts: set<nat>, t: nat)
    requires Follows(a, b, hosts, t) && Follows(b, c, hosts, t)
    ensures Follows(a, c, hosts, t)
  {
    forall h | 0 <= h < |a|
      ensures c[h].started == a[h].started && FreedSince(a[h].executable, c[h].executable, t) && (h in hosts || c[h] == a[h])
    {
      assert b[h].started == a[h].started;
    }
  }

  lemma CompletesTrans(a: Sim, b: Sim, c: Sim, p: multiset<Op>, q: multiset<Op>, hosts: set<nat>, t: nat)
    requires Completes(a, b, p, hosts, t) && Completes(b, c, q, hosts, t)
    ensures Completes(a, c, p + q, hosts, t)
    ensures p == multiset{} ==> Completes(a, c, q, hosts, t)
    ensures q == multiset{} ==> Completes(a, c, p, hosts, t)
  {
    FollowsTrans(a.trackers, b.trackers, c.trackers, hosts, t);
    hide Follows, ClocksBounded;
    forall op: Op | op.host < |a.trackers| ensures Completions(c, op) == Completions(a, op) + (p + q)[op] {
      assert Completions(b, op) == Completions(a, op) + p[op];
    }
  }

  /** b differs from a in the clocks only. */
  ghost predicate ClocksDiffer(a: Sim, b: Sim)
  {
    && b.aq == a.aq && b.rq == a.rq && b.uq == a.uq && b.trackers == a.trackers
    && b.matched == a.matched && b.mate == a.mate && b.startedAt == a.startedAt && b.now == a.now
  }

  lemma SetBounded(s: Sim, host: nat, port: nat, t: nat)
    requires ClocksBounded(s)
    ensures ClocksBounded(SetO(s, host, port, t)) && ClocksBounded(SetGr(s, host, port, t)) && ClocksBounded(SetGs(s, host, port, t))
  {
  }

  lemma RaiseClocks(s: Sim, host: nat, proc: nat, nic: nat, cpuTime: nat, nicTime: nat)
    ensures var r := Raise(s, host, proc, nic, cpuTime, nicTime);
      ClocksDiffer(s, r) && (ClocksBounded(s) ==> ClocksBounded(r))
  {
    hide At, ClocksBounded;
    if ClocksBounded(s) {
      SetBounded(s, host, proc, cpuTime);
      SetBounded(s, host, nic, nicTime);
      SetBounded(SetO(s, host, proc, cpuTime), host, nic, nicTime);
    }
  }

  lemma ClocksComplete(a: Sim, b: Sim, hosts: set<nat>, t: nat)
    requires b.aq == a.aq && b.rq == a.rq && b.uq == a.uq && b.now == a.now && b.trackers == a.trackers
    requires ClocksBounded(a) ==> ClocksBounded(b)
    ensures Completes(a, b, multiset{}, hosts, t)
  {
    hide ClocksBounded;
  }

  lemma CompleteCompletes(cfg: Config, s: Sim, op: Op, at: nat, hosts: set<nat>, t: nat)
    requires TrackersShaped(cfg, s) && IsOp(cfg, op) && op.host in hosts && t <= at
    ensures Completes(s, Complete(cfg, s, op, at), multiset{op}, hosts, t)
  {
    hide Shaped, MarkDone;
    MarkDoneFreesLater(cfg, s, op, at);
  }

  lemma MarkDoneFreesLater(cfg: Config, s: Sim, op: Op, at: nat)
    requires TrackersShaped(cfg, s) && IsOp(cfg, op)
    ensures var tr := s.trackers[op.host];
      FreedSince(tr.executable, MarkDone(cfg.sched[op.host], tr, op.off, at).executable, at)
  {
    var nodes, tr := cfg.sched[op.host], s.trackers[op.host];
    DoneFreesLater(tr.(done := tr.done + multiset{op.off}, doneAt := tr.doneAt[op.off := at]), nodes[op.off].dependOnMe, at);
  }

  lemma SameTrackers(cfg: Config, a: Sim, b: Sim)
    requires TrackersShaped(cfg, a) && b.trackers == a.trackers
    ensures TrackersShaped(cfg, b)
  {
  }

  /** The operations completed when a message and a receive meet. */
  function MeetingOf(send: Op, recv: Op, rendezvous: bool): multiset<Op> {
    if rendezvous then multiset{send, recv} else multiset{recv}
  }

  lemma DeliverCompletes(cfg: Config, s: Sim, send: Op, recv: Op, rendezvous: bool, proc: nat, nic: nat,
                         cpuTime: nat, nicTime: nat, hosts: set<nat>, t: nat)
    requires TrackersShaped(cfg, s) && IsOp(cfg, send) && IsOp(cfg, recv) && hosts == {send.host, recv.host} && t <= cpuTime
    ensures Completes(s, Deliver(cfg, s, send, recv, rendezvous, proc, nic, cpuTime, nicTime), MeetingOf(send, recv, rendezvous), hosts, t)
  {
    hide Shaped, Complete, Completes, IsOp, TrackersShaped, Raise, ClocksBounded;
    var s0 := Complete(cfg, s, send, cpuTime);
    var s1 := if rendezvous then Raise(s0, send.host, proc, nic, cpuTime, nicTime) else s;
    var s2 := Pair(s1, send, recv);
    RaiseClocks(s0, send.host, proc, nic, cpuTime, nicTime);
    SameTrackers(cfg, if rendezvous then s0 else s, s2);
    CompleteCompletes(cfg, s2, recv, cpuTime, hosts, t);
    PairBounded(s1, send, recv);
    if rendezvous {
      CompleteCompletes(cfg, s, send, cpuTime, hosts, t);
      ClocksComplete(s0, s2, hosts, t);
      CompletesTrans(s, s0, s2, multiset{send}, multiset{}, hosts, t);
      CompletesTrans(s, s2, Complete(cfg, s2, recv, cpuTime), multiset{send}, multiset{recv}, hosts, t);
      assert multiset{send} + multiset{recv} == multiset{send, recv};
    } else {
      ClocksComplete(s, s2, hosts, t);
      CompletesTrans(s, s2, Complete(cfg, s2, recv, cpuTime), multiset{}, multiset{recv}, hosts, t);
    }
  }

  lemma PairBounded(s: Sim, send: Op, recv: Op)
    ensures ClocksBounded(s) ==> ClocksBounded(Pair(s, send, recv))
  {
  }

  lemma TakeUnexpectedCompletes(cfg: Config, s: Sim, send: Op, recv: Op, time: nat)
    requires TrackersShaped(cfg, s) && IsOp(cfg, send) && IsOp(cfg, recv)
    ensures Completes(s, TakeUnexpected(cfg, s, send, recv, time), MeetingOf(send, recv, !Eager(cfg, recv)), {send.host, recv.host}, time)
  {
    hide Shaped, Deliver, Completes, ClocksBounded, At, MeetingOf;
    var n, p, size := NodeOf(cfg, recv), cfg.par, SizeOf(cfg, recv);
    var nicTime := Max(At(s.nextgs, recv.host, n.nic), time) + p.g;
    var cpuTime := nicTime + p.o + (size - 1) * p.O;
    var s1 := Occupy(s, recv.host, n.proc, n.nic, cpuTime, nicTime);
    OccupyCompletes(s, recv.host, n.proc, n.nic, cpuTime, nicTime, {send.host, recv.host}, time);
    SameTrackers(cfg, s, s1);
    DeliverCompletes(cfg, s1, send, recv, size > p.S, n.proc, n.nic, cpuTime, nicTime, {send.host, recv.host}, time);
    CompletesTrans(s, s1, TakeUnexpected(cfg, s, send, recv, time), multiset{}, MeetingOf(send, recv, size > p.S), {send.host, recv.host}, time);
  }

  lemma ReceiveCompletes(cfg: Config, s: Sim, send: Op, recv: Op, time: nat, noise: nat)
    requires TrackersShaped(cfg, s) && IsOp(cfg, send) && IsOp(cfg, recv)
    ensures Completes(s, Receive(cfg, s, send, recv, time, noise), MeetingOf(send, recv, !Eager(cfg, send)), {send.host, recv.host}, time)
  {
    hide Shaped, Deliver, Completes, ClocksBounded, At, MeetingOf;
    var n, p, size, host := NodeOf(cfg, send), cfg.par, SizeOf(cfg, send), ChannelOf(cfg, send).dst;
    var nicTime := Max(At(s.nextgr, host, n.nic), time) + p.g;
    var cpuTime := nicTime + p.o + noise + (size - 1) * p.O;
    var s1 := Occupy(s, host, NodeOf(cfg, recv).proc, n.nic, cpuTime, nicTime);
    OccupyCompletes(s, host, NodeOf(cfg, recv).proc, n.nic, cpuTime, nicTime, {send.host, recv.host}, time);
    SameTrackers(cfg, s, s1);
    DeliverCompletes(cfg, s1, send, recv, size > p.S, n.proc, n.nic, cpuTime, nicTime, {send.host, recv.host}, time);
    CompletesTrans(s, s1, Receive(cfg, s, send, recv, time, noise), multiset{}, MeetingOf(send, recv, size > p.S), {send.host, recv.host}, time);
  }

  lemma OccupyCompletes(s: Sim, host: nat, proc: nat, nic: nat, cpuTime: nat, nicTime: nat, hosts: set<nat>, t: nat)
    ensures Completes(s, Occupy(s, host, proc, nic, cpuTime, nicTime), multiset{}, hosts, t)
  {
    hide ClocksBounded, Completes;
    if ClocksBounded(s) {
      SetBounded(s, host, proc, cpuTime);
      SetBounded(SetO(s, host, proc, cpuTime), host, nic, nicTime);
    }
    ClocksComplete(s, Occupy(s, host, proc, nic, cpuTime, nicTime), hosts, t);
  }

  // ---- the queues ----

  lemma PushRqQueues(cfg: Config, s: Sim, op: Op)
    requires QueuesOk(cfg, s) && IsKind(cfg, op, Recv)
    ensures QueuesOk(cfg, PushRq(cfg, s, op))
    ensures forall ch :: Queue(PushRq(cfg, s, op).rq, ch) == if ch == ChannelOf(cfg, op) then Queue(s.rq, ch) + [op] else Queue(s.rq, ch)
  {
    var r, ch0 := PushRq(cfg, s, op), ChannelOf(cfg, op);
    forall ch ensures Queue(r.rq, ch) == if ch == ch0 then Queue(s.rq, ch) + [op] else Queue(s.rq, ch) {
    }
  }

  lemma PopRqQueues(cfg: Config, s: Sim, ch0: Channel)
    requires QueuesOk(cfg, s) && Queue(s.rq, ch0) != []
    ensures QueuesOk(cfg, PopRq(s, ch0))
    ensures forall ch :: Queue(PopRq(s, ch0).rq, ch) == if ch == ch0 then Queue(s.rq, ch)[1..] else Queue(s.rq, ch)
  {
    var r := PopRq(s, ch0);
    forall ch ensures Queue(r.rq, ch) == if ch == ch0 then Queue(s.rq, ch)[1..] else Queue(s.rq, ch) {
    }
  }

  lemma PushUqQueues(cfg: Config, s: Sim, op: Op, since: nat)
    requires QueuesOk(cfg, s) && IsKind(cfg, op, Send)
    ensures QueuesOk(cfg, PushUq(cfg, s, op, since))
    ensures UqPast(s) && since == s.now ==> UqPast(PushUq(cfg, s, op, since))
    ensures var r, ch0 := PushUq(cfg, s, op, since), ChannelOf(cfg, op);
      forall ch :: Queue(r.uq, ch) == if ch == ch0 then Queue(s.uq, ch) + [Unexpected(op, since)] else Queue(s.uq, ch)
  {
    var r, ch0 := PushUq(cfg, s, op, since), ChannelOf(cfg, op);
    forall ch ensures Queue(r.uq, ch) == if ch == ch0 then Queue(s.uq, ch) + [Unexpected(op, since)] else Queue(s.uq, ch) {
    }
  }

  lemma PopUqQueues(cfg: Config, s: Sim, ch0: Channel)
    requires QueuesOk(cfg, s) && Queue(s.uq, ch0) != []
    ensures QueuesOk(cfg, PopUq(s, ch0))
    ensures UqPast(s) ==> UqPast(PopUq(s, ch0))
    ensures forall ch :: Queue(PopUq(s, ch0).uq, ch) == if ch == ch0 then Queue(s.uq, ch)[1..] else Queue(s.uq, ch)
  {
    var r := PopUq(s, ch0);
    forall ch ensures Queue(r.uq, ch) == if ch == ch0 then Queue(s.uq, ch)[1..] else Queue(s.uq, ch) {
    }
  }

  lemma InsertQueues(cfg: Config, s: Sim, e: Event)
    requires QueuesOk(cfg, s) && EventOk(cfg, e)
    ensures QueuesOk(cfg, Insert(s, e)) && (UqPast(s) ==> UqPast(Insert(s, e)))
  {
    hide IsKind, ChannelOf, EventOk;
  }

  lemma SameQueues(cfg: Config, a: Sim, b: Sim)
    requires QueuesOk(cfg, a) && b.aq == a.aq && b.rq == a.rq && b.uq == a.uq && b.now == a.now
    ensures QueuesOk(cfg, b) && (UqPast(a) ==> UqPast(b))
  {
    hide IsKind, ChannelOf, EventOk;
  }

  // ---- handling an item ----

  /** The state in which what follows from handling an item e begins. */
  function Begun(cfg: Config, s: Sim, e: Event): (r: Sim)
    requires TrackersShaped(cfg, s) && EventOk(cfg, e)
    ensures TrackersShaped(cfg, r)
  {
    if e.kind == Issue then Start(cfg, s, e.op) else s
  }

  /** The hosts of an item. */
  function HostsOf(cfg: Config, e: Event): set<nat>
    requires IsOp(cfg, e.op)
  {
    {e.op.host, NodeOf(cfg, e.op).peer}
  }

  predicate Posts(cfg: Config, e: Event)
    requires IsOp(cfg, e.op)
  {
    e.kind == Issue && NodeOf(cfg, e.op).kind == Send
  }

  /** State r follows from s by executing item e: at most the hosts of the item have
      completions, none before the item's time; a send posts its message, and nothing else
      enters the event queue. */
  ghost predicate Executed(cfg: Config, s: Sim, e: Event, r: Sim)
    requires TrackersShaped(cfg, s) && EventOk(cfg, e)
  {
    && r.now == s.now
    && Follows(Begun(cfg, s, e).trackers, r.trackers, HostsOf(cfg, e), e.time)
    && (if Posts(cfg, e)
        then exists t :: t >= e.time && r.aq == s.aq + [Event(Message, e.op, t)]
        else r.aq == s.aq)
    && QueuesOk(cfg, r)
    && (UqPast(s) && e.time == s.now ==> UqPast(r))
    && (ClocksBounded(s) ==> ClocksBounded(r))
  }

  lemma StartKeeps(cfg: Config, s: Sim, op: Op)
    requires TrackersShaped(cfg, s) && IsOp(cfg, op) && QueuesOk(cfg, s)
    ensures var r := Start(cfg, s, op);
      && r.aq == s.aq && r.rq == s.rq && r.uq == s.uq && r.now == s.now
      && r.nexto == s.nexto && r.nextgr == s.nextgr && r.nextgs == s.nextgs
      && QueuesOk(cfg, r) && (UqPast(s) ==> UqPast(r)) && (ClocksBounded(s) ==> ClocksBounded(r))
  {
    hide Shaped, MarkStarted;
    SameQueues(cfg, s, Start(cfg, s, op));
  }

  lemma CalcExecuted(cfg: Config, s: Sim, e: Event, noise: nat)
    requires Shape(cfg, s) && e.kind == Issue && IsKind(cfg, e.op, Calc) && FreeAt(cfg, s, e) <= e.time
    ensures Executed(cfg, s, e, RunCalc(cfg, s, e, noise))
  {
    hide Shape, Shaped, Start, Complete, QueuesOk, Follows, ClocksBounded, UqPast;
    ShapeParts(cfg, s);
    var n := NodeOf(cfg, e.op);
    var cpuTime := e.time + n.size + noise;
    var s1 := SetO(s, e.op.host, n.proc, cpuTime);
    SameQueues(cfg, s, s1);
    if ClocksBounded(s) {
      SetBounded(s, e.op.host, n.proc, cpuTime);
    }
    StartKeeps(cfg, s1, e.op);
    var s2, r := Start(cfg, s1, e.op), RunCalc(cfg, s, e, noise);
    StartTrackers(cfg, s, s1, e.op);
    CompleteCompletes(cfg, s2, e.op, cpuTime, HostsOf(cfg, e), e.time);
    SameQueues(cfg, s2, r);
  }

  lemma ShapeParts(cfg: Config, s: Sim)
    requires Shape(cfg, s)
    ensures ValidConfig(cfg) && TrackersShaped(cfg, s) && QueuesOk(cfg, s) && cfg.par.G >= 0.0
  {
    hide TrackersShaped, QueuesOk;
  }

  lemma StartTrackers(cfg: Config, a: Sim, b: Sim, op: Op)
    requires TrackersShaped(cfg, a) && a.trackers == b.trackers && IsOp(cfg, op)
    ensures TrackersShaped(cfg, b) && Start(cfg, b, op).trackers == Start(cfg, a, op).trackers
  {
    hide Shaped, MarkStarted;
  }

  lemma SendExecuted(cfg: Config, s: Sim, e: Event, noise: nat)
    requires Shape(cfg, s) && e.kind == Issue && IsKind(cfg, e.op, Send) && FreeAt(cfg, s, e) <= e.time
    ensures Executed(cfg, s, e, RunSend(cfg, s, e, noise))
  {
    hide Shape, Shaped, Start, Complete, QueuesOk, Follows, ClocksBounded, UqPast, Bandwidth, SizeOf, ValidConfig;
    hide Executed, At, TrackersShaped, Insert, HostsOf, ChannelOf, SetO, SetGs;
    ShapeParts(cfg, s);
    var n, p, size := NodeOf(cfg, e.op), cfg.par, SizeOf(cfg, e.op);
    var cpuTime := e.time + p.o + noise + (size - 1) * p.O;
    var bandwidth := Bandwidth(p, size);
    var s0 := Start(cfg, s, e.op);
    StartKeeps(cfg, s, e.op);
    var s2 := SetGs(SetO(s0, e.op.host, n.proc, cpuTime), e.op.host, n.nic, e.time + p.g + bandwidth);
    SendOccupies(cfg, s0, e.op.host, n.proc, n.nic, cpuTime, e.time + p.g + bandwidth);
    MessagePosted(cfg, s2, e, cpuTime, cpuTime + p.L + bandwidth);
    SendBegun(cfg, s, e, RunSend(cfg, s, e, noise), cpuTime + p.L + bandwidth);
  }

  lemma SendOccupies(cfg: Config, s: Sim, host: nat, proc: nat, nic: nat, cpuTime: nat, nicTime: nat)
    requires QueuesOk(cfg, s) && TrackersShaped(cfg, s)
    ensures var r := SetGs(SetO(s, host, proc, cpuTime), host, nic, nicTime);
      && r.aq == s.aq && r.now == s.now && r.trackers == s.trackers && TrackersShaped(cfg, r)
      && QueuesOk(cfg, r) && (UqPast(s) ==> UqPast(r)) && (ClocksBounded(s) ==> ClocksBounded(r))
  {
    hide TrackersShaped, QueuesOk, UqPast, ClocksBounded;
    var s1 := SetO(s, host, proc, cpuTime);
    var r := SetGs(s1, host, nic, nicTime);
    SameQueues(cfg, s, r);
    SameTrackers(cfg, s, r);
    if ClocksBounded(s) {
      SetBounded(s, host, proc, cpuTime);
      SetBounded(s1, host, nic, nicTime);
    }
  }

  lemma SendBegun(cfg: Config, s: Sim, e: Event, r: Sim, t: nat)
    requires TrackersShaped(cfg, s) && e.kind == Issue && IsKind(cfg, e.op, Send)
    requires r.now == s.now && t >= e.time && r.aq == s.aq + [Event(Message, e.op, t)]
    requires Follows(Start(cfg, s, e.op).trackers, r.trackers, HostsOf(cfg, e), e.time)
    requires QueuesOk(cfg, r) && (UqPast(s) ==> UqPast(r)) && (ClocksBounded(s) ==> ClocksBounded(r))
    ensures Executed(cfg, s, e, r)
  {
    hide Shaped, Start, QueuesOk, Follows, ClocksBounded, UqPast;
  }

  /** The second half of a send. */
  lemma MessagePosted(cfg: Config, s: Sim, e: Event, cpuTime: nat, time: nat)
    requires TrackersShaped(cfg, s) && QueuesOk(cfg, s) && IsKind(cfg, e.op, Send) && e.time <= cpuTime <= time
    ensures var m := Event(Message, e.op, time);
      var r := if SizeOf(cfg, e.op) <= cfg.par.S then Complete(cfg, Insert(s, m), e.op, cpuTime) else Insert(s, m);
      && r.now == s.now && r.aq == s.aq + [m]
      && Follows(s.trackers, r.trackers, HostsOf(cfg, e), e.time)
      && QueuesOk(cfg, r) && (UqPast(s) ==> UqPast(r)) && (ClocksBounded(s) ==> ClocksBounded(r))
  {
    hide Shaped, Complete, QueuesOk, Follows, ClocksBounded, UqPast, SizeOf;
    var m := Event(Message, e.op, time);
    var s1 := Insert(s, m);
    InsertQueues(cfg, s, m);
    InsertBounded(s, m);
    CompleteCompletes(cfg, s1, e.op, cpuTime, HostsOf(cfg, e), e.time);
    SameQueues(cfg, s1, Complete(cfg, s1, e.op, cpuTime));
    FollowsSame(s.trackers, HostsOf(cfg, e), e.time);
  }

  lemma InsertBounded(s: Sim, e: Event)
    ensures ClocksBounded(s) ==> ClocksBounded(Insert(s, e))
  {
  }

  lemma PopBounded(s: Sim, ch: Channel)
    ensures Queue(s.uq, ch) != [] && ClocksBounded(s) ==> ClocksBounded(PopUq(s, ch))
    ensures Queue(s.rq, ch) != [] && ClocksBounded(s) ==> ClocksBounded(PopRq(s, ch))
  {
  }

  lemma PushBounded(cfg: Config, s: Sim, op: Op, since: nat)
    requires IsOp(cfg, op)
    ensures ClocksBounded(s) ==> ClocksBounded(PushRq(cfg, s, op)) && ClocksBounded(PushUq(cfg, s, op, since))
  {
  }

  lemma FollowsSame(a: seq<Tracker>, hosts: set<nat>, t: nat)
    ensures Follows(a, a, hosts, t)
  {
  }

  lemma RecvExecuted(cfg: Config, s: Sim, e: Event)
    requires Shape(cfg, s) && e.kind == Issue && IsKind(cfg, e.op, Recv)
    ensures Executed(cfg, s, e, RunRecv(cfg, s, e))
  {
    hide Shape, Shaped, Start, TakeUnexpected, Follows, ClocksBounded, UqPast, ValidConfig, QueuesOk;
    ShapeParts(cfg, s);
    var ch, s1 := ChannelOf(cfg, e.op), Start(cfg, s, e.op);
    StartKeeps(cfg, s, e.op);
    if Queue(s.uq, ch) != [] {
      var send := Queue(s.uq, ch)[0].op;
      assert IsKind(cfg, send, Send) && ChannelOf(cfg, send) == ch by { HeadOfUq(cfg, s, ch); }
      var s2 := PopUq(s1, ch);
      PopUqQueues(cfg, s1, ch);
      PopBounded(s1, ch);
      SameTrackers(cfg, s1, s2);
      TakeUnexpectedCompletes(cfg, s2, send, e.op, e.time);
      SameQueues(cfg, s2, RunRecv(cfg, s, e));
      assert {send.host, e.op.host} == HostsOf(cfg, e);
    } else {
      PushRqQueues(cfg, s1, e.op);
      PushBounded(cfg, s1, e.op, 0);
      assert UqPast(s1) ==> UqPast(PushRq(cfg, s1, e.op)) by { UqSamePast(s1, PushRq(cfg, s1, e.op)); }
      FollowsSame(s1.trackers, HostsOf(cfg, e), e.time);
    }
  }

  lemma UqSamePast(a: Sim, b: Sim)
    requires b.uq == a.uq && b.now == a.now
    ensures UqPast(a) ==> UqPast(b)
  {
  }

  lemma HeadOfUq(cfg: Config, s: Sim, ch: Channel)
    requires QueuesOk(cfg, s) && Queue(s.uq, ch) != []
    ensures IsKind(cfg, Queue(s.uq, ch)[0].op, Send) && ChannelOf(cfg, Queue(s.uq, ch)[0].op) == ch
  {
  }

  lemma HeadOfRq(cfg: Config, s: Sim, ch: Channel)
    requires QueuesOk(cfg, s) && Queue(s.rq, ch) != []
    ensures IsKind(cfg, Queue(s.rq, ch)[0], Recv) && ChannelOf(cfg, Queue(s.rq, ch)[0]) == ch
  {
  }

  lemma MsgExecuted(cfg: Config, s: Sim, e: Event, noise: nat)
    requires Shape(cfg, s) && e.kind == Message && EventOk(cfg, e) && FreeAt(cfg, s, e) <= e.time
    ensures Executed(cfg, s, e, RunMsg(cfg, s, e, noise))
  {
    hide Shape, Shaped, Receive, Follows, ClocksBounded, UqPast, ValidConfig, QueuesOk;
    ShapeParts(cfg, s);
    var ch := ChannelOf(cfg, e.op);
    if Queue(s.rq, ch) != [] {
      var recv, s1 := Queue(s.rq, ch)[0], PopRq(s, ch);
      HeadOfRq(cfg, s, ch);
      PopRqQueues(cfg, s, ch);
      PopBounded(s, ch);
      UqSamePast(s, s1);
      SameTrackers(cfg, s, s1);
      ReceiveCompletes(cfg, s1, e.op, recv, e.time, noise);
      SameQueues(cfg, s1, RunMsg(cfg, s, e, noise));
      assert {e.op.host, recv.host} == HostsOf(cfg, e);
    } else {
      PushUqQueues(cfg, s, e.op, e.time);
      PushBounded(cfg, s, e.op, e.time);
      FollowsSame(s.trackers, HostsOf(cfg, e), e.time);
    }
  }

  /** Executing any item. */
  lemma RunExecuted(cfg: Config, s: Sim, e: Event, noise: nat)
    requires Shape(cfg, s) && EventOk(cfg, e) && FreeAt(cfg, s, e) <= e.time
    ensures Executed(cfg, s, e, Run(cfg, s, e, noise))
  {
    hide Executed, Shaped, QueuesOk, RunCalc, RunSend, RunRecv, RunMsg, FreeAt, ValidConfig;
    if e.kind == Message {
      MsgExecuted(cfg, s, e, noise);
    } else {
      match NodeOf(cfg, e.op).kind
      case Calc => CalcExecuted(cfg, s, e, noise);
      case Send => SendExecuted(cfg, s, e, noise);
      case Recv => RecvExecuted(cfg, s, e);
    }
  }

  /** A busy resource sends the item back; nothing else happens but the rotation of a
      receive queue. */
  lemma BusyReinserts(cfg: Config, s: Sim, e: Event, noise: nat)
    requires Shape(cfg, s) && EventOk(cfg, e)
    requires FreeAt(cfg, s, e) > e.time
    ensures var r := Run(cfg, s, e, noise);
      r.aq == s.aq + [e.(time := FreeAt(cfg, s, e))] && r.trackers == s.trackers && r.now == s.now && r.horizon == s.horizon
      && r.nexto == s.nexto && r.nextgr == s.nextgr && r.nextgs == s.nextgs
  {
    hide TrackersOk, TrackersShaped, ValidConfig;
    if e.kind == Message {
      var q := Queue(s.rq, ChannelOf(cfg, e.op));
      if q != [] {
        assert IsKind(cfg, q[0], Recv);
      }
    }
  }

  lemma BusyShape(cfg: Config, s: Sim, e: Event, noise: nat)
    requires Shape(cfg, s) && EventOk(cfg, e) && FreeAt(cfg, s, e) > e.time
    ensures var r := Run(cfg, s, e, noise);
      QueuesOk(cfg, r) && (UqPast(s) ==> UqPast(r)) && (ClocksBounded(s) ==> ClocksBounded(r))
  {
    hide Shape, TrackersShaped, ValidConfig, QueuesOk, UqPast, ClocksBounded;
    ShapeParts(cfg, s);
    BusyReinserts(cfg, s, e, noise);
    var r, ch, back := Run(cfg, s, e, noise), ChannelOf(cfg, e.op), e.(time := FreeAt(cfg, s, e));
    if e.kind == Message {
      var recv, s1 := Queue(s.rq, ch)[0], PopRq(s, ch);
      HeadOfRq(cfg, s, ch);
      PopRqQueues(cfg, s, ch);
      InsertQueues(cfg, s1, back);
      PushRqQueues(cfg, Insert(s1, back), recv);
      UqSamePast(s, r);
      PopBounded(s, ch);
      InsertBounded(s1, back);
      PushBounded(cfg, Insert(s1, back), recv, 0);
    } else {
      InsertQueues(cfg, s, back);
      InsertBounded(s, back);
    }
  }

  // ---- iterations ----

  lemma PopShape(cfg: Config, s: Sim, i: nat)
    requires Shape(cfg, s) && i < |s.aq|
    ensures Shape(cfg, Pop(s, i)) && EventOk(cfg, s.aq[i])
    ensures UqPast(s) && s.now <= s.aq[i].time ==> UqPast(Pop(s, i))
    ensures ClocksBounded(s) ==> ClocksBounded(Pop(s, i))
    ensures FreeAt(cfg, Pop(s, i), s.aq[i]) == FreeAt(cfg, s, s.aq[i])
  {
    hide Shaped, IsKind, ChannelOf;
  }

  lemma FreedInRange(cfg: Config, s: Sim, h: nat)
    requires TrackersShaped(cfg, s) && h < |cfg.sched|
    ensures forall i :: 0 <= i < |s.trackers[h].executable| ==> s.trackers[h].executable[i].node < |cfg.sched[h]|
  {
    assert Shaped(cfg.sched[h], s.trackers[h]);
  }

  lemma FlushShape(cfg: Config, s: Sim, host: nat)
    requires Shape(cfg, s)
    ensures var r := Flush(cfg, s, host);
      Shape(cfg, r) && (UqPast(s) ==> UqPast(r)) && (ClocksBounded(s) ==> ClocksBounded(r)) && r.now == s.now
  {
    hide IsKind, ChannelOf;
    if host < |s.trackers| {
      assert Shaped(cfg.sched[host], s.trackers[host]);
    }
  }

  /** Handling any item at all keeps the shape. */
  lemma RunShape(cfg: Config, s: Sim, e: Event, noise: nat)
    requires Shape(cfg, s) && EventOk(cfg, e)
    ensures var r := Run(cfg, s, e, noise);
      && Shape(cfg, r) && r.now == s.now
      && (UqPast(s) && e.time == s.now ==> UqPast(r)) && (ClocksBounded(s) ==> ClocksBounded(r))
  {
    hide Shaped, QueuesOk, Run, FreeAt, ValidConfig, UqPast, ClocksBounded, Follows;
    if FreeAt(cfg, s, e) <= e.time {
      RunExecuted(cfg, s, e, noise);
    } else {
      BusyReinserts(cfg, s, e, noise);
      BusyShape(cfg, s, e, noise);
    }
  }

  /** Only the hosts of an item have their dependency counters changed. */
  lemma RunTouches(cfg: Config, s: Sim, e: Event, noise: nat, h: nat)
    requires Shape(cfg, s) && EventOk(cfg, e) && h < |cfg.sched| && h !in HostsOf(cfg, e)
    ensures Run(cfg, s, e, noise).trackers[h] == s.trackers[h]
  {
    hide Shaped, QueuesOk, Run, FreeAt, ValidConfig, UqPast, ClocksBounded, MarkStarted;
    if FreeAt(cfg, s, e) <= e.time {
      RunExecuted(cfg, s, e, noise);
    } else {
      BusyReinserts(cfg, s, e, noise);
    }
  }

  /** Every iteration leads from a state to a state, whatever the schedule. */
  lemma StepShape(cfg: Config, s: Sim, i: nat, noise: nat)
    requires Shape(cfg, s) && i < |s.aq|
    ensures var r := Step(cfg, s, i, noise);
      && Shape(cfg, r) && r.now == s.aq[i].time
      && (UqPast(s) && s.now <= r.now ==> UqPast(r)) && (ClocksBounded(s) ==> ClocksBounded(r))
  {
    hide Shape, UqPast, ClocksBounded, Run, Flush;
    PopShape(cfg, s, i);
    var s0, e := Pop(s, i), s.aq[i];
    RunShape(cfg, s0, e, noise);
    var m := Run(cfg, s0, e, noise);
    FlushShape(cfg, m, e.op.host);
    FlushShape(cfg, Flush(cfg, m, e.op.host), NodeOf(cfg, e.op).peer);
  }

  lemma StepQuiet(cfg: Config, s: Sim, i: nat, noise: nat)
    requires Shape(cfg, s) && Quiet(s) && i < |s.aq|
    ensures Quiet(Step(cfg, s, i, noise))
  {
    hide Shaped, QueuesOk, Run, FreedEvents, ValidConfig;
    PopShape(cfg, s, i);
    var s0, e := Pop(s, i), s.aq[i];
    var r := Run(cfg, s0, e, noise);
    forall h: nat | h < |cfg.sched| && h !in HostsOf(cfg, e)
      ensures r.trackers[h].executable == []
    {
      RunTouches(cfg, s0, e, noise, h);
      assert s.trackers[h].executable == [];
    }
  }
}
