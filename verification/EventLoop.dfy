/** One iteration of the event loop of LogGOPSim.cpp, as a function on its state. */
module EventLoop {
  import opened Schedule
  import opened DependencyTracker

  /** The LogGOPS parameters.  `G` is per byte, `S` the largest eager message. */
  datatype Params = Params(o: nat, O: nat, g: nat, L: nat, G: real, S: nat)

  datatype Config = Config(sched: seq<seq<Node>>, par: Params)

  /** A node of the schedule of one host. */
  datatype Op = Op(host: nat, off: nat)

  /** Matching key: the hash maps of the receiving host are indexed by tag and source. */
  datatype Channel = Channel(dst: nat, tag: nat, src: nat)

  datatype EventKind = Issue | Message

  /** `Issue` stands for the LOCOP, SEND or RECV item of op; `Message` for the MSG item a
      send leaves behind, which lives on the receiving host. */
  datatype Event = Event(kind: EventKind, op: Op, time: nat)

  /** An element of the unexpected queue and the time it was put there. */
  datatype Unexpected = Unexpected(op: Op, since: nat)

  /** Next free time per host and CPU or NIC; all start at zero. */
  type Clock = map<(nat, nat), nat>

  /** `aq` is the priority queue: its order is irrelevant, any earliest item may be popped.
      The last five fields record the past and influence nothing. */
  datatype Sim = Sim(
    aq: seq<Event>,
    rq: map<Channel, seq<Op>>,
    uq: map<Channel, seq<Unexpected>>,
    nexto: Clock,
    nextgr: Clock,
    nextgs: Clock,
    trackers: seq<Tracker>,
    matched: multiset<Op>,
    mate: map<Op, Op>,
    startedAt: map<Op, nat>,
    now: nat,
    horizon: nat)

  ghost predicate ValidConfig(cfg: Config)
  {
    && cfg.par.G >= 0.0
    && (forall h {:trigger cfg.sched[h]} :: 0 <= h < |cfg.sched| ==> WellFormed(cfg.sched[h]))
    && (forall op {:trigger IsOp(cfg, op)} :: IsOp(cfg, op) && NodeOf(cfg, op).kind != Calc ==> NodeOf(cfg, op).peer < |cfg.sched|)
  }

  predicate IsOp(cfg: Config, op: Op) {
    op.host < |cfg.sched| && op.off < |cfg.sched[op.host]|
  }

  function NodeOf(cfg: Config, op: Op): Node
    requires IsOp(cfg, op)
  {
    cfg.sched[op.host][op.off]
  }

  /** Sends and receives of size zero count as size one. */
  function SizeOf(cfg: Config, op: Op): (size: nat)
    requires IsOp(cfg, op)
    ensures size >= 1
  {
    var n := NodeOf(cfg, op);
    if n.size == 0 then 1 else n.size
  }

  predicate Eager(cfg: Config, op: Op)
    requires IsOp(cfg, op)
  {
    SizeOf(cfg, op) <= cfg.par.S
  }

  /** The channel a send or receive uses. */
  function ChannelOf(cfg: Config, op: Op): Channel
    requires IsOp(cfg, op)
  {
    var n := NodeOf(cfg, op);
    if n.kind == Send then Channel(n.peer, n.tag, op.host) else Channel(op.host, n.tag, n.peer)
  }

  predicate IsKind(cfg: Config, op: Op, kind: Kind) {
    IsOp(cfg, op) && NodeOf(cfg, op).kind == kind
  }

  /** floor((size - 1) * G) */
  function Bandwidth(par: Params, size: nat): (cost: nat)
    requires par.G >= 0.0 && size >= 1
  {
    ProductNonNegative((size - 1) as real, par.G);
    ((size - 1) as real * par.G).Floor
  }

  lemma ProductNonNegative(a: real, b: real)
    requires a >= 0.0 && b >= 0.0
    ensures a * b >= 0.0 && (a * b).Floor >= 0
  {
  }

  function At(c: Clock, host: nat, port: nat): nat {
    if (host, port) in c then c[(host, port)] else 0
  }

  function Queue<T>(m: map<Channel, seq<T>>, ch: Channel): seq<T> {
    if ch in m then m[ch] else []
  }

  ghost predicate EventOk(cfg: Config, e: Event)
  {
    IsOp(cfg, e.op) && (e.kind == Message ==> NodeOf(cfg, e.op).kind == Send)
  }

  ghost predicate TrackersShaped(cfg: Config, s: Sim)
  {
    && |s.trackers| == |cfg.sched|
    && forall h {:trigger s.trackers[h]} :: 0 <= h < |cfg.sched| ==> Shaped(cfg.sched[h], s.trackers[h])
  }

  ghost predicate TrackersOk(cfg: Config, s: Sim)
  {
    && TrackersShaped(cfg, s)
    && forall h {:trigger s.trackers[h]} :: 0 <= h < |cfg.sched| ==> Exact(cfg.sched[h], s.trackers[h])
  }

  ghost predicate QueuesOk(cfg: Config, s: Sim)
  {
    && (forall i :: 0 <= i < |s.aq| ==> EventOk(cfg, s.aq[i]))
    && (forall ch, i {:trigger Queue(s.rq, ch)[i]} :: 0 <= i < |Queue(s.rq, ch)| ==>
          IsKind(cfg, Queue(s.rq, ch)[i], Recv) && ChannelOf(cfg, Queue(s.rq, ch)[i]) == ch)
    && (forall ch, i {:trigger Queue(s.uq, ch)[i]} :: 0 <= i < |Queue(s.uq, ch)| ==>
          IsKind(cfg, Queue(s.uq, ch)[i].op, Send) && ChannelOf(cfg, Queue(s.uq, ch)[i].op) == ch)
  }

  /** What every state of every run has in common. */
  ghost predicate Shape(cfg: Config, s: Sim)
  {
    ValidConfig(cfg) && TrackersShaped(cfg, s) && QueuesOk(cfg, s)
  }

  /** The nodes freed by the last iteration have all been pushed. */
  ghost predicate Quiet(s: Sim)
  {
    forall h {:trigger s.trackers[h]} :: 0 <= h < |s.trackers| ==> s.trackers[h].executable == []
  }

  // ---- elementary updates ----

  function Pop(s: Sim, i: nat): Sim
    requires i < |s.aq|
  {
    s.(aq := s.aq[..i] + s.aq[i + 1..], now := s.aq[i].time)
  }

  function Insert(s: Sim, e: Event): Sim {
    s.(aq := s.aq + [e])
  }

  function SetO(s: Sim, host: nat, cpu: nat, t: nat): Sim {
    s.(nexto := s.nexto[(host, cpu) := t], horizon := Max(s.horizon, t))
  }

  function SetGr(s: Sim, host: nat, nic: nat, t: nat): Sim {
    s.(nextgr := s.nextgr[(host, nic) := t], horizon := Max(s.horizon, t))
  }

  function SetGs(s: Sim, host: nat, nic: nat, t: nat): Sim {
    s.(nextgs := s.nextgs[(host, nic) := t], horizon := Max(s.horizon, t))
  }

  /** The CPU and the receiving side of the NIC of a host are busy until these times. */
  function Occupy(s: Sim, host: nat, proc: nat, nic: nat, cpuTime: nat, nicTime: nat): Sim {
    SetGr(SetO(s, host, proc, cpuTime), host, nic, nicTime)
  }

  /** The clocks of a host are advanced to these times, unless they are there already. */
  function Raise(s: Sim, host: nat, proc: nat, nic: nat, cpuTime: nat, nicTime: nat): Sim {
    var s1 := if At(s.nexto, host, proc) < cpuTime then SetO(s, host, proc, cpuTime) else s;
    if At(s1.nextgs, host, nic) < nicTime then SetGs(s1, host, nic, nicTime) else s1
  }

  function Start(cfg: Config, s: Sim, op: Op): (r: Sim)
    requires TrackersShaped(cfg, s) && IsOp(cfg, op)
    ensures TrackersShaped(cfg, r)
  {
    s.(trackers := s.trackers[op.host := MarkStarted(cfg.sched[op.host], s.trackers[op.host], op.off)],
       startedAt := s.startedAt[op := s.now])
  }

  function Complete(cfg: Config, s: Sim, op: Op, at: nat): (r: Sim)
    requires TrackersShaped(cfg, s) && IsOp(cfg, op)
    ensures TrackersShaped(cfg, r)
  {
    s.(trackers := s.trackers[op.host := MarkDone(cfg.sched[op.host], s.trackers[op.host], op.off, at)])
  }

  function PushRq(cfg: Config, s: Sim, op: Op): Sim
    requires IsOp(cfg, op)
  {
    var ch := ChannelOf(cfg, op);
    s.(rq := s.rq[ch := Queue(s.rq, ch) + [op]])
  }

  function PopRq(s: Sim, ch: Channel): Sim
    requires Queue(s.rq, ch) != []
  {
    s.(rq := s.rq[ch := Queue(s.rq, ch)[1..]])
  }

  function PushUq(cfg: Config, s: Sim, op: Op, since: nat): Sim
    requires IsOp(cfg, op)
  {
    var ch := ChannelOf(cfg, op);
    s.(uq := s.uq[ch := Queue(s.uq, ch) + [Unexpected(op, since)]])
  }

  function PopUq(s: Sim, ch: Channel): Sim
    requires Queue(s.uq, ch) != []
  {
    s.(uq := s.uq[ch := Queue(s.uq, ch)[1..]])
  }

  function Pair(s: Sim, send: Op, recv: Op): Sim {
    s.(matched := s.matched + multiset{send, recv}, mate := s.mate[send := recv][recv := send])
  }

  /** The start time given to a node that has just been freed. */
  function FreedTime(cfg: Config, s: Sim, op: Op, start: nat): nat
    requires IsOp(cfg, op)
  {
    var n := NodeOf(cfg, op);
    match n.kind
    case Calc => Max(start, At(s.nexto, op.host, n.proc))
    case Send => Max(start, At(s.nextgs, op.host, n.nic))
    case Recv => start
  }

  function FreedEvents(cfg: Config, s: Sim, host: nat, ex: seq<Freed>): (r: seq<Event>)
    requires host < |cfg.sched| && forall i :: 0 <= i < |ex| ==> ex[i].node < |cfg.sched[host]|
    ensures |r| == |ex|
    ensures forall i :: 0 <= i < |ex| ==>
      r[i] == Event(Issue, Op(host, ex[i].node), FreedTime(cfg, s, Op(host, ex[i].node), ex[i].start))
  {
    if ex == [] then []
    else
      var last := ex[|ex| - 1];
      FreedEvents(cfg, s, host, ex[..|ex| - 1])
      + [Event(Issue, Op(host, last.node), FreedTime(cfg, s, Op(host, last.node), last.start))]
  }

  /** Push the nodes of a host that have become executable. */
  function Flush(cfg: Config, s: Sim, host: nat): (r: Sim)
    requires TrackersShaped(cfg, s)
    ensures TrackersShaped(cfg, r)
  {
    if host < |s.trackers| then
      s.(aq := s.aq + FreedEvents(cfg, s, host, s.trackers[host].executable),
         trackers := s.trackers[host := Drain(s.trackers[host])])
    else s
  }

  // ---- the four kinds of items ----

  /** The time at which the resources an item needs are free. */
  function FreeAt(cfg: Config, s: Sim, e: Event): nat
    requires IsOp(cfg, e.op)
  {
    var n, ch := NodeOf(cfg, e.op), ChannelOf(cfg, e.op);
    if e.kind == Message then
      var q := Queue(s.rq, ch);
      if q != [] && IsOp(cfg, q[0])
      then Max(At(s.nexto, ch.dst, NodeOf(cfg, q[0]).proc), At(s.nextgr, ch.dst, n.nic))
      else 0
    else match n.kind
      case Calc => At(s.nexto, e.op.host, n.proc)
      case Send => Max(At(s.nexto, e.op.host, n.proc), At(s.nextgs, e.op.host, n.nic))
      case Recv => 0
  }

  function RunCalc(cfg: Config, s: Sim, e: Event, noise: nat): (r: Sim)
    requires ValidConfig(cfg) && TrackersShaped(cfg, s) && EventOk(cfg, e)
    ensures TrackersShaped(cfg, r)
  {
    var n := NodeOf(cfg, e.op);
    var free := At(s.nexto, e.op.host, n.proc);
    if free <= e.time then
      var cpuTime := e.time + n.size + noise;
      var s1 := SetO(s, e.op.host, n.proc, cpuTime);
      Complete(cfg, Start(cfg, s1, e.op), e.op, cpuTime)
    else Insert(s, e.(time := free))
  }

  function RunSend(cfg: Config, s: Sim, e: Event, noise: nat): (r: Sim)
    requires ValidConfig(cfg) && TrackersShaped(cfg, s) && EventOk(cfg, e)
    ensures TrackersShaped(cfg, r)
  {
    var n, p, size := NodeOf(cfg, e.op), cfg.par, SizeOf(cfg, e.op);
    var free := Max(At(s.nexto, e.op.host, n.proc), At(s.nextgs, e.op.host, n.nic));
    if free <= e.time then
      var cpuTime := e.time + p.o + noise + (size - 1) * p.O;
      var bandwidth := Bandwidth(p, size);
      var s1 := SetO(Start(cfg, s, e.op), e.op.host, n.proc, cpuTime);
      var s2 := SetGs(s1, e.op.host, n.nic, e.time + p.g + bandwidth);
      var s3 := Insert(s2, Event(Message, e.op, cpuTime + p.L + bandwidth));
      if size <= p.S then Complete(cfg, s3, e.op, cpuTime) else s3
    else Insert(s, e.(time := free))
  }

  /** A message and a receive meet: a rendezvous send completes with the receive, and the
      clocks of its host are advanced. */
  function Deliver(cfg: Config, s: Sim, send: Op, recv: Op, rendezvous: bool, proc: nat, nic: nat,
                   cpuTime: nat, nicTime: nat): (r: Sim)
    requires TrackersShaped(cfg, s) && IsOp(cfg, send) && IsOp(cfg, recv)
    ensures TrackersShaped(cfg, r)
  {
    var s1 := if rendezvous
      then Raise(Complete(cfg, s, send, cpuTime), send.host, proc, nic, cpuTime, nicTime)
      else s;
    Complete(cfg, Pair(s1, send, recv), recv, cpuTime)
  }

  /** The started receive `recv` meets the unexpected message of `send`, popped from its
      queue.  (The NIC of the receive is consulted through its sending clock.) */
  function TakeUnexpected(cfg: Config, s: Sim, send: Op, recv: Op, time: nat): (r: Sim)
    requires TrackersShaped(cfg, s) && IsOp(cfg, send) && IsOp(cfg, recv)
    ensures TrackersShaped(cfg, r)
  {
    var n, p, size := NodeOf(cfg, recv), cfg.par, SizeOf(cfg, recv);
    var nicTime := Max(At(s.nextgs, recv.host, n.nic), time) + p.g;
    var cpuTime := nicTime + p.o + (size - 1) * p.O;
    var s1 := Occupy(s, recv.host, n.proc, n.nic, cpuTime, nicTime);
    Deliver(cfg, s1, send, recv, size > p.S, n.proc, n.nic, cpuTime, nicTime)
  }

  function RunRecv(cfg: Config, s: Sim, e: Event): (r: Sim)
    requires Shape(cfg, s) && EventOk(cfg, e)
    ensures TrackersShaped(cfg, r)
  {
    var ch, s1 := ChannelOf(cfg, e.op), Start(cfg, s, e.op);
    var q := Queue(s.uq, ch);
    if q != [] then TakeUnexpected(cfg, PopUq(s1, ch), q[0].op, e.op, e.time)
    else PushRq(cfg, s1, e.op)
  }

  /** The message of `send` meets the posted receive `recv`, popped from its queue. */
  function Receive(cfg: Config, s: Sim, send: Op, recv: Op, time: nat, noise: nat): (r: Sim)
    requires TrackersShaped(cfg, s) && IsOp(cfg, send) && IsOp(cfg, recv)
    ensures TrackersShaped(cfg, r)
  {
    var n, p, size, host := NodeOf(cfg, send), cfg.par, SizeOf(cfg, send), ChannelOf(cfg, send).dst;
    var nicTime := Max(At(s.nextgr, host, n.nic), time) + p.g;
    var cpuTime := nicTime + p.o + noise + (size - 1) * p.O;
    var s1 := Occupy(s, host, NodeOf(cfg, recv).proc, n.nic, cpuTime, nicTime);
    Deliver(cfg, s1, send, recv, size > p.S, n.proc, n.nic, cpuTime, nicTime)
  }

  function RunMsg(cfg: Config, s: Sim, e: Event, noise: nat): (r: Sim)
    requires Shape(cfg, s) && EventOk(cfg, e)
    ensures TrackersShaped(cfg, r)
  {
    var n, ch := NodeOf(cfg, e.op), ChannelOf(cfg, e.op);
    var q := Queue(s.rq, ch);
    if q != [] then
      var recv, s1 := q[0], PopRq(s, ch);
      var free := Max(At(s.nexto, ch.dst, NodeOf(cfg, recv).proc), At(s.nextgr, ch.dst, n.nic));
      if free <= e.time then Receive(cfg, s1, e.op, recv, e.time, noise)
      else PushRq(cfg, Insert(s1, e.(time := free)), recv)
    else PushUq(cfg, s, e.op, e.time)
  }

  function Run(cfg: Config, s: Sim, e: Event, noise: nat): (r: Sim)
    requires Shape(cfg, s) && EventOk(cfg, e)
    ensures TrackersShaped(cfg, r)
  {
    if e.kind == Message then RunMsg(cfg, s, e, noise)
    else match NodeOf(cfg, e.op).kind
      case Calc => RunCalc(cfg, s, e, noise)
      case Send => RunSend(cfg, s, e, noise)
      case Recv => RunRecv(cfg, s, e)
  }

  /** One iteration: pop the i-th item, which has to be an earliest one, handle it, and
      push what has become executable on the hosts involved.  The hosts are visited in a
      fixed order; any other order permutes `aq` only. */
  function Step(cfg: Config, s: Sim, i: nat, noise: nat): Sim
    requires Shape(cfg, s) && i < |s.aq|
  {
    var e := s.aq[i];
    var s1 := Run(cfg, Pop(s, i), e, noise);
    Flush(cfg, Flush(cfg, s1, e.op.host), NodeOf(cfg, e.op).peer)
  }

  /** Item i may be popped. */
  predicate Earliest(s: Sim, i: nat) {
    i < |s.aq| && forall j :: 0 <= j < |s.aq| ==> s.aq[i].time <= s.aq[j].time
  }
}
