/** The event loop of LogGOPSim.cpp as a program over mutable state.  Every method does to the
    fields what the function of module EventLoop named in its contract does to their values. */
module Simulator {
  import opened Schedule
  import opened DependencyTracker
  import opened EventLoop
  import opened Effects
  import opened ExactlyOnce
  import opened Termination
  import opened Runs
  import opened Completion
  import SG = SerializedGraph
  import Digraph

  class Simulator {
    const cfg: Config
    var aq: seq<Event>
    var rq: map<Channel, seq<Op>>
    var uq: map<Channel, seq<Unexpected>>
    var nexto: Clock
    var nextgr: Clock
    var nextgs: Clock
    var schedules: seq<Tracker>
    ghost var matched: multiset<Op>
    ghost var mate: map<Op, Op>
    ghost var startedAt: map<Op, nat>
    ghost var now: nat
    ghost var horizon: nat

    ghost function Abs(): Sim
      reads this
    {
      Sim(aq, rq, uq, nexto, nextgr, nextgs, schedules, matched, mate, startedAt, now, horizon)
    }

    ghost predicate Ready()
      reads this
    {
      ValidConfig(cfg) && TrackersShaped(cfg, Abs())
    }

    /** Queue the root nodes of all hosts. */
    constructor (cfg: Config, counts: seq<seq<nat>>)
      requires Loaded(cfg, counts)
      ensures this.cfg == cfg && Abs() == Start0(cfg, counts)
    {
      this.cfg := cfg;
      aq, rq, uq := [], map[], map[];
      nexto, nextgr, nextgs := map[], map[], map[];
      schedules := seq(|counts|, h requires 0 <= h < |counts| => SG.Initial(counts[h]));
      matched, mate, startedAt, now, horizon := multiset{}, map[], map[], 0, 0;
      new;
      BootShaped(cfg, counts);
      assert Abs() == Boot(counts);
      ReleaseAll(|counts|);
    }

    method ReleaseAll(hosts: nat)
      requires Ready()
      modifies `aq, `schedules
      ensures Ready() && Abs() == FlushUpTo(cfg, old(Abs()), hosts)
    {
      hide Flush, TrackersShaped, ValidConfig;
      for host := 0 to hosts
        invariant Ready() && Abs() == FlushUpTo(cfg, old(Abs()), host)
      {
        ReleaseFreed(host);
      }
    }

    method SetNextO(host: nat, cpu: nat, t: nat)
      modifies `nexto, `horizon
      ensures Abs() == SetO(old(Abs()), host, cpu, t)
    {
      nexto := nexto[(host, cpu) := t];
      horizon := Max(horizon, t);
    }

    method SetNextGr(host: nat, nic: nat, t: nat)
      modifies `nextgr, `horizon
      ensures Abs() == SetGr(old(Abs()), host, nic, t)
    {
      nextgr := nextgr[(host, nic) := t];
      horizon := Max(horizon, t);
    }

    method SetNextGs(host: nat, nic: nat, t: nat)
      modifies `nextgs, `horizon
      ensures Abs() == SetGs(old(Abs()), host, nic, t)
    {
      nextgs := nextgs[(host, nic) := t];
      horizon := Max(horizon, t);
    }

    method SetBusy(host: nat, cpu: nat, nic: nat, cpuTime: nat, nicTime: nat)
      modifies `nexto, `nextgr, `horizon
      ensures Abs() == Occupy(old(Abs()), host, cpu, nic, cpuTime, nicTime)
    {
      SetNextO(host, cpu, cpuTime);
      SetNextGr(host, nic, nicTime);
    }

    method MarkNodeAsStarted(op: Op)
      requires Ready() && IsOp(cfg, op)
      modifies `schedules, `startedAt
      ensures Ready() && Abs() == Start(cfg, old(Abs()), op)
    {
      schedules := schedules[op.host := MarkStarted(cfg.sched[op.host], schedules[op.host], op.off)];
      startedAt := startedAt[op := now];
      assert Abs() == Start(cfg, old(Abs()), op);
    }

    method MarkNodeAsDone(op: Op, cpuTime: nat)
      requires Ready() && IsOp(cfg, op)
      modifies `schedules
      ensures Ready() && Abs() == Complete(cfg, old(Abs()), op, cpuTime)
    {
      schedules := schedules[op.host := MarkDone(cfg.sched[op.host], schedules[op.host], op.off, cpuTime)];
      assert Abs() == Complete(cfg, old(Abs()), op, cpuTime);
    }

    method Push(e: Event)
      modifies `aq
      ensures Abs() == Insert(old(Abs()), e)
    {
      aq := aq + [e];
    }

    method PostReceive(op: Op)
      requires IsOp(cfg, op)
      modifies `rq
      ensures Abs() == PushRq(cfg, old(Abs()), op)
    {
      var ch := ChannelOf(cfg, op);
      rq := rq[ch := Queue(rq, ch) + [op]];
    }

    /** `match` on the receive queue. */
    method MatchReceive(ch: Channel) returns (found: bool, recv: Op)
      modifies `rq
      ensures found <==> old(Queue(rq, ch)) != []
      ensures found ==> recv == old(Queue(rq, ch))[0] && Abs() == PopRq(old(Abs()), ch)
      ensures !found ==> Abs() == old(Abs())
    {
      found, recv := false, Op(0, 0);
      if ch in rq && rq[ch] != [] {
        found, recv := true, rq[ch][0];
        rq := rq[ch := rq[ch][1..]];
      }
    }

    /** `match` on the unexpected queue. */
    method MatchUnexpected(ch: Channel) returns (found: bool, send: Op)
      modifies `uq
      ensures found <==> old(Queue(uq, ch)) != []
      ensures found ==> send == old(Queue(uq, ch))[0].op && Abs() == PopUq(old(Abs()), ch)
      ensures !found ==> Abs() == old(Abs())
    {
      found, send := false, Op(0, 0);
      if ch in uq && uq[ch] != [] {
        found, send := true, uq[ch][0].op;
        uq := uq[ch := uq[ch][1..]];
      }
    }

    method HandleCalc(e: Event, noise: nat)
      requires Ready() && EventOk(cfg, e)
      modifies this
      ensures Abs() == RunCalc(cfg, old(Abs()), e, noise)
    {
      hide Shaped, ValidConfig;
      var n := NodeOf(cfg, e.op);
      if At(nexto, e.op.host, n.proc) <= e.time {
        var cpuTime := e.time + n.size + noise;
        SetNextO(e.op.host, n.proc, cpuTime);
        MarkNodeAsStarted(e.op);
        MarkNodeAsDone(e.op, cpuTime);
      } else {
        Push(e.(time := At(nexto, e.op.host, n.proc)));
      }
    }

    method HandleSend(e: Event, noise: nat)
      requires Ready() && EventOk(cfg, e) && cfg.par.G >= 0.0
      modifies this
      ensures Abs() == RunSend(cfg, old(Abs()), e, noise)
    {
      hide Shaped, Bandwidth, ValidConfig, Start, Complete, SizeOf;
      var n, p, size := NodeOf(cfg, e.op), cfg.par, SizeOf(cfg, e.op);
      var resourceTime := Max(At(nexto, e.op.host, n.proc), At(nextgs, e.op.host, n.nic));
      if resourceTime <= e.time {
        MarkNodeAsStarted(e.op);
        var cpuTime := e.time + p.o + noise + (size - 1) * p.O;
        SetNextO(e.op.host, n.proc, cpuTime);
        var bandwidthCost := Bandwidth(p, size);
        SetNextGs(e.op.host, n.nic, e.time + p.g + bandwidthCost);
        Push(Event(Message, e.op, cpuTime + p.L + bandwidthCost));
        if size <= p.S {
          MarkNodeAsDone(e.op, cpuTime);
        }
      } else {
        Push(e.(time := resourceTime));
      }
    }

    method Meet(send: Op, recv: Op, rendezvous: bool, proc: nat, nic: nat, cpuTime: nat, nicTime: nat)
      requires Ready() && IsOp(cfg, send) && IsOp(cfg, recv)
      modifies this
      ensures Abs() == Deliver(cfg, old(Abs()), send, recv, rendezvous, proc, nic, cpuTime, nicTime)
    {
      hide Shaped, ValidConfig;
      if rendezvous {
        MarkNodeAsDone(send, cpuTime);
        if At(nexto, send.host, proc) < cpuTime {
          SetNextO(send.host, proc, cpuTime);
        }
        if At(nextgs, send.host, nic) < nicTime {
          SetNextGs(send.host, nic, nicTime);
        }
      }
      matched, mate := matched + multiset{send, recv}, mate[send := recv][recv := send];
      MarkNodeAsDone(recv, cpuTime);
    }

    method HandleRecv(e: Event)
      requires Ready() && Shape(cfg, Abs()) && EventOk(cfg, e)
      modifies this
      ensures Abs() == RunRecv(cfg, old(Abs()), e)
    {
      hide Shaped, Deliver, Occupy, ValidConfig;
      var n, p, size, ch := NodeOf(cfg, e.op), cfg.par, SizeOf(cfg, e.op), ChannelOf(cfg, e.op);
      MarkNodeAsStarted(e.op);
      var found, send := MatchUnexpected(ch);
      if found {
        assert IsKind(cfg, old(Queue(uq, ch))[0].op, Send);
        var nicTime := Max(At(nextgs, e.op.host, n.nic), e.time) + p.g;
        var cpuTime := nicTime + p.o + (size - 1) * p.O;
        SetBusy(e.op.host, n.proc, n.nic, cpuTime, nicTime);
        Meet(send, e.op, size > p.S, n.proc, n.nic, cpuTime, nicTime);
      } else {
        PostReceive(e.op);
      }
    }

    method HandleMsg(e: Event, noise: nat)
      requires Ready() && Shape(cfg, Abs()) && EventOk(cfg, e)
      modifies this
      ensures Abs() == RunMsg(cfg, old(Abs()), e, noise)
    {
      hide Shaped, Deliver, Occupy, ValidConfig;
      var n, p, size, ch := NodeOf(cfg, e.op), cfg.par, SizeOf(cfg, e.op), ChannelOf(cfg, e.op);
      var found, recv := MatchReceive(ch);
      if found {
        assert IsKind(cfg, old(Queue(rq, ch))[0], Recv);
        var cpu := NodeOf(cfg, recv).proc;
        var resourceTime := Max(At(nexto, ch.dst, cpu), At(nextgr, ch.dst, n.nic));
        if resourceTime <= e.time {
          var nicTime := Max(At(nextgr, ch.dst, n.nic), e.time) + p.g;
          var cpuTime := nicTime + p.o + noise + (size - 1) * p.O;
          SetBusy(ch.dst, cpu, n.nic, cpuTime, nicTime);
          Meet(e.op, recv, size > p.S, n.proc, n.nic, cpuTime, nicTime);
        } else {
          Push(e.(time := resourceTime));
          PostReceive(recv);
        }
      } else {
        uq := uq[ch := Queue(uq, ch) + [Unexpected(e.op, e.time)]];
      }
    }

    method TimeOf(f: Freed, host: nat) returns (time: nat)
      requires IsOp(cfg, Op(host, f.node))
      ensures time == FreedTime(cfg, Abs(), Op(host, f.node), f.start)
    {
      var n := NodeOf(cfg, Op(host, f.node));
      time := f.start;
      match n.kind {
        case Calc => time := Max(time, At(nexto, host, n.proc));
        case Send => time := Max(time, At(nextgs, host, n.nic));
        case Recv =>
      }
    }

    /** Push the nodes of a host that have become executable. */
    method ReleaseFreed(host: nat)
      requires Ready()
      modifies `aq, `schedules
      ensures Ready() && Abs() == Flush(cfg, old(Abs()), host)
    {
      if host < |schedules| {
        hide Shaped, ValidConfig, At, FreedEvents;
        var freed := schedules[host].executable;
        FreedInRange(cfg, Abs(), host);
        schedules := schedules[host := Drain(schedules[host])];
        ghost var before := old(Abs());
        NoneFreed(cfg, before, host);
        assert freed[..0] == [] && aq + [] == aq;
        for k := 0 to |freed|
          invariant schedules == before.trackers[host := Drain(before.trackers[host])]
          invariant aq == old(aq) + FreedEvents(cfg, before, host, freed[..k])
        {
          OneMoreFreed(cfg, before, host, freed, k);
          var time := TimeOf(freed[k], host);
          aq := aq + [Event(Issue, Op(host, freed[k].node), time)];
        }
        assert freed[..|freed|] == freed;
        assert before.trackers[host].executable == freed;
      }
    }

    /** One iteration of the main loop; i is the item the priority queue yields. */
    method Iterate(i: nat, noise: nat)
      requires Shape(cfg, Abs()) && i < |aq|
      modifies this
      ensures Abs() == Step(cfg, old(Abs()), i, noise)
    {
      hide Shaped, Exact, RunCalc, RunSend, RunRecv, RunMsg, Flush;
      var e := aq[i];
      aq, now := aq[..i] + aq[i + 1..], aq[i].time;
      ghost var popped := Abs();
      PopShape(cfg, old(Abs()), i);
      if e.kind == Message {
        HandleMsg(e, noise);
      } else {
        match NodeOf(cfg, e.op).kind {
          case Calc => HandleCalc(e, noise);
          case Send => HandleSend(e, noise);
          case Recv => HandleRecv(e);
        }
      }
      assert Abs() == EventLoop.Run(cfg, popped, e, noise);
      ReleaseFreed(e.op.host);
      ReleaseFreed(NodeOf(cfg, e.op).peer);
    }

    /** One iteration on some earliest item, with any noise: a reachable state leads to a
        reachable state, and the measure goes down. */
    method IterateEarliest(ghost counts: seq<seq<nat>>, ghost n: nat)
      requires Loaded(cfg, counts) && Agreeing(cfg) && aq != []
      requires Inv(cfg, Abs()) && ClocksBounded(Abs()) && ReachedIn(cfg, counts, Abs(), n)
      modifies this
      ensures Inv(cfg, Abs()) && ClocksBounded(Abs()) && ReachedIn(cfg, counts, Abs(), n + 1)
      ensures old(TrackersShaped(cfg, Abs())) && TrackersShaped(cfg, Abs())
      ensures Remaining(cfg, Abs()) < old(Remaining(cfg, Abs()))
           || (Remaining(cfg, Abs()) == old(Remaining(cfg, Abs())) && Slack(aq, horizon) < old(Slack(aq, horizon)))
    {
      hide Inv, Agreeing, Step, TrackersShaped, Shape, Remaining, Slack, ClocksBounded, ValidConfig, ReachedIn, IsStep;
      ghost var before := Abs();
      InvShape(cfg, before);
      ghost var first := EarliestUpTo(before, |aq|);
      assert first < |aq| && forall j :: 0 <= j < |aq| ==> aq[first].time <= aq[j].time;
      var i: nat :| i < |aq| && forall j :: 0 <= j < |aq| ==> aq[i].time <= aq[j].time;
      var noise: nat := *;
      assert IsOp(cfg, before.aq[i].op) && TakesAgreeing(cfg, before, before.aq[i]) by { MayPop(cfg, before, i); }
      StepDecreases(cfg, before, i, noise);
      Iterate(i, noise);
      InvShape(cfg, Abs());
      ReachedNext(cfg, counts, before, n, i, noise, Abs());
    }

    /** The main loop ends, whatever the ties and the noise; with one send and one receive
        per channel it has then done everything exactly if the schedule is acyclic. */
    method Run(ghost counts: seq<seq<nat>>)
      requires Loaded(cfg, counts) && Agreeing(cfg) && Abs() == Start0(cfg, counts)
      modifies this
      ensures aq == [] && Inv(cfg, Abs())
      ensures exists n :: ReachedIn(cfg, counts, Abs(), n)
      ensures OneToOne(cfg) ==> (AllDone(cfg, Abs()) <==> Digraph.Acyclic(EventGraph(cfg)))
    {
      hide Inv, Agreeing, OneToOne, TrackersShaped, Remaining, Slack, AllDone, Digraph.Acyclic, ClocksBounded;
      StartInv(cfg, counts);
      StartShape(cfg, counts);
      ghost var n := 0;
      InvShape(cfg, Abs());
      while aq != []
        invariant Inv(cfg, Abs()) && ClocksBounded(Abs()) && ReachedIn(cfg, counts, Abs(), n)
        invariant TrackersShaped(cfg, Abs())
        decreases Remaining(cfg, Abs()), Slack(aq, horizon)
      {
        IterateEarliest(counts, n);
        n := n + 1;
      }
      if OneToOne(cfg) {
        CompletesIffAcyclic(cfg, counts, Abs(), n);
      }
    }
  }

  lemma NoneFreed(cfg: Config, s: Sim, host: nat)
    requires host < |cfg.sched|
    ensures FreedEvents(cfg, s, host, []) == []
  {
  }

  lemma OneMoreFreed(cfg: Config, s: Sim, host: nat, freed: seq<Freed>, k: nat)
    requires host < |cfg.sched| && k < |freed| && forall i :: 0 <= i < |freed| ==> freed[i].node < |cfg.sched[host]|
    ensures var op := Op(host, freed[k].node);
      FreedEvents(cfg, s, host, freed[..k + 1])
      == FreedEvents(cfg, s, host, freed[..k]) + [Event(Issue, op, FreedTime(cfg, s, op, freed[k].start))]
  {
    assert freed[..k + 1][..k] == freed[..k];
  }

  lemma {:induction false} EarliestUpTo(s: Sim, k: nat) returns (i: nat)
    requires 0 < k <= |s.aq|
    ensures i < k && forall j :: 0 <= j < k ==> s.aq[i].time <= s.aq[j].time
  {
    i := 0;
    if k > 1 {
      i := EarliestUpTo(s, k - 1);
      if s.aq[k - 1].time < s.aq[i].time {
        i := k - 1;
      }
    }
  }
}
