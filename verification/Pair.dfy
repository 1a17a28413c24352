/** The promise of stream clocking, from a standing start (README.md lines 311-324;
    src/scheduler.rs): two pacers fed one stream over unrelated paths send one transport. */
module Pair {
  import opened Prelude
  import opened Packets
  import opened GridSpec
  import opened SchedulerSpec
  import opened TwoLegs
  import Paths
  import GridQueue
  import Conservation
  import Displacement
  import Repetition

  lemma EnqueuePushesCore(s: Sched, p: Packet, now: nat)
    requires s.store.Gridded? && p.pid != NULL_PID
    ensures
      var s' := s.Enqueue(p, now);
      var horizon := if s.Started() then Some(s.slot + s.cfg.maxLatency) else None;
      s'.store.Gridded? && s'.store.grid.core == s.store.grid.core.Push(p, s.store.grid.ArrivalAt(now, horizon))
  {
    hide Core.Push, Queue.Add, Sched.Boundary;
  }

  /** Placement sees the packets and nothing else, whatever the calls between them. */
  lemma {:induction false} CallsFeedTheGrid(s: Sched, calls: seq<Call>)
    requires Leg(s)
    requires Paths.QuietStream(Paths.OpenPcr(s.store.grid.core), Conservation.PacketsIn(calls))
    ensures Leg(RunCalls(s, calls))
    ensures RunCalls(s, calls).store.grid.core == Paths.Fed(s.store.grid.core, Conservation.PacketsIn(calls))
    decreases |calls|
  {
    hide Leg, EmitDatagram, Sched.Enqueue, AdvanceMuted, Core.Push, Paths.Quiet;
    LegIsGridded(s);
    if calls == [] {
    } else {
      var s' := Do(s, calls[0]);
      match calls[0] {
        case Enqueue(p, now) =>
          EnqueueGrows(s, p, now);
          if p.pid != NULL_PID {
            assert Conservation.PacketsIn(calls)[0] == p
              && Conservation.PacketsIn(calls)[1..] == Conservation.PacketsIn(calls[1..]);
            EnqueueIsFed(s, p, now);
          } else {
            NullIsStripped(s, p, now);
          }
        case Emit(now, due) =>
          EmitKeepsLeg(s, now, due);
        case Mute(now) =>
          MuteLeg(s, now);
          MuteKeepsStore(s, now);
      }
      CallsFeedTheGrid(s', calls[1..]);
    }
  }

  lemma LegIsGridded(s: Sched)
    requires Leg(s)
    ensures s.store.Gridded?
  {
  }

  lemma EnqueueIsFed(s: Sched, p: Packet, now: nat)
    requires s.store.Gridded? && p.pid != NULL_PID
    requires
      var c := s.store.grid.core;
      p.pcr.Some? && c.clock.open.Some? ==> Paths.Quiet(c.clock.open.value.pcr, p.pcr.value, p.declared)
    ensures
      var s' := s.Enqueue(p, now);
      && s'.store.Gridded? && s'.store.grid.core == s.store.grid.core.Push(p, Arrival(0, None))
      && Paths.OpenPcr(s'.store.grid.core) == if p.pcr.Some? then p.pcr else Paths.OpenPcr(s.store.grid.core)
  {
    hide Core.Push, Sched.Enqueue, Paths.Quiet;
    EnqueuePushesCore(s, p, now);
    var horizon := if s.Started() then Some(s.slot + s.cfg.maxLatency) else None;
    Paths.QuietPush(s.store.grid.core, p, s.store.grid.ArrivalAt(now, horizon));
    Paths.QuietPush(s.store.grid.core, p, Arrival(0, None));
  }

  lemma NullIsStripped(s: Sched, p: Packet, now: nat)
    requires p.pid == NULL_PID
    ensures s.Enqueue(p, now).store == s.store
  {
  }

  lemma MuteKeepsStore(s: Sched, now: nat)
    ensures AdvanceMuted(s, now).store == s.store
  {
  }

  lemma {:induction false} RunJoins(s: Sched, first: seq<Call>, second: seq<Call>)
    ensures RunCalls(s, first + second) == RunCalls(RunCalls(s, first), second)
    decreases |first|
  {
    hide Do;
    if first == [] {
      assert first + second == second;
    } else {
      assert (first + second)[1..] == first[1..] + second;
      RunJoins(Do(s, first[0]), first[1..], second);
    }
  }

  /** A reachable leg in phase is one that `TwoLegsAgree` speaks of. */
  lemma InPhaseIsRunning(cfg: Config, calls: seq<Call>)
    requires cfg.streamed && cfg.regenerate && RunCalls(NewSched(cfg), calls).em.phased
    ensures Running(RunCalls(NewSched(cfg), calls))
    ensures RunCalls(NewSched(cfg), calls).cfg == cfg
  {
    NewLeg(cfg);
    RunLeg(NewSched(cfg), calls);
    Repetition.NewKept(cfg);
    Repetition.RunKept(NewSched(cfg), calls);
    Conservation.RunKeepsConfig(NewSched(cfg), calls);
    hide RunCalls, Leg, Conservation.Conserves;
  }

  /** One leg of a pair: what was called until it stood at a boundary, and since. */
  datatype History = History(cfg: Config, before: seq<Call>, since: seq<Call>)

  function AtBoundary(h: History): Sched {
    RunCalls(NewSched(h.cfg), h.before)
  }

  function Now(h: History): Sched {
    RunCalls(AtBoundary(h), h.since)
  }

  /** The leg stood in phase at its boundary, past whatever it had lost for want of room,
      and since then has stayed in phase and lost nothing more. */
  ghost predicate InService(h: History) {
    && h.cfg.streamed && h.cfg.regenerate
    && AtBoundary(h).em.phased && Whole(AtBoundary(h)) && StaysInPhase(AtBoundary(h), h.since)
    && Now(h).store.Gridded? && EvictedBy(Now(h)) == EvictedBy(AtBoundary(h))
  }

  ghost predicate SameBoundary(a: History, b: History) {
    && Line(a.cfg) == Line(b.cfg)
    && AtBoundary(a).em == AtBoundary(b).em && AtBoundary(a).slot == AtBoundary(b).slot
    && AtBoundary(a).pid == AtBoundary(b).pid
  }

  /** Up to the end of the `k`th datagram after the boundary, both placed the same. */
  ghost predicate PlacedAlike(a: History, b: History, k: nat) {
    && Now(a).store.Gridded? && Now(b).store.Gridded?
    && var from := AtBoundary(a).slot;
       SameView(LogOf(Now(a)), LogOf(Now(b)), from, Past(from, k + 1, a.cfg.perDatagram))
  }

  /** Whatever two legs went through before, once they stand in service on one boundary
      with equal emission states, every later datagram both send agrees while their
      placements do. */
  lemma InServiceLegsAgree(a: History, b: History, k: nat)
    requires InService(a) && InService(b) && SameBoundary(a, b)
    requires k < |SentBy(AtBoundary(a), a.since)| && k < |SentBy(AtBoundary(b), b.since)|
    requires PlacedAlike(a, b, k)
    ensures SentBy(AtBoundary(a), a.since)[k] == SentBy(AtBoundary(b), b.since)[k]
  {
    hide RunCalls, StaysInPhase, SentBy, SameView, Running, Whole;
    InPhaseIsRunning(a.cfg, a.before);
    InPhaseIsRunning(b.cfg, b.before);
    TwoLegsAgree(AtBoundary(a), AtBoundary(b), a.since, b.since, k);
  }

  /** The placements of a leg that has been fed a quiet stream are the stream's. */
  lemma PlacementsAreTheStreams(h: History)
    requires h.cfg.streamed && Paths.QuietStream(None, Conservation.PacketsIn(h.before + h.since))
    ensures
      && Now(h).store.Gridded?
      && Now(h).store.grid.core == Paths.Fed(NewCore(h.cfg.m), Conservation.PacketsIn(h.before + h.since))
  {
    NewLeg(h.cfg);
    var s := NewSched(h.cfg);
    hide Leg, RunCalls, Paths.QuietStream, Paths.Fed, Conservation.PacketsIn;
    RunJoins(s, h.before, h.since);
    CallsFeedTheGrid(s, h.before + h.since);
    LegIsGridded(RunCalls(s, h.before + h.since));
  }

  // ---- One stream, heard as far as each has got ----

  /** The datagrams a leg has sent lie below its frontier. */
  lemma {:induction false} SentBelowFrontier(s: Sched, calls: seq<Call>, k: nat)
    requires Running(s) && StaysInPhase(s, calls) && k < |SentBy(s, calls)|
    ensures
      var end := RunCalls(s, calls);
      && end.store.Gridded?
      && Past(s.slot, k + 1, s.cfg.perDatagram) <= GridQueue.Frontier(end.store.grid.core)
    decreases |calls|
  {
    hide EmitDatagram, Sched.Enqueue, Running, Opens, Sched.CatchUp, GridQueue.Frontier, GridQueue.Lookup, Whole;
    var s', rest := Do(s, calls[0]), calls[1..];
    CallKeepsView(s, calls[0], 0);
    if calls[0].Enqueue? {
      SentBelowFrontier(s', rest, k);
    } else {
      EmitKeepsView(s, calls[0].now, calls[0].due);
      assert (k + 1) * s.cfg.perDatagram == s.cfg.perDatagram + k * s.cfg.perDatagram;
      if k > 0 {
        SentBelowFrontier(s', rest, k - 1);
      } else {
        InPhaseViewIsFinal(s', rest, s'.slot - 1);
        RunningIsGridded(RunCalls(s', rest));
      }
    }
  }

  /** What a core holds below its frontier it goes on holding, whatever it is fed. */
  lemma {:induction false} FedSettles(c: Core, packets: seq<Packet>, slot: nat)
    requires Displacement.Flows(c) && slot < GridQueue.Frontier(c)
    ensures GridQueue.Lookup(Paths.Fed(c, packets).log, slot) == GridQueue.Lookup(c.log, slot)
    decreases |packets|
  {
    hide Core.Push, Displacement.Flows, GridQueue.Frontier, GridQueue.Lookup;
    if packets == [] {
    } else {
      GridQueue.PushIsFinalBelow(c, packets[0], Arrival(0, None), slot);
      FedSettles(c.Push(packets[0], Arrival(0, None)), packets[1..], slot);
    }
  }

  /** Of two legs on one stream, one has had at least what the other has. */
  predicate OneStream(x: seq<Packet>, y: seq<Packet>) {
    x <= y || y <= x
  }

  lemma AheadSeesTheSame(c: Core, x: seq<Packet>, y: seq<Packet>, from: nat, to: nat)
    requires x <= y && Displacement.Flows(Paths.Fed(c, x)) && to <= GridQueue.Frontier(Paths.Fed(c, x))
    ensures SameView(Paths.Fed(c, x).log, Paths.Fed(c, y).log, from, to)
  {
    hide Displacement.Flows, GridQueue.Frontier, GridQueue.Lookup, Paths.Fed;
    assert y == x + y[|x|..];
    Paths.FedOn(c, x, y[|x|..]);
    forall slot | from <= slot < to
      ensures GridQueue.Lookup(Paths.Fed(c, x).log, slot) == GridQueue.Lookup(Paths.Fed(c, y).log, slot)
    {
      FedSettles(Paths.Fed(c, x), y[|x|..], slot);
    }
  }

  /** Two cores fed one stream agree below both their frontiers, however far each is on. */
  lemma OneStreamOneView(c: Core, x: seq<Packet>, y: seq<Packet>, from: nat, to: nat)
    requires OneStream(x, y) && Displacement.Flows(Paths.Fed(c, x)) && Displacement.Flows(Paths.Fed(c, y))
    requires to <= GridQueue.Frontier(Paths.Fed(c, x)) && to <= GridQueue.Frontier(Paths.Fed(c, y))
    ensures SameView(Paths.Fed(c, x).log, Paths.Fed(c, y).log, from, to)
  {
    hide Displacement.Flows, GridQueue.Frontier, GridQueue.Lookup, Paths.Fed;
    if x <= y {
      AheadSeesTheSame(c, x, y, from, to);
    } else {
      AheadSeesTheSame(c, y, x, from, to);
    }
  }

  lemma EndFlows(h: History)
    requires h.cfg.streamed
    ensures Now(h).store.Gridded? && Displacement.Flows(Now(h).store.grid.core)
  {
    NewLeg(h.cfg);
    RunLeg(NewSched(h.cfg), h.before);
    RunLeg(AtBoundary(h), h.since);
    ReachableParts(Now(h).store.grid);
    hide GridQueue.Reachable, RunCalls, Displacement.Flows;
  }

  /** Two pacers on one stream, each given as much of it as has reached it, at any times,
      over any paths, with any depths, and polled at any times: if no PCR step is declared
      or longer than the gap, they send the same datagrams, slot for slot, from any boundary
      where they stand in the same phase. */
  lemma OneStreamOneTransport(a: History, b: History, k: nat)
    requires InService(a) && InService(b) && SameBoundary(a, b)
    requires OneStream(Conservation.PacketsIn(a.before + a.since), Conservation.PacketsIn(b.before + b.since))
    requires Paths.QuietStream(None, Conservation.PacketsIn(a.before + a.since))
    requires Paths.QuietStream(None, Conservation.PacketsIn(b.before + b.since))
    requires k < |SentBy(AtBoundary(a), a.since)| && k < |SentBy(AtBoundary(b), b.since)|
    ensures SentBy(AtBoundary(a), a.since)[k] == SentBy(AtBoundary(b), b.since)[k]
  {
    hide RunCalls, StaysInPhase, SentBy, GridQueue.Lookup, Conservation.PacketsIn, Paths.QuietStream, Paths.Fed,
         NewCore;
    hide Running, Whole, GridQueue.Frontier, Displacement.Flows, OneStream, SameView;
    PlacementsAreTheStreams(a);
    PlacementsAreTheStreams(b);
    EndFlows(a);
    EndFlows(b);
    InPhaseIsRunning(a.cfg, a.before);
    InPhaseIsRunning(b.cfg, b.before);
    SentBelowFrontier(AtBoundary(a), a.since, k);
    SentBelowFrontier(AtBoundary(b), b.since, k);
    OneStreamOneView(NewCore(a.cfg.m), Conservation.PacketsIn(a.before + a.since),
                     Conservation.PacketsIn(b.before + b.since), AtBoundary(a).slot,
                     Past(AtBoundary(a).slot, k + 1, a.cfg.perDatagram));
    InServiceLegsAgree(a, b, k);
  }
}
