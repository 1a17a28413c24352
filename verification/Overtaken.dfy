/** A packet of a sent slot counted late (src/scheduler.rs, `catch_up`): a re-inserted PCR
    displaced it, and the clock jumped before it could go out. When that happens is
    `Lateness.SentSlotsLateExactlyWhenOvertaken`. */
module Overtaken {
  import opened Prelude
  import opened Packets
  import opened GridSpec
  import opened SchedulerSpec
  import opened TwoLegs
  import opened Lateness
  import opened TickStreams
  import opened TickLegs
  import opened Apart
  import GridQueue
  import Pair

  /** The early leg of the crowded stream, when it has filled `n` slots, the first slot 10. */
  function Until(n: nat, at: nat, now: nat, due: nat): seq<Call> {
    Feed(CrowdedStream(), at) + Emits(n, now, due)
  }

  function UntilFourteen(at: nat, now: nat, due: nat): seq<Call> {
    Until(4, at, now, due)
  }

  /** The next datagram, in slot `slot`, is sent. */
  predicate SendsNext(c: Config, calls: seq<Call>, now: nat, due: nat, slot: nat) {
    var s := RunCalls(NewSched(c), calls);
    s.slot == slot && Opens(s.CatchUp(now), now, due).send
  }

  /** Two PCRs a little under a hundred slots on and apart. */
  function Ahead(late: nat): seq<Call> {
    [Enqueue(Clocked(100, 17), late), Enqueue(Clocked(200, 18), late)]
  }

  /** Depths such that the leg starts in slot 10 and the stream ahead overtakes it. */
  predicate Shallow(c: Config) {
    Crowdable(c) && 5 <= c.latency < 85 && c.maxLatency < 85
  }

  lemma {:induction false} PhaseLasts(c: Config, e: Emission, index: nat, n: nat, log: seq<Placement>)
    requires n > 0 && PureSlot(c, Some(STREAM_PID), e, index, log).em.phased
    ensures PureSlots(c, Some(STREAM_PID), e, index, n, log).em.phased
  {
    hide GridQueue.Lookup, FillSlot;
    if n == 1 {
      PureOne(c, Some(STREAM_PID), e, index, log);
    } else {
      PhaseLasts(c, e, index, n - 1, log);
    }
  }

  /** From slot 11 on every slot is sent. */
  lemma SlotsAreSent(c: Config, n: nat, at: nat, now: nat, due: nat)
    requires Shallow(c) && 1 <= n <= 4
    ensures SendsNext(c, Until(n, at, now, due), now, due, 10 + n)
  {
    hide RunCalls, PureSlot, CrowdedStream, InOrder, Opens, Sched.CatchUp, Feed, Emits, Ticking, Whole, OnTheTick;
    CrowdedIsClosed();
    FedThenAsked(c, CrowdedStream(), 10, n, at, now, due);
    EarlyLegPhases(c);
    PhaseLasts(c, Fresh(), 10, n, CrowdedLog());
    KnowsOpens(RunCalls(NewSched(c), Until(n, at, now, due)), CrowdedStream(), 10, now, due);
  }

  lemma EarlyLegPhases(c: Config)
    requires c.streamed && c.regenerate
    ensures PureSlot(c, Some(STREAM_PID), Fresh(), 10, CrowdedLog()).em.phased
  {
    hide GridQueue.Lookup, CrowdedLog, GridClock;
    CrowdedSlots();
  }

  /** Slot 14 is sent, and leaves two packets of sent slots waiting. */
  lemma FourteenIsSent(c: Config, at: nat, now: nat, due: nat)
    requires Shallow(c)
    ensures
      var s := RunCalls(NewSched(c), UntilFourteen(at, now, due));
      var sent := EmitDatagram(s, now, due).s;
      && s.slot == 14 && Opens(s.CatchUp(now), now, due).send
      && Holds(sent, CrowdedStream(), 10) && sent.slot == 15 && sent.Started() && sent.cfg == c
      && sent.em.deferred == [Queued(Plain(13), Base(0, false)), Queued(WithClock(14), Base(0, false))]
  {
    hide RunCalls, PureSlot, CrowdedStream, InOrder, EmitDatagram, Opens, Sched.CatchUp, Feed, Emits, Ticking, Whole,
         OnTheTick;
    var s := RunCalls(NewSched(c), UntilFourteen(at, now, due));
    CrowdedIsClosed();
    FedThenAsked(c, CrowdedStream(), 10, 4, at, now, due);
    EarlyLeg(c);
    KnowsOpens(s, CrowdedStream(), 10, now, due);
    KnowsEmits(s, CrowdedStream(), 10, now, due);
  }

  // ---- The stream runs ahead ----

  /** A started leg whose grid has a lone PCR open. */
  ghost predicate Waits(s: Sched, pcr: nat, next: Positive) {
    Leg(s) && s.Started() && s.pid == Some(STREAM_PID) && LonePcr(s.store.grid.core, pcr, next)
  }

  lemma RunsAhead(s: Sched, pcr: nat, next: Positive, later: nat, at: nat)
    requires Waits(s, pcr, next) && pcr < later < pcr + 1000
    ensures
      var s' := s.Enqueue(Clocked(later, next), at);
      && Waits(s', later, next + 1) && s'.em == s.em && s'.slot == s.slot && s'.cfg == s.cfg
      && s.store.Gridded? && LogOf(s') == LogOf(s) + [At(pcr, s.store.grid.core.run[0])]
      && s'.store.grid.core.run == [Clocked(later, next)]
      && s'.store.grid.HasContent()
      && s'.store.grid.queue.placed[|s'.store.grid.queue.placed| - 1].slot == pcr
  {
    hide GridQueue.Reachable, Core.Push, LonePcr, Sched.Enqueue, ClockOctets;
    var p := Clocked(later, next);
    LoneIsOpen(s.store.grid.core, pcr, next);
    CloseIsQuiet(pcr, later);
    EnqueueKeepsLeg(s, p, at, 0);
    Pair.EnqueueIsFed(s, p, at);
    TurnAfterGap(s.store.grid.core, pcr, next, later);
    NewestIsQueued(s, p, at);
  }

  lemma GridHolds(s: Sched, pcr: nat, next: Positive)
    requires Waits(s, pcr, next)
    ensures s.store.Gridded?
  {
  }

  lemma LoneIsOpen(c: Core, pcr: nat, next: Positive)
    requires LonePcr(c, pcr, next)
    ensures c.clock.open == Some(Opened(pcr, pcr)) && |c.run| == 1
  {
  }

  lemma AddLeavesSome(q: Queue, added: seq<Placement>, base: int, capacity: Positive)
    requires added != []
    ensures q.Add(added, base, capacity).queue.placed != []
  {
  }

  lemma LastIsQueuedLast(s: Sched)
    requires Leg(s) && s.store.grid.HasContent()
    ensures LogOf(s) != []
    ensures s.store.grid.queue.placed[|s.store.grid.queue.placed| - 1].slot == LogOf(s)[|LogOf(s)| - 1].slot
  {
    hide GridQueue.Marks;
    var q, log := s.store.grid.queue, LogOf(s);
    assert log[q.gone..][|q.placed| - 1] == log[|log| - 1];
  }

  /** Whatever makes way for it, what was placed last is queued last. */
  lemma NewestIsQueued(s: Sched, p: Packet, at: nat)
    requires Leg(s) && s.Started() && p.pid != NULL_PID
    requires Leg(s.Enqueue(p, at)) && |LogOf(s.Enqueue(p, at))| > |LogOf(s)|
    ensures
      var s' := s.Enqueue(p, at);
      && s'.store.grid.HasContent()
      && s'.store.grid.queue.placed[|s'.store.grid.queue.placed| - 1].slot == LogOf(s')[|LogOf(s')| - 1].slot
  {
    hide Core.Push, GridQueue.Reachable, Queue.Add, Sched.Enqueue;
    var s', g := s.Enqueue(p, at), s.store.grid;
    var core := g.core.Push(p, g.ArrivalAt(at, Some(s.slot + s.cfg.maxLatency)));
    EnqueueIsPush(s, p, at);
    PushExtendsLog(g.core, p, g.ArrivalAt(at, Some(s.slot + s.cfg.maxLatency)));
    AddLeavesSome(g.queue, core.NewSince(g.core), g.core.placedBase, g.capacity);
    LastIsQueuedLast(s');
  }

  /** What the stream has put in its slots by then. */
  function FullLog(): (log: seq<Placement>)
    ensures |log| == 8 && log[3] == At(13, Plain(13)) && log[4] == At(14, WithClock(14))
  {
    CrowdedLog() + [At(16, WithClock(16))] + [At(100, Clocked(100, 17))]
  }

  lemma FarBehind(s: Sched, now: nat)
    requires s.store.Gridded? && s.store.grid.HasContent() && Shallow(s.cfg) && s.slot == 15
    requires s.store.grid.queue.placed[|s.store.grid.queue.placed| - 1].slot == 100
    ensures Jumps(s, now)
  {
  }

  /** The leg when slot 14 has been sent, and when the two PCRs have come in after that. */
  function AtFifteen(c: Config, at: nat, now: nat, due: nat): Sched {
    EmitDatagram(RunCalls(NewSched(c), UntilFourteen(at, now, due)), now, due).s
  }

  function Behind(c: Config, at: nat, now: nat, due: nat, late: nat): Sched {
    RunCalls(AtFifteen(c, at, now, due), Ahead(late))
  }

  function CallsUntil(at: nat, now: nat, due: nat, late: nat): seq<Call> {
    UntilFourteen(at, now, due) + [Emit(now, due)] + Ahead(late)
  }

  /** Given the two PCRs, the leg stands where it stood, with its live edge far ahead. */
  lemma LeftBehind(c: Config, at: nat, now: nat, due: nat, late: nat)
    requires Shallow(c)
    ensures
      var s := Behind(c, at, now, due, late);
      && Leg(s) && s.store.Gridded? && LogOf(s) == FullLog() && s.em == AtFifteen(c, at, now, due).em && Jumps(s, late)
  {
    hide RunCalls, CrowdedStream, InOrder, EmitDatagram, UntilFourteen, LonePcr, Leg, Sched.Enqueue, ClockOctets, Jumps;
    var sent := AtFifteen(c, at, now, due);
    FourteenIsSent(c, at, now, due);
    CrowdedIsClosed();
    HoldsLone(sent);
    var one := sent.Enqueue(Clocked(100, 17), late);
    RunsAhead(sent, 16, 17, 100, late);
    RunsAhead(one, 100, 18, 200, late);
    TwoCalls(sent, Enqueue(Clocked(100, 17), late), Enqueue(Clocked(200, 18), late));
    GridHolds(one.Enqueue(Clocked(200, 18), late), 200, 19);
    FarBehind(one.Enqueue(Clocked(200, 18), late), late);
  }

  lemma HoldsLone(s: Sched)
    requires Holds(s, CrowdedStream(), 10) && s.Started()
    ensures Waits(s, 16, 17) && s.store.Gridded? && LogOf(s) == CrowdedLog() && s.store.grid.core.run == [WithClock(16)]
  {
    hide InOrder, Plain, Clocked;
  }

  lemma TwoCalls(s: Sched, first: Call, second: Call)
    ensures RunCalls(s, [first, second]) == Do(Do(s, first), second)
  {
    hide Do;
    assert [first, second][1..] == [second];
    RunOne(Do(s, first), second);
  }

  lemma WaitingPackets(i: nat)
    requires i < |FullLog()|
    ensures FullLog()[i].packet == Plain(13) ==> i == 3
    ensures FullLog()[i].packet == WithClock(14) ==> i == 4
  {
    hide PlainOctets, ClockOctets;
  }

  /** The packets the leg owes are those placed third and fourth after the first. */
  lemma OwesTwo(s: Sched, t: Tally)
    requires Tallies(s, t) && s.store.Gridded? && LogOf(s) == FullLog()
    requires s.em.deferred == [Queued(Plain(13), Base(0, false)), Queued(WithClock(14), Base(0, false))]
    ensures t.owed == [3, 4]
  {
    hide FullLog, Leg, Plain, Clocked;
    WaitingPackets(t.owed[0]);
    WaitingPackets(t.owed[1]);
  }

  /** The crowded stream's early leg has sent slots 11 to 14, and two packets, of slots 13
      and 14, wait behind a re-inserted PCR. Two PCRs further on
      arrive, in step with the clock and the counters; and the next datagram asked for
      moves the clock past the two that wait and counts both late. */
  lemma SentSlotsCanBeLate(c: Config, at: nat, now: nat, due: nat, late: nat)
    requires Shallow(c)
    ensures forall n: nat | 1 <= n <= 4 :: SendsNext(c, Until(n, at, now, due), now, due, 10 + n)
    ensures AtFifteen(c, at, now, due).slot == 15
    ensures
      var s, t := Behind(c, at, now, due, late), TallyOf(c, CallsUntil(at, now, due, late));
      && s.store.Gridded? && LogOf(s) == FullLog() && FullLog()[3].slot == 13 && FullLog()[4].slot == 14
      && Tallies(s, t) && t.owed == [3, 4] && Jumps(s, late)
      && 3 in NewlyLate(s, Emit(late, due), t) && 4 in NewlyLate(s, Emit(late, due), t)
      && EmitDatagram(s, late, due).s.stats.late >= s.stats.late + 2
  {
    hide RunCalls, CrowdedStream, EmitDatagram, Opens, UntilFourteen, Ahead, TallyOf, CallTally, NewlyLate, Jumps,
         Leg, Tallies;
    hide FullLog, Sched.CatchUp, SendsNext;
    forall n: nat | 1 <= n <= 4
      ensures SendsNext(c, Until(n, at, now, due), now, due, 10 + n)
    {
      SlotsAreSent(c, n, at, now, due);
    }
    var s, t := Behind(c, at, now, due, late), TallyOf(c, CallsUntil(at, now, due, late));
    FourteenIsSent(c, at, now, due);
    LeftBehind(c, at, now, due, late);
    SendIsDetermined(c, at, now, due);
    SentSlotsLateExactlyWhenOvertaken(c, UntilFourteen(at, now, due), now, due, Ahead(late), Emit(late, due), 3);
    SentSlotsLateExactlyWhenOvertaken(c, UntilFourteen(at, now, due), now, due, Ahead(late), Emit(late, due), 4);
    OwesTwo(s, t);
    JumpCountsAll(s, late, due, t);
  }

  lemma SendIsDetermined(c: Config, at: nat, now: nat, due: nat)
    requires
      var s := RunCalls(NewSched(c), UntilFourteen(at, now, due));
      c.streamed && Opens(s.CatchUp(now), now, due).send
    ensures
      var s := RunCalls(NewSched(c), UntilFourteen(at, now, due));
      Opens(s.CatchUp(now), now, due).determined
  {
    hide RunCalls, UntilFourteen, Core.Determined, Sched.State, Leg, Sched.Boundary;
    NewLeg(c);
    WholeIsLeg(NewSched(c));
    RunLeg(NewSched(c), UntilFourteen(at, now, due));
    Pair.LegIsGridded(RunCalls(NewSched(c), UntilFourteen(at, now, due)));
  }
}
