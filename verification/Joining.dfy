/** A pacer that joins a running stream late and comes to send what the running one sends:
    the terms of `Meetings.LateJoinerSendsTheSame` met, from two schedulers new. */
module Joining {
  import opened Prelude
  import opened Packets
  import opened GridSpec
  import opened SchedulerSpec
  import opened TwoLegs
  import opened Meetings
  import opened TickStreams
  import opened TickLegs
  import Coalescence
  import Conservation
  import GridQueue
  import Paths

  /** A stream the running leg has from slot 10 and the joining one from slot 14. */
  function RunningStream(): Stream {
    Stream([WithClock(10), Plain(11), Plain(12), Plain(13)], WithClock(14),
           [Plain(15), WithClock(16), Plain(17), WithClock(18)])
  }

  lemma StreamTicks()
    ensures
      var t := RunningStream();
      && |All(t)| == 9 && Closed(All(t), 10) && |Late(t)| == 5 && Closed(Late(t), 14)
      && |t.early| == 4 && OnTheTick(t.early, 10)
  {
    hide Ticks, WithClock, Plain;
    TickFields(10);
    TickFields(11);
    TickFields(12);
    TickFields(13);
    TickFields(14);
    TickFields(15);
    TickFields(16);
    TickFields(17);
    TickFields(18);
  }

  // ---- On the grid ----

  lemma {:induction false} TicksGoUnbroken(c: Core, front: seq<Packet>, packets: seq<Packet>, start: nat)
    requires front != [] && front[0].pcr.Some? && TickedThrough(c, front, start) && |front| + |packets| < 100
    requires forall i | 0 <= i < |packets| :: Ticks(packets[i], start + |front| + i)
    ensures Coalescence.Unbroken(c, packets)
    decreases |packets|
  {
    hide Core.Push, TickedThrough, Ticks;
    if packets == [] {
    } else {
      var p, rest := packets[0], packets[1..];
      assert Ticks(p, start + |front| + 0);
      TickedUnbroken(c, front, p, start);
      if p.pcr.Some? {
        OneMorePcr(c, front, p, start);
      } else {
        OneMorePlain(c, front, p, start);
      }
      forall i | 0 <= i < |rest|
        ensures Ticks(rest[i], start + |front + [p]| + i)
      {
        assert Ticks(packets[i + 1], start + |front| + (i + 1));
      }
      TicksGoUnbroken(c.Push(p, Arrival(0, None)), front + [p], rest, start);
    }
  }

  lemma TickedUnbroken(c: Core, front: seq<Packet>, p: Packet, start: nat)
    requires front != [] && front[0].pcr.Some? && TickedThrough(c, front, start) && Ticks(p, start + |front|)
    ensures !c.Noted(p).runBroken
  {
    NextCounter(c, p, start + |front|);
  }

  /** Both grids, when the first packet both legs had has opened its run. */
  lemma BothOpen(c: Config)
    requires c.m == TickRate()
    ensures
      var t := RunningStream();
      && TickedThrough(RunningFrom(c, t), t.early + [t.first], 10)
      && TickedThrough(JoiningFrom(c, t), [t.first], 14)
      && Paths.Fed(NewCore(c.m), t.early).clock.open.Some?
  {
    hide Core.Push, Paths.Fed, NewCore, Ticks, InOrder, Plain, Clocked;
    var t := RunningStream();
    StreamTicks();
    TickFields(14);
    FedTicks(t.early, 10);
    OneMorePcr(Paths.Fed(NewCore(c.m), t.early), t.early, t.first, 10);
    OnePacket(t.first, 14);
  }

  lemma ClockIsNew(c: Core, front: seq<Packet>, start: nat)
    requires front != [] && front[0].pcr.Some? && TickedThrough(c, front, start)
    ensures c.clock.(open := None) == NewCore(TickRate()).clock
    ensures Paths.OpenPcr(c) == Some(start + LastPcr(front))
  {
  }

  lemma StreamIsJoinable(c: Config)
    requires c.m == TickRate()
    ensures Joinable(c, RunningStream())
  {
    hide Core.Push, Paths.Fed, NewCore, Ticks, InOrder, TickedThrough, Plain, Clocked;
    hide Coalescence.Unbroken, Coalescence.Uncut, Paths.QuietStream, RunningFrom, JoiningFrom, LastPcr;
    var t := RunningStream();
    StreamTicks();
    TickFields(14);
    TicksAreQuiet(None, All(t), 10);
    BothOpen(c);
    ClockIsNew(RunningFrom(c, t), t.early + [t.first], 10);
    ClockIsNew(JoiningFrom(c, t), [t.first], 14);
    LateClock();
    RestTicks();
    TicksAreQuiet(Some(14), t.rest, 15);
    TicksGoUnbroken(RunningFrom(c, t), t.early + [t.first], t.rest, 10);
    TicksGoUnbroken(JoiningFrom(c, t), [t.first], t.rest, 14);
    Coalescence.UnbrokenIsUncut(RunningFrom(c, t), t.rest);
    Coalescence.UnbrokenIsUncut(JoiningFrom(c, t), t.rest);
  }

  /** The first packet both legs had is the last PCR either has heard by then. */
  lemma LateClock()
    ensures
      var t := RunningStream();
      && t.early[0].pcr.Some? && t.first.pcr.Some?
      && LastPcr(t.early + [t.first]) == 4 && LastPcr([t.first]) == 0
  {
    hide PlainOctets, ClockOctets;
  }

  lemma RestTicks()
    ensures forall i | 0 <= i < |RunningStream().rest| :: Ticks(RunningStream().rest[i], 15 + i)
    ensures |RunningStream().rest| == 4
  {
    hide Ticks, WithClock, Plain;
    TickFields(15);
    TickFields(16);
    TickFields(17);
    TickFields(18);
  }

  lemma FirstIsPlacedAlike(c: Config)
    requires c.m == TickRate()
    ensures CoalescedBefore(c, RunningStream(), 0, 16)
  {
    hide Core.Push, Paths.Fed, NewCore, Plain, Clocked, Ticks, RunningFrom, JoiningFrom, Ticking;
    var t := RunningStream();
    StreamTicks();
    LogsAre(c, t);
    ClosedIsPlaced(All(t), 10);
    ClosedIsPlaced(Late(t), 14);
    BothOpen(c);
    OpenLogs(c);
    assert All(t)[..8][4] == t.first && Late(t)[..4][0] == t.first;
  }

  lemma OpenLogs(c: Config)
    requires TickedThrough(RunningFrom(c, RunningStream()), RunningStream().early + [RunningStream().first], 10)
    requires TickedThrough(JoiningFrom(c, RunningStream()), [RunningStream().first], 14)
    ensures |RunningFrom(c, RunningStream()).log| == 4 && |JoiningFrom(c, RunningStream()).log| == 0
  {
    hide RunningFrom, JoiningFrom, Ticking, Plain, PlainOctets, ClockOctets;
  }

  // ---- The two legs ----

  /** What a leg is called with that is fed `packets`, asked for `n` datagrams, for the one
      it meets its partner in, and for one more. */
  function FedAndAsked(c: Config, packets: seq<Packet>, n: nat, at: nat, now: nat, due: nat): Meeting {
    Meeting(c, Feed(packets, at) + Emits(n, now, due), now, due, [Emit(now, due)])
  }

  /** A configuration under which nothing is ever re-inserted in the few slots of a stream. */
  predicate Roomy(c: Config, packets: seq<Packet>) {
    Suits(c) && c.pcrMax >= |packets| && c.maxLatency >= |packets|
  }

  lemma CalmSlot(c: Config, e: Emission, packets: seq<Packet>, start: nat, index: nat)
    requires Roomy(c, packets) && Closed(packets, start) && start <= index < start + |packets| - 1
    requires e.deferred == [] && (e.lastPcr.Some? ==> e.lastPcr.value >= start)
    ensures
      var e' := PureSlot(c, Some(STREAM_PID), e, index, PlacedOf(packets, start)).em;
      && e'.deferred == [] && (e'.lastPcr.Some? ==> e'.lastPcr.value >= start)
      && (packets[index - start].pcr.Some? ==> e'.phased)
  {
    hide GridQueue.Lookup, InOrder, FillSlot, Ticks;
    InOrderLookup(packets[..|packets| - 1], start, index - start);
  }

  lemma {:induction false} CalmSlots(c: Config, packets: seq<Packet>, start: nat, from: nat, n: nat)
    requires Roomy(c, packets) && Closed(packets, start) && start <= from && from + n < start + |packets|
    ensures
      var e := PureSlots(c, Some(STREAM_PID), Fresh(), from, n, PlacedOf(packets, start)).em;
      e.deferred == [] && (e.lastPcr.Some? ==> e.lastPcr.value >= start)
  {
    hide PureSlot, PlacedOf, OnTheTick;
    if n == 0 {
    } else {
      CalmSlots(c, packets, start, from, n - 1);
      var e := PureSlots(c, Some(STREAM_PID), Fresh(), from, n - 1, PlacedOf(packets, start)).em;
      CalmSlot(c, e, packets, start, from + n - 1);
    }
  }

  /** Such a leg knows the datagram of slot `slot`, has a PCR in it with nothing waiting
      ahead, and sends the next. */
  lemma LegPhases(c: Config, packets: seq<Packet>, start: nat, slot: nat, n: nat, at: nat, now: nat, due: nat)
    requires Roomy(c, packets) && Closed(packets, start)
    requires StartOf(c, |packets|, start) + n == slot && slot + 2 < start + |packets| && packets[slot - start].pcr.Some?
    ensures
      var m := FedAndAsked(c, packets, n, at, now, due);
      && PhasesOn(m, 0) && Meetings.Opening(m).slot == slot && Meetings.Opening(m).pid == Some(STREAM_PID)
      && |SentBy(Passed(m), m.since)| == 1
  {
    hide RunCalls, PureSlots, PureSlot, InOrder, EmitDatagram, Opens, Sched.CatchUp, Feed, Emits, Ticking, Whole, Leg,
         Ticks;
    hide GridQueue.Lookup;
    var m := FedAndAsked(c, packets, n, at, now, due);
    var s, p := Meetings.Opening(m), Passed(m);
    FedThenAsked(c, packets, start, n, at, now, due);
    CalmSlots(c, packets, start, slot - n, n);
    KnowsOpens(s, packets, start, now, due);
    KnowsEmits(s, packets, start, now, due);
    InOrderLookup(packets[..|packets| - 1], start, slot - start);
    CalmSlot(c, s.em, packets, start, slot);
    NothingPure(c, s.pid, s.em, slot, LogOf(s));
    TicksAreOnTheClock(packets, start);
    KnowsOpens(p, packets, start, now, due);
    KnowsEmits(p, packets, start, now, due);
    OneDatagram(p, now, due);
    RunOne(p, Emit(now, due));
  }

  lemma NothingPure(c: Config, pid: Option<Pid>, e: Emission, index: nat, log: seq<Placement>)
    ensures PureSlots(c, pid, e, index, 0, log).em == e
  {
    hide PureSlot;
  }

  lemma LegAccepts(c: Config, packets: seq<Packet>, start: nat, n: nat, at: nat, now: nat, due: nat)
    requires OnTheTick(packets, start)
    ensures Conservation.PacketsIn(CallsOf(FedAndAsked(c, packets, n, at, now, due))) == packets
  {
    hide Feed, Emits, Conservation.PacketsIn, OnTheTick;
    var fed, emit := Feed(packets, at) + Emits(n, now, due), [Emit(now, due)];
    FedThenAskedAccepts(packets, start, n, at, now, due);
    AcceptedOne(Emit(now, due));
    AcceptedJoin(fed, emit);
    AcceptedJoin(fed + emit, emit);
  }

  /** The running leg starts at the head of the stream and has filled slots 10 to 15 when it
      opens slot 16; the joining leg has only what came from slot 14 on, and starts in
      slot 16, out of phase. They meet on that slot's PCR, and both send the next slot. All
      that `Meetings.LateJoinerSendsTheSame` asks holds of them, and so what it says. */
  lemma JoinerMeetsRunner(running: Config, joining: Config, at: nat, now: nat, due: nat)
    requires Roomy(running, All(RunningStream())) && Roomy(joining, Late(RunningStream()))
    requires Line(running) == Line(joining) && running.latency >= 7 && joining.latency == 1
    ensures
      var t := RunningStream();
      var a := FedAndAsked(running, All(t), 6, at, now, due);
      var b := FedAndAsked(joining, Late(t), 0, at, now, due);
      && MeetAt(a, b, 0) && JoinsLate(a, b, t)
      && Joinable(running, t) && CoalescedBefore(running, t, 0, Meetings.Opening(a).slot)
      && |SentBy(Passed(a), a.since)| == |SentBy(Passed(b), b.since)| == 1
      && SentBy(Passed(a), a.since)[0] == SentBy(Passed(b), b.since)[0]
  {
    hide Joinable, CoalescedBefore, PhasesOn, SentBy, RunCalls, EmitDatagram, OnTheTick, Conservation.PacketsIn;
    var t := RunningStream();
    var a := FedAndAsked(running, All(t), 6, at, now, due);
    var b := FedAndAsked(joining, Late(t), 0, at, now, due);
    StreamTicks();
    LegPhases(running, All(t), 10, 16, 6, at, now, due);
    LegPhases(joining, Late(t), 14, 16, 0, at, now, due);
    LegAccepts(running, All(t), 10, 6, at, now, due);
    LegAccepts(joining, Late(t), 14, 0, at, now, due);
    StreamIsJoinable(running);
    FirstIsPlacedAlike(running);
    LateJoinerSendsTheSame(a, b, t, 0, 0, 0);
  }
}
