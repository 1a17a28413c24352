/** Two schedulers in phase on one stream that send different bytes (src/scheduler.rs,
    `emit_datagram`): coming into phase does not by itself put a leg in its partner's
    state. When it does is `TwoLegs.PartnersMeetExactlyWhenNothingWaits`. */
module Apart {
  import opened Prelude
  import opened Packets
  import opened GridSpec
  import opened SchedulerSpec
  import opened TwoLegs
  import opened Pair
  import opened TickStreams
  import opened TickLegs
  import Conservation
  import GridQueue
  import Paths
  import PcrField

  /** A stream with no spare slot: as many packets between PCRs as slots. */
  function CrowdedStream(): seq<Packet> {
    [WithClock(10), Plain(11), Plain(12), Plain(13), WithClock(14), Plain(15), WithClock(16)]
  }

  function CrowdedLog(): seq<Placement> {
    PlacedOf(CrowdedStream(), 10)
  }

  lemma CrowdedIsClosed()
    ensures |CrowdedStream()| == 7 && Closed(CrowdedStream(), 10)
  {
    hide Ticks, WithClock, Plain;
    TickFields(10);
    TickFields(11);
    TickFields(12);
    TickFields(13);
    TickFields(14);
    TickFields(15);
    TickFields(16);
  }

  lemma CrowdedIsQuiet()
    ensures Paths.QuietStream(None, CrowdedStream())
  {
    hide Paths.QuietStream, Ticks, CrowdedStream;
    CrowdedIsClosed();
    TicksAreQuiet(None, CrowdedStream(), 10);
  }

  lemma CrowdedParses()
    ensures forall p <- CrowdedStream() :: PcrField.Parsed(p)
  {
    hide PcrField.Parsed, Plain, Clocked;
    ClockedParses(10, 10);
    ClockedParses(14, 14);
    ClockedParses(16, 16);
    PlainParses(11);
    PlainParses(12);
    PlainParses(13);
    PlainParses(15);
  }

  // ---- What the two legs send ----

  lemma CrowdedSlots()
    ensures GridQueue.Lookup(CrowdedLog(), 10) == Some(Queued(WithClock(10), Base(0, false)))
    ensures GridQueue.Lookup(CrowdedLog(), 11) == Some(Queued(Plain(11), Base(0, false)))
    ensures GridQueue.Lookup(CrowdedLog(), 12) == Some(Queued(Plain(12), Base(0, false)))
    ensures GridQueue.Lookup(CrowdedLog(), 13) == Some(Queued(Plain(13), Base(0, false)))
    ensures GridQueue.Lookup(CrowdedLog(), 14) == Some(Queued(WithClock(14), Base(0, false)))
    ensures GridQueue.Lookup(CrowdedLog(), 15) == Some(Queued(Plain(15), Base(0, false)))
  {
    hide GridQueue.Lookup, InOrder, Plain, WithClock;
    var run := CrowdedStream()[..6];
    InOrderLookup(run, 10, 0);
    InOrderLookup(run, 10, 1);
    InOrderLookup(run, 10, 2);
    InOrderLookup(run, 10, 3);
    InOrderLookup(run, 10, 4);
    InOrderLookup(run, 10, 5);
  }

  /** The early leg, slot by slot: re-insertion every second slot puts it a packet behind. */
  lemma EarlyLeg(c: Config)
    requires c.streamed && c.regenerate && c.pcrMax == 2
    ensures
      var four := PureSlots(c, Some(STREAM_PID), Fresh(), 10, 4, CrowdedLog()).em;
      four.phased && four.deferred == [Queued(Plain(13), Base(0, false))]
    ensures
      var early := PureSlots(c, Some(STREAM_PID), Fresh(), 10, 5, CrowdedLog()).em;
      && early.phased && early.lastPcr == Some(14)
      && early.deferred == [Queued(Plain(13), Base(0, false)), Queued(WithClock(14), Base(0, false))]
  {
    hide GridQueue.Lookup, CrowdedLog, GridClock;
    CrowdedSlots();
    var log, pid := CrowdedLog(), Some(STREAM_PID);
    var ten := PureSlot(c, pid, Fresh(), 10, log).em;
    assert ten == Emission([], Some(10), 10, 0, true);
    var eleven := PureSlot(c, pid, ten, 11, log).em;
    assert eleven == Emission([], Some(10), 11, 0, true);
    var twelve := PureSlot(c, pid, eleven, 12, log).em;
    assert twelve == Emission([Queued(Plain(12), Base(0, false))], Some(12), 11, 0, true);
    var thirteen := PureSlot(c, pid, twelve, 13, log).em;
    assert thirteen == Emission([Queued(Plain(13), Base(0, false))], Some(12), 12, 0, true);
    var fourteen := PureSlot(c, pid, thirteen, 14, log).em;
    FiveSlots(c, pid, Fresh(), 10, log);
  }

  lemma FiveSlots(c: Config, pid: Option<Pid>, e: Emission, index: nat, log: seq<Placement>)
    ensures
      var one := PureSlot(c, pid, e, index, log).em;
      var two := PureSlot(c, pid, one, index + 1, log).em;
      var three := PureSlot(c, pid, two, index + 2, log).em;
      var four := PureSlot(c, pid, three, index + 3, log).em;
      && PureSlots(c, pid, e, index, 4, log).em == four
      && PureSlots(c, pid, e, index, 5, log).em == PureSlot(c, pid, four, index + 4, log).em
  {
    hide PureSlot;
    assert PureSlots(c, pid, e, index, 1, log).em == PureSlot(c, pid, e, index, log).em;
    assert PureSlots(c, pid, e, index, 3, log).em
        == PureSlot(c, pid, PureSlots(c, pid, e, index, 2, log).em, index + 2, log).em;
  }

  /** The late leg comes into phase on the second PCR. */
  lemma LateLeg(c: Config)
    requires c.streamed && c.regenerate && c.pcrMax == 2
    ensures
      var late := PureSlots(c, Some(STREAM_PID), Fresh(), 14, 1, CrowdedLog()).em;
      late == PhaseState(14, Queued(WithClock(14), Base(0, false)))
  {
    hide GridQueue.Lookup, CrowdedLog, GridClock;
    CrowdedSlots();
    PureOne(c, Some(STREAM_PID), Fresh(), 14, CrowdedLog());
  }

  lemma LegsSend(c: Config)
    requires c.streamed && c.regenerate && c.pcrMax == 2
    ensures
      var early := PureSlots(c, Some(STREAM_PID), Fresh(), 10, 5, CrowdedLog()).em;
      PureSlot(c, Some(STREAM_PID), early, 15, CrowdedLog()).cell == Content(Plain(13), None, false)
    ensures
      var late := PureSlots(c, Some(STREAM_PID), Fresh(), 14, 1, CrowdedLog()).em;
      PureSlot(c, Some(STREAM_PID), late, 15, CrowdedLog()).cell == Content(Plain(15), None, false)
  {
    hide GridQueue.Lookup, CrowdedLog, GridClock, PureSlots;
    CrowdedSlots();
    EarlyLeg(c);
    LateLeg(c);
  }

  // ---- Two schedulers, from new ----

  /** A configuration for the stream: a re-insertion every second slot, and room. */
  predicate Crowdable(c: Config) {
    Suits(c) && c.pcrMax == 2 && c.maxLatency >= 6
  }

  /** What was called until slot 15, for a leg that has filled `n` slots by then, and then
      once more. */
  function HistoryOf(c: Config, n: nat, at: nat, now: nat, due: nat): History {
    History(c, Feed(CrowdedStream(), at) + Emits(n, now, due), [Emit(now, due)])
  }

  /** A leg in phase at slot 15 is in service there, and sends what its emission state and
      the stream put in that slot. */
  lemma SendsFifteen(c: Config, n: nat, at: nat, now: nat, due: nat)
    requires Crowdable(c) && Max(SatSub(15, c.latency), 10) + n == 15
    requires PureSlots(c, Some(STREAM_PID), Fresh(), 15 - n, n, CrowdedLog()).em.phased
    ensures
      var h := HistoryOf(c, n, at, now, due);
      var em := PureSlots(c, Some(STREAM_PID), Fresh(), 15 - n, n, CrowdedLog()).em;
      && InService(h) && AtBoundary(h).slot == 15 && AtBoundary(h).pid == Some(STREAM_PID)
      && Conservation.PacketsIn(h.before + h.since) == CrowdedStream()
      && SentBy(AtBoundary(h), h.since)
           == [Datagram(Frame(c, 15), [PureSlot(c, Some(STREAM_PID), em, 15, CrowdedLog()).cell])]
  {
    hide RunCalls, PureSlots, PureSlot, CrowdedStream, InOrder, EmitDatagram, Opens, Sched.CatchUp,
         Conservation.PacketsIn;
    hide Feed, Emits, Ticking, Whole, Leg, OnTheTick;
    var h := HistoryOf(c, n, at, now, due);
    var s := AtBoundary(h);
    CrowdedIsClosed();
    FedThenAsked(c, CrowdedStream(), 10, n, at, now, due);
    KnowsOpens(s, CrowdedStream(), 10, now, due);
    KnowsEmits(s, CrowdedStream(), 10, now, due);
    RunOne(s, Emit(now, due));
    OneDatagram(s, now, due);
    FedThenAskedAccepts(CrowdedStream(), 10, n, at, now, due);
    AcceptedJoin(h.before, h.since);
    AcceptedOne(Emit(now, due));
  }

  /** Two schedulers from new, on one line, are given the same parsed packets of one quiet
      stream at the same instants, whatever those are, and differ in their release latency
      alone: the early leg starts in slot 10, the late one in slot 14. Each comes into
      phase on a PCR that goes out in its own slot with nothing queued ahead of it, and
      both are in service, losing nothing, when slot 15 comes. There both send; and the
      late leg sends the packet that belongs in it, the early one a packet it still owes. */
  lemma LegsInPhaseCanDisagree(early: Config, late: Config, at: nat, now: nat, due: nat)
    requires Crowdable(early) && Crowdable(late) && Line(early) == Line(late) && early.latency >= 5 && late.latency == 1
    ensures
      var a, b := HistoryOf(early, 5, at, now, due), HistoryOf(late, 1, at, now, due);
      && InService(a) && InService(b)
      && Conservation.PacketsIn(a.before + a.since) == Conservation.PacketsIn(b.before + b.since) == CrowdedStream()
      && Paths.QuietStream(None, CrowdedStream()) && (forall p <- CrowdedStream() :: PcrField.Parsed(p))
      && AtBoundary(a).slot == AtBoundary(b).slot == 15 && AtBoundary(a).pid == AtBoundary(b).pid
      && SentBy(AtBoundary(a), a.since) == [Datagram(Frame(early, 15), [Content(Plain(13), None, false)])]
      && SentBy(AtBoundary(b), b.since) == [Datagram(Frame(early, 15), [Content(Plain(15), None, false)])]
      && Plain(13) != Plain(15)
  {
    hide PureSlots, PureSlot, CrowdedStream, InOrder, InService, AtBoundary, SentBy, Conservation.PacketsIn,
         Paths.QuietStream;
    EarlyLeg(early);
    LateLeg(late);
    LegsSend(early);
    LegsSend(late);
    SendsFifteen(early, 5, at, now, due);
    SendsFifteen(late, 1, at, now, due);
    CrowdedIsQuiet();
    CrowdedParses();
  }
}
