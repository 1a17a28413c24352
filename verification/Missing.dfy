/** A leg that misses a slot of a stream and can tell: the terms of
    `Gaps.BetrayedStretchIsWithheld` met, from two grids new (src/scheduler.rs, `push`). */
module Missing {
  import opened Prelude
  import opened Packets
  import opened SlotMaps
  import opened GridSpec
  import opened TickStreams
  import opened Gaps
  import Continuity
  import Displacement
  import GridQueue
  import Paths
  import Spreading

  /** The PCR of a slot, heard at once. */
  function Tick(slot: nat): Paths.Heard {
    Paths.Heard(WithClock(slot), slot, Arrival(0, None))
  }

  function Begun(): seq<Paths.Heard> {
    [Tick(10), Tick(11)]
  }

  function Lost(): seq<Paths.Heard> {
    [Tick(12)]
  }

  function Resumed(): seq<Paths.Heard> {
    [Tick(13)]
  }

  function Rest(): seq<Packet> {
    [WithClock(14), WithClock(15)]
  }

  /** A grid on which a PCR alone is open, of slot `slot`, and each placed is in its own. */
  ghost predicate Lone(c: Core, slot: nat, known: nat, spans: seq<nat>, slots: seq<nat>) {
    && c.rateMap == TickRate() && c.clock == Clock(Some(Opened(slot, slot)), 0, 0, 0, 0)
    && c.openBase == 0 && c.openWraps == 0 && c.nextFree <= slot && c.run == [WithClock(slot)]
    && c.knownFrom == Some(known) && c.recentSpans == spans
    && !c.runBroken && c.continuity[STREAM_PID] == Continuity.Seen(slot % 16, false)
    && |c.log| == |slots| && forall k | 0 <= k < |slots| :: c.log[k] == At(slots[k], WithClock(slots[k]))
  }

  lemma FirstIsLone(slot: nat)
    ensures Lone(NewCore(TickRate()).Push(WithClock(slot), Arrival(0, None)), slot, slot, [], [])
  {
    hide SlotMap.SlotOfPcr, ClockOctets;
    TickSlot(slot);
  }

  /** The next PCR has the lone one placed. */
  lemma NextIsLone(c: Core, slot: nat, known: nat, spans: seq<nat>, slots: seq<nat>)
    requires Lone(c, slot, known, spans, slots) && |spans| < 8
    ensures
      var c' := c.Push(WithClock(slot + 1), Arrival(0, None));
      Lone(c', slot + 1, known, spans + [1], slots + [slot]) && c'.cut == c.cut
  {
    hide SlotMap.SlotOfPcr, MissedPcrs, Core.Noted, ClockOctets, Spread;
    var p := WithClock(slot + 1);
    NextCounter(c, p, slot + 1);
    TickSlot(slot + 1);
    OneSpreads(c.run, slot, c.nextFree);
  }

  lemma OneSpreads(run: seq<Packet>, slot: nat, free: nat)
    requires |run| == 1 && free <= slot
    ensures Spread(run, 0, slot, 1, free, 0, 0) == [At(slot, run[0])]
  {
  }

  /** The one after that finds a counter broken and twice the interval, and has it cut. */
  lemma SkipIsCut(c: Core, slot: nat, known: nat, slots: seq<nat>)
    requires Lone(c, slot, known, [1], slots)
    ensures
      var c' := c.Push(WithClock(slot + 2), Arrival(0, None));
      Lone(c', slot + 2, slot + 2, [1], slots) && c'.cut == c.cut + 1
  {
    hide SlotMap.SlotOfPcr, ClockOctets, Spread;
    TickSlot(slot + 2);
    CounterSkips(c, slot);
    assert MissedPcrs([1], 2) by {
      LongestOfOne();
    }
  }

  lemma LongestOfOne()
    ensures Longest([1]) == 1
  {
    assert [1][1..] == [];
  }

  lemma CounterSkips(c: Core, slot: nat)
    requires c.continuity[STREAM_PID] == Continuity.Seen(slot % 16, false)
    ensures
      var n := c.Noted(WithClock(slot + 2));
      && n.runBroken && n.continuity[STREAM_PID] == Continuity.Seen((slot + 2) % 16, false)
      && n == c.(continuity := n.continuity, runBroken := true)
  {
    hide ClockOctets;
  }

  lemma HearTicks(c: Core, heard: seq<Paths.Heard>, slot: nat)
    ensures Paths.Hear(c, heard + [Tick(slot)]) == Paths.Hear(c, heard).Push(WithClock(slot), Arrival(0, None))
  {
    hide Core.Push, Paths.Hear, WithClock;
    HearJoins(c, heard, [Tick(slot)]);
    HearOne(Paths.Hear(c, heard), Tick(slot));
  }

  /** Both grids, once they have heard slot 13. */
  lemma HeardWhole()
    ensures
      var c := Upon(TickRate(), Begun() + Lost() + Resumed());
      Lone(c, 13, 10, [1, 1, 1], [10, 11, 12]) && c.cut == 0
  {
    hide Core.Push, Paths.Hear, Lone, WithClock;
    HeardBegun();
    var c := Paths.Hear(NewCore(TickRate()), Begun());
    HearTicks(NewCore(TickRate()), Begun(), 12);
    NextIsLone(c, 11, 10, [1], [10]);
    assert [1] + [1] == [1, 1] && [10] + [11] == [10, 11];
    HearTicks(NewCore(TickRate()), Begun() + Lost(), 13);
    NextIsLone(Paths.Hear(NewCore(TickRate()), Begun() + Lost()), 12, 10, [1, 1], [10, 11]);
    assert [1, 1] + [1] == [1, 1, 1] && [10, 11] + [12] == [10, 11, 12];
  }

  lemma HeardBegun()
    ensures
      var c := Paths.Hear(NewCore(TickRate()), Begun());
      Lone(c, 11, 10, [1], [10]) && c.cut == 0
  {
    hide Core.Push, Paths.Hear, Lone, WithClock;
    var c := NewCore(TickRate());
    FirstIsLone(10);
    FirstCutsNothing(10);
    HearOne(c, Tick(10));
    HearTicks(c, [Tick(10)], 11);
    NextIsLone(Paths.Hear(c, [Tick(10)]), 10, 10, [], []);
    assert [] + [1] == [1] && [] + [10] == [10];
    assert Begun() == [Tick(10)] + [Tick(11)];
  }

  lemma FirstCutsNothing(slot: nat)
    ensures NewCore(TickRate()).Push(WithClock(slot), Arrival(0, None)).cut == 0
  {
    hide SlotMap.SlotOfPcr, ClockOctets;
  }

  lemma HeardPart()
    ensures
      var c := Upon(TickRate(), Begun() + Resumed());
      Lone(c, 13, 13, [1], [10]) && c.cut == 1
  {
    hide Core.Push, Paths.Hear, Lone, WithClock;
    HeardBegun();
    HearTicks(NewCore(TickRate()), Begun(), 13);
    SkipIsCut(Paths.Hear(NewCore(TickRate()), Begun()), 11, 10, [10]);
  }

  /** And the rest of the stream. */
  lemma RestIsPlaced(c: Core, known: nat, spans: seq<nat>, slots: seq<nat>)
    requires Lone(c, 13, known, spans, slots) && |spans| < 7
    ensures
      var c' := Paths.Fed(c, Rest());
      Lone(c', 15, known, spans + [1] + [1], slots + [13] + [14]) && c'.cut == c.cut
  {
    hide Core.Push, Paths.Fed, Lone, WithClock;
    var next := c.Push(WithClock(14), Arrival(0, None));
    NextIsLone(c, 13, known, spans, slots);
    NextIsLone(next, 14, known, spans + [1], slots + [13]);
    FedOnly(c, WithClock(14));
    FedOnly(next, WithClock(15));
    Paths.FedOn(c, [WithClock(14)], [WithClock(15)]);
    assert Rest() == [WithClock(14)] + [WithClock(15)];
  }

  /** A PCR every slot or two is one clock. */
  lemma {:induction false} TicksAreOneClock(from: nat, slots: seq<nat>)
    requires 10 <= from && forall k | 0 <= k < |slots| :: from < slots[k] < 20
    requires forall j, k | 0 <= j < k < |slots| :: slots[j] < slots[k]
    ensures Paths.OfOneClock(TickRate(), 10, from, seq(|slots|, k requires 0 <= k < |slots| => Tick(slots[k])))
    decreases |slots|
  {
    hide ClockOctets, Paths.SlotAt;
    if slots == [] {
    } else {
      var heard := seq(|slots|, k requires 0 <= k < |slots| => Tick(slots[k]));
      TicksAreOneClock(slots[0], slots[1..]);
      assert heard[1..] == seq(|slots[1..]|, k requires 0 <= k < |slots[1..]| => Tick(slots[1..][k]));
    }
  }

  lemma SourceTicks()
    ensures SameTime(TickRate(), Begun() + Lost() + Resumed(), Begun() + Resumed())
    ensures InRange(Silent(Rest())) && Paths.QuietStream(Some(13), Rest())
  {
    hide ClockOctets, SlotMap.SlotOfPcr, Paths.OfOneClock;
    var whole, part := Begun() + Lost() + Resumed(), Begun() + Resumed();
    TicksAreOneClock(10, [11, 12, 13]);
    TicksAreOneClock(10, [11, 13]);
    assert whole[1..] == seq(3, k requires 0 <= k < 3 => Tick([11, 12, 13][k]));
    assert part[1..] == seq(2, k requires 0 <= k < 2 => Tick([11, 13][k]));
    TickFields(14);
    TickFields(15);
    TicksAreQuiet(Some(13), Rest(), 14);
  }

  lemma InItsSlot(c: Core, slots: seq<nat>, known: nat, spans: seq<nat>, i: nat)
    requires Lone(c, 15, known, spans, slots) && i < |slots| && Displacement.Increasing(c.log)
    ensures PacketIn(c.log, slots[i]) == Some(WithClock(slots[i]))
  {
    hide GridQueue.Lookup, ClockOctets;
    GridQueue.LookupAt(c.log, i);
  }

  lemma WholeHolds(c: Core)
    requires Lone(c, 15, 10, [1, 1, 1] + [1] + [1], [10, 11, 12] + [13] + [14]) && Displacement.Increasing(c.log)
    ensures c.Determined(10, 15)
    ensures PacketIn(c.log, 12) == Some(WithClock(12)) && PacketIn(c.log, 13) == Some(WithClock(13))
    ensures PacketIn(c.log, 14) == Some(WithClock(14))
  {
    hide WithClock, PacketIn;
    var slots, spans := [10, 11, 12] + [13] + [14], [1, 1, 1] + [1] + [1];
    InItsSlot(c, slots, 10, spans, 2);
    InItsSlot(c, slots, 10, spans, 3);
    InItsSlot(c, slots, 10, spans, 4);
  }

  lemma PartHolds(c: Core)
    requires Lone(c, 15, 13, [1] + [1] + [1], [10] + [13] + [14]) && Displacement.Increasing(c.log)
    ensures c.Determined(13, 15) && !c.Determined(12, 13)
    ensures PacketIn(c.log, 12) == None && PacketIn(c.log, 13) == Some(WithClock(13))
    ensures PacketIn(c.log, 14) == Some(WithClock(14))
  {
    hide WithClock, GridQueue.Lookup;
    var slots, spans := [10] + [13] + [14], [1] + [1] + [1];
    InItsSlot(c, slots, 13, spans, 1);
    InItsSlot(c, slots, 13, spans, 2);
    GridQueue.LookupNothing(c.log, 12);
  }

  lemma IsBetrayed()
    ensures BetrayedAt(TickRate(), Begun() + Resumed())
  {
    hide Paths.Hear, WithClock, BrokenSince, TooLong, Spreading.RunsClosed, Spans, Newest;
    hide Core.EndRun, SlotFor;
    var m, part := TickRate(), Begun() + Resumed();
    assert part[..2] == Begun();
    HeardBegun();
    HeardPart();
    UponIsPush(m, part);
    CutsExactlyWhenBetrayed(m, Begun(), WithClock(13), Arrival(0, None));
    assert PacketsHeard(Begun()) + [WithClock(13)] == PacketsHeard(part);
  }

  lemma Coalesce()
    ensures CoalesceOn(TickRate(), Begun() + Lost() + Resumed(), Begun() + Resumed(), Rest(), 0)
  {
    hide Core.Push, Paths.Hear, Paths.Fed, WithClock, SameTime, Upon, CoalesceOn;
    var m, whole, part := TickRate(), Begun() + Lost() + Resumed(), Begun() + Resumed();
    SourceTicks();
    HeardWhole();
    HeardPart();
    RestIsPlaced(Upon(m, whole), 10, [1, 1, 1], [10, 11, 12]);
    RestIsPlaced(Upon(m, part), 13, [1], [10]);
    UndisplacedCoalesceAtOnce(m, whole, part, Rest());
  }

  /** Of a stream with a PCR in each of the slots 10 to 15 one leg has heard all, and one all
      but slot 12. All that `Gaps.BetrayedStretchIsWithheld` asks holds of them: the second
      claims no slot before 13, and in 13 and 14 both have the same packet. */
  lemma MissedSlotIsWithheld()
    ensures
      var m, whole, part := TickRate(), Begun() + Lost() + Resumed(), Begun() + Resumed();
      && SameTime(m, whole, part) && BetrayedAt(m, part) && CoalesceOn(m, whole, part, Rest(), 0)
      && Paths.QuietStream(Some(13), Rest()) && InRange(Silent(Rest()))
    ensures
      var m := TickRate();
      var a := Paths.Fed(Upon(m, Begun() + Lost() + Resumed()), Rest());
      var b := Paths.Fed(Upon(m, Begun() + Resumed()), Rest());
      && a.Determined(10, 15) && b.Determined(13, 15) && !b.Determined(12, 13)
      && PacketIn(a.log, 12) == Some(WithClock(12)) && PacketIn(b.log, 12) == None
      && PacketIn(a.log, 13) == PacketIn(b.log, 13) == Some(WithClock(13))
      && PacketIn(a.log, 14) == PacketIn(b.log, 14) == Some(WithClock(14))
  {
    hide Core.Push, Paths.Hear, Paths.Fed, Lone, WithClock, SameTime, BetrayedAt, CoalesceOn, PacketIn, Before;
    hide Paths.QuietStream, Upon, Lost;
    var m, whole, part := TickRate(), Begun() + Lost() + Resumed(), Begun() + Resumed();
    SourceTicks();
    HeardWhole();
    HeardPart();
    RestIsPlaced(Upon(m, whole), 10, [1, 1, 1], [10, 11, 12]);
    RestIsPlaced(Upon(m, part), 13, [1], [10]);
    IsBetrayed();
    Coalesce();
    UponIncreases(m, whole, Rest());
    UponIncreases(m, part, Rest());
    WholeHolds(Paths.Fed(Upon(m, whole), Rest()));
    PartHolds(Paths.Fed(Upon(m, part), Rest()));
  }
}
