/** What placement may not depend on (src/scheduler.rs, `StreamGrid`): the path. */
module Paths {
  import opened Prelude
  import opened Packets
  import opened SlotMaps
  import opened GridSpec

  /** A step whose reading no arrival time can change: a clock that has not moved at
      all, or an undeclared step no longer than the gap. */
  predicate Quiet(previous: nat, pcr: nat, declared: bool) {
    var delta := ForwardDelta(previous, pcr);
    delta == 0 || (!declared && TicksToNanos(delta) <= DISCONTINUITY_GAP)
  }

  /** Every arrival gives a PCR the same slot and leaves the same clock exactly when its
      step is quiet: for any other step the leg's own silence decides. */
  lemma ArrivalIsIrrelevantExactlyWhenQuiet(m: SlotMap, c: Clock, runLength: nat, pcr: nat, declared: bool)
    requires c.open.Some?
    ensures (forall a: Arrival, b: Arrival ::
               SlotFor(m, c, runLength, pcr, declared, a) == SlotFor(m, c, runLength, pcr, declared, b))
      <==> Quiet(c.open.value.pcr, pcr, declared)
  {
    var delta := ForwardDelta(c.open.value.pcr, pcr);
    if !Quiet(c.open.value.pcr, pcr, declared) {
      var missed, present := Arrival(TicksToNanos(delta), None), Arrival(0, None);
      assert !Judge(m, c, pcr, declared, missed).Rebase?;
      assert Judge(m, c, pcr, declared, present).Rebase?;
      assert SlotFor(m, c, runLength, pcr, declared, missed).clock.rebases
          != SlotFor(m, c, runLength, pcr, declared, present).clock.rebases;
    }
  }

  /** Every PCR step of the stream is quiet, `previous` being the PCR before it. */
  predicate QuietStream(previous: Option<nat>, packets: seq<Packet>)
    decreases |packets|
  {
    packets == [] ||
    (var p := packets[0];
     && (p.pcr.Some? && previous.Some? ==> Quiet(previous.value, p.pcr.value, p.declared))
     && QuietStream(if p.pcr.Some? then p.pcr else previous, packets[1..]))
  }

  function OpenPcr(c: Core): Option<nat> {
    if c.clock.open.Some? then Some(c.clock.open.value.pcr) else None
  }

  /** The stream fed straight in, with no clock on the wall and no horizon. */
  function Fed(c: Core, packets: seq<Packet>): Core
    decreases |packets|
  {
    if packets == [] then c else Fed(c.Push(packets[0], Arrival(0, None)), packets[1..])
  }

  lemma {:induction false} FedOn(c: Core, x: seq<Packet>, y: seq<Packet>)
    ensures Fed(c, x + y) == Fed(Fed(c, x), y)
    decreases |x|
  {
    hide Core.Push;
    if x == [] {
      assert x + y == y;
    } else {
      assert (x + y)[1..] == x[1..] + y;
      FedOn(c.Push(x[0], Arrival(0, None)), x[1..], y);
    }
  }

  lemma QuietPush(c: Core, p: Packet, at: Arrival)
    requires p.pcr.Some? && c.clock.open.Some? ==> Quiet(c.clock.open.value.pcr, p.pcr.value, p.declared)
    ensures c.Push(p, at) == c.Push(p, Arrival(0, None))
    ensures OpenPcr(c.Push(p, at)) == if p.pcr.Some? then p.pcr else OpenPcr(c)
  {
    hide SlotFor, Core.CloseRun, Core.CutRun, Core.Misses;
    if p.pcr.Some? {
      var noted := c.Noted(p);
      if c.clock.open.Some? {
        ArrivalIsIrrelevantExactlyWhenQuiet(c.rateMap, c.clock, |c.run|, p.pcr.value, p.declared);
        assert SlotFor(c.rateMap, c.clock, |c.run|, p.pcr.value, p.declared, at)
            == SlotFor(c.rateMap, c.clock, |c.run|, p.pcr.value, p.declared, Arrival(0, None));
      } else {
        FirstSlot(c.rateMap, c.clock, |c.run|, p.pcr.value, p.declared, at);
      }
      assert noted.Aims(p, at) == noted.Aims(p, Arrival(0, None));
    }
  }

  lemma FirstSlot(m: SlotMap, c: Clock, runLength: nat, pcr: nat, declared: bool, at: Arrival)
    requires c.open.None?
    ensures SlotFor(m, c, runLength, pcr, declared, at) == SlotFor(m, c, runLength, pcr, declared, Arrival(0, None))
  {
  }

  lemma {:induction false} RunIsFed(g: Grid, events: seq<Event>)
    requires QuietStream(OpenPcr(g.core), PacketsOf(events))
    ensures Run(g, events).core == Fed(g.core, PacketsOf(events))
    decreases |events|
  {
    if events == [] {
    } else {
      hide Core.Push, Quiet;
      var e := events[0];
      match e {
        case Push(p, now, horizon) =>
          assert PacketsOf(events)[0] == p && PacketsOf(events)[1..] == PacketsOf(events[1..]);
          QuietPush(g.core, p, g.ArrivalAt(now, horizon));
        case Take(_) =>
          assert PacketsOf(events) == PacketsOf(events[1..]);
        case GrowTo(_) =>
          assert PacketsOf(events) == PacketsOf(events[1..]);
      }
      RunIsFed(Step(g, e), events[1..]);
    }
  }

  /** Two legs handed the same packets at unrelated instants, with unrelated horizons
      and buffer bounds and their slots taken at unrelated times, hold the same
      placements of the same packets on the same time bases, and the same state to
      place the next packet from. */
  lemma PlacementIsPathIndependent(m: SlotMap, capacityA: nat, capacityB: nat, a: seq<Event>, b: seq<Event>)
    requires PacketsOf(a) == PacketsOf(b)
    requires QuietStream(None, PacketsOf(a))
    ensures Run(NewGrid(m, capacityA), a).core == Run(NewGrid(m, capacityB), b).core
  {
    RunIsFed(NewGrid(m, capacityA), a);
    RunIsFed(NewGrid(m, capacityB), b);
  }

  // ---- One source clock, heard in part ----

  /** The slot of source time `time` for a leg that first heard the clock at `first`:
      that of its 33-bit value, plus a whole wrap of slots a wrap. */
  function SlotAt(m: SlotMap, first: nat, time: nat): int {
    m.SlotOfPcr(time % WRAP) + Lapped(m, time / WRAP - first / WRAP)
  }

  /** The slots `wraps` whole wraps of the clock come to. */
  function Lapped(m: SlotMap, wraps: int): int {
    wraps * m.SlotsPerWrap()
  }

  lemma LapsAdd(m: SlotMap, wraps: nat)
    ensures Lapped(m, wraps) >= 0
    ensures Lapped(m, wraps + 1) == Lapped(m, wraps) + m.SlotsPerWrap()
  {
    var spw := m.SlotsPerWrap();
    assert wraps * spw >= 0;
    assert (wraps + 1) * spw == wraps * spw + spw;
  }

  /** The clock of a leg that has followed the source from `first` to `time`. */
  function ClockAt(m: SlotMap, first: nat, time: nat): Clock
    requires first <= time
  {
    var wraps := time / WRAP - first / WRAP;
    Clock(Some(Opened(time % WRAP, Max(SlotAt(m, first, time), 0))), Lapped(m, wraps), 0, 0, wraps)
  }

  /** A step of the source clock the leg can account for: no longer than the gap, or
      about as long as its own silence, or to a slot ahead that its buffer may hold
      without the 33-bit value wrapping on the way. */
  predicate Accounted(m: SlotMap, first: nat, from: nat, to: nat, at: Arrival)
    requires from < to
  {
    || TicksToNanos(to - from) <= DISCONTINUITY_GAP
    || TicksToNanos(to - from) <= 2 * at.since
    || (&& to / WRAP == from / WRAP
        && SlotAt(m, first, from) < SlotAt(m, first, to)
        && at.horizon.Some? && SlotAt(m, first, to) <= at.horizon.value)
  }

  /** Under half a wrap on, the wrapping difference is the true one, and the 33-bit
      value goes back only by more than half a wrap. */
  lemma WrappedStep(from: nat, to: nat)
    requires from < to && to - from < WRAP / 2
    ensures ForwardDelta(from % WRAP, to % WRAP) == to - from
    ensures to / WRAP == from / WRAP ==> from % WRAP < to % WRAP
    ensures to / WRAP != from / WRAP ==>
      to / WRAP == from / WRAP + 1 && from % WRAP - to % WRAP > WRAP / 2
  {
  }

  lemma SlotFallsBack(m: SlotMap, p: nat, q: nat)
    requires p >= q + SLOT_COST
    ensures m.SlotOfPcr(q) < m.SlotOfPcr(p)
  {
    var s := m.SlotOfPcr(q);
    SlotReached(m, s, q);
    SlotReached(m, s + 1, p);
    MulMonotone(q + SLOT_COST, p, m.rate);
    MulMonotone(1, m.rate, SLOT_COST);
    assert (q + SLOT_COST) * m.rate == q * m.rate + SLOT_COST * m.rate;
    assert (s + 1) * SLOT_COST == s * SLOT_COST + SLOT_COST;
  }

  lemma ClockStep(m: SlotMap, from: nat, to: nat)
    requires from < to && to - from < WRAP / 2
    ensures to / WRAP == from / WRAP ==> m.SlotOfPcr(from % WRAP) <= m.SlotOfPcr(to % WRAP)
    ensures to / WRAP != from / WRAP ==> m.SlotOfPcr(to % WRAP) < m.SlotOfPcr(from % WRAP)
  {
    hide SlotMap.SlotOfPcr;
    WrappedStep(from, to);
    if to / WRAP == from / WRAP {
      SlotMonotone(m, from % WRAP, to % WRAP);
    } else {
      SlotFallsBack(m, from % WRAP, to % WRAP);
    }
  }

  /** On one clock, with no declared step and none of half a wrap, a leg keeps the
      source's numbering across a step exactly when it can account for it, and re-bases
      otherwise. */
  lemma FollowsExactlyWhenAccounted(m: SlotMap, first: nat, from: nat, to: nat, runLength: nat, at: Arrival)
    requires first <= from < to && to - from < WRAP / 2
    ensures
      var aim := SlotFor(m, ClockAt(m, first, from), runLength, to % WRAP, false, at);
      && (Accounted(m, first, from, to, at) <==>
            aim.clock.(open := None) == ClockAt(m, first, to).(open := None) && aim.slot == SlotAt(m, first, to))
      && (!Accounted(m, first, from, to, at) ==> aim.clock.rebases == 1)
  {
    hide SlotMap.SlotOfPcr, SlotMap.SlotsPerWrap, ForwardDelta, TicksToNanos, Lapped;
    WrappedStep(from, to);
    ClockStep(m, from, to);
    LapsAdd(m, from / WRAP - first / WRAP);
  }

  /** A declared step is taken as the source's own only where the leg's own silence accounts
      for it, to within a quarter; what its buffer may hold does not. */
  lemma FollowsDeclaredExactlyWhenSilent(m: SlotMap, first: nat, from: nat, to: nat, runLength: nat, at: Arrival)
    requires first <= from < to && to - from < WRAP / 2
    ensures
      var aim := SlotFor(m, ClockAt(m, first, from), runLength, to % WRAP, true, at);
      && (4 * TicksToNanos(to - from) <= 5 * at.since <==>
            aim.clock.(open := None) == ClockAt(m, first, to).(open := None) && aim.slot == SlotAt(m, first, to))
      && (4 * TicksToNanos(to - from) > 5 * at.since ==> aim.clock.rebases == 1)
  {
    hide SlotMap.SlotOfPcr, SlotMap.SlotsPerWrap, ForwardDelta, TicksToNanos, Lapped;
    WrappedStep(from, to);
    ClockStep(m, from, to);
    LapsAdd(m, from / WRAP - first / WRAP);
  }

  /** One packet of the source as one leg received it: `time` is the unwrapped source
      clock, read only where the packet carries a PCR. */
  datatype Heard = Heard(packet: Packet, time: nat, at: Arrival)

  function Hear(c: Core, heard: seq<Heard>): Core
    decreases |heard|
  {
    if heard == [] then c else Hear(c.Push(heard[0].packet, heard[0].at), heard[1..])
  }

  function LastTime(from: nat, heard: seq<Heard>): nat
    decreases |heard|
  {
    if heard == [] then from
    else LastTime(if heard[0].packet.pcr.Some? then heard[0].time else from, heard[1..])
  }

  /** What a leg hears is some part of one increasing source clock, undeclared, in
      steps under half a wrap that it can account for. */
  predicate OfOneClock(m: SlotMap, first: nat, from: nat, heard: seq<Heard>)
    requires first <= from
    decreases |heard|
  {
    heard == [] ||
    (var h := heard[0];
     if h.packet.pcr.None? then OfOneClock(m, first, from, heard[1..])
     else
       && h.packet.pcr.value == h.time % WRAP && !h.packet.declared
       && from < h.time && h.time - from < WRAP / 2
       && Accounted(m, first, from, h.time, h.at)
       && OfOneClock(m, first, h.time, heard[1..]))
  }

  lemma ClockSlotIsNatural(m: SlotMap, first: nat, time: nat)
    requires first <= time
    ensures SlotAt(m, first, time) >= 0
  {
    hide SlotMap.SlotOfPcr, Lapped;
    LapsAdd(m, time / WRAP - first / WRAP);
  }

  lemma {:induction false} HearsOneClock(c: Core, m: SlotMap, first: nat, from: nat, heard: seq<Heard>)
    requires first <= from && c.rateMap == m && c.clock == ClockAt(m, first, from)
    requires OfOneClock(m, first, from, heard)
    ensures first <= LastTime(from, heard)
    ensures Hear(c, heard).clock == ClockAt(m, first, LastTime(from, heard))
    decreases |heard|
  {
    if heard == [] {
    } else {
      hide Core.EndRun, SlotFor, Accounted, SlotAt;
      var h := heard[0];
      if h.packet.pcr.Some? {
        FollowsExactlyWhenAccounted(m, first, from, h.time, |c.run|, h.at);
        ClockSlotIsNatural(m, first, h.time);
        var aim := c.Noted(h.packet).Aims(h.packet, h.at);
        assert aim.clock.(open := None) == ClockAt(m, first, h.time).(open := None);
        HearsOneClock(c.Push(h.packet, h.at), m, first, h.time, heard[1..]);
      } else {
        HearsOneClock(c.Push(h.packet, h.at), m, first, from, heard[1..]);
      }
    }
  }

  /** A leg that has yet to hear a PCR, the one it first hears, and what follows. */
  predicate Joins(m: SlotMap, c: Core, first: Heard, heard: seq<Heard>) {
    && c.rateMap == m && c.clock == NewCore(m).clock
    && first.packet.pcr == Some(first.time % WRAP)
    && OfOneClock(m, first.time, first.time, heard)
  }

  lemma JoinsClock(m: SlotMap, c: Core, first: Heard, heard: seq<Heard>)
    requires Joins(m, c, first, heard)
    ensures first.time <= LastTime(first.time, heard)
    ensures Hear(c, [first] + heard).clock == ClockAt(m, first.time, LastTime(first.time, heard))
  {
    hide SlotMap.SlotOfPcr;
    assert ([first] + heard)[1..] == heard;
    HearsOneClock(c.Push(first.packet, first.at), m, first.time, first.time, heard);
  }

  /** Whatever parts of a source each of two legs missed, and whenever each received the
      rest, at the same point of the source they are on the same slot, with the same
      epoch and no re-base, provided they joined within the same wrap. */
  lemma OneClockOneNumbering(
    m: SlotMap,
    a: Core, firstA: Heard, heardA: seq<Heard>,
    b: Core, firstB: Heard, heardB: seq<Heard>)
    requires Joins(m, a, firstA, heardA) && Joins(m, b, firstB, heardB)
    requires firstA.time / WRAP == firstB.time / WRAP
    requires LastTime(firstA.time, heardA) == LastTime(firstB.time, heardB)
    ensures Hear(a, [firstA] + heardA).clock == Hear(b, [firstB] + heardB).clock
    ensures
      var c := Hear(a, [firstA] + heardA).clock;
      && c.rebases == 0 && c.open.Some?
      && c.open.value.slot == SlotAt(m, firstA.time, LastTime(firstA.time, heardA))
  {
    hide SlotMap.SlotOfPcr, Hear, Joins, Core.Push;
    JoinsClock(m, a, firstA, heardA);
    JoinsClock(m, b, firstB, heardB);
    ClockSlotIsNatural(m, firstA.time, LastTime(firstA.time, heardA));
  }
}
