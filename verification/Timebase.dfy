/** The clock a stream-clocked leg emits against the clock its source sent
    (src/scheduler.rs, `slot_for`, `pcr_on`): re-bases move the grid, wraps lengthen it,
    and taking the re-bases off again gives the source's own time back. */
module Timebase {
  import opened Prelude
  import opened Packets
  import opened SlotMaps
  import opened GridSpec
  import opened Displacement

  /** The clock of a leg fed values below the wrap. */
  ghost predicate Based(m: SlotMap, c: Clock) {
    && c.epoch == c.rebased + c.wraps * m.SlotsPerWrap()
    && (c.open.None? ==> c.epoch == c.rebased == c.wraps == 0)
    && (c.open.Some? ==>
          c.open.value.pcr < WRAP && c.open.value.slot == m.SlotOfPcr(c.open.value.pcr) + c.epoch)
  }

  lemma WrapSplit(spw: nat, wraps: nat)
    ensures (wraps + 1) * spw == wraps * spw + spw
  {
  }

  /** For values below the wrap the grid never goes back: whatever the verdict, the next
      PCR's slot is at or past the open one, it is where the source's own clock puts it
      once re-bases and wraps are counted, and nothing is clipped at zero. */
  lemma SlotNeverGoesBack(m: SlotMap, c: Clock, runLength: nat, pcr: nat, declared: bool, at: Arrival)
    requires Based(m, c) && pcr < WRAP
    ensures
      var aim := SlotFor(m, c, runLength, pcr, declared, at);
      && aim.slot == m.SlotOfPcr(pcr) + aim.clock.epoch
      && aim.clock.epoch == aim.clock.rebased + aim.clock.wraps * m.SlotsPerWrap()
      && (c.open.Some? ==> aim.slot >= c.open.value.slot)
  {
    WrapSplit(m.SlotsPerWrap(), c.wraps);
    if c.open.Some? {
      SlotMonotone(m, c.open.value.pcr, WRAP);
    }
    hide SlotMap.SlotOfPcr, ForwardDelta, Jumped, ExplainedBySilence, WithinHorizon;
  }

  /** For any values at all, the open one past the wrap included, the next PCR's slot lies
      behind the open one exactly when the step is read as a wrap and the open value had
      reached more slots than the new one and a whole wrap of them. */
  lemma GoesBackExactlyPastTheWrap(m: SlotMap, c: Clock, runLength: nat, pcr: nat, declared: bool, at: Arrival)
    requires c.open.Some? && c.open.value.slot == m.SlotOfPcr(c.open.value.pcr) + c.epoch
    ensures
      var aim := SlotFor(m, c, runLength, pcr, declared, at);
      (aim.slot < c.open.value.slot) <==>
        (&& c.open.value.slot > 0 && Judge(m, c, pcr, declared, at).Wrap?
         && m.SlotOfPcr(pcr) + m.SlotsPerWrap() < m.SlotOfPcr(c.open.value.pcr))
  {
    hide SlotMap.SlotOfPcr, SlotMap.SlotsPerWrap, ForwardDelta, Jumped, ExplainedBySilence, WithinHorizon;
  }

  /** A field with its base at the top and an extension of 511 reads as `WRAP + 211`. */
  const PAST_WRAP: nat := WRAP + 211

  /** A line rate at which that value has reached one more slot than the wrap has. */
  function SteppingRate(): SlotMap {
    SlotMap(10_000_007)
  }

  lemma SteppingSlots()
    ensures SteppingRate().SlotOfPcr(PAST_WRAP) == SteppingRate().SlotsPerWrap() + 1
    ensures SteppingRate().SlotOfPcr(1000) == 0
  {
  }

  /** At that rate such a value, followed at once by a small one, takes the grid a slot back. */
  lemma CanGoBackPastTheWrap(at: Arrival)
    ensures
      var m := SteppingRate();
      var open := m.SlotOfPcr(PAST_WRAP);
      SlotFor(m, Clock(Some(Opened(PAST_WRAP, open)), 0, 0, 0, 0), 1, 1000, false, at).slot == open - 1
  {
    hide SlotMap.SlotOfPcr, SlotMap.SlotsPerWrap;
    SteppingSlots();
    var m := SteppingRate();
    var c := Clock(Some(Opened(PAST_WRAP, m.SlotOfPcr(PAST_WRAP))), 0, 0, 0, 0);
    assert Judge(m, c, 1000, false, at) == Wrap;
  }

  /** A PCR-bearing placement is where its source clock asks: its ideal slot, less the
      re-bases in force, is the slot of its own value with its wraps counted. */
  ghost predicate FromSource(m: SlotMap, e: Placement) {
    e.packet.pcr.Some? ==>
      e.packet.pcr.value < WRAP
      && e.ideal - e.base == m.SlotOfPcr(e.packet.pcr.value) + e.wraps * m.SlotsPerWrap()
  }

  ghost predicate AllFromSource(m: SlotMap, placed: seq<Placement>) {
    forall k | 0 <= k < |placed| :: FromSource(m, placed[k])
  }

  lemma AllFromSourceJoin(m: SlotMap, x: seq<Placement>, y: seq<Placement>)
    requires AllFromSource(m, x) && AllFromSource(m, y)
    ensures AllFromSource(m, x + y)
  {
    hide FromSource;
  }

  ghost predicate Sourced(c: Core) {
    && Based(c.rateMap, c.clock)
    && (c.clock.open.Some? ==> c.openBase == c.clock.rebased && c.openWraps == c.clock.wraps)
    && (c.clock.open.Some? ==> c.run != [] && c.run[0].pcr == Some(c.clock.open.value.pcr))
    && (c.clock.open.Some? ==> forall k | 0 < k < |c.run| :: c.run[k].pcr == None)
    && AllFromSource(c.rateMap, c.log)
  }

  lemma SpreadSourced(c: Core, span: nat)
    requires Sourced(c) && c.clock.open.Some?
    ensures
      AllFromSource(c.rateMap, Spread(c.run, 0, c.clock.open.value.slot, span, c.nextFree, c.openBase, c.openWraps))
  {
    var open := c.clock.open.value.slot;
    var placed := Spread(c.run, 0, open, span, c.nextFree, c.openBase, c.openWraps);
    SpreadShape(c.run, 0, open, span, c.nextFree, c.openBase, c.openWraps);
    assert Ideal(open, span, |c.run|, 0) == open;
    assert placed[0].ideal == open;
    hide SlotMap.SlotOfPcr, Spread, Ideal, Increasing;
    forall k | 0 <= k < |placed|
      ensures FromSource(c.rateMap, placed[k])
    {
      assert PlacedFrom(placed[k], c.run[0 + k], c.openBase, c.openWraps, open);
    }
  }

  lemma EndRunSourced(c: Core, aim: Aim)
    requires Sourced(c)
    ensures
      var c' := c.EndRun(aim);
      && c'.rateMap == c.rateMap
      && AllFromSource(c.rateMap, c'.log)
  {
    if c.clock.open.Some? && !(aim.afterSilence || c.Misses(aim)) {
      var open := c.clock.open.value.slot;
      var span := SatSub(aim.slot, open);
      SpreadSourced(c, span);
      AllFromSourceJoin(c.rateMap, c.log, Spread(c.run, 0, open, span, c.nextFree, c.openBase, c.openWraps));
      hide AllFromSource, Spread;
    }
  }

  lemma PushSourced(c: Core, p: Packet, at: Arrival)
    requires Sourced(c) && (p.pcr.Some? ==> p.pcr.value < WRAP)
    ensures Sourced(c.Push(p, at))
  {
    var noted := c.Noted(p);
    assert Sourced(noted);
    if p.pcr.Some? {
      var aim := noted.Aims(p, at);
      SlotNeverGoesBack(c.rateMap, c.clock, |c.run|, p.pcr.value, p.declared, at);
      EndRunSourced(noted, aim);
      hide Core.EndRun, SlotFor, AllFromSource, SlotMap.SlotOfPcr;
    }
  }

  predicate InRange(events: seq<Event>) {
    forall e <- events :: e.Push? && e.packet.pcr.Some? ==> e.packet.pcr.value < WRAP
  }

  lemma {:induction false} RunSourced(g: Grid, events: seq<Event>)
    requires Sourced(g.core) && InRange(events)
    ensures Sourced(Run(g, events).core)
    decreases |events|
  {
    if events == [] {
    } else {
      var e := events[0];
      assert e in events;
      match e {
        case Push(p, now, horizon) => PushSourced(g.core, p, g.ArrivalAt(now, horizon));
        case Take(_) =>
        case GrowTo(_) =>
      }
      RunSourced(Step(g, e), events[1..]);
    }
  }

  /** The clock value of `e`'s packet put out in slot `index`: how far it lies behind
      the source, and how far the output position has carried it on. */
  function Lag(m: SlotMap, e: Placement): int
    requires e.packet.pcr.Some? && e.ideal >= e.base
  {
    e.packet.pcr.value + e.wraps * WRAP - m.TicksOfSlot(e.ideal - e.base)
  }

  function Carried(m: SlotMap, e: Placement, index: nat): int
    requires e.base <= e.ideal <= index
  {
    m.TicksOfSlot(index - e.base) - m.TicksOfSlot(e.ideal - e.base)
  }

  /** Over any run of in-range clock values, through any splices, losses and wraps: a
      PCR-bearing packet put out in slot `index` carries its own source value, less a lag
      under (w + 1) slots' ticks plus one after w wraps, plus exactly the byte clock from
      the slot it asked for to the slot it got, all modulo the wrap. In its own slot the
      lag is the whole difference. */
  lemma EmittedClockFollowsSource(mux: SlotMap, capacity: nat, events: seq<Event>, k: nat, index: nat)
    requires InRange(events)
    requires k < |Run(NewGrid(mux, capacity), events).core.log|
    requires
      var e := Run(NewGrid(mux, capacity), events).core.log[k];
      e.packet.pcr.Some? && e.ideal <= index
    ensures
      var g := Run(NewGrid(mux, capacity), events);
      var e := g.core.log[k];
      && g.core.rateMap == mux && e.ideal >= e.base
      && 0 <= Lag(mux, e)
      && Lag(mux, e) * mux.rate < (e.wraps + 1) * SLOT_COST + mux.rate
      && (g.PcrOn(index, e.base) + Lag(mux, e)) % WRAP == (e.packet.pcr.value + Carried(mux, e, index)) % WRAP
      && (index == e.ideal && Lag(mux, e) < WRAP ==>
            ForwardDelta(g.PcrOn(index, e.base), e.packet.pcr.value) == Lag(mux, e))
  {
    var g := Run(NewGrid(mux, capacity), events);
    assert Sourced(NewGrid(mux, capacity).core);
    RunSourced(NewGrid(mux, capacity), events);
    RunKeepsMap(NewGrid(mux, capacity), events);
    var e := g.core.log[k];
    assert FromSource(mux, e);
    EmittedClock(mux, e, index);
    hide Run, SlotMap.SlotOfPcr, Based, Sourced;
  }

  lemma {:induction false} RunKeepsMap(g: Grid, events: seq<Event>)
    ensures Run(g, events).core.rateMap == g.core.rateMap
    decreases |events|
  {
    if events == [] {
    } else {
      match events[0] {
        case Push(p, now, horizon) =>
        case Take(_) =>
        case GrowTo(_) =>
      }
      RunKeepsMap(Step(g, events[0]), events[1..]);
    }
  }

  lemma EmittedClock(m: SlotMap, e: Placement, index: nat)
    requires FromSource(m, e) && e.packet.pcr.Some? && e.ideal <= index
    ensures e.ideal >= e.base
    ensures 0 <= Lag(m, e) && Lag(m, e) * m.rate < (e.wraps + 1) * SLOT_COST + m.rate
    ensures (m.PcrOfSlot(Max(index - e.base, 0)) + Lag(m, e)) % WRAP
         == (e.packet.pcr.value + Carried(m, e, index)) % WRAP
    ensures index == e.ideal && Lag(m, e) < WRAP ==>
      ForwardDelta(m.PcrOfSlot(Max(index - e.base, 0)), e.packet.pcr.value) == Lag(m, e)
  {
    var p, spw := e.packet.pcr.value, m.SlotsPerWrap();
    assert e.wraps * spw >= 0;
    QuantisationLag(m, p, e.wraps);
    hide SlotMap.SlotOfPcr, SlotMap.TicksOfSlot;
    var ticks := m.TicksOfSlot(index - e.base);
    var lag, carried := Lag(m, e), Carried(m, e, index);
    assert ticks + lag == p + carried + e.wraps * WRAP;
    ModuloWraps(ticks, lag, p + carried, e.wraps);
    if index == e.ideal && lag < WRAP {
      BackByLag(ticks % WRAP, lag, p);
    }
  }

  lemma ModuloWraps(ticks: nat, lag: nat, value: int, wraps: nat)
    requires ticks + lag == value + wraps * WRAP
    ensures (ticks % WRAP + lag) % WRAP == value % WRAP
  {
    var q := ticks / WRAP;
    assert ticks % WRAP + lag == value + (wraps - q) * WRAP;
    ModuloMultiple(value, wraps - q);
  }

  lemma ModuloMultiple(value: int, k: int)
    ensures (value + k * WRAP) % WRAP == value % WRAP
  {
  }

  lemma BackByLag(emitted: nat, lag: nat, pcr: nat)
    requires emitted < WRAP && lag < WRAP && pcr < WRAP
    requires (emitted + lag) % WRAP == pcr
    ensures ForwardDelta(emitted, pcr) == lag
  {
  }
}
