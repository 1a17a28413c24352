/** The clock a stream-clocked leg puts on the wire (src/scheduler.rs, `emit_datagram`,
    `reinsert_pcr`, `pcr_for_slot`): that of each slot, on the time base of the stream. */
module StreamClocks {
  import opened Prelude
  import opened Packets
  import opened SlotMaps
  import opened GridSpec
  import opened SchedulerSpec
  import opened TwoLegs
  import Departures
  import Displacement
  import GridQueue
  import Lateness
  import OutputClock
  import Pair
  import Repetition

  /** A clock value on the wire, its slot, and the time base in force there. */
  datatype Stamp = Stamp(slot: nat, base: int, clock: nat)

  function StampOf(cell: Cell, slot: nat, base: int): seq<Stamp> {
    match OutputClock.ClockOf(cell)
    case Some(clock) => [Stamp(slot, base, clock)]
    case None => []
  }

  function SlotsStamps(s: Sched, n: nat, x: Ctx): seq<Stamp> {
    if n == 0 then []
    else
      var before := EmitSlots(s, n - 1, x).s;
      var next := EmitSlot(before, x);
      SlotsStamps(s, n - 1, x) + StampOf(next.cell, before.slot, next.s.em.base)
  }

  function CallStamps(s: Sched, call: Call): seq<Stamp> {
    if !call.Emit? then []
    else
      var caught := s.CatchUp(call.now);
      var x := Opens(caught, call.now, call.due);
      if x.send then SlotsStamps(SchedulerSpec.Opening(caught, x), s.cfg.perDatagram, x) else []
  }

  /** Every clock a run puts on the wire. */
  function RunStamps(s: Sched, calls: seq<Call>): seq<Stamp>
    decreases |calls|
  {
    if calls == [] then [] else CallStamps(s, calls[0]) + RunStamps(Do(s, calls[0]), calls[1..])
  }

  // ---- They are the wire's ----

  function Clocks(cells: seq<Cell>): seq<nat> {
    if cells == [] then []
    else
      var clock := OutputClock.ClockOf(cells[|cells| - 1]);
      Clocks(cells[..|cells| - 1]) + if clock.Some? then [clock.value] else []
  }

  function Values(stamps: seq<Stamp>): (values: seq<nat>)
    ensures |values| == |stamps| && forall i | 0 <= i < |values| :: values[i] == stamps[i].clock
  {
    seq(|stamps|, i requires 0 <= i < |stamps| => stamps[i].clock)
  }

  lemma ValuesJoin(a: seq<Stamp>, b: seq<Stamp>)
    ensures Values(a + b) == Values(a) + Values(b)
  {
  }

  lemma {:induction false} ClocksJoin(a: seq<Cell>, b: seq<Cell>)
    ensures Clocks(a + b) == Clocks(a) + Clocks(b)
    decreases |b|
  {
    if b == [] {
      assert a + b == a;
    } else {
      assert (a + b)[..|a + b| - 1] == a + b[..|b| - 1];
      ClocksJoin(a, b[..|b| - 1]);
    }
  }

  lemma {:induction false} SlotsStampTheirCells(s: Sched, n: nat, x: Ctx)
    ensures Values(SlotsStamps(s, n, x)) == Clocks(EmitSlots(s, n, x).cells)
  {
    hide EmitSlot, OutputClock.ClockOf;
    if n == 0 {
    } else {
      SlotsStampTheirCells(s, n - 1, x);
      var before := EmitSlots(s, n - 1, x);
      var next := EmitSlot(before.s, x);
      ValuesJoin(SlotsStamps(s, n - 1, x), StampOf(next.cell, before.s.slot, next.s.em.base));
      assert (before.cells + [next.cell])[..n - 1] == before.cells;
    }
  }

  lemma CallStampsItsCells(s: Sched, now: nat, due: nat)
    ensures Values(CallStamps(s, Emit(now, due))) == Clocks(EmitDatagram(s, now, due).cells)
  {
    hide EmitSlots, SlotsStamps, Opens, Sched.CatchUp;
    var caught := s.CatchUp(now);
    var x := Opens(caught, now, due);
    SlotsStampTheirCells(SchedulerSpec.Opening(caught, x), s.cfg.perDatagram, x);
    Lateness.CatchUpKeepsConfig(s, now);
  }

  /** The stamps of a run are the clocks its cells carry on the wire, and all of them. */
  lemma {:induction false} StampsAreTheWires(s: Sched, calls: seq<Call>)
    ensures Values(RunStamps(s, calls)) == Clocks(Repetition.OnWire(s, calls))
    decreases |calls|
  {
    hide EmitDatagram, CallStamps, Clocks, Sched.Enqueue, AdvanceMuted;
    if calls == [] {
      NoClocks();
    } else {
      var s', rest := Do(s, calls[0]), calls[1..];
      StampsAreTheWires(s', rest);
      ValuesJoin(CallStamps(s, calls[0]), RunStamps(s', rest));
      if calls[0].Emit? {
        CallStampsItsCells(s, calls[0].now, calls[0].due);
        ClocksJoin(EmitDatagram(s, calls[0].now, calls[0].due).cells, Repetition.OnWire(s', rest));
      } else {
        SilentCall(s, calls[0]);
        assert [] + Repetition.OnWire(s', rest) == Repetition.OnWire(s', rest);
      }
    }
  }

  lemma NoClocks()
    ensures Clocks([]) == []
  {
  }

  lemma SilentCall(s: Sched, call: Call)
    requires !call.Emit?
    ensures CallStamps(s, call) == []
  {
  }

  // ---- Time bases lie behind their placements ----

  /** No base reaches past the slot it was placed in: a re-base moves the grid by as much
      as it moves the base, and wraps only forwards. */
  ghost predicate Behind(c: Core) {
    && c.clock.epoch >= c.clock.rebased
    && (c.clock.open.Some? ==> c.openBase <= c.clock.open.value.slot)
    && forall k | 0 <= k < |c.log| :: c.log[k].base <= c.log[k].slot
  }

  lemma AimIsBehind(m: SlotMap, c: Clock, runLength: nat, pcr: nat, declared: bool, at: Arrival)
    requires c.epoch >= c.rebased
    ensures
      var aim := SlotFor(m, c, runLength, pcr, declared, at);
      aim.clock.epoch >= aim.clock.rebased && aim.clock.rebased <= aim.slot
  {
    hide SlotMap.SlotOfPcr, Judge;
  }

  lemma EndIsBehind(c: Core, aim: Aim)
    requires Behind(c)
    ensures forall k | 0 <= k < |c.EndRun(aim).log| :: c.EndRun(aim).log[k].base <= c.EndRun(aim).log[k].slot
  {
    hide Spread;
    if c.clock.open.Some? && !(aim.afterSilence || c.Misses(aim)) && c.run != [] {
      var open := c.clock.open.value.slot;
      var placed := Spread(c.run, 0, open, SatSub(aim.slot, open), c.nextFree, c.openBase, c.openWraps);
      Displacement.SpreadShape(c.run, 0, open, SatSub(aim.slot, open), c.nextFree, c.openBase, c.openWraps);
      forall k | 0 <= k < |c.log + placed|
        ensures (c.log + placed)[k].base <= (c.log + placed)[k].slot
      {
        if k >= |c.log| {
          assert Displacement.PlacedFrom(placed[k - |c.log|], c.run[0 + (k - |c.log|)], c.openBase, c.openWraps, open);
        }
      }
    }
  }

  lemma PushIsBehind(c: Core, p: Packet, at: Arrival)
    requires Behind(c)
    ensures Behind(c.Push(p, at))
  {
    hide Core.EndRun, SlotFor;
    if p.pcr.Some? {
      var noted := c.Noted(p);
      AimIsBehind(c.rateMap, c.clock, |c.run|, p.pcr.value, p.declared, at);
      EndIsBehind(noted, noted.Aims(p, at));
    }
  }

  // ---- On the grid, on the stream's time base ----

  /** Some packet placed in `slot` or before is on `base`. */
  predicate IsBase(log: seq<Placement>, base: int, slot: nat) {
    exists k :: 0 <= k < |log| && log[k].base == base && log[k].slot <= slot
  }

  /** The time base in force, once a PCR has gone out, and those of what waits, are of
      packets placed behind the leg. */
  ghost predicate OnBases(s: Sched) {
    && Leg(s) && s.cfg.regenerate && Behind(s.store.grid.core)
    && (s.em.lastPcr.Some? ==> IsBase(LogOf(s), s.em.base, s.slot))
    && (forall i | 0 <= i < |s.em.deferred| :: IsBase(LogOf(s), s.em.deferred[i].base.offset, s.slot))
    && (!s.Started() ==> s.em.lastPcr.None? && s.em.deferred == [])
  }

  /** While a datagram's slots are filled, `OnBases` less its last part, which the datagram
      makes true. */
  ghost predicate FillsOnBases(s: Sched) {
    && Leg(s) && s.cfg.regenerate
    && (s.em.lastPcr.Some? ==> IsBase(LogOf(s), s.em.base, s.slot))
    && forall i | 0 <= i < |s.em.deferred| :: IsBase(LogOf(s), s.em.deferred[i].base.offset, s.slot)
  }

  /** The clock is its slot's, on the base of a packet placed there or before. */
  ghost predicate OnGrid(c: Config, stamp: Stamp, log: seq<Placement>) {
    stamp.clock == GridClock(c, stamp.slot, stamp.base) && IsBase(log, stamp.base, stamp.slot)
  }

  lemma AdmitOnBases(s: Sched, want: bool)
    requires FillsOnBases(s)
    ensures
      var a := s.Admit(want);
      && FillsOnBases(a) && s.store.Gridded? && LogOf(a) == LogOf(s)
      && a.slot == s.slot && a.cfg == s.cfg && a.regen == s.regen
  {
    hide GridQueue.Reachable, Queue.Take, IsBase;
    AdmitKeepsLeg(s, want);
    Lateness.TakeIsNext(s);
    var taken := s.store.grid.queue.Take(s.slot);
    if taken.content.Some? {
      TagIsBase(LogOf(s), s.store.grid.queue.gone + taken.late, s.slot);
    }
  }

  lemma TagIsBase(log: seq<Placement>, i: nat, slot: nat)
    requires i < |log| && log[i].slot <= slot
    ensures IsBase(log, GridQueue.Tagged(log, i).base.offset, slot)
  {
  }

  lemma PutOnBases(s: Sched, x: Ctx, want: bool, admitted: bool)
    requires FillsOnBases(s)
    ensures
      var f := PutSlot(s, x, want, admitted);
      && f.s.store == s.store && f.s.slot == s.slot + 1 && f.s.cfg == s.cfg && s.store.Gridded?
      && (f.s.em.lastPcr.Some? ==> IsBase(LogOf(s), f.s.em.base, s.slot))
      && (forall i | 0 <= i < |f.s.em.deferred| :: IsBase(LogOf(s), f.s.em.deferred[i].base.offset, s.slot))
      && (OutputClock.ClockOf(f.cell).Some? ==>
            OnGrid(s.cfg, Stamp(s.slot, f.s.em.base, OutputClock.ClockOf(f.cell).value), LogOf(s)))
  {
    hide IsBase, Counted, GridClock, GridQueue.Reachable;
  }

  /** A base once behind the leg stays behind it. */
  lemma BaseStands(log: seq<Placement>, log': seq<Placement>, base: int, slot: nat, slot': nat)
    requires log <= log' && IsBase(log, base, slot) && slot <= slot'
    ensures IsBase(log', base, slot')
  {
    var k :| 0 <= k < |log| && log[k].base == base && log[k].slot <= slot;
    assert log'[k] == log[k];
  }

  lemma BasesStand(s: Sched, log: seq<Placement>, slot: nat, log': seq<Placement>, slot': nat)
    requires log <= log' && slot <= slot'
    requires s.em.lastPcr.Some? ==> IsBase(log, s.em.base, slot)
    requires forall i | 0 <= i < |s.em.deferred| :: IsBase(log, s.em.deferred[i].base.offset, slot)
    ensures s.em.lastPcr.Some? ==> IsBase(log', s.em.base, slot')
    ensures forall i | 0 <= i < |s.em.deferred| :: IsBase(log', s.em.deferred[i].base.offset, slot')
  {
    hide IsBase;
    if s.em.lastPcr.Some? {
      BaseStands(log, log', s.em.base, slot, slot');
    }
    forall i | 0 <= i < |s.em.deferred|
      ensures IsBase(log', s.em.deferred[i].base.offset, slot')
    {
      BaseStands(log, log', s.em.deferred[i].base.offset, slot, slot');
    }
  }

  lemma SlotOnBases(s: Sched, x: Ctx)
    requires FillsOnBases(s)
    ensures
      var f := EmitSlot(s, x);
      && FillsOnBases(f.s) && SameStream(s, f.s) && f.s.slot == s.slot + 1
      && forall st <- StampOf(f.cell, s.slot, f.s.em.base) :: OnGrid(s.cfg, st, LogOf(s)) && st.slot == s.slot
  {
    hide Leg, Sched.Admit, PutSlot, IsBase, GridClock;
    var want := s.released < x.due;
    var a := s.Admit(want);
    SlotKeepsLeg(s, x);
    AdmitOnBases(s, want);
    PutOnBases(a, x, want, |a.em.deferred| > |s.em.deferred|);
    var s' := EmitSlot(s, x).s;
    BasesStand(s', LogOf(s), s.slot, LogOf(s), s'.slot);
  }

  /** Stamps in increasing slots from `from` on and before `to`, each on the grid. */
  ghost predicate InStep(c: Config, stamps: seq<Stamp>, from: nat, to: nat, log: seq<Placement>) {
    && (forall i | 0 <= i < |stamps| :: from <= stamps[i].slot < to && OnGrid(c, stamps[i], log))
    && forall i, j | 0 <= i < j < |stamps| :: stamps[i].slot < stamps[j].slot
  }

  lemma StepsJoin(c: Config, a: seq<Stamp>, b: seq<Stamp>, from: nat, mid: nat, to: nat, log: seq<Placement>)
    requires InStep(c, a, from, mid, log) && InStep(c, b, mid, to, log) && from <= mid <= to
    ensures InStep(c, a + b, from, to, log)
  {
    hide OnGrid;
    forall i | 0 <= i < |a + b|
      ensures from <= (a + b)[i].slot < to && OnGrid(c, (a + b)[i], log)
    {
      assert (a + b)[i] == if i < |a| then a[i] else b[i - |a|];
    }
  }

  lemma {:induction false} SlotsInStep(s: Sched, n: nat, x: Ctx)
    requires FillsOnBases(s)
    ensures
      var s' := EmitSlots(s, n, x).s;
      && FillsOnBases(s') && SameStream(s, s') && s'.slot == s.slot + n
      && InStep(s.cfg, SlotsStamps(s, n, x), s.slot, s.slot + n, LogOf(s))
  {
    hide Leg, IsBase, OnGrid, EmitSlot, StampOf;
    if n == 0 {
      SameAsItself(s);
    } else {
      SlotsInStep(s, n - 1, x);
      var before := EmitSlots(s, n - 1, x).s;
      var next := EmitSlot(before, x);
      SlotOnBases(before, x);
      OneStamp(next.cell, before.slot, next.s.em.base);
      StepsJoin(s.cfg, SlotsStamps(s, n - 1, x), StampOf(next.cell, before.slot, next.s.em.base),
                s.slot, before.slot, s.slot + n, LogOf(s));
    }
  }

  lemma OneStamp(cell: Cell, slot: nat, base: int)
    ensures |StampOf(cell, slot, base)| <= 1
  {
    hide OutputClock.ClockOf;
  }

  lemma OpensOnBases(s: Sched, now: nat, due: nat)
    requires OnBases(s)
    ensures
      var caught := s.CatchUp(now);
      var ready := SchedulerSpec.Opening(caught, Opens(caught, now, due));
      && FillsOnBases(ready) && SameStream(s, ready) && ready.slot == caught.slot >= s.slot
  {
    hide GridQueue.Reachable, IsBase, Behind, Sched.Boundary, Opens;
    var caught := s.CatchUp(now);
    CatchUpKeepsLeg(s, now);
    BasesStand(s, LogOf(s), s.slot, LogOf(s), caught.slot);
  }

  // ---- Over whole runs ----

  lemma EmitOnBases(s: Sched, now: nat, due: nat)
    requires OnBases(s)
    ensures
      var s' := EmitDatagram(s, now, due).s;
      && OnBases(s') && SameStream(s, s') && s'.Started() && s'.slot >= s.slot
      && InStep(s.cfg, CallStamps(s, Emit(now, due)), s.slot, s'.slot, LogOf(s))
  {
    hide Leg, IsBase, OnGrid, EmitSlots, SlotsStamps, Opens, Sched.CatchUp, Behind;
    var caught := s.CatchUp(now);
    var x := Opens(caught, now, due);
    var ready := SchedulerSpec.Opening(caught, x);
    OpensOnBases(s, now, due);
    SlotsInStep(ready, s.cfg.perDatagram, x);
    EmitKeepsLeg(s, now, due);
    Lateness.CatchUpKeepsConfig(s, now);
  }

  lemma EnqueueOnBases(s: Sched, p: Packet, now: nat)
    requires OnBases(s)
    ensures
      var s' := s.Enqueue(p, now);
      && OnBases(s') && s.store.Gridded? && s'.store.Gridded? && LogOf(s) <= LogOf(s') && s'.cfg == s.cfg
      && s'.Started() == s.Started() && (s.Started() ==> s'.slot == s.slot)
  {
    hide Leg, IsBase, Behind, Sched.Enqueue, Core.Push;
    var s' := s.Enqueue(p, now);
    EnqueueGrows(s, p, now);
    Departures.LegGridded(s);
    Departures.LegGridded(s');
    Lateness.EnqueueDefersNothing(s, p, now);
    EnqueueIsBehind(s, p, now);
    if s.Started() {
      BasesStand(s, LogOf(s), s.slot, LogOf(s'), s'.slot);
    }
  }

  lemma EnqueueIsBehind(s: Sched, p: Packet, now: nat)
    requires s.store.Gridded? && Behind(s.store.grid.core)
    ensures
      var s' := s.Enqueue(p, now);
      s'.store.Gridded? && Behind(s'.store.grid.core)
  {
    hide Behind, Core.Push;
    if p.pid == NULL_PID {
      Pair.NullIsStripped(s, p, now);
    } else {
      Pair.EnqueuePushesCore(s, p, now);
      var horizon := if s.Started() then Some(s.slot + s.cfg.maxLatency) else None;
      PushIsBehind(s.store.grid.core, p, s.store.grid.ArrivalAt(now, horizon));
    }
  }

  lemma MuteOnBases(s: Sched, now: nat)
    requires OnBases(s)
    ensures
      var s' := AdvanceMuted(s, now);
      && OnBases(s') && SameStream(s, s') && s'.Started() == s.Started() && s'.slot >= s.slot
  {
    hide GridQueue.Reachable, IsBase, Behind, Sched.State;
    BasesStand(s, LogOf(s), s.slot, LogOf(s), s.slot + s.cfg.perDatagram);
  }

  /** The first slot a clock may still go out in. */
  function Earliest(s: Sched): nat {
    if s.Started() then s.slot else 0
  }

  lemma CallInStep(s: Sched, call: Call)
    requires OnBases(s)
    ensures
      var s' := Do(s, call);
      && OnBases(s') && s.store.Gridded? && s'.store.Gridded? && LogOf(s) <= LogOf(s') && s'.cfg == s.cfg
      && Earliest(s) <= Earliest(s') && InStep(s.cfg, CallStamps(s, call), Earliest(s), Earliest(s'), LogOf(s))
  {
    hide OnBases, OnGrid, EmitDatagram, AdvanceMuted, Sched.Enqueue;
    match call {
      case Enqueue(p, now) => EnqueueOnBases(s, p, now);
      case Emit(now, due) => hide CallStamps; EmitOnBases(s, now, due);
      case Mute(now) => MuteOnBases(s, now);
    }
  }

  /** Stamps in increasing slots from `from` on, each on the grid. */
  ghost predicate Stamped(c: Config, stamps: seq<Stamp>, from: nat, log: seq<Placement>) {
    && (forall i | 0 <= i < |stamps| :: from <= stamps[i].slot && OnGrid(c, stamps[i], log))
    && forall i, j | 0 <= i < j < |stamps| :: stamps[i].slot < stamps[j].slot
  }

  lemma StampedJoin(c: Config, a: seq<Stamp>, b: seq<Stamp>, from: nat, mid: nat, log: seq<Placement>,
      log': seq<Placement>)
    requires InStep(c, a, from, mid, log) && Stamped(c, b, mid, log') && from <= mid && log <= log'
    ensures Stamped(c, a + b, from, log')
  {
    hide IsBase, GridClock;
    forall i | 0 <= i < |a + b|
      ensures from <= (a + b)[i].slot && OnGrid(c, (a + b)[i], log')
    {
      assert (a + b)[i] == if i < |a| then a[i] else b[i - |a|];
      if i < |a| {
        BaseStands(log, log', a[i].base, a[i].slot, a[i].slot);
      }
    }
  }

  lemma {:induction false} RunIsStamped(s: Sched, calls: seq<Call>)
    requires OnBases(s)
    ensures
      var s' := RunCalls(s, calls);
      && OnBases(s') && s.store.Gridded? && s'.store.Gridded? && LogOf(s) <= LogOf(s')
      && Stamped(s.cfg, RunStamps(s, calls), Earliest(s), LogOf(s'))
    decreases |calls|
  {
    hide OnBases, OnGrid, Do, CallStamps, Earliest;
    BasesAreGridded(s);
    if calls == [] {
    } else {
      var s', rest := Do(s, calls[0]), calls[1..];
      CallInStep(s, calls[0]);
      RunIsStamped(s', rest);
      StampedJoin(s.cfg, CallStamps(s, calls[0]), RunStamps(s', rest), Earliest(s), Earliest(s'),
                  LogOf(s), LogOf(RunCalls(s', rest)));
    }
  }

  lemma BasesAreGridded(s: Sched)
    requires OnBases(s)
    ensures s.store.Gridded?
  {
  }

  lemma NewOnBases(cfg: Config)
    requires cfg.streamed && cfg.regenerate
    ensures OnBases(NewSched(cfg))
  {
    NewLeg(cfg);
    hide GridQueue.Reachable;
  }

  /** Under stream clocking, over every run through any stalls, muting, jumps, losses and
      re-bases: the clocks put on the wire, on content or inserted, are in increasing slots,
      each that of its own slot on the time base of a packet placed there or before. */
  lemma WireClocksAreTheGrids(cfg: Config, calls: seq<Call>)
    requires cfg.streamed && cfg.regenerate
    ensures
      var s, stamps := RunCalls(NewSched(cfg), calls), RunStamps(NewSched(cfg), calls);
      && s.store.Gridded? && Stamped(cfg, stamps, 0, LogOf(s)) && (forall stamp <- stamps :: stamp.base <= stamp.slot)
      && Values(stamps) == Clocks(Repetition.OnWire(NewSched(cfg), calls))
  {
    hide RunCalls, RunStamps, OnBases, GridClock, IsBase;
    NewOnBases(cfg);
    RunIsStamped(NewSched(cfg), calls);
    StampsAreTheWires(NewSched(cfg), calls);
    forall stamp <- RunStamps(NewSched(cfg), calls)
      ensures stamp.base <= stamp.slot
    {
      BaseIsBehind(RunCalls(NewSched(cfg), calls), cfg, stamp);
    }
  }

  lemma BaseIsBehind(s: Sched, c: Config, stamp: Stamp)
    requires OnBases(s) && s.store.Gridded? && OnGrid(c, stamp, LogOf(s))
    ensures stamp.base <= stamp.slot
  {
    hide Leg;
  }

  /** So any two of them on one time base, at any distance in any run, are apart by the
      exact time of the slots between, modulo the wrap, to within a tick. */
  lemma StreamClockIsLocked(cfg: Config, calls: seq<Call>, i: nat, j: nat) returns (ticks: nat)
    requires cfg.streamed && cfg.regenerate && i < j < |RunStamps(NewSched(cfg), calls)|
    requires RunStamps(NewSched(cfg), calls)[i].base == RunStamps(NewSched(cfg), calls)[j].base
    ensures
      var a, b := RunStamps(NewSched(cfg), calls)[i], RunStamps(NewSched(cfg), calls)[j];
      && a.slot < b.slot && (a.clock + ticks) % WRAP == b.clock
      && -(cfg.m.rate as int) < ticks * cfg.m.rate - (b.slot - a.slot) * SLOT_COST < cfg.m.rate
  {
    hide RunCalls, RunStamps, GridClock, IsBase, Clocks;
    WireClocksAreTheGrids(cfg, calls);
    var a, b := RunStamps(NewSched(cfg), calls)[i], RunStamps(NewSched(cfg), calls)[j];
    var s := RunCalls(NewSched(cfg), calls);
    assert OnGrid(cfg, a, LogOf(s)) && OnGrid(cfg, b, LogOf(s));
    ticks := OutputClock.StreamClockDoesNotDrift(cfg, a.base, a.slot, b.slot);
  }
}
