/** The PCR repetition bound under regeneration (src/scheduler.rs, `reinsert_pcr`,
    `emit_datagram`): however saturated the content, no interval between PCRs outgrows
    the re-insertion threshold. It is what the repetition check of section 5.2.2 of ETSI
    TR 101 290 measures. */
module Repetition {
  import opened Prelude
  import opened Packets
  import opened SlotMaps
  import opened GridSpec
  import opened SchedulerSpec
  import opened Conservation

  // ---- Cells a bounded distance apart ----

  /** A run of consecutive slots, the first of which lies `since` slots after the last
      PCR, if there has been one: once there has, no slot lies more than `max` after one,
      and the slot that would carries one. */
  predicate Spaced(cells: seq<Cell>, since: Option<nat>, max: nat)
    decreases |cells|
  {
    cells == [] ||
    if CarriesPcr(cells[0]) then (since.Some? ==> since.value <= max) && Spaced(cells[1..], Some(1), max)
    else (since.Some? ==> since.value < max) && Spaced(cells[1..], Later(since), max)
  }

  function Later(since: Option<nat>): Option<nat> {
    if since.Some? then Some(since.value + 1) else None
  }

  function SinceAfter(cells: seq<Cell>, since: Option<nat>): Option<nat>
    decreases |cells|
  {
    if cells == [] then since else SinceAfter(cells[1..], if CarriesPcr(cells[0]) then Some(1) else Later(since))
  }

  lemma {:induction false} SpacedJoin(a: seq<Cell>, b: seq<Cell>, since: Option<nat>, max: nat)
    requires Spaced(a, since, max) && Spaced(b, SinceAfter(a, since), max)
    ensures Spaced(a + b, since, max)
    ensures SinceAfter(a + b, since) == SinceAfter(b, SinceAfter(a, since))
    decreases |a|
  {
    if a == [] {
      assert a + b == b;
    } else {
      assert (a + b)[1..] == a[1..] + b;
      SpacedJoin(a[1..], b, if CarriesPcr(a[0]) then Some(1) else Later(since), max);
    }
  }

  /** A PCR has gone out before slot `i`. */
  ghost predicate PcrBefore(cells: seq<Cell>, since: Option<nat>, i: nat) {
    since.Some? || exists k | 0 <= k < i && k < |cells| :: CarriesPcr(cells[k])
  }

  /** In words: once a PCR has gone out, every `max` consecutive slots hold one. */
  lemma {:induction false} SpacedMeansEveryWindow(cells: seq<Cell>, since: Option<nat>, max: Positive,
      i: nat) returns (j: nat)
    requires Spaced(cells, since, max) && (since.Some? ==> since.value >= 1) && i + max <= |cells|
    requires PcrBefore(cells, since, i)
    ensures i <= j < i + max && CarriesPcr(cells[j])
    decreases |cells|
  {
    var since' := if CarriesPcr(cells[0]) then Some(1) else Later(since);
    if i == 0 {
      j := FirstPcr(cells, since.value, max);
    } else {
      if since'.None? {
        var k :| 0 <= k < i && k < |cells| && CarriesPcr(cells[k]);
        assert cells[1..][k - 1] == cells[k];
      }
      j := SpacedMeansEveryWindow(cells[1..], since', max, i - 1);
      j := j + 1;
    }
  }

  lemma {:induction false} FirstPcr(cells: seq<Cell>, since: nat, max: nat) returns (j: nat)
    requires Spaced(cells, Some(since), max) && since <= max && |cells| > max - since
    ensures j < |cells| && j + since <= max && CarriesPcr(cells[j])
    decreases |cells|
  {
    if CarriesPcr(cells[0]) {
      j := 0;
    } else {
      j := FirstPcr(cells[1..], since + 1, max);
      j := j + 1;
    }
  }

  // ---- The scheduler keeps them so ----

  ghost predicate KnowsPid(s: Sched) {
    s.pid.None? ==> forall p <- s.input :: p.pcr.None?
  }

  /** A leg that has sent a PCR can insert another. */
  predicate CanInsert(s: Sched) {
    s.em.lastPcr.Some? ==> s.pid.Some? && (s.cfg.regenerate && !s.cfg.streamed ==> s.regen.anchor.Some?)
  }

  /** The last PCR lies behind the next slot. */
  predicate Behind(s: Sched) {
    s.em.lastPcr.Some? ==> s.em.lastPcr.value < s.slot
  }

  ghost predicate Sound(s: Sched) {
    Conserves(s) && KnowsPid(s) && CanInsert(s) && Behind(s)
  }

  /** And not too far behind it. */
  predicate WithinBound(s: Sched) {
    s.em.lastPcr.Some? && s.em.lastPcr.value < s.slot <= s.em.lastPcr.value + s.cfg.pcrMax
  }

  /** How far back the last PCR lies, as far as the threshold can tell: past it a PCR is
      overdue, and overdue by more is no different. */
  function Gap(s: Sched): Option<nat> {
    if s.em.lastPcr.None? then None
    else
      var since := SatSub(s.slot, s.em.lastPcr.value);
      Some(if since > s.cfg.pcrMax then s.cfg.pcrMax else since)
  }

  /** The slot the bound leaves to a PCR, or one past it. */
  predicate DueForPcr(s: Sched, x: Ctx) {
    && !x.stalled && (s.cfg.streamed ==> s.em.phased) && s.cfg.regenerate
    && s.em.lastPcr.Some? && s.slot >= s.em.lastPcr.value + s.cfg.pcrMax
  }

  lemma DeferredIsInput(s: Sched)
    requires Conserves(s) && s.em.deferred != []
    ensures s.em.deferred[0].packet in s.input
  {
    hide Subsequence, InStore;
    var p := s.em.deferred[0].packet;
    var queued := QueuedPackets(s.em.deferred);
    assert p == queued[0];
    assert Pipeline(s)[|s.out|] == p;
    SubsequenceMember(Pipeline(s), s.input, p);
  }

  /** Filling a slot: a PCR-bearing cell is where the last PCR now is, any other leaves it;
      and with the bound reached, only a PCR goes out. */
  lemma PutKeepsBound(s: Sched, x: Ctx, want: bool, admitted: bool)
    requires Sound(s)
    ensures
      var Filled(s', cell) := PutSlot(s, x, want, admitted);
      && KnowsPid(s') && CanInsert(s') && Behind(s') && s'.cfg == s.cfg && s'.slot == s.slot + 1
      && s'.em.lastPcr == (if CarriesPcr(cell) then Some(s.slot) else s.em.lastPcr)
      && (s.em.phased ==> s'.em.phased)
      && (DueForPcr(s, x) ==> CarriesPcr(cell))
  {
    hide Conserves;
    if s.em.deferred != [] {
      DeferredIsInput(s);
    }
  }

  lemma SlotKeepsSound(s: Sched, x: Ctx)
    requires Sound(s)
    ensures
      var Filled(s', cell) := EmitSlot(s, x);
      && Sound(s') && s'.cfg == s.cfg && s'.slot == s.slot + 1
      && s'.em.lastPcr == (if CarriesPcr(cell) then Some(s.slot) else s.em.lastPcr)
      && (s.em.phased ==> s'.em.phased)
      && (DueForPcr(s, x) ==> CarriesPcr(cell))
  {
    hide Conserves, PutSlot, Sched.Admit;
    var want := s.released < x.due;
    var a := s.Admit(want);
    AdmitConserves(s, want);
    AdmitTouches(s, want);
    PutConserves(a, x, want, |a.em.deferred| > |s.em.deferred|);
    PutKeepsBound(a, x, want, |a.em.deferred| > |s.em.deferred|);
  }

  /** One slot, in phase and unstalled. */
  lemma SlotKeepsBound(s: Sched, x: Ctx)
    requires Sound(s) && s.cfg.regenerate
    requires !x.stalled && (s.cfg.streamed ==> s.em.phased)
    ensures
      var Filled(s', cell) := EmitSlot(s, x);
      && Sound(s') && s'.cfg == s.cfg && (s.cfg.streamed ==> s'.em.phased)
      && Spaced([cell], Gap(s), s.cfg.pcrMax) && SinceAfter([cell], Gap(s)) == Gap(s')
  {
    hide EmitSlot, CarriesPcr, Conserves;
    SlotKeepsSound(s, x);
    var Filled(s', cell) := EmitSlot(s, x);
    assert [cell][1..] == [];
  }

  lemma NoCellsSpaced(s: Sched)
    ensures Spaced([], Gap(s), s.cfg.pcrMax) && SinceAfter([], Gap(s)) == Gap(s)
  {
  }

  /** A whole datagram of slots, in phase and unstalled. */
  lemma {:induction false} SlotsKeepBound(s: Sched, n: nat, x: Ctx)
    requires Sound(s) && s.cfg.regenerate
    requires !x.stalled && (s.cfg.streamed ==> s.em.phased)
    ensures
      var e := EmitSlots(s, n, x);
      && Sound(e.s) && e.s.cfg == s.cfg && (s.cfg.streamed ==> e.s.em.phased)
      && Spaced(e.cells, Gap(s), s.cfg.pcrMax) && SinceAfter(e.cells, Gap(s)) == Gap(e.s)
  {
    hide Sound, EmitSlot, Spaced, SinceAfter, Gap;
    NoCellsSpaced(s);
    if n == 0 {
    } else {
      SlotsKeepBound(s, n - 1, x);
      var b := EmitSlots(s, n - 1, x);
      SlotKeepsBound(b.s, x);
      SpacedJoin(b.cells, [EmitSlot(b.s, x).cell], Gap(s), s.cfg.pcrMax);
    }
  }

  // ---- Over calls ----

  /** Every datagram opens unstalled, and in phase under stream clocking; none is muted. */
  predicate Steady(s: Sched, calls: seq<Call>)
    decreases |calls|
  {
    calls == [] ||
    ((match calls[0]
      case Enqueue(_, _) => true
      case Emit(now, due) =>
        var x := Opens(s.CatchUp(now), now, due);
        !x.stalled && (s.cfg.streamed ==> x.send)
      case Mute(_) => false)
     && Steady(Do(s, calls[0]), calls[1..]))
  }

  /** The cells put on the wire, over all calls. */
  function OnWire(s: Sched, calls: seq<Call>): seq<Cell>
    decreases |calls|
  {
    if calls == [] then []
    else
      var cells := if calls[0].Emit? then EmitDatagram(s, calls[0].now, calls[0].due).cells else [];
      cells + OnWire(Do(s, calls[0]), calls[1..])
  }

  /** A leg that sends did not have to jump its clock first: so the numbering offered to
      the sink before the datagram is that of the slots it holds. */
  lemma SendingLegDoesNotJump(s: Sched, now: nat, due: nat)
    requires s.store.Gridded? && Opens(s.CatchUp(now), now, due).send
    ensures s.CatchUp(now) == s && s.em.phased
    ensures FramingOf(s.CatchUp(now)) == FramingOf(s)
  {
  }

  /** Once a PCR has been sent, the output has started for good. */
  predicate StartedIfSent(s: Sched) {
    s.em.lastPcr.Some? ==> s.Started()
  }

  lemma EnqueueKeepsBound(s: Sched, p: Packet, now: nat)
    requires Sound(s) && StartedIfSent(s)
    ensures
      var s' := s.Enqueue(p, now);
      && Sound(s') && StartedIfSent(s') && s'.cfg == s.cfg && s'.em == s.em
      && (s.em.lastPcr.Some? ==> s'.slot == s.slot)
  {
    hide Conserves, Grid.Push, Grid.HasContent;
    EnqueueConserves(s, p, now);
  }

  lemma CatchUpIsForGrids(s: Sched, now: nat)
    requires s.store.Buffered?
    ensures s.CatchUp(now) == s
  {
  }

  lemma {:induction false} EmitStarts(s: Sched, n: nat, x: Ctx)
    ensures
      var e := EmitSlots(s, n, x).s;
      && e.stats.output == s.stats.output + (if x.send then n else 0)
      && e.stats.withheld == s.stats.withheld
  {
    hide Sched.Admit, FillSlot, Reinserts;
    if n == 0 {
    } else {
      EmitStarts(s, n - 1, x);
      var b := EmitSlots(s, n - 1, x).s;
      AdmitTouches(b, b.released < x.due);
    }
  }

  lemma SteadyEmit(s: Sched, now: nat, due: nat)
    requires Sound(s) && s.cfg.regenerate
    requires
      var x := Opens(s.CatchUp(now), now, due);
      !x.stalled && (s.cfg.streamed ==> x.send)
    ensures
      var e := EmitDatagram(s, now, due);
      && Sound(e.s) && StartedIfSent(e.s) && e.s.cfg == s.cfg
      && Spaced(e.cells, Gap(s), s.cfg.pcrMax) && SinceAfter(e.cells, Gap(s)) == Gap(e.s)
  {
    var x := Opens(s.CatchUp(now), now, due);
    if s.cfg.streamed {
      SendingLegDoesNotJump(s, now, due);
    } else {
      CatchUpIsForGrids(s, now);
    }
    assert x.send && (s.cfg.streamed ==> s.em.phased && x.determined);
    var ready := Opening(s, x);
    assert ready.em == s.em && ready.slot == s.slot;
    SameConserves(s, ready);
    hide EmitSlots, Conserves, Spaced;
    SlotsKeepBound(ready, s.cfg.perDatagram, x);
    EmitStarts(ready, s.cfg.perDatagram, x);
  }

  lemma {:induction false} SteadyIsSpaced(s: Sched, calls: seq<Call>)
    requires Sound(s) && StartedIfSent(s) && s.cfg.regenerate && Steady(s, calls)
    ensures Spaced(OnWire(s, calls), Gap(s), s.cfg.pcrMax)
    decreases |calls|
  {
    hide Sound, EmitDatagram, Sched.Enqueue, Opens, Sched.CatchUp;
    if calls == [] {
    } else {
      match calls[0] {
        case Enqueue(p, now) =>
          EnqueueKeepsBound(s, p, now);
          SteadyIsSpaced(Do(s, calls[0]), calls[1..]);
          assert OnWire(s, calls) == OnWire(Do(s, calls[0]), calls[1..]);
        case Emit(now, due) =>
          SteadyEmit(s, now, due);
          SteadyIsSpaced(Do(s, calls[0]), calls[1..]);
          SpacedJoin(EmitDatagram(s, now, due).cells, OnWire(Do(s, calls[0]), calls[1..]), Gap(s), s.cfg.pcrMax);
      }
    }
  }

  /** Over every stretch of unstalled, unmuted slots, in phase under stream clocking: once
      a PCR has gone out, in the stretch or before it and however long before, every
      `pcrMax` consecutive slots hold one, however much content is waiting. */
  lemma RepetitionBound(s: Sched, calls: seq<Call>, i: nat) returns (j: nat)
    requires Sound(s) && StartedIfSent(s) && s.cfg.regenerate && Steady(s, calls)
    requires i + s.cfg.pcrMax <= |OnWire(s, calls)| && PcrBefore(OnWire(s, calls), s.em.lastPcr, i)
    ensures i <= j < i + s.cfg.pcrMax && j < |OnWire(s, calls)| && CarriesPcr(OnWire(s, calls)[j])
  {
    assert Gap(s).Some? ==> Gap(s).value >= 1;
    hide Sound, Steady, OnWire;
    SteadyIsSpaced(s, calls);
    j := SpacedMeansEveryWindow(OnWire(s, calls), Gap(s), s.cfg.pcrMax, i);
  }

  // ---- Reachable states ----

  /** Under stream clocking, being in phase is being within the bound. */
  ghost predicate InPhaseWithin(s: Sched) {
    s.cfg.streamed && s.cfg.regenerate && s.em.phased ==> WithinBound(s)
  }

  /** Each slot keeps it: a leg comes into phase on a PCR, and in phase it cannot outrun one. */
  lemma SlotKeepsPhase(s: Sched, x: Ctx)
    requires Sound(s) && InPhaseWithin(s) && (s.em.phased ==> !x.stalled) && (x.determined ==> !x.stalled)
    ensures
      var s' := EmitSlot(s, x).s;
      && Sound(s') && InPhaseWithin(s') && s'.cfg == s.cfg && (s'.em.phased ==> !x.stalled)
  {
    hide Sound;
    SlotKeepsSound(s, x);
    PhasesOnPcr(s, x);
    hide EmitSlot;
  }

  lemma PhasesOnPcr(s: Sched, x: Ctx)
    ensures
      var Filled(s', cell) := EmitSlot(s, x);
      s'.em.phased && !s.em.phased ==> CarriesPcr(cell) && x.determined
  {
    hide Sched.Admit, Reinserts;
    AdmitTouches(s, s.released < x.due);
  }

  lemma {:induction false} SlotsKeepPhase(s: Sched, n: nat, x: Ctx)
    requires Sound(s) && InPhaseWithin(s) && (s.em.phased ==> !x.stalled) && (x.determined ==> !x.stalled)
    ensures
      var s' := EmitSlots(s, n, x).s;
      Sound(s') && InPhaseWithin(s') && s'.cfg == s.cfg && (s'.em.phased ==> !x.stalled)
  {
    hide Sound, InPhaseWithin, EmitSlot;
    if n == 0 {
    } else {
      SlotsKeepPhase(s, n - 1, x);
      SlotKeepsPhase(EmitSlots(s, n - 1, x).s, x);
    }
  }

  /** What every reachable scheduler keeps. */
  ghost predicate Kept(s: Sched) {
    Sound(s) && InPhaseWithin(s) && StartedIfSent(s) && (!s.cfg.streamed ==> !s.em.phased)
  }

  lemma NewKept(cfg: Config)
    ensures Kept(NewSched(cfg))
  {
    NewConserves(cfg);
  }

  lemma CatchUpKept(s: Sched, now: nat)
    requires Kept(s)
    ensures Kept(s.CatchUp(now)) && s.CatchUp(now).cfg == s.cfg
  {
    CatchUpConserves(s, now);
    hide Conserves;
  }

  lemma OpeningKept(s: Sched, now: nat, due: nat)
    requires Kept(s)
    ensures
      var x := Opens(s, now, due);
      var ready := Opening(s, x);
      && Kept(ready) && ready.cfg == s.cfg
      && (ready.em.phased ==> !x.stalled) && (x.determined ==> !x.stalled)
      && (!s.cfg.streamed ==> !x.determined)
  {
    var x := Opens(s, now, due);
    assert s.store.Gridded? <==> s.cfg.streamed;
    SameConserves(s, Opening(s, x));
    hide Conserves;
  }

  lemma EmitKept(s: Sched, now: nat, due: nat)
    requires Kept(s)
    ensures Kept(EmitDatagram(s, now, due).s)
  {
    var caught := s.CatchUp(now);
    var x := Opens(caught, now, due);
    var ready := Opening(caught, x);
    hide Sched.CatchUp, Opens, Opening, EmitSlots, Conserves;
    CatchUpKept(s, now);
    OpeningKept(caught, now, due);
    SlotsKeepPhase(ready, s.cfg.perDatagram, x);
    EmitStarts(ready, s.cfg.perDatagram, x);
    NeverPhasedOffGrid(ready, s.cfg.perDatagram, x);
    var e := EmitSlots(ready, s.cfg.perDatagram, x).s;
    SameConserves(e, e.(stats := e.stats.(withheld := e.stats.withheld + s.cfg.perDatagram)));
    assert x.send || !x.send;
  }

  lemma {:induction false} NeverPhasedOffGrid(s: Sched, n: nat, x: Ctx)
    ensures !s.em.phased && !x.determined ==> !EmitSlots(s, n, x).s.em.phased
  {
    hide EmitSlot;
    if n == 0 {
    } else {
      NeverPhasedOffGrid(s, n - 1, x);
      PhasesOnPcr(EmitSlots(s, n - 1, x).s, x);
    }
  }

  lemma CallKept(s: Sched, call: Call)
    requires Kept(s)
    ensures Kept(Do(s, call))
  {
    match call {
      case Enqueue(p, now) =>
        EnqueueKeepsBound(s, p, now);
        hide Conserves, Sched.Enqueue;
      case Emit(now, due) => EmitKept(s, now, due);
      case Mute(now) =>
        SameConserves(s, AdvanceMuted(s, now));
        hide Conserves;
    }
  }

  lemma {:induction false} RunKept(s: Sched, calls: seq<Call>)
    requires Kept(s)
    ensures Kept(RunCalls(s, calls))
    decreases |calls|
  {
    hide Kept, Do;
    if calls == [] {
    } else {
      CallKept(s, calls[0]);
      RunKept(Do(s, calls[0]), calls[1..]);
    }
  }

  /** In every state a stream-clocked leg can reach, being in phase means a PCR went out
      no more than the threshold ago; so the bound holds from there over every stretch in
      which it stays in phase. */
  lemma InPhaseLegHoldsTheBound(cfg: Config, before: seq<Call>, calls: seq<Call>)
    requires cfg.streamed && cfg.regenerate
    requires RunCalls(NewSched(cfg), before).em.phased
    requires Steady(RunCalls(NewSched(cfg), before), calls)
    ensures
      var s := RunCalls(NewSched(cfg), before);
      WithinBound(s) && Spaced(OnWire(s, calls), Some(s.slot - s.em.lastPcr.value), cfg.pcrMax)
  {
    hide RunCalls, Steady, Spaced, OnWire, Conserves;
    NewKept(cfg);
    RunKept(NewSched(cfg), before);
    RunKeepsConfig(NewSched(cfg), before);
    SteadyIsSpaced(RunCalls(NewSched(cfg), before), calls);
  }

  lemma SlotNotesPcr(s: Sched, x: Ctx)
    ensures
      var Filled(s', cell) := EmitSlot(s, x);
      CarriesPcr(cell) || s.em.lastPcr.Some? ==> s'.em.lastPcr.Some?
  {
    hide Sched.Admit, GridClock, InsertedClock;
    AdmitTouches(s, s.released < x.due);
  }

  lemma {:induction false} SlotsNotePcr(s: Sched, n: nat, x: Ctx)
    ensures
      var e := EmitSlots(s, n, x);
      s.em.lastPcr.Some? || (exists cell <- e.cells :: CarriesPcr(cell)) ==> e.s.em.lastPcr.Some?
  {
    hide EmitSlot, CarriesPcr;
    if n == 0 {
    } else {
      SlotsNotePcr(s, n - 1, x);
      SlotNotesPcr(EmitSlots(s, n - 1, x).s, x);
    }
  }

  lemma CallNotesPcr(s: Sched, call: Call)
    ensures s.em.lastPcr.Some? ==> Do(s, call).em.lastPcr.Some?
    ensures call.Emit? && (exists cell <- EmitDatagram(s, call.now, call.due).cells :: CarriesPcr(cell)) ==>
      Do(s, call).em.lastPcr.Some?
  {
    hide EmitSlots, Opens, Sched.Boundary, CarriesPcr, Grid.Push;
    if call.Emit? {
      var caught := s.CatchUp(call.now);
      var x := Opens(caught, call.now, call.due);
      SlotsNotePcr(Opening(caught, x), s.cfg.perDatagram, x);
    }
  }

  /** A scheduler that has put a PCR on the wire knows it. */
  lemma {:induction false} WirePcrIsNoted(s: Sched, calls: seq<Call>)
    ensures s.em.lastPcr.Some? || (exists cell <- OnWire(s, calls) :: CarriesPcr(cell)) ==>
      RunCalls(s, calls).em.lastPcr.Some?
    decreases |calls|
  {
    hide Do, EmitDatagram, CarriesPcr;
    if calls == [] {
    } else {
      CallNotesPcr(s, calls[0]);
      WirePcrIsNoted(Do(s, calls[0]), calls[1..]);
    }
  }

  /** In either mode, over every run and every unstalled, unmuted stretch after it (in phase
      under stream clocking), whatever stalls and muting went before: from the first PCR to
      go out, the datagram that carries it included, every `pcrMax` consecutive slots hold
      a PCR. */
  lemma LegHoldsTheBound(cfg: Config, before: seq<Call>, calls: seq<Call>, i: nat) returns (j: nat)
    requires cfg.regenerate && Steady(RunCalls(NewSched(cfg), before), calls)
    requires
      var cells := OnWire(RunCalls(NewSched(cfg), before), calls);
      && i + cfg.pcrMax <= |cells|
      && exists cell <- OnWire(NewSched(cfg), before) + cells[..i] :: CarriesPcr(cell)
    ensures i <= j < i + cfg.pcrMax && j < |OnWire(RunCalls(NewSched(cfg), before), calls)|
    ensures CarriesPcr(OnWire(RunCalls(NewSched(cfg), before), calls)[j])
  {
    hide RunCalls, OnWire, Sound, Steady, CarriesPcr;
    NewKept(cfg);
    RunKept(NewSched(cfg), before);
    RunKeepsConfig(NewSched(cfg), before);
    WirePcrIsNoted(NewSched(cfg), before);
    var s := RunCalls(NewSched(cfg), before);
    var first, cells := OnWire(NewSched(cfg), before), OnWire(s, calls);
    assert PcrBefore(cells, s.em.lastPcr, i) by {
      var cell :| cell in first + cells[..i] && CarriesPcr(cell);
      if cell !in first {
        assert cell in cells[..i];
      }
    }
    j := RepetitionBound(s, calls, i);
  }

  // ---- In time ----

  /** The threshold, in slots, that a repetition interval configures: three quarters of
      it, rounded up, and at least one slot. */
  function PcrMaxSlots(interval: real, rate: Positive): Positive
    requires interval >= 0.0
  {
    var slots := 0.75 * interval * rate as real / PACKET_BITS as real;
    Max(if slots == slots.Floor as real then slots.Floor else slots.Floor + 1, 1)
  }

  /** That many slots last no longer than three quarters of the interval and one packet. */
  lemma BoundInTime(interval: real, rate: Positive)
    requires interval >= 0.0
    ensures PcrMaxSlots(interval, rate) as real * PACKET_BITS as real / rate as real
         <= 0.75 * interval + PACKET_BITS as real / rate as real
  {
    var r, slots := rate as real, 0.75 * interval * rate as real / PACKET_BITS as real;
    var max := PcrMaxSlots(interval, rate);
    assert max as real <= slots + 1.0;
    assert slots * PACKET_BITS as real == 0.75 * interval * r;
    assert max as real * PACKET_BITS as real <= 0.75 * interval * r + PACKET_BITS as real;
    DivideThrough(max as real * PACKET_BITS as real, 0.75 * interval, PACKET_BITS as real, r);
  }

  lemma DivideThrough(total: real, interval: real, extra: real, rate: real)
    requires rate > 0.0 && total <= interval * rate + extra
    ensures total / rate <= interval + extra / rate
  {
    var x := interval + extra / rate - total / rate;
    assert x * rate == interval * rate + extra - total;
    assert x < 0.0 ==> x * rate < 0.0;
  }
}
