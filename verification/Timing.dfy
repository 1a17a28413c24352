/** What the instants a scheduler is called at decide (src/scheduler.rs, `enqueue`, `arm`,
    `catch_up`, `state`, `slot_for`, `framing`), and what they cannot. */
module Timing {
  import opened Prelude
  import opened Packets
  import opened SlotMaps
  import opened GridSpec
  import opened SchedulerSpec
  import opened OutputClock
  import Conservation
  import Insertions
  import Pair
  import Paths
  import Repetition

  // ---- The framing of a datagram ----

  /** The timestamps of two slots, at any distance, are apart by the time the slots between
      take on a 90 kHz clock, modulo thirty-two bits, to within a tick of it. */
  lemma TimestampsKeepTime(c: Config, i: nat, j: nat) returns (ticks: nat)
    requires i <= j
    ensures (Frame(c, i).timestamp + ticks) % 0x1_0000_0000 == Frame(c, j).timestamp
    ensures
      var exact := (j - i) * SLOT_COST;
      -(300 * c.m.rate as int) < ticks * 300 * c.m.rate - exact < 300 * c.m.rate
  {
    hide SlotMap.TicksOfSlot, SlotMap.PcrOfSlot;
    var a, b := c.m.TicksOfSlot(i), c.m.TicksOfSlot(j);
    TicksMonotone(c.m, i, j);
    ticks := b / 300 - a / 300;
    TimestampOf(c, i);
    TimestampOf(c, j);
    TicksDivided(c.m, i);
    TicksDivided(c.m, j);
    AddTicks(a / 300, ticks);
    assert ticks * 300 * c.m.rate == b / 300 * (300 * c.m.rate) - a / 300 * (300 * c.m.rate);
    assert (j - i) * SLOT_COST == j * SLOT_COST - i * SLOT_COST;
  }

  lemma TimestampOf(c: Config, slot: nat)
    ensures Frame(c, slot).timestamp == c.m.TicksOfSlot(slot) / 300 % 0x1_0000_0000
  {
    hide SlotMap.TicksOfSlot;
    var ticks := c.m.TicksOfSlot(slot);
    var q := ticks / WRAP;
    assert ticks % WRAP / 300 == ticks / 300 - q * 0x2_0000_0000;
    assert (ticks / 300 - q * 0x2_0000_0000) % 0x1_0000_0000 == ticks / 300 % 0x1_0000_0000;
  }

  lemma TicksDivided(m: SlotMap, slot: nat)
    ensures
      var t := m.TicksOfSlot(slot) / 300;
      t * (300 * m.rate) <= slot * SLOT_COST < t * (300 * m.rate) + 300 * m.rate
  {
    var ticks := m.TicksOfSlot(slot);
    var t, r := ticks / 300, ticks % 300;
    QuotientBounds(slot * SLOT_COST, m.rate);
    assert ticks == t * 300 + r && r <= 299;
    assert ticks * m.rate == t * (300 * m.rate) + r * m.rate;
    MulMonotone(r, 299, m.rate);
  }

  lemma AddTicks(x: nat, y: nat)
    ensures (x % 0x1_0000_0000 + y) % 0x1_0000_0000 == (x + y) % 0x1_0000_0000
  {
  }

  /** A datagram that is sent is framed by the slot its first cell is in, the others in the
      slots after; and the one at slot zero carries the seed. */
  lemma DatagramIsFramedByItsSlots(s: Sched, now: nat, due: nat, k: nat)
    requires s.store.Gridded? && Opens(s.CatchUp(now), now, due).send && k < s.cfg.perDatagram
    ensures
      var puts := Insertions.CallPuts(s, Emit(now, due));
      && |puts| == s.cfg.perDatagram && puts[k].slot == FramingOf(s).slot + k
      && puts[k].cell == EmitDatagram(s, now, due).cells[k]
    ensures Frame(s.cfg, 0).sequence == s.cfg.seed % 0x1_0000
  {
    hide EmitSlots, Opens, Sched.CatchUp, SlotMap.PcrOfSlot;
    var caught := s.CatchUp(now);
    var x := Opens(caught, now, due);
    Repetition.SendingLegDoesNotJump(s, now, due);
    SlotsInARow(Opening(caught, x), s.cfg.perDatagram, x, k);
    Insertions.SentIsPut(s, now, due);
    assert 0 / s.cfg.perDatagram == 0;
  }

  lemma {:induction false} SlotsInARow(s: Sched, n: nat, x: Ctx, k: nat)
    requires k < n
    ensures Insertions.SlotsPut(s, n, x)[k].slot == s.slot + k
  {
    hide EmitSlot;
    if k < n - 1 {
      SlotsInARow(s, n - 1, x, k);
    } else {
      SlotsAdvance(s, n - 1, x);
    }
  }

  // ---- Where a stream-clocked leg starts ----

  function FirstQueued(s: Sched): nat
    requires s.store.Gridded? && s.store.grid.HasContent()
  {
    s.store.grid.queue.placed[0].slot
  }

  /** Until the first datagram, each packet accepted moves the start to the datagram boundary
      a release latency back from the live edge, or that of the oldest packet held if it is
      later than that; and that datagram is due when the leg's first placed content was
      accepted, a target on. */
  lemma StartsALatencyBack(s: Sched, p: Packet, now: nat)
    requires s.store.Gridded? && !s.Started() && p.pid != NULL_PID
    ensures
      var s' := s.Enqueue(p, now);
      && s'.store.Gridded?
      && (s'.store.grid.HasContent() ==>
            var ideal := Max(SatSub(LiveEdge(s'), s.cfg.latency), FirstQueued(s'));
            && s'.slot % s.cfg.perDatagram == 0 && s'.slot <= ideal < s'.slot + s.cfg.perDatagram
            && NextDue(s') == Some(if s.anchor.Some? then s.anchor.value else now + s.cfg.target))
      && (!s'.store.grid.HasContent() ==> s'.slot == s.slot && s'.anchor == s.anchor)
  {
    hide Grid.Push;
    var a := s.Resumed().Accepted(p, now);
    assert !a.Started() && a.store == s.store;
    var s' := s.Enqueue(p, now);
    if s'.store.grid.HasContent() {
      BoundaryIsOne(s', Max(SatSub(LiveEdge(s'), s.cfg.latency), FirstQueued(s')));
      NoSlotsTakeNoTime(s.cfg.m);
    }
  }

  lemma NoSlotsTakeNoTime(m: SlotMap)
    ensures SendNanos(m, 0) == 0
  {
    QuotientAtLeast(0, m.rate, 1);
  }

  // ---- Where it jumps to ----

  /** On a datagram boundary, as every reachable leg is, the clock jumps exactly when the leg
      is further behind its live edge than its buffer may be deep and a release latency back
      from the edge lies a whole datagram ahead or more. It lands on the datagram boundary
      there, which is due at once, with nothing waiting and the clock's own position, base
      and counter kept. */
  lemma JumpsALatencyBack(s: Sched, now: nat)
    requires s.store.Gridded? && s.store.grid.HasContent() && s.slot % s.cfg.perDatagram == 0
    ensures
      var c := s.CatchUp(now);
      var back := SatSub(LiveEdge(s), s.cfg.latency);
      if SatSub(LiveEdge(s), s.slot) > s.cfg.maxLatency && back >= s.slot + s.cfg.perDatagram
      then
        && c.slot % s.cfg.perDatagram == 0 && c.slot <= back < c.slot + s.cfg.perDatagram && c.slot > s.slot
        && NextDue(c) == Some(now) && c.em == s.em.(deferred := [], phased := false)
        && c.stats == s.stats.(late := s.stats.late + |s.em.deferred|, resyncs := s.stats.resyncs + 1)
      else c == s
  {
    hide Sched.Boundary;
    var back := SatSub(LiveEdge(s), s.cfg.latency);
    BoundaryIsOne(s, back);
    BoundaryAhead(s.slot, s.Boundary(back), s.cfg.perDatagram);
    NoSlotsTakeNoTime(s.cfg.m);
  }

  lemma BoundaryAhead(a: nat, b: nat, d: Positive)
    requires a % d == 0 && b % d == 0
    ensures a < b <==> a + d <= b
  {
    var x, y := a / d, b / d;
    assert a == x * d && b == y * d;
    if a < b {
      assert x < y by {
        if y <= x {
          MulMonotone(y, x, d);
        }
      }
      MulMonotone(x + 1, y, d);
      assert (x + 1) * d == x * d + d;
    }
  }

  // ---- When an arrival-clocked leg starts ----

  /** Before any content an arrival-clocked leg only counts slots off. */
  lemma {:induction false} WaitsForContent(s: Sched, calls: seq<Call>)
    requires s.store.Buffered? && s.anchor.None? && s.anchorSlot == 0 && Conservation.PacketsIn(calls) == []
    ensures
      var s' := RunCalls(s, calls);
      && s'.store.Buffered? && s'.anchor.None? && s'.anchorSlot == 0 && s'.cfg == s.cfg
      && s'.slot == s.slot + Asked(calls) * s.cfg.perDatagram
    decreases |calls|
  {
    hide EmitSlots, Opens;
    if calls == [] {
    } else {
      var n, s' := s.cfg.perDatagram, Do(s, calls[0]);
      assert s'.store.Buffered? && s'.anchor.None? && s'.anchorSlot == 0 && s'.cfg == s.cfg
          && s'.slot == s.slot + if calls[0].Enqueue? then 0 else n by {
        if calls[0].Emit? {
          Repetition.CatchUpIsForGrids(s, calls[0].now);
          var x := Opens(s, calls[0].now, calls[0].due);
          SlotsAdvance(Opening(s, x), n, x);
        }
      }
      WaitsForContent(s', calls[1..]);
      assert (1 + Asked(calls[1..])) * n == n + Asked(calls[1..]) * n;
    }
  }

  lemma ContentArms(s: Sched, p: Packet, now: nat)
    requires s.store.Buffered? && s.anchor.None? && p.pid != NULL_PID
    ensures
      var s' := s.Enqueue(p, now);
      && s'.store.Buffered? && s'.anchor == Some(now + s.cfg.target) && s'.anchorSlot == s.anchorSlot
      && s'.slot == s.slot && s'.cfg == s.cfg
  {
  }

  /** Under arrival clocking, over every run from new: from the first content on, accepted at
      `now`, the next datagram is due a target after that and the send time of every datagram
      asked for, before it or since, sent, withheld or muted. */
  lemma DueTimesCountFromTheFirstContent(cfg: Config, before: seq<Call>, p: Packet, now: nat, after: seq<Call>)
    requires !cfg.streamed && Conservation.PacketsIn(before) == [] && p.pid != NULL_PID
    ensures
      var s := RunCalls(NewSched(cfg), before + [Enqueue(p, now)] + after);
      NextDue(s) == Some(now + cfg.target + SendNanos(cfg.m, (Asked(before) + Asked(after)) * cfg.perDatagram))
  {
    hide RunCalls, NextDue, SendNanos, Conservation.PacketsIn;
    NewWaits(cfg);
    WaitsForContent(NewSched(cfg), before);
    var s0 := RunCalls(NewSched(cfg), before);
    ContentArms(s0, p, now);
    var s1 := s0.Enqueue(p, now);
    WireClockRunsOn(s1, after);
    Pair.RunJoins(NewSched(cfg), before + [Enqueue(p, now)], after);
    Pair.RunJoins(NewSched(cfg), before, [Enqueue(p, now)]);
    OneCall(s0, Enqueue(p, now));
    assert (Asked(before) + Asked(after)) * cfg.perDatagram
        == Asked(before) * cfg.perDatagram + Asked(after) * cfg.perDatagram;
  }

  lemma NewWaits(cfg: Config)
    requires !cfg.streamed
    ensures
      var s := NewSched(cfg);
      s.store.Buffered? && s.anchor.None? && s.anchorSlot == 0 && s.slot == 0
  {
  }

  lemma OneCall(s: Sched, call: Call)
    ensures RunCalls(s, [call]) == Do(s, call)
  {
    hide Do;
    assert [call][1..] == [];
  }

  // ---- When the input counts as dead ----

  /** When content was last accepted. */
  function LastAccepted(calls: seq<Call>): Option<nat> {
    if calls == [] then None
    else
      var last := calls[|calls| - 1];
      if last.Enqueue? && last.packet.pid != NULL_PID then Some(last.now) else LastAccepted(calls[..|calls| - 1])
  }

  lemma EmitKeepsLast(s: Sched, now: nat, due: nat)
    ensures EmitDatagram(s, now, due).s.lastContentAt == s.lastContentAt
  {
    hide EmitSlots, Opens;
    var caught := s.CatchUp(now);
    var x := Opens(caught, now, due);
    SlotsKeepLast(Opening(caught, x), caught.cfg.perDatagram, x);
  }

  lemma {:induction false} SlotsKeepLast(s: Sched, n: nat, x: Ctx)
    ensures EmitSlots(s, n, x).s.lastContentAt == s.lastContentAt
  {
    hide Sched.Admit, FillSlot, Transmit;
    if n == 0 {
    } else {
      SlotsKeepLast(s, n - 1, x);
      var b := EmitSlots(s, n - 1, x).s;
      AdmitKeepsLast(b, b.released < x.due);
    }
  }

  lemma AdmitKeepsLast(s: Sched, want: bool)
    ensures s.Admit(want).lastContentAt == s.lastContentAt
  {
  }

  lemma EnqueueSetsLast(s: Sched, p: Packet, now: nat)
    ensures s.Enqueue(p, now).lastContentAt == if p.pid == NULL_PID then s.lastContentAt else Some(now)
  {
    hide Grid.Push, Sched.Boundary;
  }

  lemma RunLast(s: Sched, calls: seq<Call>)
    requires calls != []
    ensures RunCalls(s, calls) == Do(RunCalls(s, calls[..|calls| - 1]), calls[|calls| - 1])
  {
    hide Do, RunCalls;
    var front, last := calls[..|calls| - 1], calls[|calls| - 1];
    assert calls == front + [last];
    Pair.RunJoins(s, front, [last]);
    OneCall(RunCalls(s, front), last);
  }

  lemma {:induction false} RunKnowsLast(cfg: Config, calls: seq<Call>)
    ensures RunCalls(NewSched(cfg), calls).lastContentAt == LastAccepted(calls)
    decreases |calls|
  {
    hide Do, RunCalls;
    if calls == [] {
      NothingRun(NewSched(cfg));
    } else {
      var s := RunCalls(NewSched(cfg), calls[..|calls| - 1]);
      RunKnowsLast(cfg, calls[..|calls| - 1]);
      RunLast(NewSched(cfg), calls);
      CallSetsLast(s, calls[|calls| - 1]);
    }
  }

  lemma NothingRun(s: Sched)
    ensures RunCalls(s, []) == s
  {
  }

  lemma CallSetsLast(s: Sched, call: Call)
    ensures Do(s, call).lastContentAt
         == if call.Enqueue? && call.packet.pid != NULL_PID then Some(call.now) else s.lastContentAt
  {
    hide EmitDatagram, Sched.Enqueue;
    match call {
      case Enqueue(p, now) => EnqueueSetsLast(s, p, now);
      case Emit(now, due) => EmitKeepsLast(s, now, due);
      case Mute(now) =>
    }
  }

  /** Over every run from new, in either mode: at a datagram the input counts as dead if and
      only if the output's start has passed, nothing at all is waiting, and it is at least
      the stall timeout since content was last accepted. */
  lemma StallsExactlyWhenSilent(cfg: Config, calls: seq<Call>, now: nat, due: nat)
    requires cfg.stallTimeout.Some?
    ensures
      var s := RunCalls(NewSched(cfg), calls);
      Opens(s.CatchUp(now), now, due).stalled <==>
        && LastAccepted(calls).Some? && s.anchor.Some? && now >= s.anchor.value && !s.HasPending()
        && SatSub(now, LastAccepted(calls).value) >= cfg.stallTimeout.value
  {
    hide RunCalls, Sched.HasPending;
    RunKnowsLast(cfg, calls);
    Conservation.RunKeepsConfig(NewSched(cfg), calls);
    var s := RunCalls(NewSched(cfg), calls);
    OpensStalled(s.CatchUp(now), now, due);
    CaughtState(s, now);
  }

  /** What an operator is told in between: that the output has yet to start, or that its input
      has been silent for a target's time with nothing left to send, or that all is well. */
  lemma StateIsExact(cfg: Config, calls: seq<Call>, now: nat)
    ensures
      var s, last := RunCalls(NewSched(cfg), calls), LastAccepted(calls);
      var running := last.Some? && s.anchor.Some? && now >= s.anchor.value;
      && (s.State(now).Priming? <==> !running)
      && (s.State(now).Starved? <==>
            && running && !s.HasPending() && SatSub(now, last.value) >= cfg.target
            && (cfg.stallTimeout.Some? ==> SatSub(now, last.value) < cfg.stallTimeout.value))
      && (s.State(now).Stalled? <==>
            && running && !s.HasPending() && cfg.stallTimeout.Some?
            && SatSub(now, last.value) >= cfg.stallTimeout.value)
  {
    hide RunCalls, Sched.HasPending;
    RunKnowsLast(cfg, calls);
    Conservation.RunKeepsConfig(NewSched(cfg), calls);
  }

  lemma OpensStalled(s: Sched, now: nat, due: nat)
    ensures Opens(s, now, due).stalled == s.State(now).Stalled?
  {
    hide Sched.State, Core.Determined;
  }

  lemma CaughtState(s: Sched, now: nat)
    ensures s.CatchUp(now).State(now).Stalled? == s.State(now).Stalled?
  {
    hide Sched.Boundary;
  }

  // ---- What a leg judges a PCR by ----

  /** When a PCR was last accepted. */
  function LastPcrAccepted(calls: seq<Call>): Option<nat> {
    if calls == [] then None
    else
      var last := calls[|calls| - 1];
      if last.Enqueue? && last.packet.pid != NULL_PID && last.packet.pcr.Some? then Some(last.now)
      else LastPcrAccepted(calls[..|calls| - 1])
  }

  /** The grid's open PCR arrived when the last PCR was accepted. */
  ghost predicate OpenedAt(s: Sched, at: Option<nat>) {
    && s.store.Gridded? && (s.store.grid.core.clock.open.Some? <==> at.Some?)
    && (at.Some? ==> s.store.grid.openAt == at.value)
  }

  lemma EnqueueOpens(s: Sched, p: Packet, now: nat, at: Option<nat>)
    requires OpenedAt(s, at)
    ensures OpenedAt(s.Enqueue(p, now), if p.pid != NULL_PID && p.pcr.Some? then Some(now) else at)
  {
    hide SlotFor, Core.EndRun, Queue.Add, Sched.Boundary;
  }

  lemma EmitKeepsOpen(s: Sched, now: nat, due: nat, at: Option<nat>)
    requires OpenedAt(s, at)
    ensures OpenedAt(EmitDatagram(s, now, due).s, at)
  {
    hide EmitSlots, Opens;
    var caught := s.CatchUp(now);
    var x := Opens(caught, now, due);
    CaughtKeepsOpen(s, now, x, at);
    SlotsKeepOpen(Opening(caught, x), caught.cfg.perDatagram, x, at);
  }

  lemma CaughtKeepsOpen(s: Sched, now: nat, x: Ctx, at: Option<nat>)
    requires OpenedAt(s, at)
    ensures OpenedAt(Opening(s.CatchUp(now), x), at)
  {
    hide Sched.Boundary;
  }

  lemma {:induction false} SlotsKeepOpen(s: Sched, n: nat, x: Ctx, at: Option<nat>)
    requires OpenedAt(s, at)
    ensures OpenedAt(EmitSlots(s, n, x).s, at)
  {
    hide Queue.Take, FillSlot, Transmit;
    if n == 0 {
    } else {
      SlotsKeepOpen(s, n - 1, x, at);
    }
  }

  lemma {:induction false} RunOpens(cfg: Config, calls: seq<Call>)
    requires cfg.streamed
    ensures OpenedAt(RunCalls(NewSched(cfg), calls), LastPcrAccepted(calls))
    decreases |calls|
  {
    hide Do, RunCalls, OpenedAt;
    if calls == [] {
      NothingRun(NewSched(cfg));
      NewOpens(cfg);
    } else {
      var s, front := RunCalls(NewSched(cfg), calls[..|calls| - 1]), calls[..|calls| - 1];
      RunOpens(cfg, front);
      RunLast(NewSched(cfg), calls);
      CallOpens(s, calls[|calls| - 1], LastPcrAccepted(front));
    }
  }

  lemma NewOpens(cfg: Config)
    requires cfg.streamed
    ensures OpenedAt(NewSched(cfg), None)
  {
  }

  lemma CallOpens(s: Sched, call: Call, at: Option<nat>)
    requires OpenedAt(s, at)
    ensures
      OpenedAt(Do(s, call),
               if call.Enqueue? && call.packet.pid != NULL_PID && call.packet.pcr.Some? then Some(call.now) else at)
  {
    hide EmitDatagram, Sched.Enqueue;
    match call {
      case Enqueue(p, now) => EnqueueOpens(s, p, now, at);
      case Emit(now, due) => EmitKeepsOpen(s, now, due, at);
      case Mute(now) =>
    }
  }

  /** A step of the source clock a leg can account for, `since` being how long it has heard
      no PCR: a short one, or one its own silence explains, or one to a slot ahead that its
      buffer may hold, which needs the output to have started and the value not to wrap. */
  predicate Accounts(s: Sched, since: nat, first: nat, from: nat, to: nat)
    requires from < to
  {
    || TicksToNanos(to - from) <= DISCONTINUITY_GAP
    || TicksToNanos(to - from) <= 2 * since
    || (&& s.Started() && to / WRAP == from / WRAP
        && Paths.SlotAt(s.cfg.m, first, from) < Paths.SlotAt(s.cfg.m, first, to) <= s.slot + s.cfg.maxLatency)
  }

  /** The leg stands on the source's clock at `time`, in its slot. */
  predicate OnSourceClock(s: Sched, first: nat, time: nat)
    requires first <= time
  {
    && s.store.Gridded? && s.store.grid.core.rateMap == s.cfg.m
    && s.store.grid.core.clock == Paths.ClockAt(s.cfg.m, first, time)
  }

  lemma StepFollows(s: Sched, p: Packet, now: nat, at: nat, first: nat, from: nat, to: nat)
    requires OpenedAt(s, Some(at)) && first <= from < to && to - from < WRAP / 2 && OnSourceClock(s, first, from)
    requires p.pid != NULL_PID && p.pcr == Some(to % WRAP) && !p.declared
    ensures
      var s' := s.Enqueue(p, now);
      && (Accounts(s, SatSub(now, at), first, from, to) <==> OnSourceClock(s', first, to))
      && (!OnSourceClock(s', first, to) ==> s'.store.Gridded? && s'.store.grid.core.clock.rebases == 1)
  {
    hide Sched.Enqueue, Core.EndRun, SlotFor, Paths.SlotAt, TicksToNanos, Paths.Lapped;
    Pair.EnqueuePushesCore(s, p, now);
    var horizon := if s.Started() then Some(s.slot + s.cfg.maxLatency) else None;
    var c, at := s.store.grid.core, s.store.grid.ArrivalAt(now, horizon);
    Paths.FollowsExactlyWhenAccounted(s.cfg.m, first, from, to, |c.run|, at);
    Paths.ClockSlotIsNatural(s.cfg.m, first, to);
    EndKeepsMap(c.Noted(p), c.Noted(p).Aims(p, at));
    EnqueueKeepsConfig(s, p, now);
  }

  lemma EnqueueKeepsConfig(s: Sched, p: Packet, now: nat)
    ensures s.Enqueue(p, now).cfg == s.cfg
  {
    hide Grid.Push, Sched.Boundary;
  }

  lemma EndKeepsMap(c: Core, aim: Aim)
    ensures c.EndRun(aim).rateMap == c.rateMap
  {
    hide Core.Misses, Spread;
  }

  /** Over every stream-clocked run from new: a leg on a source's clock that accepts the next
      PCR of it keeps to that clock across the step, undeclared and under half a wrap, if
      and only if it can account for it, by the time since it last accepted a PCR and by
      where its output stands; otherwise it re-bases. */
  lemma LegFollowsExactlyWhenAccounted(cfg: Config, calls: seq<Call>, p: Packet, now: nat,
      first: nat, from: nat, to: nat)
    requires cfg.streamed && first <= from < to && to - from < WRAP / 2
    requires OnSourceClock(RunCalls(NewSched(cfg), calls), first, from)
    requires p.pid != NULL_PID && p.pcr == Some(to % WRAP) && !p.declared
    ensures LastPcrAccepted(calls).Some?
    ensures
      var s := RunCalls(NewSched(cfg), calls);
      var s' := s.Enqueue(p, now);
      && (Accounts(s, SatSub(now, LastPcrAccepted(calls).value), first, from, to) <==> OnSourceClock(s', first, to))
      && (!OnSourceClock(s', first, to) ==> s'.store.Gridded? && s'.store.grid.core.clock.rebases == 1)
  {
    hide RunCalls, Sched.Enqueue, Accounts, Paths.SlotAt;
    RunOpens(cfg, calls);
    StepFollows(RunCalls(NewSched(cfg), calls), p, now, LastPcrAccepted(calls).value, first, from, to);
  }
}
