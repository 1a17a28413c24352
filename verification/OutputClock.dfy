/** The output clock over whole runs (src/scheduler.rs, `next_due`, `framing`, `catch_up`,
    `pcr_on`): where datagrams start, how they are numbered, when they are due, and how
    far they may trail what is placed. */
module OutputClock {
  import opened Prelude
  import opened Packets
  import opened SlotMaps
  import opened GridSpec
  import opened SchedulerSpec
  import Conservation
  import Drain
  import PcrRegens
  import Repetition
  import TwoLegs

  // ---- Where datagrams start ----

  predicate OnBoundary(s: Sched) {
    s.slot % s.cfg.perDatagram == 0
  }

  lemma MultipleLeavesNone(n: nat, q: nat, d: Positive)
    requires n == q * d
    ensures n % d == 0 && n / d == q
  {
    QuotientAtLeast(n, d, q);
    QuotientAtLeast(n, d, q + 1);
    assert (q + 1) * d == n + d;
    assert n == n / d * d + n % d;
  }

  lemma RemainderOff(n: nat, d: Positive)
    ensures (n - n % d) % d == 0 && (n % d == 0 ==> (n + d) % d == 0)
    ensures (n + d) / d == n / d + 1
  {
    var q, r := n / d, n % d;
    assert n == q * d + r;
    assert (q + 1) * d == q * d + d;
    MultipleLeavesNone(n - r, q, d);
    MultipleLeavesNone(n - r + d, q + 1, d);
    QuotientStep(n, d);
  }

  lemma BoundaryIsOne(s: Sched, slot: nat)
    ensures s.Boundary(slot) % s.cfg.perDatagram == 0
    ensures s.Boundary(slot) <= slot < s.Boundary(slot) + s.cfg.perDatagram
  {
    RemainderOff(slot, s.cfg.perDatagram);
  }

  lemma PositionedOnBoundary(s: Sched, now: nat)
    requires OnBoundary(s)
    ensures OnBoundary(s.Positioned(now))
  {
    hide Sched.Boundary;
    if s.store.Gridded? && s.store.grid.HasContent() {
      var placed := s.store.grid.queue.placed;
      BoundaryIsOne(s, Max(SatSub(placed[|placed| - 1].slot, s.cfg.latency), placed[0].slot));
    }
  }

  lemma EnqueueOnBoundary(s: Sched, p: Packet, now: nat)
    requires OnBoundary(s)
    ensures OnBoundary(s.Enqueue(p, now))
  {
    hide Grid.Push, Sched.Positioned;
    if p.pid != NULL_PID && s.store.Gridded? {
      var a := s.Resumed().Accepted(p, now);
      var pushed := s.store.grid.Push(p, now, if a.Started() then Some(a.slot + a.cfg.maxLatency) else None);
      PositionedOnBoundary(
        a.(store := Gridded(pushed.grid), stats := a.stats.(dropped := a.stats.dropped + pushed.dropped)), now);
    }
  }

  lemma SlotAdvances(s: Sched, x: Ctx)
    ensures
      var s' := EmitSlot(s, x).s;
      && s'.slot == s.slot + 1 && s'.cfg == s.cfg && s'.anchor == s.anchor && s'.anchorSlot == s.anchorSlot
      && (s.store.Buffered? ==> s'.store.Buffered? && s.released <= s'.released <= Max(s.released, x.due))
  {
    hide FillSlot, Transmit, Queue.Take, Counted;
  }

  lemma {:induction false} SlotsAdvance(s: Sched, n: nat, x: Ctx)
    ensures
      var s' := EmitSlots(s, n, x).s;
      && s'.slot == s.slot + n && s'.cfg == s.cfg && s'.anchor == s.anchor && s'.anchorSlot == s.anchorSlot
      && (s.store.Buffered? ==> s'.store.Buffered? && s.released <= s'.released <= Max(s.released, x.due))
  {
    hide EmitSlot;
    if n == 0 {
    } else {
      SlotsAdvance(s, n - 1, x);
      SlotAdvances(EmitSlots(s, n - 1, x).s, x);
    }
  }

  lemma CatchUpOnBoundary(s: Sched, now: nat)
    requires OnBoundary(s)
    ensures OnBoundary(s.CatchUp(now)) && s.CatchUp(now).slot >= s.slot
  {
    hide Sched.Boundary;
    if s.store.Gridded? && s.store.grid.HasContent() {
      var placed := s.store.grid.queue.placed;
      BoundaryIsOne(s, SatSub(placed[|placed| - 1].slot, s.cfg.latency));
    }
  }

  lemma EmitOnBoundary(s: Sched, now: nat, due: nat)
    requires OnBoundary(s)
    ensures OnBoundary(EmitDatagram(s, now, due).s)
  {
    hide EmitSlots, Opens, Sched.CatchUp;
    CatchUpOnBoundary(s, now);
    var caught := s.CatchUp(now);
    Conservation.CatchUpKeepsConfig(s, now);
    SlotsAdvance(Opening(caught, Opens(caught, now, due)), s.cfg.perDatagram, Opens(caught, now, due));
    RemainderOff(caught.slot, s.cfg.perDatagram);
  }

  lemma {:induction false} RunOnBoundary(s: Sched, calls: seq<Call>)
    requires OnBoundary(s)
    ensures OnBoundary(RunCalls(s, calls))
    decreases |calls|
  {
    hide EmitDatagram, Sched.Enqueue, OnBoundary;
    if calls == [] {
    } else {
      match calls[0] {
        case Enqueue(p, now) => EnqueueOnBoundary(s, p, now);
        case Emit(now, due) => EmitOnBoundary(s, now, due);
        case Mute(now) => MuteOnBoundary(s, now);
      }
      RunOnBoundary(Do(s, calls[0]), calls[1..]);
    }
  }

  lemma MuteOnBoundary(s: Sched, now: nat)
    requires OnBoundary(s)
    ensures OnBoundary(AdvanceMuted(s, now))
  {
    RemainderOff(s.slot, s.cfg.perDatagram);
  }

  // ---- How they are numbered ----

  /** The sequence number a datagram carries identifies it among the 65536 around it, and
      the next one carries the next. */
  lemma SequenceIdentifies(c: Config, a: nat, b: nat)
    requires a % c.perDatagram == 0 && b % c.perDatagram == 0
    ensures Frame(c, a).sequence == Frame(c, b).sequence
      <==> (a / c.perDatagram - b / c.perDatagram) % 0x1_0000 == 0
    ensures Frame(c, a + c.perDatagram).sequence == (Frame(c, a).sequence + 1) % 0x1_0000
  {
    RemainderOff(a, c.perDatagram);
    SeededAlike(a / c.perDatagram, b / c.perDatagram, c.seed);
    SeededNext(a / c.perDatagram, c.seed);
  }

  lemma SeededAlike(x: nat, y: nat, seed: nat)
    ensures Seeded(x, seed) == Seeded(y, seed) <==> (x - y) % 0x1_0000 == 0
  {
    assert (x % 0x1_0000 + seed - (y % 0x1_0000 + seed)) % 0x1_0000 == (x - y) % 0x1_0000;
  }

  lemma SeededNext(x: nat, seed: nat)
    ensures Seeded(x + 1, seed) == (Seeded(x, seed) + 1) % 0x1_0000
  {
  }

  /** Two legs of a pair, whatever each has been through, stand on datagram boundaries of
      the one stream. They offer the same sequence number exactly when they stand a whole
      number of 65536 datagrams apart, and at the same slot the same framing. */
  lemma LegsNumberTheStream(a: Config, b: Config, callsA: seq<Call>, callsB: seq<Call>)
    requires TwoLegs.Line(a) == TwoLegs.Line(b)
    ensures
      var x, y := RunCalls(NewSched(a), callsA), RunCalls(NewSched(b), callsB);
      && x.slot % a.perDatagram == 0 && y.slot % a.perDatagram == 0
      && (FramingOf(x).sequence == FramingOf(y).sequence
          <==> (x.slot / a.perDatagram - y.slot / a.perDatagram) % 0x1_0000 == 0)
      && (FramingOf(x) == FramingOf(y) <==> x.slot == y.slot)
  {
    hide RunCalls;
    StartsOnBoundary(a, callsA);
    StartsOnBoundary(b, callsB);
    var x, y := RunCalls(NewSched(a), callsA), RunCalls(NewSched(b), callsB);
    LineFrames(a, b, y.slot);
    SequenceIdentifies(a, x.slot, y.slot);
  }

  lemma LineFrames(a: Config, b: Config, slot: nat)
    requires TwoLegs.Line(a) == TwoLegs.Line(b)
    ensures Frame(a, slot) == Frame(b, slot)
  {
  }

  lemma StartsOnBoundary(cfg: Config, calls: seq<Call>)
    ensures
      var s := RunCalls(NewSched(cfg), calls);
      OnBoundary(s) && s.cfg == cfg
  {
    hide RunCalls;
    RunOnBoundary(NewSched(cfg), calls);
    Conservation.RunKeepsConfig(NewSched(cfg), calls);
  }

  // ---- When they are due ----

  /** How many datagrams the calls ask for, sent, withheld or muted. */
  function Asked(calls: seq<Call>): nat {
    if calls == [] then 0 else (if calls[0].Enqueue? then 0 else 1) + Asked(calls[1..])
  }

  /** Under arrival clocking, once armed, the output clock is the wire's and nothing
      else's: whatever is fed, whatever stalls or is muted, and however late the polls,
      the next datagram is due exactly as many datagrams after the anchor as have been
      asked for. */
  lemma {:induction false} WireClockRunsOn(s: Sched, calls: seq<Call>)
    requires s.store.Buffered? && s.anchor.Some?
    ensures
      var s' := RunCalls(s, calls);
      && s'.store.Buffered? && s'.anchor == s.anchor && s'.anchorSlot == s.anchorSlot
      && s'.slot == s.slot + Asked(calls) * s.cfg.perDatagram
      && NextDue(s') == Some(s.anchor.value
           + SendNanos(s.cfg.m, SatSub(s.slot + Asked(calls) * s.cfg.perDatagram, s.anchorSlot)))
    decreases |calls|
  {
    hide EmitDatagram, Sched.Enqueue, SendNanos;
    Conservation.RunKeepsConfig(s, calls);
    if calls == [] {
    } else {
      var n := s.cfg.perDatagram;
      CallRunsOn(s, calls[0]);
      WireClockRunsOn(Do(s, calls[0]), calls[1..]);
      assert (1 + Asked(calls[1..])) * n == n + Asked(calls[1..]) * n;
    }
  }

  lemma CallRunsOn(s: Sched, call: Call)
    requires s.store.Buffered? && s.anchor.Some?
    ensures
      var s' := Do(s, call);
      && s'.store.Buffered? && s'.anchor == s.anchor && s'.anchorSlot == s.anchorSlot && s'.cfg == s.cfg
      && s'.slot == s.slot + if call.Enqueue? then 0 else s.cfg.perDatagram
  {
    hide EmitSlots, Opens;
    if call.Emit? {
      Repetition.CatchUpIsForGrids(s, call.now);
      var x := Opens(s, call.now, call.due);
      SlotsAdvance(Opening(s, x), s.cfg.perDatagram, x);
    }
  }

  /** Any two due times under one anchor differ by the exact time the slots between take,
      to within a nanosecond: each is computed afresh, so no error accumulates. */
  lemma DueTimesDoNotDrift(m: SlotMap, i: nat, j: nat)
    requires i <= j
    ensures SendNanos(m, i) <= SendNanos(m, j)
    ensures
      var nanos := SendNanos(m, j) - SendNanos(m, i);
      -(m.rate as int) < nanos * m.rate - (j - i) * PACKET_BITS * 1_000_000_000 < m.rate
  {
    var a, b := i * PACKET_BITS * 1_000_000_000, j * PACKET_BITS * 1_000_000_000;
    QuotientBounds(a, m.rate);
    QuotientBounds(b, m.rate);
    QuotientAtLeast(b, m.rate, a / m.rate);
    assert (b / m.rate - a / m.rate) * m.rate == b / m.rate * m.rate - a / m.rate * m.rate;
  }

  /** Under arrival clocking a datagram never releases past what the media clock said was
      due, whatever its length. */
  lemma ReleasesOnlyWhatIsDue(s: Sched, now: nat, due: nat)
    requires s.store.Buffered?
    ensures s.released <= EmitDatagram(s, now, due).s.released <= Max(s.released, due)
  {
    hide EmitSlots, Opens;
    Repetition.CatchUpIsForGrids(s, now);
    var x := Opens(s, now, due);
    Drain.SendsOffGrid(s, now, due);
    SlotsAdvance(Opening(s, x), s.cfg.perDatagram, x);
  }

  // ---- How far behind ----

  function LiveEdge(s: Sched): nat
    requires s.store.Gridded? && s.store.grid.HasContent()
  {
    s.store.grid.queue.placed[|s.store.grid.queue.placed| - 1].slot
  }

  /** A stream-clocked leg opens no datagram further behind what it has placed than its
      buffer may be deep, or than its release latency and the datagram the clock was
      rounded down by. To get there it only ever jumps forwards, and only from further
      back than the buffer may be deep. */
  lemma LagIsBounded(s: Sched, now: nat)
    requires s.store.Gridded? && s.store.grid.HasContent()
    ensures
      var c := s.CatchUp(now);
      && SatSub(LiveEdge(s), c.slot) <= Max(s.cfg.maxLatency, s.cfg.latency + s.cfg.perDatagram - 1)
      && c.slot >= s.slot
      && (c.slot != s.slot ==> SatSub(LiveEdge(s), s.slot) > s.cfg.maxLatency && c.em.deferred == [] && !c.em.phased)
  {
    hide Sched.Boundary;
    BoundaryIsOne(s, SatSub(LiveEdge(s), s.cfg.latency));
  }

  // ---- The clock it carries ----

  /** The clock value a cell carries, where it has been given one. */
  function ClockOf(cell: Cell): Option<nat> {
    match cell
    case Content(_, clock, _) => clock
    case PcrOnly(_, _, pcr) => Some(pcr)
    case Null => None
  }

  /** The clocks of two slots on one time base, at any distance, are apart by the exact time
      the slots between take, modulo the wrap, to within a tick. What goes out under stream
      clocking is such clocks (`StreamClocks.WireClocksAreTheGrids`). */
  lemma StreamClockDoesNotDrift(c: Config, offset: int, i: nat, j: nat) returns (ticks: nat)
    requires offset <= i <= j
    ensures (GridClock(c, i, offset) + ticks) % WRAP == GridClock(c, j, offset)
    ensures -(c.m.rate as int) < ticks * c.m.rate - (j - i) * SLOT_COST < c.m.rate
  {
    hide SlotMap.TicksOfSlot;
    TicksMonotone(c.m, i - offset, j - offset);
    ticks := c.m.TicksOfSlot(j - offset) - c.m.TicksOfSlot(i - offset);
    PcrRegens.FloorDifference(c.m, i - offset, j - offset);
    PcrRegens.AddModulo(c.m.TicksOfSlot(i - offset), ticks);
  }

  /** Every clock among `cells`, the first of them in slot `index`, that went out at or
      past the anchor of `r` is the anchor's value and the byte clock since. */
  ghost predicate LockedTo(cells: seq<Cell>, index: nat, r: PcrRegens.Regen) {
    forall i | 0 <= i < |cells| && ClockOf(cells[i]).Some? && r.anchor.Some? && index + i >= r.anchor.value.index ::
      ClockOf(cells[i]) == r.Locked(index + i)
  }

  /** The anchor of `r` stands, or one at or past slot `index` has replaced it. */
  predicate AnchoredOn(r: PcrRegens.Regen, r': PcrRegens.Regen, index: nat) {
    r'.m == r.m && (r'.anchor == r.anchor || (r'.anchor.Some? && r'.anchor.value.index >= index))
  }

  lemma StillLocked(cells: seq<Cell>, index: nat, r: PcrRegens.Regen, r': PcrRegens.Regen)
    requires LockedTo(cells, index, r) && AnchoredOn(r, r', index + |cells|)
    ensures LockedTo(cells, index, r')
  {
    hide SlotMap.TicksOfSlot;
  }

  /** Under arrival clocking: content waits in the buffer. */
  predicate OffGrid(s: Sched) {
    s.store.Buffered? && !s.cfg.streamed
  }

  lemma SlotIsLocked(s: Sched, x: Ctx)
    requires OffGrid(s)
    ensures
      var f := EmitSlot(s, x);
      && OffGrid(f.s) && f.s.slot == s.slot + 1 && AnchoredOn(s.regen, f.s.regen, s.slot)
      && LockedTo([f.cell], s.slot, f.s.regen)
  {
    hide SlotMap.TicksOfSlot, Counted, PcrRegens.Regen.Breaks;
  }

  lemma {:induction false} SlotsAreLocked(s: Sched, n: nat, x: Ctx)
    requires OffGrid(s)
    ensures
      var e := EmitSlots(s, n, x);
      && OffGrid(e.s) && e.s.slot == s.slot + n && AnchoredOn(s.regen, e.s.regen, s.slot)
      && LockedTo(e.cells, s.slot, e.s.regen)
  {
    hide EmitSlot, OffGrid, LockedTo;
    if n == 0 {
      NothingIsLocked(s.slot, s.regen);
    } else {
      SlotsAreLocked(s, n - 1, x);
      var b := EmitSlots(s, n - 1, x);
      SlotIsLocked(b.s, x);
      var f := EmitSlot(b.s, x);
      StillLocked(b.cells, s.slot, b.s.regen, f.s.regen);
      LockedJoin(b.cells, [f.cell], s.slot, f.s.regen);
    }
  }

  lemma NothingIsLocked(index: nat, r: PcrRegens.Regen)
    ensures LockedTo([], index, r)
  {
  }

  lemma LockedJoin(a: seq<Cell>, b: seq<Cell>, index: nat, r: PcrRegens.Regen)
    requires LockedTo(a, index, r) && LockedTo(b, index + |a|, r)
    ensures LockedTo(a + b, index, r)
  {
    hide PcrRegens.Regen.Locked, ClockOf;
    forall i | 0 <= i < |a + b| && ClockOf((a + b)[i]).Some? && r.anchor.Some? && index + i >= r.anchor.value.index
      ensures ClockOf((a + b)[i]) == r.Locked(index + i)
    {
      if i < |a| {
        assert (a + b)[i] == a[i];
      } else {
        assert (a + b)[i] == b[i - |a|];
        assert index + |a| + (i - |a|) == index + i;
      }
    }
  }

  lemma CallIsLocked(s: Sched, call: Call)
    requires OffGrid(s)
    ensures
      var s' := Do(s, call);
      && OffGrid(s') && s'.slot >= s.slot && AnchoredOn(s.regen, s'.regen, s.slot)
      && (call.Emit? ==>
            LockedTo(EmitDatagram(s, call.now, call.due).cells, s.slot, s'.regen)
            && s'.slot == s.slot + |EmitDatagram(s, call.now, call.due).cells|)
  {
    hide EmitSlots, Opens, LockedTo;
    if call.Emit? {
      Repetition.CatchUpIsForGrids(s, call.now);
      Drain.SendsOffGrid(s, call.now, call.due);
      var x := Opens(s, call.now, call.due);
      SlotsAreLocked(Opening(s, x), s.cfg.perDatagram, x);
    }
  }

  lemma {:induction false} AnchorComesLater(s: Sched, calls: seq<Call>)
    requires OffGrid(s)
    ensures AnchoredOn(s.regen, RunCalls(s, calls).regen, s.slot)
    decreases |calls|
  {
    hide OffGrid, EmitDatagram, LockedTo, Sched.Enqueue;
    if calls == [] {
    } else {
      CallIsLocked(s, calls[0]);
      AnchorComesLater(Do(s, calls[0]), calls[1..]);
    }
  }

  /** Each datagram of a run, numbered by its own slots, is locked to `r`. */
  ghost predicate RunLockedTo(s: Sched, calls: seq<Call>, r: PcrRegens.Regen)
    decreases |calls|
  {
    calls == [] ||
    ((calls[0].Emit? ==> LockedTo(EmitDatagram(s, calls[0].now, calls[0].due).cells, s.slot, r))
     && RunLockedTo(Do(s, calls[0]), calls[1..], r))
  }

  lemma {:induction false} RunIsLocked(s: Sched, calls: seq<Call>)
    requires OffGrid(s)
    ensures RunLockedTo(s, calls, RunCalls(s, calls).regen)
    decreases |calls|
  {
    hide OffGrid, EmitDatagram, LockedTo, Sched.Enqueue, AnchoredOn;
    if calls == [] {
    } else {
      var s', last := Do(s, calls[0]), RunCalls(s, calls).regen;
      CallIsLocked(s, calls[0]);
      AnchorComesLater(s', calls[1..]);
      RunIsLocked(s', calls[1..]);
      if calls[0].Emit? {
        StillLocked(EmitDatagram(s, calls[0].now, calls[0].due).cells, s.slot, s'.regen, last);
      }
    }
  }

  /** Under arrival clocking, over every run through any stalls and muting: every clock put
      on the wire since the last re-base, on content or inserted, is that re-base's anchor
      and the exact byte clock to its slot, so no two of them drift apart
      (`PcrRegens.LockedDoesNotDrift`). */
  lemma ArrivalClockIsLocked(cfg: Config, calls: seq<Call>)
    requires !cfg.streamed
    ensures RunLockedTo(NewSched(cfg), calls, RunCalls(NewSched(cfg), calls).regen)
  {
    RunIsLocked(NewSched(cfg), calls);
  }
}
