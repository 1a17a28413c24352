/** What each call on the scheduler does, on values (src/scheduler.rs, `Scheduler`).

    The class `Schedulers.Scheduler` holds the same state in fields and is proved to
    follow these functions. Depths are pinned (`Latency::Fixed`), already in packets;
    under arrival clocking what the media clock says is due is a parameter. `input` and
    `out` are history: every packet accepted, and every content packet put in an output
    slot. */
module SchedulerSpec {
  import opened Prelude
  import opened Packets
  import opened SlotMaps
  import opened GridSpec
  import opened JitterBuffers
  import opened PcrRegens

  datatype Config = Config(
    m: SlotMap, perDatagram: Positive, pcrMax: Positive, latency: nat, maxLatency: Positive,
    target: nat, stallTimeout: Option<nat>, regenerate: bool, streamed: bool, seed: nat)

  // ---- One output slot ----

  /** What decides the emission from here on: content let out but not yet sent, where the
      last PCR was, the counter and time base an inserted PCR would continue, and whether
      these are the stream's doing rather than this leg's. */
  datatype Emission = Emission(deferred: seq<Queued>, lastPcr: Option<nat>, cc: Counter, base: int, phased: bool)

  /** A slot about to be filled. `lockable` is whether the clock has an anchor to insert
      a PCR from, `determined` whether the leg knows what its partner sends here. */
  datatype Moment = Moment(index: nat, stalled: bool, determined: bool, pid: Option<Pid>, lockable: bool)

  datatype Pick = PickPcr | PickContent(queued: Queued) | PickNull

  predicate HeadHasPcr(e: Emission) {
    e.deferred != [] && e.deferred[0].packet.pcr.Some?
  }

  /** A re-inserted PCR takes the slot whatever else wanted it, unless what is queued for
      it carries a PCR of its own. */
  predicate Reinserts(c: Config, e: Emission, t: Moment) {
    && !t.stalled && (c.streamed ==> e.phased) && c.regenerate && t.pid.Some? && e.lastPcr.Some?
    && SatSub(t.index, e.lastPcr.value) >= c.pcrMax
    && !HeadHasPcr(e) && t.lockable
  }

  datatype Transmitted = Transmitted(em: Emission, pick: Pick)

  function Transmit(c: Config, e: Emission, t: Moment, admitted: bool): Transmitted {
    if Reinserts(c, e, t) then Transmitted(e.(lastPcr := Some(t.index)), PickPcr)
    else if e.deferred == [] then Transmitted(e, PickNull)
    else
      var q, rest := e.deferred[0], e.deferred[1..];
      var isPcr := q.packet.pcr.Some?;
      Transmitted(
        Emission(rest,
                 if isPcr then Some(t.index) else e.lastPcr,
                 if t.pid == Some(q.packet.pid) then q.packet.cc else e.cc,
                 if isPcr && c.regenerate && c.streamed then q.base.offset else e.base,
                 e.phased || (isPcr && admitted && rest == [] && t.determined)),
        PickContent(q))
  }

  /** What goes on the wire in one slot. A content packet's clock is rewritten to `clock`
      where there is one, and `mark` is set with it. */
  datatype Cell =
    | Content(packet: Packet, clock: Option<nat>, mark: bool)
    | PcrOnly(pid: Pid, cc: Counter, pcr: nat)
    | Null

  predicate CarriesPcr(cell: Cell) {
    cell.PcrOnly? || (cell.Content? && cell.packet.pcr.Some?)
  }

  /** The clock of a slot on a time base, under stream clocking. */
  function GridClock(c: Config, index: nat, offset: int): nat {
    c.m.PcrOfSlot(Max(index - offset, 0))
  }

  datatype Stamping = Stamping(regen: Regen, cell: Cell)

  /** A content packet with its PCR regenerated, in output slot `index`. */
  function Stamp(c: Config, r: Regen, q: Queued, index: nat): Stamping {
    var p := q.packet;
    if !c.regenerate || p.pcr.None? then Stamping(r, Content(p, None, false))
    else if c.streamed then
      Stamping(r.(flagNext := false), Content(p, Some(GridClock(c, index, q.base.offset)), q.base.starts || r.flagNext))
    else
      var r' := r.Observe(p.pcr.value, p.declared, index);
      Stamping(r', Content(p, r'.Locked(index), r.Flags(p.pcr.value, p.declared)))
  }

  function InsertedClock(c: Config, r: Regen, e: Emission, index: nat): nat {
    if c.streamed then GridClock(c, index, e.base)
    else if r.Locked(index).Some? then r.Locked(index).value else 0
  }

  function FillSlot(c: Config, r: Regen, e: Emission, t: Moment, pick: Pick): Stamping {
    match pick
    case PickContent(q) => Stamp(c, r, q, t.index)
    case PickPcr => Stamping(r, PcrOnly(if t.pid.Some? then t.pid.value else 0, e.cc, InsertedClock(c, r, e, t.index)))
    case PickNull => Stamping(r, Null)
  }

  // ---- The whole state ----

  datatype Stats = Stats(
    output: nat, content: nat, nulls: nat, inserted: nat, underruns: nat, withheld: nat,
    late: nat, dropped: nat, muted: nat, inputNulls: nat, resyncs: nat)

  /** A slot counted by what went out in it, if its datagram is sent. */
  function Counted(stats: Stats, pick: Pick, send: bool, starved: bool): Stats {
    if !send then stats
    else
      var s := stats.(output := stats.output + 1);
      match pick
      case PickContent(_) => s.(content := s.content + 1)
      case PickPcr => s.(inserted := s.inserted + 1)
      case PickNull => s.(nulls := s.nulls + 1, underruns := s.underruns + if starved then 1 else 0)
  }

  /** Where content waits: on the grid, or in the jitter buffer. */
  datatype Store = Gridded(grid: Grid) | Buffered(buffer: Fifo)
  {
    predicate HasContent() {
      match this
      case Gridded(grid) => grid.HasContent()
      case Buffered(buffer) => buffer.queue != []
    }
  }

  datatype SourceState = Priming | Live | Starved | Stalled

  datatype Sched = Sched(
    cfg: Config, pid: Option<Pid>, em: Emission, regen: Regen, slot: nat,
    anchor: Option<nat>, anchorSlot: nat, store: Store, released: nat,
    lastContentAt: Option<nat>, stalled: bool, stats: Stats,
    input: seq<Packet>, out: seq<Packet>)
  {
    predicate HasPending() {
      em.deferred != [] || store.HasContent()
    }

    function State(now: nat): SourceState {
      if lastContentAt.None? || anchor.None? || now < anchor.value then Priming
      else if HasPending() then Live
      else
        var silent := SatSub(now, lastContentAt.value);
        if cfg.stallTimeout.Some? && silent >= cfg.stallTimeout.value then Stalled
        else if silent >= cfg.target then Starved
        else Live
    }

    predicate Started() {
      stats.output + stats.withheld > 0
    }

    function Boundary(start: nat): nat {
      start - start % cfg.perDatagram
    }

    // -- Input --

    /** The media timeline restarts; the output clock has run on. */
    function Resumed(): Sched {
      if !stalled then this
      else if store.Gridded? then this.(stalled := false)
      else this.(stalled := false, regen := regen.Flagged(), released := 0)
    }

    /** Until the first datagram, the output starts at the live edge of what is placed,
        one release latency back, on a datagram boundary. */
    function Positioned(now: nat): Sched {
      if Started() || store.Buffered? || !store.grid.HasContent() then this
      else
        var placed := store.grid.queue.placed;
        var start := Boundary(Max(SatSub(placed[|placed| - 1].slot, cfg.latency), placed[0].slot));
        this.(anchor := if anchor.Some? then anchor else Some(now + cfg.target), anchorSlot := start, slot := start)
    }

    function Accepted(p: Packet, now: nat): Sched {
      this.(lastContentAt := Some(now), input := input + [p],
            pid := if pid.None? && p.pcr.Some? then Some(p.pid) else pid)
    }

    function Stored(p: Packet, now: nat): Sched {
      match store
      case Gridded(grid) =>
        var pushed := grid.Push(p, now, if Started() then Some(slot + cfg.maxLatency) else None);
        this.(store := Gridded(pushed.grid), stats := stats.(dropped := stats.dropped + pushed.dropped)).Positioned(now)
      case Buffered(buffer) =>
        this.(store := Buffered(buffer.Push(p)), stats := stats.(dropped := stats.dropped + buffer.Drops()),
              anchor := if anchor.Some? then anchor else Some(now + cfg.target))
    }

    function Enqueue(p: Packet, now: nat): Sched {
      if p.pid == NULL_PID then this.(stats := stats.(inputNulls := stats.inputNulls + 1))
      else Resumed().Accepted(p, now).Stored(p, now)
    }

    function Flush(): Sched {
      match store
      case Gridded(grid) => this.(store := Gridded(grid.Flush()))
      case Buffered(_) => this
    }

    // -- Output --

    /** Move to the live edge when holding more stream than the buffer may be deep. */
    function CatchUp(now: nat): Sched {
      if store.Buffered? || !store.grid.HasContent() then this
      else
        var placed := store.grid.queue.placed;
        var edge := placed[|placed| - 1].slot;
        var target := Boundary(SatSub(edge, cfg.latency));
        if SatSub(edge, slot) <= cfg.maxLatency || target <= slot then this
        else
          this.(anchor := Some(now), anchorSlot := target, slot := target,
                stats := stats.(late := stats.late + |em.deferred|, resyncs := stats.resyncs + 1),
                em := em.(deferred := [], phased := false))
    }

    /** Move at most one packet into the emission queue: the one whose slot this is, or
        the next if one is due. */
    function Admit(want: bool): Sched {
      match store
      case Gridded(grid) =>
        var taken := grid.queue.Take(slot);
        var s := this.(store := Gridded(grid.(queue := taken.queue)), stats := stats.(late := stats.late + taken.late));
        if taken.content.None? then s else s.LetOut(taken.content.value)
      case Buffered(buffer) =>
        if !want || buffer.queue == [] then this
        else
          this.(store := Buffered(buffer.(queue := buffer.queue[1..]))).LetOut(Queued(buffer.queue[0], Base(0, false)))
    }

    function LetOut(q: Queued): Sched {
      this.(released := released + 1, em := em.(deferred := em.deferred + [q]))
    }

    function MomentAt(stalledNow: bool, determined: bool): Moment {
      Moment(slot, stalledNow, determined, pid, cfg.streamed || regen.anchor.Some?)
    }
  }

  datatype Ctx = Ctx(stalled: bool, determined: bool, send: bool, due: nat)

  datatype Filled = Filled(s: Sched, cell: Cell)

  datatype Emitted = Emitted(s: Sched, cells: seq<Cell>)

  /** Fill the next slot from the emission queue. */
  function PutSlot(s: Sched, x: Ctx, want: bool, admitted: bool): Filled {
    var t := s.MomentAt(x.stalled, x.determined);
    var sent := Transmit(s.cfg, s.em, t, admitted);
    var filled := FillSlot(s.cfg, s.regen, s.em, t, sent.pick);
    Filled(
      s.(em := sent.em, regen := filled.regen, slot := s.slot + 1,
         stats := Counted(s.stats, sent.pick, x.send, want && !x.stalled),
         out := if sent.pick.PickContent? then s.out + [sent.pick.queued.packet] else s.out),
      filled.cell)
  }

  function EmitSlot(s: Sched, x: Ctx): Filled {
    var want := s.released < x.due;
    var a := s.Admit(want);
    PutSlot(a, x, want, |a.em.deferred| > |s.em.deferred|)
  }

  function EmitSlots(s: Sched, n: nat, x: Ctx): (e: Emitted)
    ensures |e.cells| == n
  {
    if n == 0 then Emitted(s, [])
    else
      var before := EmitSlots(s, n - 1, x);
      var next := EmitSlot(before.s, x);
      Emitted(next.s, before.cells + [next.cell])
  }

  /** What holds for every slot of a datagram opened by `s`, the clock caught up. */
  function Opens(s: Sched, now: nat, due: nat): Ctx {
    var stalled := s.State(now).Stalled?;
    match s.store
    case Gridded(grid) =>
      var determined := !stalled && grid.core.Determined(s.slot, s.slot + s.cfg.perDatagram);
      Ctx(stalled, determined, determined && s.em.phased, due)
    case Buffered(_) => Ctx(stalled, false, true, due)
  }

  /** The state a datagram's slots are filled from. */
  function Opening(s: Sched, x: Ctx): Sched {
    s.(stalled := x.stalled, em := if s.store.Gridded? && !x.determined then s.em.(phased := false) else s.em)
  }

  /** Emit one datagram; no cells when the leg cannot know what its partner sends. */
  function EmitDatagram(s: Sched, now: nat, due: nat): Emitted {
    var caught := s.CatchUp(now);
    var x := Opens(caught, now, due);
    var emitted := EmitSlots(Opening(caught, x), s.cfg.perDatagram, x);
    if x.send then emitted
    else Emitted(emitted.s.(stats := emitted.s.stats.(withheld := emitted.s.stats.withheld + s.cfg.perDatagram)), [])
  }

  /** Pass a datagram's slots over without emitting them. */
  function AdvanceMuted(s: Sched, now: nat): Sched {
    s.(stalled := s.State(now).Stalled?, slot := s.slot + s.cfg.perDatagram, em := s.em.(phased := false),
       stats := s.stats.(muted := s.stats.muted + s.cfg.perDatagram))
  }

  // -- What numbers and times the output --

  /** Whole nanoseconds `slots` take to send at the mux rate. */
  function SendNanos(m: SlotMap, slots: nat): nat {
    slots * PACKET_BITS * 1_000_000_000 / m.rate
  }

  /** When the next datagram is due, once the clock is armed. */
  function NextDue(s: Sched): Option<nat> {
    if s.anchor.None? then None
    else Some(s.anchor.value + SendNanos(s.cfg.m, SatSub(s.slot, s.anchorSlot)))
  }

  datatype Framing = Framing(slot: nat, sequence: nat, timestamp: nat)

  /** A datagram's index, cut to sixteen bits and added to the seed as they wrap. */
  function Seeded(index: nat, seed: nat): nat {
    (index % 0x1_0000 + seed) % 0x1_0000
  }

  /** The numbering of the datagram that starts at `slot`. */
  function Frame(c: Config, slot: nat): Framing {
    Framing(slot, Seeded(slot / c.perDatagram, c.seed), c.m.PcrOfSlot(slot) / 300 % 0x1_0000_0000)
  }

  function FramingOf(s: Sched): Framing {
    Frame(s.cfg, s.slot)
  }

  function NewSched(cfg: Config): Sched {
    Sched(cfg, None, Emission([], None, 0, 0, false), NewRegen(cfg.m), 0, None, 0,
          if cfg.streamed then Gridded(NewGrid(cfg.m, cfg.maxLatency)) else Buffered(Fifo([], cfg.maxLatency)),
          0, None, false, Stats(0, 0, 0, 0, 0, 0, 0, 0, 0, 0, 0), [], [])
  }

  // ---- Whole runs ----

  datatype Call =
    | Enqueue(packet: Packet, now: nat)
    | Emit(now: nat, due: nat)
    | Mute(now: nat)

  function Do(s: Sched, call: Call): Sched {
    match call
    case Enqueue(p, now) => s.Enqueue(p, now)
    case Emit(now, due) => EmitDatagram(s, now, due).s
    case Mute(now) => AdvanceMuted(s, now)
  }

  function RunCalls(s: Sched, calls: seq<Call>): Sched
    decreases |calls|
  {
    if calls == [] then s else RunCalls(Do(s, calls[0]), calls[1..])
  }
}
