/** What each operation of the stream-clocked grid does, on values.

    The grid's state falls in two: `Core`, which turns the packet stream into
    placements and is fed by nothing but pushes, and the queue of `Grid`, which holds
    the placements until their slot and is drained by `Take`. The class
    `StreamGrids.StreamGrid` keeps the same fields flat, updates them in place, and is
    proved to do what these functions say.

    Three things here are history, kept for stating properties and read by no
    operation: `Core.log`, every placement ever made; `Core.loads`, packets less slots
    for every run ever closed; and `Clock.wraps` and `Core.openWraps`, wraps counted so
    far and when the open run's PCR arrived. */
module GridSpec {
  import opened Prelude
  import opened Packets
  import opened SlotMaps
  import opened Continuity

  const RECENT_SPANS: nat := 8
  const MISSED_PCR_FACTOR: nat := 2

  /** The packet that opened the run being gathered: its PCR, and its slot. */
  datatype Opened = Opened(pcr: nat, slot: nat)

  datatype Clock = Clock(open: Option<Opened>, epoch: int, rebased: int, rebases: nat, wraps: nat)

  // ---- Where a PCR lands (`slot_for`) ----

  /** How a step from the open PCR to the next is read. */
  datatype Verdict =
    | Rebase                     // the source clock moved
    | Wrap                       // the 33-bit value wrapped, the stream did not
    | Carry(afterSilence: bool)  // same clock; whether a quiet spell lies between

  /** When a step arrived: how long since the open PCR did, and the furthest slot the
      leg's buffer may hold. This is all of the path that placement can see. */
  datatype Arrival = Arrival(since: nat, horizon: Option<nat>)

  predicate Jumped(delta: nat) {
    delta == 0 || TicksToNanos(delta) > DISCONTINUITY_GAP
  }

  predicate ExplainedBySilence(delta: nat, declared: bool, since: nat) {
    delta > 0 && TicksToNanos(delta) <= if declared then since + since / 4 else since * 2
  }

  predicate WithinHorizon(delta: nat, onGrid: int, openSlot: nat, horizon: Option<nat>) {
    delta > 0 && onGrid > openSlot && horizon.Some? && onGrid <= horizon.value
  }

  function Judge(m: SlotMap, c: Clock, pcr: nat, declared: bool, at: Arrival): Verdict
    requires c.open.Some?
  {
    var delta := ForwardDelta(c.open.value.pcr, pcr);
    var onGrid := m.SlotOfPcr(pcr) + c.epoch;
    if && (Jumped(delta) || declared)
       && !ExplainedBySilence(delta, declared, at.since)
       && (declared || !WithinHorizon(delta, onGrid, c.open.value.slot, at.horizon))
    then Rebase
    else if onGrid < c.open.value.slot then Wrap
    else Carry(Jumped(delta))
  }

  /** The clock after a verdict. A re-base resumes where the open run ends. */
  function Applied(m: SlotMap, c: Clock, runLength: nat, pcr: nat, v: Verdict): Clock
    requires c.open.Some?
  {
    match v
    case Rebase =>
      var epoch := c.open.value.slot + Max(runLength, 1) - m.SlotOfPcr(pcr);
      c.(epoch := epoch, rebased := c.rebased + epoch - c.epoch, rebases := c.rebases + 1)
    case Wrap =>
      c.(epoch := c.epoch + m.SlotsPerWrap(), wraps := c.wraps + 1)
    case Carry(_) => c
  }

  datatype Aim = Aim(clock: Clock, slot: nat, afterSilence: bool)

  function SlotFor(m: SlotMap, c: Clock, runLength: nat, pcr: nat, declared: bool, at: Arrival): Aim {
    var v := if c.open.None? then Carry(false) else Judge(m, c, pcr, declared, at);
    var c' := if c.open.None? then c else Applied(m, c, runLength, pcr, v);
    Aim(c', Max(m.SlotOfPcr(pcr) + c'.epoch, 0), v == Carry(true))
  }

  // ---- Spreading a run over its slots (`close_run`) ----

  /** A packet given its slot. `base` is the re-base total in force when its run's PCR
      arrived. `ideal` and `wraps` are history: the slot its PCRs asked for, and the
      wraps the grid had counted. */
  datatype Placement = Placement(slot: nat, packet: Packet, base: int, ideal: nat, wraps: nat)

  /** The slot an even spread asks for. */
  function Ideal(openSlot: nat, span: nat, count: Positive, index: nat): nat {
    openSlot + index * span / count
  }

  /** Places `run[index..]`, each packet in its ideal slot or the first free one. */
  function Spread(run: seq<Packet>, index: nat, openSlot: nat, span: nat, free: nat, base: int, wraps: nat)
    : (placed: seq<Placement>)
    requires index <= |run|
    ensures |placed| == |run| - index
    decreases |run| - index
  {
    if index == |run| then []
    else
      var ideal := Ideal(openSlot, span, |run|, index);
      var slot := Max(ideal, free);
      [Placement(slot, run[index], base, ideal, wraps)]
        + Spread(run, index + 1, openSlot, span, slot + 1, base, wraps)
  }

  /** The first free slot after `placed`, `free` being the first before it. */
  function FreeAfter(placed: seq<Placement>, free: nat): nat {
    if placed == [] then free else placed[|placed| - 1].slot + 1
  }

  function Remember(spans: seq<nat>, span: nat): seq<nat> {
    (if |spans| == RECENT_SPANS then spans[1..] else spans) + [span]
  }

  function Longest(spans: seq<nat>): nat {
    if spans == [] then 0 else Max(spans[0], Longest(spans[1..]))
  }

  predicate MissedPcrs(spans: seq<nat>, span: nat) {
    Longest(spans) > 0 && span >= Longest(spans) * MISSED_PCR_FACTOR
  }

  datatype Core = Core(
    rateMap: SlotMap,
    knownFrom: Option<nat>,
    recentSpans: seq<nat>,
    cut: nat,
    continuity: Table,
    runBroken: bool,
    run: seq<Packet>,
    clock: Clock,
    openBase: int,
    openWraps: nat,
    placedBase: int,
    nextFree: nat,
    overruns: nat,
    highWater: nat,
    log: seq<Placement>,
    loads: seq<int>)
  {
    /** Spread the open run up to `nextSlot`. A run a flush emptied places nothing and
        leaves no trace. */
    function CloseRun(openSlot: nat, nextSlot: nat): Core {
      if run == [] then this
      else
        var span := SatSub(nextSlot, openSlot);
        var placed := Spread(run, 0, openSlot, span, nextFree, openBase, openWraps);
        var free := FreeAfter(placed, nextFree);
        this.(recentSpans := Remember(recentSpans, span),
              overruns := overruns + if |run| > span then 1 else 0,
              run := [],
              log := log + placed,
              loads := loads + [|run| - (nextSlot - openSlot)],
              placedBase := openBase,
              nextFree := free,
              highWater := Max(highWater, SatSub(free, nextSlot)))
    }

    /** Discard the open run, whose closing PCR the leg never received. */
    function CutRun(openSlot: nat, nextSlot: nat): Core {
      this.(cut := cut + |run|, run := [], knownFrom := Some(nextSlot),
            loads := loads + [openSlot - nextSlot])
    }

    predicate Misses(aim: Aim) {
      runBroken && clock.open.Some? && MissedPcrs(recentSpans, SatSub(aim.slot, clock.open.value.slot))
    }

    /** End the open run at the slot the next PCR asks for. */
    function EndRun(aim: Aim): Core {
      if clock.open.None? then this.(knownFrom := Some(aim.slot))
      else if aim.afterSilence || Misses(aim) then CutRun(clock.open.value.slot, aim.slot)
      else CloseRun(clock.open.value.slot, aim.slot)
    }

    function OpenRun(aim: Aim, p: Packet, pcr: nat): Core {
      this.(runBroken := false, clock := aim.clock.(open := Some(Opened(pcr, aim.slot))),
            openBase := aim.clock.rebased, openWraps := aim.clock.wraps, run := [p])
    }

    function Noted(p: Packet): Core {
      var (table, broken) := NotePacket(continuity, p);
      this.(continuity := table, runBroken := runBroken || broken)
    }

    function Aims(p: Packet, at: Arrival): Aim
      requires p.pcr.Some?
    {
      SlotFor(rateMap, clock, |run|, p.pcr.value, p.declared, at)
    }

    /** A PCR ends the open run and opens its own. */
    function Turn(p: Packet, at: Arrival): Core
      requires p.pcr.Some?
    {
      var aim := Aims(p, at);
      EndRun(aim).OpenRun(aim, p, p.pcr.value)
    }

    function Push(p: Packet, at: Arrival): Core {
      var noted := Noted(p);
      if p.pcr.None? then
        if clock.open.None? then noted else noted.(run := run + [p])
      else noted.Turn(p, at)
    }

    function Flush(): Core {
      this.(cut := cut + |run|, run := [])
    }

    /** Every slot in `from..to` holds what the stream put there, as far as this leg
        can know. */
    predicate Determined(from: nat, to: nat) {
      knownFrom.Some? && clock.open.Some? && knownFrom.value <= from && to <= clock.open.value.slot
    }

    /** The placements a push added to the log. */
    function NewSince(before: Core): seq<Placement>
      requires |before.log| <= |log|
    {
      log[|before.log|..]
    }
  }

  function NewCore(m: SlotMap): Core {
    Core(m, None, [], 0, seq(8192, _ => Unseen), false, [], Clock(None, 0, 0, 0, 0), 0, 0, 0, 0, 0, 0, [], [])
  }

  lemma PushExtendsLog(c: Core, p: Packet, at: Arrival)
    ensures |c.log| <= |c.Push(p, at).log|
    ensures c.Push(p, at).log[..|c.log|] == c.log
  {
  }

  // ---- The queue of placed packets (`push`, `take`) ----

  /** The slot of the first packet on a new time base, and that base's offset. */
  datatype BaseMark = BaseMark(from: nat, offset: int)

  datatype Base = Base(offset: int, starts: bool)

  datatype Queued = Queued(packet: Packet, base: Base)

  datatype Slotted = Slotted(slot: nat, packet: Packet)

  datatype Popped = Popped(bases: seq<BaseMark>, offset: int, starts: bool)

  /** Consume every mark up to `slot`. */
  function PopBases(bases: seq<BaseMark>, slot: nat, offset: int, starts: bool): Popped
    decreases |bases|
  {
    if bases != [] && bases[0].from <= slot
    then PopBases(bases[1..], slot, bases[0].offset, bases[0].from == slot)
    else Popped(bases, offset, starts)
  }

  function Slots(placed: seq<Placement>): (s: seq<Slotted>)
    ensures |s| == |placed|
    ensures forall i | 0 <= i < |s| :: s[i] == Slotted(placed[i].slot, placed[i].packet)
  {
    seq(|placed|, i requires 0 <= i < |placed| => Slotted(placed[i].slot, placed[i].packet))
  }

  /** The mark a freshly placed run needs, `base` being that of the run placed before. */
  function Mark(added: seq<Placement>, base: int): seq<BaseMark> {
    if added != [] && added[0].base != base then [BaseMark(added[0].slot, added[0].base)] else []
  }

  datatype Added = Added(queue: Queue, dropped: nat)

  datatype Taken = Taken(queue: Queue, content: Option<Queued>, late: nat)

  /** Placed packets awaiting their slot, with the marks of their time bases. `gone`
      counts the placements that have left, taken, late or evicted, and `passed` those
      whose marks have been consumed; both are history. */
  datatype Queue = Queue(placed: seq<Slotted>, bases: seq<BaseMark>, takenBase: int, gone: nat, passed: nat)
  {
    /** Queue freshly placed packets, the oldest making way past `capacity`. */
    function Add(added: seq<Placement>, base: int, capacity: nat): Added {
      var all := placed + Slots(added);
      var over := SatSub(|all|, capacity);
      Added(this.(placed := all[over..], bases := bases + Mark(added, base), gone := gone + over), over)
    }

    function Behead(): Queue
      requires placed != []
    {
      var popped := PopBases(bases, placed[0].slot, takenBase, false);
      Queue(placed[1..], popped.bases, popped.offset, gone + 1, gone + 1)
    }

    /** The packet due at `slot`, discarding any whose slot has passed. */
    function Take(slot: nat): Taken
      decreases |placed|
    {
      if placed == [] || placed[0].slot > slot then Taken(this, None, 0)
      else if placed[0].slot < slot then
        var later := Behead().Take(slot);
        later.(late := later.late + 1)
      else
        var popped := PopBases(bases, placed[0].slot, takenBase, false);
        Taken(Behead(), Some(Queued(placed[0].packet, Base(popped.offset, popped.starts))), 0)
    }
  }

  datatype Pushed = Pushed(grid: Grid, dropped: nat)

  /** `evicted`, the packets the capacity bound has pushed out, is history. */
  datatype Grid = Grid(core: Core, openAt: nat, queue: Queue, capacity: Positive, evicted: nat)
  {
    function ArrivalAt(now: nat, horizon: Option<nat>): Arrival {
      Arrival(if core.clock.open.Some? then SatSub(now, openAt) else 0, horizon)
    }

    /** Accept one packet; `dropped` counts what was lost for want of room or of a
        grid to place against. */
    function Push(p: Packet, now: nat, horizon: Option<nat>): Pushed {
      var core' := core.Push(p, ArrivalAt(now, horizon));
      PushExtendsLog(core, p, ArrivalAt(now, horizon));
      var added := queue.Add(core'.NewSince(core), core.placedBase, capacity);
      var unplaceable := if p.pcr.None? && core.clock.open.None? then 1 else 0;
      Pushed(Grid(core', if p.pcr.Some? then now else openAt, added.queue, capacity, evicted + added.dropped),
             added.dropped + unplaceable)
    }

    function Take(slot: nat): Grid {
      this.(queue := queue.Take(slot).queue)
    }

    function GrowTo(bound: nat): Grid {
      this.(capacity := Max(capacity, bound))
    }

    function Flush(): Grid {
      this.(core := core.Flush())
    }

    /** The emitted clock value in `slot` on a time base `offset` slots from the grid. */
    function PcrOn(slot: nat, offset: int): nat {
      core.rateMap.PcrOfSlot(Max(slot - offset, 0))
    }

    predicate HasContent() {
      queue.placed != []
    }
  }

  function NewGrid(m: SlotMap, capacity: nat): Grid {
    Grid(NewCore(m), 0, Queue([], [], 0, 0, 0), Max(capacity, 1), 0)
  }

  // ---- Whole runs ----

  /** One call on the grid while its source is alive. `flush` is the call that ends a
      source, and comes after all of these. */
  datatype Event =
    | Push(packet: Packet, now: nat, horizon: Option<nat>)
    | Take(slot: nat)
    | GrowTo(bound: nat)

  function Step(g: Grid, e: Event): Grid {
    match e
    case Push(p, now, horizon) => g.Push(p, now, horizon).grid
    case Take(slot) => g.Take(slot)
    case GrowTo(bound) => g.GrowTo(bound)
  }

  function Run(g: Grid, events: seq<Event>): Grid
    decreases |events|
  {
    if events == [] then g else Run(Step(g, events[0]), events[1..])
  }

  /** The packets pushed, in order. */
  function PacketsOf(events: seq<Event>): seq<Packet>
    decreases |events|
  {
    if events == [] then []
    else (if events[0].Push? then [events[0].packet] else []) + PacketsOf(events[1..])
  }
}
