/** The scheduler as the program keeps it (src/scheduler.rs, `Scheduler`): fields updated
    in place around a grid or a jitter buffer, and a scratch buffer refilled for every
    datagram. Every method is proved to take `State()` where `SchedulerSpec` says. */
module Schedulers {
  import opened Prelude
  import opened Packets
  import opened SlotMaps
  import opened GridSpec
  import opened SchedulerSpec
  import opened PcrRegens
  import opened StreamGrids
  import opened JitterBuffers
  import opened MediaClocks
  import Pacing

  class Scheduler {
    const cfg: Config
    /** Present under stream clocking only: its presence selects the mode. */
    const grid: StreamGrid?
    const buffer: JitterBuffer
    const media: MediaClock
    var regen: Regen
    var pid: Option<Pid>
    var deferred: seq<Queued>
    var lastPcrIndex: Option<nat>
    var pcrPidCc: Counter
    var pcrBase: int
    var phased: bool
    var slot: nat
    var anchor: Option<nat>
    var anchorSlot: nat
    var lastContentAt: Option<nat>
    var stalled: bool
    var stats: Stats
    var scratch: seq<Cell>

    ghost var input: seq<Packet>
    ghost var out: seq<Packet>

    ghost predicate Valid()
      reads this, grid, media
    {
      && (cfg.streamed <==> grid != null)
      && (grid != null ==> grid.Valid() && grid.rateMap == cfg.m)
      && media.Valid()
    }

    ghost function EmissionState(): Emission
      reads this
    {
      Emission(deferred, lastPcrIndex, pcrPidCc, pcrBase, phased)
    }

    ghost function StoreState(): Store
      reads grid, buffer, if grid == null then {} else {grid.continuity}
      requires grid != null ==> grid.Valid()
    {
      if grid == null then Buffered(buffer.State()) else Gridded(grid.State())
    }

    ghost function GridObjects(): set<object> {
      if grid == null then {} else {grid, grid.continuity}
    }

    ghost function State(): Sched
      reads this, grid, buffer, media, if grid == null then {} else {grid.continuity}
      requires grid != null ==> grid.Valid()
    {
      Sched(cfg, pid, EmissionState(), regen, slot, anchor, anchorSlot, StoreState(), media.released,
            lastContentAt, stalled, stats, input, out)
    }

    /** The scheduler and its media clock together. */
    ghost function PacedState(): Pacing.Paced
      reads this, grid, buffer, media, if grid == null then {} else {grid.continuity}
      requires Valid()
    {
      Pacing.Paced(State(), media.State())
    }

    constructor (cfg: Config)
      ensures Valid() && fresh(buffer) && fresh(media) && fresh(GridObjects())
      ensures State() == NewSched(cfg) && PacedState() == Pacing.NewPaced(cfg)
    {
      this.cfg := cfg;
      if cfg.streamed {
        grid := new StreamGrid(cfg.m, cfg.maxLatency);
      } else {
        grid := null;
      }
      buffer := new JitterBuffer(cfg.maxLatency);
      media := new MediaClock(Pacing.CarrierRate(cfg));
      regen, pid, deferred, lastPcrIndex := NewRegen(cfg.m), None, [], None;
      pcrPidCc, pcrBase, phased, slot, anchor, anchorSlot := 0, 0, false, 0, None, 0;
      lastContentAt, stalled, stats, scratch := None, false, Stats(0, 0, 0, 0, 0, 0, 0, 0, 0, 0, 0), [];
      input, out := [], [];
    }

    /** The content packet for the next output slot, if one belongs there. */
    method NextContent(want: bool) returns (content: Option<Queued>)
      requires Valid()
      modifies GridObjects(), buffer, this`stats
      ensures Valid()
      ensures
        if grid != null then
          var taken := old(grid.QueueState()).Take(slot);
          && grid.State() == old(grid.State()).Take(slot)
          && content == taken.content && stats == old(stats).(late := old(stats).late + taken.late)
        else
          && stats == old(stats) && buffer.capacity == old(buffer.capacity)
          && if want && old(buffer.queue) != []
             then content == Some(Queued(old(buffer.queue)[0], Base(0, false)))
                && buffer.queue == old(buffer.queue)[1..]
             else content == None && buffer.queue == old(buffer.queue)
    {
      hide Queue.Take;
      content := None;
      if grid != null {
        var late;
        content, late := grid.Take(slot);
        if late > 0 {
          stats := stats.(late := stats.late + late);
        }
      } else if want {
        var p := buffer.Pop();
        if p.Some? {
          content := Some(Queued(p.value, Base(0, false)));
        }
      }
    }

    /** Move at most one packet from the input side into the emission queue. */
    method Admit(want: bool) returns (admitted: bool)
      requires Valid()
      modifies GridObjects(), buffer, media`released, this`stats, this`deferred
      ensures Valid()
      ensures
        var a := old(State()).Admit(want);
        && StoreState() == a.store && stats == a.stats && deferred == a.em.deferred && media.released == a.released
        && admitted == (|a.em.deferred| > |old(deferred)|)
    {
      hide Queue.Take;
      var content := NextContent(want);
      if content.None? {
        return false;
      }
      media.released := media.released + 1;
      deferred := deferred + [content.value];
      return true;
    }

    /** The PCR to re-insert in the next slot, if its deadline has come. */
    function ReinsertPcr(stalledNow: bool): (pcr: Option<nat>)
      requires Valid()
      reads this, grid, media
      ensures
        var t := Moment(slot, stalledNow, false, pid, cfg.streamed || regen.anchor.Some?);
        pcr == if Reinserts(cfg, EmissionState(), t)
          then Some(InsertedClock(cfg, regen, EmissionState(), slot)) else None
    {
      if stalledNow || (grid != null && !phased) then None
      else if !cfg.regenerate || pid.None? || lastPcrIndex.None? then None
      else if SatSub(slot, lastPcrIndex.value) < cfg.pcrMax then None
      else if deferred != [] && deferred[0].packet.pcr.Some? then None
      else if grid != null then Some(grid.PcrOn(slot, pcrBase))
      else regen.Locked(slot)
    }

    /** The cell of a content packet in the next slot, its PCR regenerated. */
    method StampContent(q: Queued) returns (cell: Cell)
      requires Valid()
      modifies this`regen, this`pcrBase
      ensures
        var stamped := Stamp(cfg, old(regen), q, slot);
        && cell == stamped.cell && regen == stamped.regen
        && pcrBase == if q.packet.pcr.Some? && cfg.regenerate && cfg.streamed then q.base.offset else old(pcrBase)
    {
      hide Regen.Flags, Regen.Observe, Regen.Locked, SlotMap.PcrOfSlot;
      var packet, base := q.packet, q.base;
      cell := Content(packet, None, false);
      if cfg.regenerate && packet.pcr.Some? {
        if grid != null {
          cell := Content(packet, Some(grid.PcrOn(slot, base.offset)), base.starts || regen.flagNext);
          regen := regen.(flagNext := false);
          pcrBase := base.offset;
        } else {
          var flag := regen.Flags(packet.pcr.value, packet.declared);
          regen := regen.Observe(packet.pcr.value, packet.declared, slot);
          cell := Content(packet, regen.Locked(slot), flag);
        }
      }
    }

    /** Put the packet at the head of the queue in the next slot. */
    method SendContent(admitted: bool, determined: bool)
      requires Valid() && deferred != []
      modifies this`deferred, this`lastPcrIndex, this`pcrPidCc, this`pcrBase, this`phased,
        this`regen, this`scratch, this`out
      ensures
        var q := old(deferred)[0];
        var isPcr := q.packet.pcr.Some?;
        var stamped := Stamp(cfg, old(regen), q, slot);
        && deferred == old(deferred)[1..] && lastPcrIndex == (if isPcr then Some(slot) else old(lastPcrIndex))
        && pcrPidCc == (if pid == Some(q.packet.pid) then q.packet.cc else old(pcrPidCc))
        && pcrBase == (if isPcr && cfg.regenerate && cfg.streamed then q.base.offset else old(pcrBase))
        && phased == (old(phased) || (isPcr && admitted && deferred == [] && determined))
        && regen == stamped.regen && scratch == old(scratch) + [stamped.cell] && out == old(out) + [q.packet]
    {
      hide Stamp;
      var q := deferred[0];
      deferred := deferred[1..];
      out := out + [q.packet];
      var isPcr := q.packet.pcr.Some?;
      if isPcr && admitted && deferred == [] && determined {
        phased := true;
      }
      if pid == Some(q.packet.pid) {
        pcrPidCc := q.packet.cc;
      }
      var cell := StampContent(q);
      scratch := scratch + [cell];
      if isPcr {
        lastPcrIndex := Some(slot);
      }
    }

    /** Count the slot just filled, if its datagram is sent, and move on to the next. */
    method CountSlot(pick: Pick, send: bool, starved: bool)
      modifies this`slot, this`stats
      ensures slot == old(slot) + 1 && stats == Counted(old(stats), pick, send, starved)
    {
      slot := slot + 1;
      if !send {
        return;
      }
      stats := stats.(output := stats.output + 1);
      match pick {
        case PickContent(_) => stats := stats.(content := stats.content + 1);
        case PickPcr => stats := stats.(inserted := stats.inserted + 1);
        case PickNull =>
          stats := stats.(nulls := stats.nulls + 1);
          if starved {
            stats := stats.(underruns := stats.underruns + 1);
          }
      }
    }

    /** Fill the next slot: a PCR whose deadline has come, else content, else stuffing. */
    method PutSlot(x: Ctx, want: bool, admitted: bool)
      requires Valid()
      modifies this`deferred, this`lastPcrIndex, this`pcrPidCc, this`pcrBase, this`phased,
        this`regen, this`scratch, this`out
      modifies this`slot, this`stats
      ensures
        var t := Moment(old(slot), x.stalled, x.determined, pid, cfg.streamed || old(regen).anchor.Some?);
        var sent := Transmit(cfg, old(EmissionState()), t, admitted);
        var filled := SchedulerSpec.FillSlot(cfg, old(regen), old(EmissionState()), t, sent.pick);
        && deferred == sent.em.deferred && lastPcrIndex == sent.em.lastPcr && pcrPidCc == sent.em.cc
        && pcrBase == sent.em.base && phased == sent.em.phased
        && regen == filled.regen && scratch == old(scratch) + [filled.cell]
        && slot == old(slot) + 1 && stats == Counted(old(stats), sent.pick, x.send, want && !x.stalled)
        && out == if sent.pick.PickContent? then old(out) + [sent.pick.queued.packet] else old(out)
    {
      hide Stamp, InsertedClock, Counted;
      var pick := PickNull;
      var pcr := ReinsertPcr(x.stalled);
      if pcr.Some? {
        scratch := scratch + [PcrOnly(pid.value, pcrPidCc, pcr.value)];
        lastPcrIndex := Some(slot);
        pick := PickPcr;
      } else if deferred != [] {
        pick := PickContent(deferred[0]);
        SendContent(admitted, x.determined);
      } else {
        scratch := scratch + [Null];
      }
      CountSlot(pick, x.send, want && !x.stalled);
    }

    /** Admit what belongs in the next slot, and fill it. */
    method AdmitAndPut(x: Ctx)
      requires Valid()
      modifies GridObjects(), buffer, media`released
      modifies this`deferred, this`lastPcrIndex, this`pcrPidCc, this`pcrBase, this`phased,
        this`regen, this`scratch, this`out
      modifies this`slot, this`stats
      ensures Valid()
      ensures
        var f := SchedulerSpec.EmitSlot(old(State()), x);
        && StoreState() == f.s.store && media.released == f.s.released
        && deferred == f.s.em.deferred && lastPcrIndex == f.s.em.lastPcr && pcrPidCc == f.s.em.cc
        && pcrBase == f.s.em.base && phased == f.s.em.phased
        && regen == f.s.regen && slot == f.s.slot && stats == f.s.stats && out == f.s.out
        && scratch == old(scratch) + [f.cell]
    {
      hide Transmit, SchedulerSpec.FillSlot, Counted, Sched.Admit, Grid.Take;
      var want := media.released < x.due;
      ghost var before := State();
      var admitted := Admit(want);
      AdmitOnlyTouches(before, want);
      PutSlot(x, want, admitted);
    }

    /** One output slot. */
    method EmitSlot(x: Ctx)
      requires Valid()
      modifies this, GridObjects(), buffer, media`released
      ensures Valid()
      ensures
        var f := SchedulerSpec.EmitSlot(old(State()), x);
        State() == f.s && scratch == old(scratch) + [f.cell]
    {
      hide SchedulerSpec.EmitSlot;
      SlotTouches(State(), x);
      AdmitAndPut(x);
    }

    /** Refill the scratch buffer with one datagram's slots. */
    method EmitSlots(x: Ctx)
      requires Valid()
      modifies this, GridObjects(), buffer, media`released
      ensures Valid()
      ensures Emitted(State(), scratch) == SchedulerSpec.EmitSlots(old(State()), cfg.perDatagram, x)
    {
      hide SchedulerSpec.EmitSlot;
      ghost var start := State();
      scratch := [];
      for n := 0 to cfg.perDatagram
        invariant Valid()
        invariant Emitted(State(), scratch) == SchedulerSpec.EmitSlots(start, n, x)
      {
        EmitSlot(x);
      }
    }

    predicate HasPending()
      requires Valid()
      reads this, grid, buffer, media
    {
      deferred != [] || if grid != null then grid.placed != [] else buffer.queue != []
    }

    /** What the input is doing. */
    function SourceStateAt(now: nat): (state: SourceState)
      requires Valid()
      reads this, grid, buffer, media, if grid == null then {} else {grid.continuity}
      ensures state == State().State(now)
    {
      if lastContentAt.None? || anchor.None? || now < anchor.value then Priming
      else if HasPending() then Live
      else
        var silent := SatSub(now, lastContentAt.value);
        if cfg.stallTimeout.Some? && silent >= cfg.stallTimeout.value then Stalled
        else if silent >= cfg.target then Starved
        else Live
    }

    /** Move the output clock to the live edge when holding more than the buffer may. */
    method CatchUp(now: nat)
      requires Valid()
      modifies this`anchor, this`anchorSlot, this`slot, this`stats, this`deferred, this`phased
      ensures Valid()
      ensures
        var c := old(State()).CatchUp(now);
        && anchor == c.anchor && anchorSlot == c.anchorSlot && slot == c.slot && stats == c.stats
        && deferred == c.em.deferred && phased == c.em.phased
        && c == old(State()).(anchor := anchor, anchorSlot := anchorSlot, slot := slot, stats := stats,
                              em := old(EmissionState()).(deferred := deferred, phased := phased))
    {
      if grid == null || grid.placed == [] {
        return;
      }
      var edge := grid.placed[|grid.placed| - 1].slot;
      if SatSub(edge, slot) <= cfg.maxLatency {
        return;
      }
      var target := SatSub(edge, cfg.latency);
      target := target - target % cfg.perDatagram;
      if target <= slot {
        return;
      }
      anchor := Some(now);
      anchorSlot := target;
      slot := target;
      stats := stats.(late := stats.late + |deferred|, resyncs := stats.resyncs + 1);
      deferred := [];
      phased := false;
    }

    /** Judge the datagram about to open: whether its slots are known, and so whether it
        may be sent. */
    method OpenDatagram(now: nat, due: nat) returns (x: Ctx)
      requires Valid()
      modifies this`stalled, this`phased
      ensures Valid() && x == Opens(old(State()), now, due)
      ensures State() == Opening(old(State()), x)
    {
      hide Core.Determined;
      stalled := SourceStateAt(now).Stalled?;
      if grid == null {
        return Ctx(stalled, false, true, due);
      }
      DeterminedIsCore();
      var determined := !stalled && grid.Determined(slot, slot + cfg.perDatagram);
      if !determined {
        phased := false;
      }
      return Ctx(stalled, determined, determined && phased, due);
    }

    /** The grid's own answer is the model's. */
    lemma DeterminedIsCore()
      requires Valid() && grid != null
      ensures grid.Determined(slot, slot + cfg.perDatagram)
           == grid.State().core.Determined(slot, slot + cfg.perDatagram)
    {
    }

    /** The media clock ticked to `now`, holding the buffer at its target. */
    ghost function Clock(now: nat): Media
      reads buffer, media
    {
      media.State().Ticked(now, |buffer.queue|, Depth(media.ratePps, cfg.target))
    }

    /** What it then says should have been released. */
    ghost function DueBy(now: nat): nat
      reads buffer, media
    {
      Clock(now).DueAt(now)
    }

    /** How many packets the media clock says should have been released by now. */
    method DueNow(now: nat) returns (due: nat)
      requires Valid()
      modifies media`ticked, media`credit
      ensures Valid() && State() == old(State())
      ensures due == old(DueBy(now))
      ensures media.State() == old(Clock(now))
    {
      hide Media.Ticked, Media.DueAt;
      due := media.Due(now, |buffer.queue|, Depth(media.ratePps, cfg.target));
    }

    /** Throw away the datagram just filled: its bytes are not the partner's. */
    method Withhold()
      requires Valid()
      modifies this`scratch, this`stats
      ensures Valid() && scratch == []
      ensures
        var s := old(State());
        State() == s.(stats := s.stats.(withheld := s.stats.withheld + cfg.perDatagram))
    {
      scratch := [];
      stats := stats.(withheld := stats.withheld + cfg.perDatagram);
    }

    /** Catching up, as one step of the model. */
    method CaughtUp(now: nat)
      requires Valid()
      modifies this`anchor, this`anchorSlot, this`slot, this`stats, this`deferred, this`phased
      ensures Valid() && State() == old(State()).CatchUp(now)
    {
      hide Sched.CatchUp;
      CatchUp(now);
    }

    lemma StateShape()
      requires Valid()
      ensures State().cfg == cfg && State().stalled == stalled && State().anchor == anchor
      ensures State().store.Gridded? <==> grid != null
    {
    }

    /** Emit one datagram into the scratch buffer, which is left empty when the leg cannot
        know what its partner sends. `due` is what the media clock, ticked to now, says. */
    method EmitDatagram(now: nat) returns (due: nat)
      requires Valid()
      modifies this, GridObjects(), buffer, media
      ensures Valid()
      ensures due == old(DueBy(now))
      ensures Emitted(State(), scratch) == SchedulerSpec.EmitDatagram(old(State()), now, due)
      ensures grid == null ==> PacedState() == old(PacedState()).Emit(now)
    {
      hide Sched.CatchUp, Opens, Opening, SchedulerSpec.EmitSlots, Media.Ticked, Media.DueAt, Scheduler.State,
           Scheduler.DueBy, Scheduler.Clock, Scheduler.PacedState;
      StateShape();
      PacedIsBoth();
      if grid == null {
        ClockIsPaced(now);
      }
      CaughtUp(now);
      due := DueNow(now);
      var x := OpenDatagram(now, due);
      EmitSlots(x);
      OpeningCfg(old(State()), now, x);
      if !x.send {
        Withhold();
      }
      PacedIsBoth();
    }

    lemma ClockIsPaced(now: nat)
      requires Valid() && grid == null
      ensures PacedState().Ticked(now) == Clock(now) && PacedState().Due(now) == DueBy(now)
    {
      hide Media.Ticked, Depth;
    }

    lemma PacedIsBoth()
      requires Valid()
      ensures PacedState().s == State() && PacedState().m == media.State() && State().released == media.released
    {
    }

    /** Pass a datagram's slots over without emitting them. */
    method AdvanceMuted(now: nat)
      requires Valid()
      modifies this`stalled, this`slot, this`phased, this`stats
      ensures Valid() && State() == SchedulerSpec.AdvanceMuted(old(State()), now)
    {
      stalled := SourceStateAt(now).Stalled?;
      slot := slot + cfg.perDatagram;
      phased := false;
      stats := stats.(muted := stats.muted + cfg.perDatagram);
    }

    /** Give up on the run held back for a closing PCR: the source has ended. */
    method Flush()
      requires Valid()
      modifies GridObjects()
      ensures Valid() && State() == old(State()).Flush()
    {
      if grid != null {
        grid.Flush();
      }
    }

    /** Where the next datagram sits in the stream, for a sink that numbers its output. */
    function Framing(): (f: Option<Framing>)
      requires Valid()
      reads this, grid, media
      ensures grid != null ==> f == Some(Frame(cfg, slot))
      ensures grid == null ==> f == None
    {
      if grid == null then None
      else
        var index := slot / cfg.perDatagram;
        Some(SchedulerSpec.Framing(slot, (index % 0x1_0000 + cfg.seed) % 0x1_0000,
                     cfg.m.PcrOfSlot(slot) / 300 % 0x1_0000_0000))
    }

    /** When the next datagram is due, once the clock is armed. */
    function NextDue(): (due: Option<nat>)
      requires Valid()
      reads this, grid, buffer, media, if grid == null then {} else {grid.continuity}
      ensures due == SchedulerSpec.NextDue(State())
    {
      if anchor.None? then None
      else Some(anchor.value + SendNanos(cfg.m, SatSub(slot, anchorSlot)))
    }

    /** The media timeline restarts after a stall; the output clock has run on. */
    method Resume(now: nat)
      requires Valid() && stalled
      modifies this`stalled, this`regen, media
      ensures Valid() && State() == old(State()).Resumed()
      ensures media.State()
           == if grid == null then old(media.State()).Resumed(now + cfg.target) else old(media.State())
    {
      hide Media.Resumed;
      stalled := false;
      if grid != null {
        return;
      }
      regen := regen.(flagNext := true);
      media.Resume(now + cfg.target);
      ResumedReleases(old(media.State()), now + cfg.target);
    }

    /** Note a packet of content: when it came, and the stream's clock PID. */
    method Accept(p: Packet, now: nat)
      requires Valid()
      modifies this`lastContentAt, this`pid, this`input
      ensures Valid() && State() == old(State()).Accepted(p, now)
    {
      lastContentAt := Some(now);
      input := input + [p];
      if pid.None? && p.pcr.Some? {
        pid := Some(p.pid);
      }
    }

    /** Until the first datagram, start at the live edge of what is placed, one release
        latency back, on a datagram boundary. */
    method Position(now: nat)
      requires Valid()
      modifies this`anchor, this`anchorSlot, this`slot
      ensures Valid() && State() == old(State()).Positioned(now)
    {
      if stats.output + stats.withheld == 0 && grid != null && grid.placed != [] {
        var first, edge := grid.placed[0].slot, grid.placed[|grid.placed| - 1].slot;
        var start := Max(SatSub(edge, cfg.latency), first);
        anchor := if anchor.Some? then anchor else Some(now + cfg.target);
        anchorSlot := start - start % cfg.perDatagram;
        slot := anchorSlot;
      }
    }

    /** Hand a packet to the grid, told how far ahead of the output it may place. */
    method PushGrid(p: Packet, now: nat)
      requires Valid() && grid != null
      modifies GridObjects(), this`stats
      ensures Valid()
      ensures
        var s := old(State());
        var pushed := s.store.grid.Push(p, now, if s.Started() then Some(s.slot + s.cfg.maxLatency) else None);
        State() == s.(store := Gridded(pushed.grid), stats := s.stats.(dropped := s.stats.dropped + pushed.dropped))
    {
      hide Grid.Push;
      var started := stats.output + stats.withheld > 0;
      var dropped := grid.Push(p, now, if started then Some(slot + cfg.maxLatency) else None);
      stats := stats.(dropped := stats.dropped + dropped);
    }

    /** Start the output clock, and the media clock with it, if it has yet to start. */
    method Arm(now: nat)
      requires Valid()
      modifies this`anchor, media`anchor
      ensures Valid() && anchor == if old(anchor).Some? then old(anchor) else Some(now + cfg.target)
      ensures media.anchor == if old(anchor).Some? then old(media.anchor) else anchor
    {
      if anchor.None? {
        anchor := Some(now + cfg.target);
        media.anchor := anchor;
      }
    }

    /** Buffer a packet under arrival clocking, and arm the clocks on the first. */
    method PushBuffer(p: Packet, now: nat, decay: Decay)
      requires Valid() && grid == null
      modifies buffer, media, this`stats, this`anchor
      ensures Valid() && State() == old(State()).Stored(p, now)
      ensures
        var m := old(media.State()).Observed(p, decay);
        media.State() == if old(anchor).None? then m.(anchor := Some(now + cfg.target)) else m
    {
      hide Media.Observed;
      ObservedReleases(media.State(), p, decay);
      media.Observe(p, decay);
      var dropped := buffer.Push(p);
      if dropped {
        stats := stats.(dropped := stats.dropped + 1);
      }
      Arm(now);
    }

    /** Take in one input packet. Stuffing is counted and stripped. `decay` is what a rate
        sample finished by this packet weighs the earlier ones by. */
    method Enqueue(p: Packet, now: nat, decay: Decay)
      requires Valid()
      modifies this, GridObjects(), buffer, media
      ensures Valid() && State() == old(State()).Enqueue(p, now)
      ensures grid == null ==> PacedState() == old(PacedState()).Enqueue(p, now, decay)
    {
      hide Scheduler.State, Scheduler.PacedState, Grid.Push, Sched.Positioned, Sched.Started, Fifo.Push, Fifo.Drops;
      hide Media.Observed, Media.Resumed;
      StateShape();
      PacedIsBoth();
      if p.pid == NULL_PID {
        CountNull();
        PacedIsBoth();
        return;
      }
      if stalled {
        Resume(now);
      }
      Accept(p, now);
      StateShape();
      if grid != null {
        PushGrid(p, now);
        Position(now);
      } else {
        PushBuffer(p, now, decay);
      }
      PacedIsBoth();
    }

    /** Count a stuffing packet stripped from the input. */
    method CountNull()
      requires Valid()
      modifies this`stats
      ensures Valid()
      ensures
        var s := old(State());
        State() == s.(stats := s.stats.(inputNulls := s.stats.inputNulls + 1))
    {
      stats := stats.(inputNulls := stats.inputNulls + 1);
    }
  }

  lemma ResumedReleases(m: Media, at: nat)
    ensures m.Resumed(at).released == 0
  {
  }

  lemma ObservedReleases(m: Media, p: Packet, decay: Decay)
    requires m.pendingSecs >= 0.0
    ensures m.Observed(p, decay).released == m.released
  {
    hide ForwardDelta, Ratio, Decayed;
  }

  /** The configuration is fixed. */
  lemma OpeningCfg(s: Sched, now: nat, x: Ctx)
    ensures Opening(s.CatchUp(now), x).cfg == s.cfg
  {
  }

  /** What a slot leaves alone. */
  lemma SlotTouches(s: Sched, x: Ctx)
    ensures
      var f := SchedulerSpec.EmitSlot(s, x).s;
      f == s.(store := f.store, stats := f.stats, released := f.released, em := f.em, regen := f.regen,
              slot := f.slot, out := f.out)
  {
    hide Sched.Admit, SchedulerSpec.FillSlot, Transmit;
    AdmitOnlyTouches(s, s.released < x.due);
  }

  /** What admitting leaves alone. */
  lemma AdmitOnlyTouches(s: Sched, want: bool)
    ensures
      var a := s.Admit(want);
      a == s.(store := a.store, stats := a.stats, released := a.released, em := s.em.(deferred := a.em.deferred))
  {
  }
}
