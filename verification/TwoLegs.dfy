/** Two legs of a redundant pair (src/scheduler.rs, `emit_datagram`, `admit`,
    `reinsert_pcr`): in phase, what a leg sends is a function of the stream's placements
    and of nothing else, so two legs that both send agree octet for octet. */
module TwoLegs {
  import opened Prelude
  import opened Packets
  import opened SlotMaps
  import opened GridSpec
  import opened SchedulerSpec
  import PcrRegens
  import Displacement
  import GridQueue
  import Repetition

  // ---- Emission from the log alone ----

  /** The part of a configuration a pair must share. */
  function Line(c: Config): Config {
    c.(latency := 0, maxLatency := 1, target := 0, stallTimeout := None)
  }

  datatype PureCell = PureCell(em: Emission, cell: Cell)

  datatype PureCells = PureCells(em: Emission, cells: seq<Cell>)

  /** Slot `index` filled from what `log` holds for it. */
  function PureSlot(c: Config, pid: Option<Pid>, e: Emission, index: nat, log: seq<Placement>): PureCell {
    var due := GridQueue.Lookup(log, index);
    var e' := if due.Some? then e.(deferred := e.deferred + [due.value]) else e;
    var t := Moment(index, false, true, pid, true);
    var sent := Transmit(c, e', t, due.Some?);
    PureCell(sent.em, FillSlot(c, PcrRegens.NewRegen(c.m), e', t, sent.pick).cell)
  }

  function PureSlots(c: Config, pid: Option<Pid>, e: Emission, index: nat, n: nat, log: seq<Placement>): (r: PureCells)
    ensures |r.cells| == n
  {
    if n == 0 then PureCells(e, [])
    else
      var before := PureSlots(c, pid, e, index, n - 1, log);
      var next := PureSlot(c, pid, before.em, index + n - 1, log);
      PureCells(next.em, before.cells + [next.cell])
  }

  ghost predicate SameView(a: seq<Placement>, b: seq<Placement>, from: nat, to: nat) {
    forall slot | from <= slot < to :: GridQueue.Lookup(a, slot) == GridQueue.Lookup(b, slot)
  }

  lemma {:induction false} ViewDecides(c: Config, pid: Option<Pid>, e: Emission, index: nat, n: nat,
      a: seq<Placement>, b: seq<Placement>)
    requires SameView(a, b, index, index + n)
    ensures PureSlots(c, pid, e, index, n, a) == PureSlots(c, pid, e, index, n, b)
  {
    hide Transmit, FillSlot, GridQueue.Lookup;
    if n == 0 {
    } else {
      ViewDecides(c, pid, e, index, n - 1, a, b);
      assert GridQueue.Lookup(a, index + n - 1) == GridQueue.Lookup(b, index + n - 1);
    }
  }

  // ---- A leg, and what its queue still holds ----

  /** What every reachable stream-clocked leg is: its grid one a run can reach, and its
      regenerator without history. */
  ghost predicate Leg(s: Sched) {
    && s.cfg.streamed && s.store.Gridded? && s.regen == PcrRegens.NewRegen(s.cfg.m)
    && GridQueue.Reachable(s.store.grid)
  }

  /** And nothing it placed at or past its next slot has left the queue. What it lost
      earlier, further back, has no part in it. */
  ghost predicate Whole(s: Sched) {
    Leg(s) && GridQueue.Complete(s.store.grid.queue, s.store.grid.core.log, s.slot)
  }

  function LogOf(s: Sched): seq<Placement>
    requires s.store.Gridded?
  {
    s.store.grid.core.log
  }

  function EvictedBy(s: Sched): nat
    requires s.store.Gridded?
  {
    s.store.grid.evicted
  }

  /** Nothing but the queue's own progress and the emission state moves in a slot. */
  ghost predicate SameStream(s: Sched, s': Sched) {
    && s.store.Gridded? && s'.store.Gridded?
    && s'.cfg == s.cfg && s'.pid == s.pid
    && s'.store.grid.core == s.store.grid.core && s'.store.grid.evicted == s.store.grid.evicted
  }

  lemma ReachableParts(g: Grid)
    requires GridQueue.Reachable(g)
    ensures GridQueue.Refines(g.queue, g.core.log) && Displacement.Increasing(g.core.log) && Displacement.Flows(g.core)
  {
  }

  lemma AdmitKeepsLeg(s: Sched, want: bool)
    requires Leg(s)
    ensures
      var a := s.Admit(want);
      && SameStream(s, a) && a.regen == s.regen && a.slot == s.slot
      && a.stats == s.stats.(late := a.stats.late) && a.em == s.em.(deferred := a.em.deferred)
      && GridQueue.Reachable(a.store.grid)
      && (Whole(s) ==> GridQueue.Complete(a.store.grid.queue, LogOf(s), s.slot + 1))
  {
    hide GridQueue.Reachable, Queue.Take, GridQueue.Lookup, GridQueue.Complete;
    ReachableParts(s.store.grid);
    if Whole(s) {
      GridQueue.TakeIsLookup(s.store.grid.queue, LogOf(s), s.slot);
    }
    GridQueue.TakeReachable(s.store.grid, s.slot);
  }

  /** What a slot admits is what the log holds for it. */
  lemma AdmitIsLookup(s: Sched, want: bool)
    requires Whole(s)
    ensures
      var due := GridQueue.Lookup(LogOf(s), s.slot);
      s.Admit(want).em == if due.Some? then s.em.(deferred := s.em.deferred + [due.value]) else s.em
  {
    hide GridQueue.Reachable, Queue.Take, GridQueue.Lookup, GridQueue.Complete;
    ReachableParts(s.store.grid);
    GridQueue.TakeIsLookup(s.store.grid.queue, LogOf(s), s.slot);
  }

  lemma SlotKeepsLeg(s: Sched, x: Ctx)
    requires Leg(s)
    ensures
      var s' := EmitSlot(s, x).s;
      && Leg(s') && SameStream(s, s') && s'.slot == s.slot + 1 && s'.regen == s.regen
      && (Whole(s) ==> Whole(s'))
  {
    hide GridQueue.Reachable, GridQueue.Complete, Sched.Admit, GridQueue.Lookup, Reinserts;
    AdmitKeepsLeg(s, s.released < x.due);
  }

  /** A slot whose content the leg knows is filled from the log alone. */
  lemma SlotIsPure(s: Sched, x: Ctx)
    requires Whole(s) && !x.stalled && x.determined
    ensures
      var Filled(s', cell) := EmitSlot(s, x);
      PureCell(s'.em, cell) == PureSlot(s.cfg, s.pid, s.em, s.slot, LogOf(s))
  {
    hide GridQueue.Reachable, GridQueue.Complete, Sched.Admit, GridQueue.Lookup, Reinserts;
    AdmitIsLookup(s, s.released < x.due);
    AdmitKeepsLeg(s, s.released < x.due);
  }

  lemma SameAsItself(s: Sched)
    requires Leg(s)
    ensures SameStream(s, s)
  {
  }

  lemma {:induction false} SlotsKeepLeg(s: Sched, n: nat, x: Ctx)
    requires Leg(s)
    ensures
      var s' := EmitSlots(s, n, x).s;
      && Leg(s') && SameStream(s, s') && s'.slot == s.slot + n
      && (Whole(s) ==> Whole(s'))
  {
    hide Leg, Whole, EmitSlot;
    SameAsItself(s);
    if n == 0 {
    } else {
      SlotsKeepLeg(s, n - 1, x);
      SlotKeepsLeg(EmitSlots(s, n - 1, x).s, x);
    }
  }

  /** One more slot of a datagram, in both readings. */
  lemma OneMoreSlot(s: Sched, b: Emitted, x: Ctx, n: nat, before: PureCells)
    requires Whole(b.s) && SameStream(s, b.s) && b.s.slot == s.slot + n
    requires !x.stalled && x.determined
    requires b.s.em == before.em
    ensures
      var Filled(s', cell) := EmitSlot(b.s, x);
      PureCell(s'.em, cell) == PureSlot(s.cfg, s.pid, before.em, s.slot + n, LogOf(s))
  {
    hide Whole, EmitSlot, PureSlot;
    SlotIsPure(b.s, x);
  }

  lemma WholeIsLeg(s: Sched)
    requires Whole(s)
    ensures Leg(s) && s.store.Gridded?
  {
  }

  lemma {:induction false} SlotsArePure(s: Sched, n: nat, x: Ctx)
    requires s.store.Gridded? && Whole(s) && !x.stalled && x.determined
    ensures
      var e := EmitSlots(s, n, x);
      PureCells(e.s.em, e.cells) == PureSlots(s.cfg, s.pid, s.em, s.slot, n, LogOf(s))
  {
    hide Leg, Whole, EmitSlot, PureSlot, SameStream;
    if n == 0 {
    } else {
      SlotsArePure(s, n - 1, x);
      WholeIsLeg(s);
      SlotsKeepLeg(s, n - 1, x);
      OneMoreSlot(s, EmitSlots(s, n - 1, x), x, n - 1, PureSlots(s.cfg, s.pid, s.em, s.slot, n - 1, LogOf(s)));
    }
  }

  // ---- Calls ----

  /** What goes to the network for one datagram. */
  datatype Datagram = Datagram(framing: Framing, cells: seq<Cell>)

  lemma CatchUpKeepsLeg(s: Sched, now: nat)
    requires Leg(s)
    ensures
      var c := s.CatchUp(now);
      Leg(c) && SameStream(s, c) && c.slot >= s.slot && (Whole(s) ==> Whole(c))
  {
    hide GridQueue.Reachable, Sched.Boundary;
  }

  lemma EmitKeepsLeg(s: Sched, now: nat, due: nat)
    requires Leg(s)
    ensures
      var s' := EmitDatagram(s, now, due).s;
      && Leg(s') && SameStream(s, s') && s'.slot == s.CatchUp(now).slot + s.cfg.perDatagram && s'.Started()
      && (Whole(s) ==> Whole(s'))
  {
    hide GridQueue.Reachable, GridQueue.Complete, EmitSlots, Sched.HasPending, Core.Determined, Sched.CatchUp;
    var caught := s.CatchUp(now);
    var x := Opens(caught, now, due);
    CatchUpKeepsLeg(s, now);
    var ready := Opening(caught, x);
    SlotsKeepLeg(ready, s.cfg.perDatagram, x);
    Repetition.EmitStarts(ready, s.cfg.perDatagram, x);
  }

  /** A datagram that is sent holds what the log says, in the slots it is numbered by. */
  lemma SentIsPure(s: Sched, now: nat, due: nat)
    requires Whole(s)
    requires Opens(s.CatchUp(now), now, due).send
    ensures
      var e := EmitDatagram(s, now, due);
      && PureCells(e.s.em, e.cells) == PureSlots(s.cfg, s.pid, s.em, s.slot, s.cfg.perDatagram, LogOf(s))
      && e.s.slot == s.slot + s.cfg.perDatagram && e.s.Started()
      && s.slot + s.cfg.perDatagram <= GridQueue.Frontier(s.store.grid.core)
  {
    hide EmitSlots, PureSlots, Sched.CatchUp;
    var x := Opens(s.CatchUp(now), now, due);
    Repetition.SendingLegDoesNotJump(s, now, due);
    var ready := Opening(s, x);
    assert Whole(ready) && ready.em == s.em;
    SlotsArePure(ready, s.cfg.perDatagram, x);
    SlotsKeepLeg(ready, s.cfg.perDatagram, x);
    Repetition.EmitStarts(ready, s.cfg.perDatagram, x);
  }

  /** Every datagram is sent, and none muted: the leg stays in phase. */
  predicate StaysInPhase(s: Sched, calls: seq<Call>)
    decreases |calls|
  {
    calls == [] ||
    ((match calls[0]
      case Enqueue(_, _) => true
      case Emit(now, due) => Opens(s.CatchUp(now), now, due).send
      case Mute(_) => false)
     && StaysInPhase(Do(s, calls[0]), calls[1..]))
  }

  /** The datagrams of such a leg, each with the framing offered just before it. */
  function SentBy(s: Sched, calls: seq<Call>): seq<Datagram>
    decreases |calls|
  {
    if calls == [] then []
    else
      var later := SentBy(Do(s, calls[0]), calls[1..]);
      if calls[0].Emit?
      then [Datagram(FramingOf(s), EmitDatagram(s, calls[0].now, calls[0].due).cells)] + later
      else later
  }

  /** The emission state `k` datagrams on, and the datagram then sent, from the log. */
  function PureState(c: Config, pid: Option<Pid>, e: Emission, slot: nat, k: nat, log: seq<Placement>): Emission {
    if k == 0 then e
    else
      PureSlots(c, pid, PureState(c, pid, e, slot, k - 1, log), slot + (k - 1) * c.perDatagram, c.perDatagram, log).em
  }

  function PureDatagram(c: Config, pid: Option<Pid>, e: Emission, slot: nat, k: nat, log: seq<Placement>): Datagram {
    var at := slot + k * c.perDatagram;
    Datagram(Frame(c, at), PureSlots(c, pid, PureState(c, pid, e, slot, k, log), at, c.perDatagram, log).cells)
  }

  lemma {:induction false} PureStateShifts(c: Config, pid: Option<Pid>, e: Emission, slot: nat, k: nat,
      log: seq<Placement>)
    ensures PureState(c, pid, e, slot, k + 1, log)
         == PureState(c, pid, PureState(c, pid, e, slot, 1, log), slot + c.perDatagram, k, log)
  {
    hide PureSlots;
    if k > 0 {
      PureStateShifts(c, pid, e, slot, k - 1, log);
      assert k * c.perDatagram == c.perDatagram + (k - 1) * c.perDatagram;
    } else {
      assert PureState(c, pid, e, slot, 0, log) == e && 0 * c.perDatagram == 0;
    }
  }

  lemma PureDatagramShifts(c: Config, pid: Option<Pid>, e: Emission, slot: nat, k: nat, log: seq<Placement>)
    requires k > 0
    ensures PureDatagram(c, pid, e, slot, k, log)
         == PureDatagram(c, pid, PureState(c, pid, e, slot, 1, log), slot + c.perDatagram, k - 1, log)
  {
    hide PureSlots, PureState, Frame;
    PureStateShifts(c, pid, e, slot, k - 1, log);
    assert k * c.perDatagram == c.perDatagram + (k - 1) * c.perDatagram;
  }

  lemma EnqueueKeepsLeg(s: Sched, p: Packet, now: nat, slot: nat)
    requires Leg(s) && s.Started()
    ensures
      var s' := s.Enqueue(p, now);
      && Leg(s') && s'.Started() && s'.cfg == s.cfg && s'.em == s.em && s'.slot == s.slot
      && (s.pid.Some? ==> s'.pid == s.pid)
      && EvictedBy(s) <= EvictedBy(s')
      && (Whole(s) && EvictedBy(s') == EvictedBy(s) ==> Whole(s'))
      && Settled(s, s', slot)
  {
    hide Grid.Push, GridQueue.Reachable, GridQueue.Frontier, GridQueue.Lookup, GridQueue.Complete;
    if p.pid != NULL_PID {
      PushKeepsLeg(s, p, now, Some(s.slot + s.cfg.maxLatency), slot);
      EnqueueIsPush(s, p, now);
    }
  }

  // ---- Every reachable stream-clocked leg ----

  lemma NewLeg(cfg: Config)
    requires cfg.streamed
    ensures Whole(NewSched(cfg))
  {
    GridQueue.NewGridReachable(cfg.m, cfg.maxLatency);
    hide GridQueue.Reachable;
  }

  /** What accepting a packet does to the grid and to where the leg stands. */
  lemma EnqueueGrows(s: Sched, p: Packet, now: nat)
    requires Leg(s)
    ensures
      var s' := s.Enqueue(p, now);
      && Leg(s') && s'.Started() == s.Started() && s'.cfg == s.cfg && (s.Started() ==> s'.slot == s.slot)
      && EvictedBy(s') - EvictedBy(s) == s'.store.grid.queue.gone - s.store.grid.queue.gone
      && EvictedBy(s) <= EvictedBy(s')
      && |LogOf(s)| <= |LogOf(s')| && LogOf(s')[..|LogOf(s)|] == LogOf(s)
  {
    hide GridQueue.Reachable, Grid.Push, Sched.Boundary;
    if p.pid != NULL_PID {
      PushGrows(s.store.grid, p, now, if s.Started() then Some(s.slot + s.cfg.maxLatency) else None);
      var a := s.Resumed().Accepted(p, now);
      assert a.Started() == s.Started() && a.store == s.store && a.slot == s.slot;
    }
  }

  lemma MuteLeg(s: Sched, now: nat)
    requires Leg(s)
    ensures Leg(AdvanceMuted(s, now))
    ensures Whole(s) ==> Whole(AdvanceMuted(s, now))
  {
    hide GridQueue.Reachable, Sched.State;
  }

  lemma {:induction false} RunLeg(s: Sched, calls: seq<Call>)
    requires Leg(s)
    ensures Leg(RunCalls(s, calls))
    decreases |calls|
  {
    hide Leg, EmitDatagram, Sched.Enqueue, AdvanceMuted;
    if calls == [] {
    } else {
      match calls[0] {
        case Enqueue(p, now) => EnqueueGrows(s, p, now);
        case Emit(now, due) => EmitKeepsLeg(s, now, due);
        case Mute(now) => MuteLeg(s, now);
      }
      RunLeg(Do(s, calls[0]), calls[1..]);
    }
  }

  // ---- Whole again, past what was lost ----

  /** One past the slot of the last of the first `gone` placements. */
  function LeftIn(log: seq<Placement>, gone: nat): nat {
    if 0 < gone <= |log| then log[gone - 1].slot + 1 else 0
  }

  /** One past the slot of the last placement to have left the queue, however it left. */
  function LeftTo(s: Sched): nat {
    if s.store.Gridded? then LeftIn(s.store.grid.core.log, s.store.grid.queue.gone) else 0
  }

  /** One past the last slot a call lost a packet of for want of room, if it lost any. */
  function LostInCall(s: Sched, s': Sched): nat {
    if s.store.Gridded? && s'.store.Gridded? && EvictedBy(s') > EvictedBy(s) then LeftTo(s') else 0
  }

  function LostTo(s: Sched, calls: seq<Call>): nat
    decreases |calls|
  {
    if calls == [] then 0
    else Max(LostInCall(s, Do(s, calls[0])), LostTo(Do(s, calls[0]), calls[1..]))
  }

  /** The queue has let go of nothing ahead of the leg but what was lost to `lost`. */
  ghost predicate LostOnly(s: Sched, lost: nat) {
    && Leg(s) && lost <= LeftTo(s)
    && (LeftTo(s) <= s.slot || LeftTo(s) == lost)
    && (!s.Started() ==> LeftTo(s) == lost)
  }

  lemma WholeIsPastWhatLeft(s: Sched)
    requires Leg(s)
    ensures Whole(s) <==> LeftTo(s) <= s.slot
  {
    hide GridQueue.Marks;
    var q, log := s.store.grid.queue, s.store.grid.core.log;
    assert q.gone <= |log|;
    if q.gone > 0 {
      assert forall i | 0 <= i < q.gone - 1 :: log[i].slot < log[q.gone - 1].slot;
    }
  }

  lemma SlotLeaves(s: Sched, x: Ctx)
    requires Leg(s)
    ensures
      var s' := EmitSlot(s, x).s;
      LeftTo(s') == LeftTo(s) || LeftTo(s) <= LeftTo(s') <= s'.slot
  {
    hide Transmit, FillSlot, Counted;
    AdmitLeaves(s, s.released < x.due);
  }

  lemma AdmitLeaves(s: Sched, want: bool)
    requires Leg(s)
    ensures
      var a := s.Admit(want);
      LeftTo(a) == LeftTo(s) || LeftTo(s) <= LeftTo(a) <= s.slot + 1
  {
    hide Queue.Take, GridQueue.Reachable, LeftIn;
    ReachableParts(s.store.grid);
    TakeLeaves(s.store.grid.queue, s.store.grid.core.log, s.slot);
  }

  lemma TakeLeaves(q: Queue, log: seq<Placement>, slot: nat)
    requires GridQueue.Refines(q, log) && Displacement.Increasing(log)
    ensures
      var gone := q.Take(slot).queue.gone;
      gone == q.gone || (q.gone <= gone <= |log| && LeftIn(log, q.gone) <= LeftIn(log, gone) <= slot + 1)
  {
    hide Queue.Take, GridQueue.Tagged, GridQueue.Refines;
    GridQueue.TakeRefines(q, log, slot);
    GridQueue.ReachBounds(log, q.gone, slot);
  }

  lemma {:induction false} SlotsLeave(s: Sched, n: nat, x: Ctx)
    requires Leg(s)
    ensures
      var s' := EmitSlots(s, n, x).s;
      LeftTo(s') == LeftTo(s) || LeftTo(s) <= LeftTo(s') <= s'.slot
  {
    hide Leg, EmitSlot, LeftTo;
    if n == 0 {
    } else {
      SlotsLeave(s, n - 1, x);
      SlotsKeepLeg(s, n - 1, x);
      SlotLeaves(EmitSlots(s, n - 1, x).s, x);
      SlotKeepsLeg(EmitSlots(s, n - 1, x).s, x);
    }
  }

  lemma EmitLoses(s: Sched, now: nat, due: nat, lost: nat)
    requires LostOnly(s, lost)
    ensures LostOnly(EmitDatagram(s, now, due).s, lost)
    ensures LostInCall(s, EmitDatagram(s, now, due).s) == 0
  {
    hide Leg, EmitSlots, Opens, Sched.CatchUp;
    EmitKeepsLeg(s, now, due);
    CatchUpKeepsLeg(s, now);
    var caught := s.CatchUp(now);
    var x := Opens(caught, now, due);
    CaughtLeaves(s, now);
    OpeningLeaves(caught, x);
    SlotsLeave(Opening(caught, x), s.cfg.perDatagram, x);
  }

  lemma CaughtLeaves(s: Sched, now: nat)
    ensures LeftTo(s.CatchUp(now)) == LeftTo(s)
  {
  }

  lemma OpeningLeaves(s: Sched, x: Ctx)
    requires Leg(s)
    ensures Leg(Opening(s, x)) && LeftTo(Opening(s, x)) == LeftTo(s)
  {
  }

  lemma EnqueueLoses(s: Sched, p: Packet, now: nat, lost: nat)
    requires LostOnly(s, lost)
    ensures LostOnly(s.Enqueue(p, now), Max(lost, LostInCall(s, s.Enqueue(p, now))))
  {
    hide Sched.Enqueue, GridQueue.Reachable, LeftTo;
    var s' := s.Enqueue(p, now);
    EnqueueGrows(s, p, now);
    LeavesForwards(s, s');
  }

  lemma LeavesForwards(s: Sched, s': Sched)
    requires Leg(s) && Leg(s') && s.store.grid.queue.gone <= s'.store.grid.queue.gone
    requires |LogOf(s)| <= |LogOf(s')| && LogOf(s')[..|LogOf(s)|] == LogOf(s)
    ensures LeftTo(s) <= LeftTo(s')
    ensures s'.store.grid.queue.gone == s.store.grid.queue.gone ==> LeftTo(s') == LeftTo(s)
  {
    hide GridQueue.Marks;
    assert forall i | 0 <= i < |LogOf(s)| :: LogOf(s')[i] == LogOf(s')[..|LogOf(s)|][i];
  }

  lemma {:induction false} RunLoses(s: Sched, calls: seq<Call>, lost: nat)
    requires LostOnly(s, lost)
    ensures LostOnly(RunCalls(s, calls), Max(lost, LostTo(s, calls)))
    decreases |calls|
  {
    hide LostOnly, EmitDatagram, Sched.Enqueue, AdvanceMuted, LostInCall;
    if calls == [] {
    } else {
      match calls[0] {
        case Enqueue(p, now) => EnqueueLoses(s, p, now, lost);
        case Emit(now, due) => EmitLoses(s, now, due, lost);
        case Mute(now) => MuteLoses(s, now, lost);
      }
      RunLoses(Do(s, calls[0]), calls[1..], Max(lost, LostInCall(s, Do(s, calls[0]))));
    }
  }

  lemma MuteLoses(s: Sched, now: nat, lost: nat)
    requires LostOnly(s, lost)
    ensures LostOnly(AdvanceMuted(s, now), lost) && LostInCall(s, AdvanceMuted(s, now)) == 0
  {
    hide GridQueue.Reachable, Sched.State;
  }

  /** Over every run: a leg's queue holds all it placed at or past its next slot exactly
      when that slot is past the last one it lost a packet of for want of room. A backlog
      pushed out while it was starting, however deep, is behind it from there on. */
  lemma WholeExactlyPastLosses(cfg: Config, calls: seq<Call>)
    requires cfg.streamed
    ensures
      var s := RunCalls(NewSched(cfg), calls);
      Leg(s) && (Whole(s) <==> s.slot >= LostTo(NewSched(cfg), calls))
  {
    hide RunCalls, LostTo, Leg, Whole;
    NewLosesNothing(cfg);
    RunLoses(NewSched(cfg), calls, 0);
    WholeIsPastWhatLeft(RunCalls(NewSched(cfg), calls));
  }

  lemma NewLosesNothing(cfg: Config)
    requires cfg.streamed
    ensures LostOnly(NewSched(cfg), 0)
  {
    NewLeg(cfg);
    hide GridQueue.Reachable;
  }

  /** If `slot` was below the frontier it still is, and the log holds there what it held. */
  ghost predicate Settled(s: Sched, s': Sched, slot: nat)
    requires s.store.Gridded? && s'.store.Gridded?
  {
    slot < GridQueue.Frontier(s.store.grid.core) ==>
      && slot < GridQueue.Frontier(s'.store.grid.core)
      && GridQueue.Lookup(LogOf(s'), slot) == GridQueue.Lookup(LogOf(s), slot)
  }

  /** Once a stream-clocked leg has started, accepting a packet is pushing it. */
  lemma EnqueueIsPush(s: Sched, p: Packet, now: nat)
    requires s.store.Gridded? && s.Started() && p.pid != NULL_PID
    ensures
      var pushed := s.store.grid.Push(p, now, Some(s.slot + s.cfg.maxLatency));
      var s' := s.Enqueue(p, now);
      && s'.store == Gridded(pushed.grid) && s'.cfg == s.cfg && s'.em == s.em && s'.slot == s.slot
      && s'.regen == s.regen
      && (s.pid.Some? ==> s'.pid == s.pid)
      && s'.stats == s.stats.(dropped := s.stats.dropped + pushed.dropped)
  {
    hide Grid.Push;
  }

  lemma PushKeepsLeg(s: Sched, p: Packet, now: nat, horizon: Option<nat>, slot: nat)
    requires Leg(s)
    ensures
      var g, g' := s.store.grid, s.store.grid.Push(p, now, horizon).grid;
      && GridQueue.Reachable(g') && g.evicted <= g'.evicted
      && (Whole(s) && g'.evicted == g.evicted ==> GridQueue.Complete(g'.queue, g'.core.log, s.slot))
      && (slot < GridQueue.Frontier(g.core) ==>
            slot < GridQueue.Frontier(g'.core)
            && GridQueue.Lookup(g'.core.log, slot) == GridQueue.Lookup(g.core.log, slot))
  {
    hide GridQueue.Reachable, Core.Push, GridQueue.Extends, GridQueue.Frontier, GridQueue.Lookup, GridQueue.Complete;
    var g := s.store.grid;
    var g' := g.Push(p, now, horizon).grid;
    ReachableParts(g);
    PushGrows(g, p, now, horizon);
    if slot < GridQueue.Frontier(g.core) {
      GridQueue.PushIsFinalBelow(g.core, p, g.ArrivalAt(now, horizon), slot);
    }
    StillComplete(g.queue, g'.queue, g.core.log, g'.core.log, s.slot);
  }

  lemma PushGrows(g: Grid, p: Packet, now: nat, horizon: Option<nat>)
    requires GridQueue.Reachable(g)
    ensures
      var g' := g.Push(p, now, horizon).grid;
      && GridQueue.Reachable(g') && g.evicted <= g'.evicted
      && g'.evicted - g.evicted == g'.queue.gone - g.queue.gone
      && |g.core.log| <= |g'.core.log| && g'.core.log[..|g.core.log|] == g.core.log
  {
    GridQueue.PushReachable(g, p, now, horizon);
    hide GridQueue.Reachable, Core.Push, GridQueue.AddedRun, GridQueue.Frontier;
  }

  lemma StillComplete(q: Queue, q': Queue, log: seq<Placement>, log': seq<Placement>, asked: nat)
    requires |log| <= |log'| && log'[..|log|] == log
    ensures GridQueue.Complete(q, log, asked) && q'.gone == q.gone ==> GridQueue.Complete(q', log', asked)
  {
    assert forall i | 0 <= i < |log| :: log'[i] == log'[..|log|][i];
  }

  /** A leg between datagrams, its output started and its PCR PID learned. */
  ghost predicate Running(s: Sched) {
    Leg(s) && s.Started() && s.pid.Some?
  }

  lemma EmitKeepsView(s: Sched, now: nat, due: nat)
    requires Running(s) && Opens(s.CatchUp(now), now, due).send
    ensures
      var s' := EmitDatagram(s, now, due).s;
      && Running(s') && SameStream(s, s') && s'.slot == s.slot + s.cfg.perDatagram
      && (Whole(s) ==> Whole(s'))
      && s'.slot <= GridQueue.Frontier(s'.store.grid.core)
  {
    hide EmitDatagram, Opens, Sched.CatchUp, GridQueue.Frontier, GridQueue.Reachable, GridQueue.Complete;
    EmitKeepsLeg(s, now, due);
    SentFraming(s, now, due);
  }

  lemma SentFraming(s: Sched, now: nat, due: nat)
    requires Leg(s) && Opens(s.CatchUp(now), now, due).send
    ensures
      var e := EmitDatagram(s, now, due);
      && e.s.slot == s.slot + s.cfg.perDatagram && e.s.Started()
      && s.slot + s.cfg.perDatagram <= GridQueue.Frontier(s.store.grid.core)
      && FramingOf(s) == Frame(s.cfg, s.slot)
  {
    hide EmitSlots, Sched.CatchUp, Sched.State, GridQueue.Reachable, GridQueue.Complete, SlotMap.PcrOfSlot;
    var x := Opens(s.CatchUp(now), now, due);
    Repetition.SendingLegDoesNotJump(s, now, due);
    var ready := Opening(s, x);
    SlotsKeepLeg(ready, s.cfg.perDatagram, x);
    Repetition.EmitStarts(ready, s.cfg.perDatagram, x);
  }

  /** While a leg stays in phase, what its log holds below the frontier is settled: no
      later call places anything there. */
  lemma {:induction false} InPhaseViewIsFinal(s: Sched, calls: seq<Call>, slot: nat)
    requires Running(s) && StaysInPhase(s, calls)
    ensures
      var s' := RunCalls(s, calls);
      && Running(s') && EvictedBy(s) <= EvictedBy(s') && s'.cfg == s.cfg && s'.pid == s.pid
      && Settled(s, s', slot)
    decreases |calls|
  {
    hide EmitDatagram, Sched.Enqueue, Leg, Whole, Opens, Sched.CatchUp, GridQueue.Frontier, GridQueue.Lookup;
    RunningIsGridded(s);
    if calls == [] {
    } else {
      CallKeepsView(s, calls[0], slot);
      InPhaseViewIsFinal(Do(s, calls[0]), calls[1..], slot);
    }
  }

  lemma RunningIsGridded(s: Sched)
    requires Running(s)
    ensures s.store.Gridded?
  {
  }

  lemma CallKeepsView(s: Sched, call: Call, slot: nat)
    requires Running(s) && !call.Mute?
    requires call.Emit? ==> Opens(s.CatchUp(call.now), call.now, call.due).send
    ensures
      var s' := Do(s, call);
      && Running(s') && EvictedBy(s) <= EvictedBy(s') && s'.cfg == s.cfg && s'.pid == s.pid
      && (Whole(s) && EvictedBy(s') == EvictedBy(s) ==> Whole(s'))
      && Settled(s, s', slot)
      && (call.Enqueue? ==> s'.em == s.em && s'.slot == s.slot)
      && (call.Emit? ==>
            s'.slot == s.slot + s.cfg.perDatagram && LogOf(s') == LogOf(s) && EvictedBy(s') == EvictedBy(s))
  {
    hide EmitDatagram, Sched.Enqueue, Leg, Whole, Opens, Sched.CatchUp, GridQueue.Frontier, GridQueue.Lookup;
    RunningIsGridded(s);
    match call {
      case Enqueue(p, now) => EnqueueKeepsLeg(s, p, now, slot);
      case Emit(now, due) => EmitKeepsView(s, now, due);
    }
  }

  /** The first datagram sent agrees with the log of any later moment. */
  lemma FirstDatagram(s: Sched, now: nat, due: nat, final: seq<Placement>)
    requires Running(s) && Whole(s) && Opens(s.CatchUp(now), now, due).send
    requires SameView(LogOf(s), final, s.slot, s.slot + s.cfg.perDatagram)
    ensures
      var e := EmitDatagram(s, now, due);
      && Datagram(FramingOf(s), e.cells) == PureDatagram(s.cfg, s.pid, s.em, s.slot, 0, final)
      && e.s.em == PureState(s.cfg, s.pid, s.em, s.slot, 1, final)
  {
    hide EmitDatagram, Opens, Sched.CatchUp, PureSlots, Leg, Whole, Frame, FramingOf, SameView;
    RunningIsGridded(s);
    SentFraming(s, now, due);
    SentIsPure(s, now, due);
    ViewDecides(s.cfg, s.pid, s.em, s.slot, s.cfg.perDatagram, LogOf(s), final);
    assert 0 * s.cfg.perDatagram == 0;
    assert PureState(s.cfg, s.pid, s.em, s.slot, 0, final) == s.em;
  }

  lemma DatagramIsSettled(s: Sched, calls: seq<Call>)
    requires Running(s) && StaysInPhase(s, calls) && calls != [] && calls[0].Emit?
    requires RunCalls(s, calls).store.Gridded?
    ensures SameView(LogOf(s), LogOf(RunCalls(s, calls)), s.slot, s.slot + s.cfg.perDatagram)
    ensures EvictedBy(s) <= EvictedBy(RunCalls(s, calls))
  {
    hide EmitDatagram, Opens, Sched.CatchUp, GridQueue.Frontier, GridQueue.Lookup, Leg, RunCalls;
    RunningIsGridded(s);
    SentFraming(s, calls[0].now, calls[0].due);
    InPhaseViewIsFinal(s, calls, s.slot);
    forall slot | s.slot <= slot < s.slot + s.cfg.perDatagram
      ensures GridQueue.Lookup(LogOf(s), slot) == GridQueue.Lookup(LogOf(RunCalls(s, calls)), slot)
    {
      InPhaseViewIsFinal(s, calls, slot);
    }
  }

  /** A leg that stays in phase sends, datagram by datagram, what its final log says from
      the emission state it started in; when its packets came and when it was asked to
      emit have no part in it. */
  lemma {:induction false} LegIsPure(s: Sched, calls: seq<Call>, k: nat)
    requires Running(s) && StaysInPhase(s, calls)
    requires Whole(s) && RunCalls(s, calls).store.Gridded? && EvictedBy(RunCalls(s, calls)) == EvictedBy(s)
    requires k < |SentBy(s, calls)|
    ensures SentBy(s, calls)[k] == PureDatagram(s.cfg, s.pid, s.em, s.slot, k, LogOf(RunCalls(s, calls)))
    decreases |calls|
  {
    hide Sched.Enqueue, EmitDatagram, Opens, Sched.CatchUp, PureDatagram, PureState, Leg, Whole, Running, Settled,
         SameView, FramingOf;
    var final := LogOf(RunCalls(s, calls));
    CallKeepsView(s, calls[0], 0);
    match calls[0] {
      case Enqueue(p, now) =>
        InPhaseViewIsFinal(Do(s, calls[0]), calls[1..], 0);
        LegIsPure(Do(s, calls[0]), calls[1..], k);
      case Emit(now, due) =>
        DatagramIsSettled(s, calls);
        FirstDatagram(s, now, due, final);
        if k > 0 {
          LegIsPure(Do(s, calls[0]), calls[1..], k - 1);
          PureDatagramShifts(s.cfg, s.pid, s.em, s.slot, k, final);
        }
    }
  }

  // ---- Agreement ----

  lemma {:induction false} PureStateAgrees(a: Config, b: Config, pid: Option<Pid>, e: Emission, slot: nat, k: nat,
      logA: seq<Placement>, logB: seq<Placement>)
    requires Line(a) == Line(b)
    requires SameView(logA, logB, slot, slot + k * a.perDatagram)
    ensures PureState(a, pid, e, slot, k, logA) == PureState(b, pid, e, slot, k, logB)
  {
    hide PureSlots;
    if k == 0 {
    } else {
      var n := a.perDatagram;
      assert (k - 1) * n + n == k * n && (k - 1) * n >= 0;
      PureStateAgrees(a, b, pid, e, slot, k - 1, logA, logB);
      var e' := PureState(a, pid, e, slot, k - 1, logA);
      ViewDecides(a, pid, e', slot + (k - 1) * n, n, logA, logB);
      LineDecides(a, b, pid, e', slot + (k - 1) * n, n, logB);
    }
  }

  lemma {:induction false} LineDecides(a: Config, b: Config, pid: Option<Pid>, e: Emission, index: nat, n: nat,
      log: seq<Placement>)
    requires Line(a) == Line(b)
    ensures PureSlots(a, pid, e, index, n, log) == PureSlots(b, pid, e, index, n, log)
  {
    hide PureSlot;
    if n == 0 {
    } else {
      LineDecides(a, b, pid, e, index, n - 1, log);
      LineDecidesSlot(a, b, pid, PureSlots(a, pid, e, index, n - 1, log).em, index + n - 1, log);
    }
  }

  lemma LineDecidesSlot(a: Config, b: Config, pid: Option<Pid>, e: Emission, index: nat, log: seq<Placement>)
    requires Line(a) == Line(b)
    ensures PureSlot(a, pid, e, index, log) == PureSlot(b, pid, e, index, log)
  {
    hide GridQueue.Lookup;
  }

  lemma PureDatagramAgrees(a: Config, b: Config, pid: Option<Pid>, e: Emission, slot: nat, k: nat,
      logA: seq<Placement>, logB: seq<Placement>)
    requires Line(a) == Line(b)
    requires SameView(logA, logB, slot, slot + (k + 1) * a.perDatagram)
    ensures PureDatagram(a, pid, e, slot, k, logA) == PureDatagram(b, pid, e, slot, k, logB)
  {
    hide PureSlots, PureState;
    var n := a.perDatagram;
    assert (k + 1) * n == k * n + n && k * n >= 0;
    PureStateAgrees(a, b, pid, e, slot, k, logA, logB);
    var e' := PureState(a, pid, e, slot, k, logA);
    ViewDecides(a, pid, e', slot + k * n, n, logA, logB);
    LineDecides(a, b, pid, e', slot + k * n, n, logB);
  }

  /** `k` datagrams on from `slot`. */
  function Past(slot: nat, k: nat, perDatagram: Positive): nat {
    slot + k * perDatagram
  }

  /** Two legs of a pair, at one datagram boundary with equal emission states and one PCR
      PID: fed and polled at any unrelated times, with any buffer depths, as long as each
      stays in phase and evicts nothing, and their placement logs come to agree on the
      slots sent, the k-th datagrams they send have the same slot, sequence, timestamp
      and cells. */
  lemma TwoLegsAgree(a: Sched, b: Sched, callsA: seq<Call>, callsB: seq<Call>, k: nat)
    requires Running(a) && Running(b) && Line(a.cfg) == Line(b.cfg)
    requires a.em == b.em && a.slot == b.slot && a.pid == b.pid
    requires StaysInPhase(a, callsA) && StaysInPhase(b, callsB)
    requires Whole(a) && RunCalls(a, callsA).store.Gridded? && EvictedBy(RunCalls(a, callsA)) == EvictedBy(a)
    requires Whole(b) && RunCalls(b, callsB).store.Gridded? && EvictedBy(RunCalls(b, callsB)) == EvictedBy(b)
    requires k < |SentBy(a, callsA)| && k < |SentBy(b, callsB)|
    requires SameView(LogOf(RunCalls(a, callsA)), LogOf(RunCalls(b, callsB)),
                      a.slot, Past(a.slot, k + 1, a.cfg.perDatagram))
    ensures SentBy(a, callsA)[k] == SentBy(b, callsB)[k]
  {
    hide Running, Whole, StaysInPhase, RunCalls, SentBy, PureDatagram, SameView;
    LegIsPure(a, callsA, k);
    LegIsPure(b, callsB, k);
    PureDatagramAgrees(a.cfg, b.cfg, a.pid, a.em, a.slot, k, LogOf(RunCalls(a, callsA)), LogOf(RunCalls(b, callsB)));
  }

  // ---- Coming into phase ----

  /** The state a phasing PCR leaves: nothing waiting, and everything the packet's. */
  function PhaseState(index: nat, q: Queued): Emission {
    Emission([], Some(index), q.packet.cc, q.base.offset, true)
  }

  /** A leg comes into phase in a slot exactly when a PCR goes out in its own slot with
      nothing queued ahead of it; and that leaves a state with no history in it. */
  lemma PhasingForgetsHistory(c: Config, pid: Pid, e: Emission, index: nat, log: seq<Placement>)
    requires c.streamed && c.regenerate && !e.phased
    ensures
      var due := GridQueue.Lookup(log, index);
      var after := PureSlot(c, Some(pid), e, index, log).em;
      && (after.phased <==> e.deferred == [] && due.Some? && due.value.packet.pcr.Some?)
      && (after.phased && due.value.packet.pid == pid ==> after == PhaseState(index, due.value))
  {
    hide GridQueue.Lookup;
  }

  /** A leg coming into phase on a PCR has its partner's emission state exactly when the
      partner, in phase or not, has nothing queued ahead of that PCR. */
  lemma PartnersMeetExactlyWhenNothingWaits(c: Config, pid: Pid, joining: Emission, partner: Emission, index: nat,
      log: seq<Placement>)
    requires c.streamed && c.regenerate && joining.deferred == []
    requires
      var due := GridQueue.Lookup(log, index);
      due.Some? && due.value.packet.pcr.Some? && due.value.packet.pid == pid
    ensures PureSlot(c, Some(pid), joining, index, log).em == PureSlot(c, Some(pid), partner, index, log).em
      <==> partner.deferred == []
  {
    hide GridQueue.Lookup;
    var due := GridQueue.Lookup(log, index);
    if partner.deferred != [] {
      assert |PureSlot(c, Some(pid), partner, index, log).em.deferred| >= |partner.deferred|;
    }
  }

  lemma {:induction false} SlotsSplit(c: Config, pid: Option<Pid>, e: Emission, index: nat, j: nat, n: nat,
      log: seq<Placement>)
    requires j <= n
    ensures
      var first := PureSlots(c, pid, e, index, j, log);
      PureSlots(c, pid, e, index, n, log).em == PureSlots(c, pid, first.em, index + j, n - j, log).em
    decreases n
  {
    hide PureSlot;
    if j == n {
    } else {
      SlotsSplit(c, pid, e, index, j, n - 1, log);
    }
  }

  /** Two legs that come into phase on the same PCR of a datagram whose slots both know end
      it with equal emission states, whatever each had done before. */
  lemma PhasedTogetherEndEqual(c: Config, pid: Pid, a: Emission, b: Emission, index: nat, j: nat, n: nat,
      logA: seq<Placement>, logB: seq<Placement>)
    requires c.streamed && c.regenerate && j < n && SameView(logA, logB, index, index + n)
    requires
      var due := GridQueue.Lookup(logA, index + j);
      due.Some? && due.value.packet.pcr.Some? && due.value.packet.pid == pid
    requires PureSlots(c, Some(pid), a, index, j, logA).em.deferred == []
    requires PureSlots(c, Some(pid), b, index, j, logB).em.deferred == []
    ensures PureSlots(c, Some(pid), a, index, n, logA).em == PureSlots(c, Some(pid), b, index, n, logB).em
  {
    hide PureSlot, GridQueue.Lookup;
    ViewDecides(c, Some(pid), b, index, n, logA, logB);
    ViewDecides(c, Some(pid), b, index, j, logA, logB);
    var ea, eb := PureSlots(c, Some(pid), a, index, j, logA).em, PureSlots(c, Some(pid), b, index, j, logA).em;
    PartnersMeetExactlyWhenNothingWaits(c, pid, ea, eb, index + j, logA);
    SlotsSplit(c, Some(pid), a, index, j + 1, n, logA);
    SlotsSplit(c, Some(pid), b, index, j + 1, n, logA);
  }

  /** A datagram whose slots a leg knows moves its emission state as the log says, sent or
      not: this is how a leg out of phase comes into it. */
  lemma KnownDatagramIsPure(s: Sched, now: nat, due: nat)
    requires Whole(s) && s.CatchUp(now) == s && Opens(s, now, due).determined
    ensures EmitDatagram(s, now, due).s.em
         == PureSlots(s.cfg, s.pid, s.em, s.slot, s.cfg.perDatagram, LogOf(s)).em
  {
    hide EmitSlots, PureSlots, Sched.CatchUp, GridQueue.Reachable, GridQueue.Complete;
    var x := Opens(s, now, due);
    var ready := Opening(s, x);
    SlotsArePure(ready, s.cfg.perDatagram, x);
  }
}
