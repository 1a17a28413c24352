/** Emptying the scheduler once its source has ended (src/pacer.rs, the `closing` exit of
    `pace_with`; src/scheduler.rs, `flush`, `emit_datagram`, `has_pending`). */
module Drain {
  import opened Prelude
  import opened Packets
  import opened GridSpec
  import SlotMaps
  import opened SchedulerSpec
  import GridQueue
  import Conservation
  import Repetition
  import TwoLegs

  /** Only datagrams are asked for: nothing more is coming. */
  predicate Closing(calls: seq<Call>) {
    forall c <- calls :: c.Emit?
  }

  /** Datagrams it takes to pass `n` slots. */
  function Datagrams(n: nat, perDatagram: Positive): nat {
    (n + perDatagram - 1) / perDatagram
  }

  lemma OneFewer(n: nat, perDatagram: Positive)
    ensures n > 0 ==> Datagrams(n, perDatagram) == Datagrams(SatSub(n, perDatagram), perDatagram) + 1
    ensures Datagrams(0, perDatagram) == 0
  {
    SlotMaps.QuotientStep(perDatagram - 1, perDatagram);
    if n > 0 {
      SlotMaps.QuotientStep(n - 1, perDatagram);
    }
  }

  lemma Fewer(a: nat, b: nat, perDatagram: Positive)
    requires a <= b
    ensures Datagrams(a, perDatagram) <= Datagrams(b, perDatagram)
  {
    SlotMaps.QuotientBounds(a + perDatagram - 1, perDatagram);
    SlotMaps.QuotientAtLeast(b + perDatagram - 1, perDatagram, Datagrams(a, perDatagram));
  }

  // ---- Under stream clocking ----

  /** Everything still to be sent. */
  function Waiting(s: Sched): nat {
    |s.em.deferred| + match s.store
      case Gridded(grid) => |grid.queue.placed|
      case Buffered(buffer) => |buffer.queue|
  }

  /** The end of what the stream has placed, and of what the leg could ever know. */
  function Edge(s: Sched): nat
    requires s.store.Gridded?
  {
    GridQueue.Frontier(s.store.grid.core)
  }

  ghost predicate Edged(s: Sched) {
    && s.store.Gridded? && s.cfg.streamed
    && forall i | 0 <= i < |s.store.grid.queue.placed| :: s.store.grid.queue.placed[i].slot < Edge(s)
  }

  /** A take never brings anything back, and at or past the edge it leaves nothing. */
  lemma {:induction false} TakeAtEdge(q: Queue, slot: nat, edge: nat)
    requires forall i | 0 <= i < |q.placed| :: q.placed[i].slot < edge
    ensures
      var taken := q.Take(slot);
      var out := if taken.content.Some? then 1 else 0;
      && |taken.queue.placed| + out <= |q.placed|
      && (forall i | 0 <= i < |taken.queue.placed| :: taken.queue.placed[i].slot < edge)
      && (slot >= edge ==> taken.queue.placed == [] && taken.content.None?)
    decreases |q.placed|
  {
    hide PopBases;
    if q.placed == [] || q.placed[0].slot >= slot {
    } else {
      TakeAtEdge(q.Behead(), slot, edge);
    }
  }

  lemma AdmitAtEdge(s: Sched, want: bool)
    requires Edged(s)
    ensures
      var a := s.Admit(want);
      && Edged(a) && Edge(a) == Edge(s) && Waiting(a) <= Waiting(s)
      && (s.slot >= Edge(s) ==> a.store.grid.queue.placed == [] && a.em == s.em)
  {
    hide Queue.Take, GridQueue.Frontier;
    TakeAtEdge(s.store.grid.queue, s.slot, Edge(s));
  }

  lemma SlotAtEdge(s: Sched, x: Ctx)
    requires Edged(s)
    ensures
      var s' := EmitSlot(s, x).s;
      && Edged(s') && Edge(s') == Edge(s) && Waiting(s') <= Waiting(s)
      && s'.slot == s.slot + 1 && s'.cfg == s.cfg
      && (s.slot >= Edge(s) && !x.determined && !s.em.phased ==>
            !s'.em.phased && Waiting(s') <= SatSub(Waiting(s), 1))
  {
    hide Sched.Admit, GridQueue.Frontier, FillSlot;
    AdmitAtEdge(s, s.released < x.due);
    Conservation.AdmitTouches(s, s.released < x.due);
  }

  lemma {:induction false} SlotsAtEdge(s: Sched, n: nat, x: Ctx)
    requires Edged(s)
    ensures
      var s' := EmitSlots(s, n, x).s;
      && Edged(s') && Edge(s') == Edge(s) && Waiting(s') <= Waiting(s)
      && s'.slot == s.slot + n && s'.cfg == s.cfg
      && (s.slot >= Edge(s) && !x.determined && !s.em.phased ==>
            !s'.em.phased && Waiting(s') <= SatSub(Waiting(s), n))
  {
    hide EmitSlot, Waiting, GridQueue.Frontier;
    if n == 0 {
    } else {
      SlotsAtEdge(s, n - 1, x);
      SlotAtEdge(EmitSlots(s, n - 1, x).s, x);
    }
  }

  lemma CatchUpAtEdge(s: Sched, now: nat)
    requires Edged(s)
    ensures
      var c := s.CatchUp(now);
      Edged(c) && Edge(c) == Edge(s) && Waiting(c) <= Waiting(s) && c.slot >= s.slot && c.cfg == s.cfg
  {
    hide Sched.Boundary;
  }

  /** Past the edge a leg knows nothing of its slots, so it is out of phase and inserts
      no PCRs: content has every slot to itself. */
  lemma EmitAtEdge(s: Sched, now: nat, due: nat)
    requires Edged(s)
    ensures
      var s' := EmitDatagram(s, now, due).s;
      var n := s.cfg.perDatagram;
      && Edged(s') && Edge(s') == Edge(s) && s'.cfg == s.cfg && Waiting(s') <= Waiting(s)
      && s'.slot >= s.slot + n
      && (s.slot >= Edge(s) ==> Waiting(s') <= SatSub(Waiting(s), n))
  {
    hide EmitSlots, Sched.CatchUp, Sched.State;
    var caught := s.CatchUp(now);
    var x := Opens(caught, now, due);
    CatchUpAtEdge(s, now);
    SlotsAtEdge(Opening(caught, x), s.cfg.perDatagram, x);
  }

  /** Datagrams that surely suffice: those up to the edge, and those for what waits. */
  function Needed(s: Sched): nat
    requires s.store.Gridded?
  {
    Datagrams(SatSub(Edge(s), s.slot), s.cfg.perDatagram) + Datagrams(Waiting(s), s.cfg.perDatagram)
  }

  lemma EmitNeedsOneFewer(s: Sched, now: nat, due: nat)
    requires Edged(s)
    ensures
      var s' := EmitDatagram(s, now, due).s;
      && Edged(s') && s'.cfg == s.cfg
      && (Waiting(s) == 0 ==> Waiting(s') == 0)
      && (Waiting(s) > 0 ==> Needed(s') < Needed(s))
  {
    hide EmitDatagram, Waiting, GridQueue.Frontier, Datagrams;
    EmitAtEdge(s, now, due);
    var s', n := EmitDatagram(s, now, due).s, s.cfg.perDatagram;
    var togo := SatSub(Edge(s), s.slot);
    OneFewer(togo, n);
    OneFewer(Waiting(s), n);
    Fewer(SatSub(Edge(s'), s'.slot), SatSub(togo, n), n);
    Fewer(Waiting(s'), Waiting(s), n);
    if togo == 0 {
      Fewer(Waiting(s'), SatSub(Waiting(s), n), n);
    }
  }

  lemma PendingIsWaiting(s: Sched)
    ensures s.HasPending() <==> Waiting(s) > 0
  {
  }

  /** After the source has ended, a stream-clocked leg empties: within the datagrams up to
      the edge of what was placed and those for what was waiting, whatever the times, the
      re-insertion threshold or the backlog, nothing is pending and the pacer may exit. */
  lemma {:induction false} StreamDrains(s: Sched, calls: seq<Call>)
    requires Edged(s) && Closing(calls) && |calls| >= Needed(s)
    ensures !RunCalls(s, calls).HasPending()
    decreases |calls|
  {
    hide EmitDatagram, Waiting, GridQueue.Frontier, Edged, Sched.HasPending, Needed;
    if calls == [] {
      NothingNeeded(s);
    } else {
      assert calls[0] in calls;
      var s' := EmitDatagram(s, calls[0].now, calls[0].due).s;
      EmitNeedsOneFewer(s, calls[0].now, calls[0].due);
      if Waiting(s) == 0 {
        StaysDrained(s', calls[1..]);
      } else {
        StreamDrains(s', calls[1..]);
      }
    }
  }

  lemma NothingNeeded(s: Sched)
    requires Edged(s) && Needed(s) == 0
    ensures !s.HasPending()
  {
    OneFewer(Waiting(s), s.cfg.perDatagram);
    hide Datagrams, GridQueue.Frontier;
    PendingIsWaiting(s);
  }

  lemma {:induction false} StaysDrained(s: Sched, calls: seq<Call>)
    requires Edged(s) && Closing(calls) && Waiting(s) == 0
    ensures !RunCalls(s, calls).HasPending()
    decreases |calls|
  {
    hide EmitDatagram, Waiting, GridQueue.Frontier, Edged, Sched.HasPending, Needed;
    if calls == [] {
      PendingIsWaiting(s);
    } else {
      assert calls[0] in calls;
      EmitNeedsOneFewer(s, calls[0].now, calls[0].due);
      StaysDrained(EmitDatagram(s, calls[0].now, calls[0].due).s, calls[1..]);
    }
  }

  /** And every leg gets there: from any run whatever, once its source ends. */
  lemma EveryStreamLegDrains(cfg: Config, calls: seq<Call>, closing: seq<Call>)
    requires cfg.streamed && Closing(closing)
    requires
      var s := RunCalls(NewSched(cfg), calls).Flush();
      s.store.Gridded? && |closing| >= Needed(s)
    ensures !RunCalls(RunCalls(NewSched(cfg), calls).Flush(), closing).HasPending()
  {
    hide RunCalls, Needed, Sched.HasPending, TwoLegs.Leg;
    TwoLegs.NewLeg(cfg);
    TwoLegs.RunLeg(NewSched(cfg), calls);
    LegIsEdged(RunCalls(NewSched(cfg), calls));
    StreamDrains(RunCalls(NewSched(cfg), calls).Flush(), closing);
  }

  lemma LegIsEdged(s: Sched)
    requires TwoLegs.Leg(s)
    ensures Edged(s.Flush())
  {
    hide GridQueue.Marks;
    var g := s.store.grid;
    assert forall i | 0 <= i < |g.queue.placed| :: g.queue.placed[i].slot == g.core.log[g.queue.gone..][i].slot;
  }

  // ---- Under arrival clocking ----

  /** The media clock has authorised everything the buffer holds, in every slot to come. */
  predicate AllDue(s: Sched, due: nat)
    requires s.store.Buffered?
  {
    due >= s.released + |s.store.buffer.queue|
  }

  /** A re-insertion could take the next slot. */
  predicate PcrDue(s: Sched) {
    s.em.lastPcr.Some? && SatSub(s.slot, s.em.lastPcr.value) >= s.cfg.pcrMax
  }

  /** Slots that surely suffice when no two re-insertions can be adjacent. */
  function SlotsNeeded(s: Sched): nat {
    if Waiting(s) == 0 then 0 else 2 * Waiting(s) + if PcrDue(s) then 1 else 0
  }

  /** Everything waiting under arrival clocking, oldest first. */
  function InLine(s: Sched): seq<Packet>
    requires s.store.Buffered?
  {
    Conservation.QueuedPackets(s.em.deferred) + s.store.buffer.queue
  }

  /** A packet without a PCR waits behind one: one already sent, or one waiting ahead. */
  predicate PlainBehindPcr(s: Sched)
    requires s.store.Buffered?
  {
    exists i | 0 <= i < |InLine(s)| ::
      InLine(s)[i].pcr.None? && (s.em.lastPcr.Some? || exists j | 0 <= j < i :: InLine(s)[j].pcr.Some?)
  }

  /** Re-insertion cannot come to take every slot. */
  predicate Clears(s: Sched)
    requires s.store.Buffered?
  {
    s.cfg.pcrMax >= 2 || !s.cfg.regenerate || !PlainBehindPcr(s)
  }

  /** A slot sends nothing from the line. */
  predicate Holds(s: Sched, s': Sched)
    requires s.store.Buffered?
  {
    s'.store.Buffered? && InLine(s') == InLine(s) && (s.em.lastPcr.Some? <==> s'.em.lastPcr.Some?)
  }

  /** A slot sends the head of the line. */
  predicate Sends(s: Sched, s': Sched)
    requires s.store.Buffered?
  {
    && s'.store.Buffered? && InLine(s) != [] && InLine(s') == InLine(s)[1..]
    && s'.em.lastPcr == if InLine(s)[0].pcr.Some? then Some(s.slot) else s.em.lastPcr
  }

  /** At a threshold of one, with a PCR out, only a PCR goes out. */
  predicate PcrsOnly(s: Sched) {
    && s.cfg.pcrMax == 1 && s.cfg.regenerate && !s.cfg.streamed && s.pid.Some? && s.regen.anchor.Some?
    && s.em.lastPcr.Some? && s.em.lastPcr.value < s.slot
  }

  /** No re-insertion can take a slot from the head of the line. */
  predicate HeadIsClear(s: Sched)
    requires s.store.Buffered? && InLine(s) != []
  {
    !s.cfg.regenerate || s.em.lastPcr.None? || InLine(s)[0].pcr.Some?
  }

  lemma ClearHead(s: Sched)
    requires s.store.Buffered? && InLine(s) != [] && (!s.cfg.regenerate || !PlainBehindPcr(s))
    ensures HeadIsClear(s)
  {
  }

  lemma SlotMovesLine(s: Sched, x: Ctx)
    requires s.store.Buffered?
    ensures
      var s' := EmitSlot(s, x).s;
      && s'.cfg == s.cfg && (Holds(s, s') || Sends(s, s'))
      && (PcrsOnly(s) && !x.stalled && InLine(s) != [] && InLine(s)[0].pcr.None? ==> Holds(s, s'))
      && (AllDue(s, x.due) && InLine(s) != [] && HeadIsClear(s) ==> Sends(s, s'))
  {
    hide PutSlot, Sched.Admit, InLine, Reinserts, HeadIsClear, PcrsOnly;
    var want := s.released < x.due;
    var a := s.Admit(want);
    AdmitKeepsLine(s, want);
    PutMovesLine(a, x, want, |a.em.deferred| > |s.em.deferred|);
    if InLine(s) != [] {
      HeadDecides(s, a, x);
    }
  }

  /** Whether a re-insertion comes is decided by what heads the line. */
  lemma HeadDecides(s: Sched, a: Sched, x: Ctx)
    requires s.store.Buffered? && a.store.Buffered? && InLine(a) == InLine(s) && InLine(s) != []
    requires a.em == s.em.(deferred := a.em.deferred)
    requires a.cfg == s.cfg && a.slot == s.slot && a.pid == s.pid && a.regen == s.regen
    ensures
      var t := a.MomentAt(x.stalled, x.determined);
      && (PcrsOnly(s) && !x.stalled && InLine(s)[0].pcr.None? ==> Reinserts(a.cfg, a.em, t) || a.em.deferred == [])
      && (HeadIsClear(s) && a.em.deferred != [] ==> !Reinserts(a.cfg, a.em, t))
  {
    if a.em.deferred != [] {
      assert InLine(a)[0] == a.em.deferred[0].packet;
    }
  }

  lemma AdmitKeepsLine(s: Sched, want: bool)
    requires s.store.Buffered?
    ensures
      var a := s.Admit(want);
      && a.store.Buffered? && InLine(a) == InLine(s) && a.em == s.em.(deferred := a.em.deferred)
      && a.cfg == s.cfg && a.slot == s.slot && a.pid == s.pid && a.regen == s.regen
      && ((want || s.store.buffer.queue == []) && InLine(s) != [] ==> a.em.deferred != [])
  {
  }

  lemma PutMovesLine(s: Sched, x: Ctx, want: bool, admitted: bool)
    requires s.store.Buffered?
    ensures
      var s' := PutSlot(s, x, want, admitted).s;
      var t := s.MomentAt(x.stalled, x.determined);
      && s'.store == s.store && s'.cfg == s.cfg
      && if Reinserts(s.cfg, s.em, t)
         then s.em.lastPcr.Some? && s'.em == s.em.(lastPcr := Some(s.slot)) && InLine(s') == InLine(s)
         else if s.em.deferred == [] then s'.em == s.em && InLine(s') == InLine(s)
         else
           && InLine(s) != [] && InLine(s') == InLine(s)[1..] && InLine(s)[0] == s.em.deferred[0].packet
           && s'.em.lastPcr == if InLine(s)[0].pcr.Some? then Some(s.slot) else s.em.lastPcr
  {
    hide FillSlot, Counted;
    var s' := PutSlot(s, x, want, admitted).s;
    if s.em.deferred != [] {
      assert Conservation.QueuedPackets(s.em.deferred)[1..] == Conservation.QueuedPackets(s.em.deferred[1..]);
    }
  }

  lemma SlotKeepsDue(s: Sched, x: Ctx)
    requires s.store.Buffered? && AllDue(s, x.due)
    ensures
      var s' := EmitSlot(s, x).s;
      s'.store.Buffered? && AllDue(s', x.due)
  {
    hide FillSlot, Transmit, Counted;
  }

  /** Where re-insertion has every other slot at most, a slot in two sends content. */
  lemma SpacedSlotDrains(s: Sched, x: Ctx)
    requires s.store.Buffered? && s.cfg.pcrMax >= 2 && AllDue(s, x.due)
    ensures SlotsNeeded(EmitSlot(s, x).s) <= SatSub(SlotsNeeded(s), 1)
  {
    hide FillSlot, Counted;
  }

  /** Where it cannot come between, every slot does. */
  lemma ClearSlotDrains(s: Sched, x: Ctx)
    requires s.store.Buffered? && AllDue(s, x.due)
    requires !s.cfg.regenerate || !PlainBehindPcr(s)
    ensures
      var s' := EmitSlot(s, x).s;
      && s'.store.Buffered? && s'.cfg == s.cfg && SlotsNeeded(s') <= SatSub(SlotsNeeded(s), 1)
      && (!s.cfg.regenerate || !PlainBehindPcr(s'))
  {
    hide EmitSlot;
    var s' := EmitSlot(s, x).s;
    SlotMovesLine(s, x);
    LineIsWaiting(s);
    LineIsWaiting(s');
    if InLine(s) != [] {
      ClearHead(s);
      if s.cfg.regenerate {
        ShorterStaysClear(s, s');
      }
    } else {
      assert InLine(s') == [];
    }
  }

  lemma LineIsWaiting(s: Sched)
    requires s.store.Buffered?
    ensures |InLine(s)| == Waiting(s)
  {
  }

  lemma ShorterStaysClear(s: Sched, s': Sched)
    requires s.store.Buffered? && !PlainBehindPcr(s) && Sends(s, s')
    ensures !PlainBehindPcr(s')
  {
    var line, line' := InLine(s), InLine(s');
    forall i | 0 <= i < |line'| && line'[i].pcr.None?
      ensures s'.em.lastPcr.None? && forall j | 0 <= j < i :: line'[j].pcr.None?
    {
      assert line[i + 1].pcr.None? && line[0].pcr.None?;
      forall j | 0 <= j < i
        ensures line'[j].pcr.None?
      {
        assert line[j + 1].pcr.None?;
      }
    }
  }

  lemma SlotDrainsBuffer(s: Sched, x: Ctx)
    requires s.store.Buffered? && Clears(s) && AllDue(s, x.due)
    ensures
      var s' := EmitSlot(s, x).s;
      && s'.store.Buffered? && AllDue(s', x.due) && s'.cfg == s.cfg && Clears(s')
      && SlotsNeeded(s') <= SatSub(SlotsNeeded(s), 1)
  {
    hide EmitSlot, PlainBehindPcr, SlotsNeeded;
    SlotKeepsDue(s, x);
    SlotMovesLine(s, x);
    if s.cfg.pcrMax >= 2 {
      SpacedSlotDrains(s, x);
    } else {
      ClearSlotDrains(s, x);
    }
  }

  lemma {:induction false} SlotsDrainBuffer(s: Sched, n: nat, x: Ctx)
    requires s.store.Buffered? && Clears(s) && AllDue(s, x.due)
    ensures
      var s' := EmitSlots(s, n, x).s;
      && s'.store.Buffered? && AllDue(s', x.due) && s'.cfg == s.cfg && Clears(s')
      && SlotsNeeded(s') <= SatSub(SlotsNeeded(s), n)
  {
    hide EmitSlot, SlotsNeeded, Clears, AllDue;
    if n == 0 {
    } else {
      SlotsDrainBuffer(s, n - 1, x);
      SlotDrainsBuffer(EmitSlots(s, n - 1, x).s, x);
    }
  }

  /** Every datagram finds all that is buffered due. */
  predicate AlwaysDue(s: Sched, calls: seq<Call>)
    decreases |calls|
  {
    calls == [] ||
    (s.store.Buffered? && calls[0].Emit? && AllDue(s, calls[0].due) && AlwaysDue(Do(s, calls[0]), calls[1..]))
  }

  /** With all it holds due, a leg empties where re-insertion cannot come to take every
      slot. */
  lemma {:induction false} DueDrains(s: Sched, calls: seq<Call>)
    requires s.store.Buffered? && Clears(s) && AlwaysDue(s, calls)
    requires |calls| * s.cfg.perDatagram >= SlotsNeeded(s)
    ensures !RunCalls(s, calls).HasPending()
    decreases |calls|
  {
    hide EmitSlots, SlotsNeeded, Opens, Clears;
    if calls == [] {
      NeedsNoSlots(s);
    } else {
      var now, due := calls[0].now, calls[0].due;
      var n := s.cfg.perDatagram;
      Repetition.CatchUpIsForGrids(s, now);
      var x := Opens(s, now, due);
      SendsOffGrid(s, now, due);
      var ready := Opening(s, x);
      SameNeed(s, ready);
      SlotsDrainBuffer(ready, n, x);
      assert |calls| * n == |calls[1..]| * n + n;
      DueDrains(EmitDatagram(s, now, due).s, calls[1..]);
    }
  }

  lemma NeedsNoSlots(s: Sched)
    requires SlotsNeeded(s) == 0
    ensures !s.HasPending()
  {
  }

  lemma SendsOffGrid(s: Sched, now: nat, due: nat)
    requires s.store.Buffered?
    ensures Opens(s, now, due).send && Opens(s, now, due).due == due && !Opens(s, now, due).determined
  {
  }

  lemma SameNeed(s: Sched, s': Sched)
    requires s.store.Buffered?
    requires s'.em == s.em && s'.store == s.store && s'.slot == s.slot && s'.cfg == s.cfg
    ensures SlotsNeeded(s') == SlotsNeeded(s) && Clears(s') == Clears(s)
  {
    assert InLine(s') == InLine(s);
  }

  // ---- While the media clock catches up ----

  /** What a slot keeps, due or not: no re-insertion comes that could not, what waits only
      shrinks, and what the media clock has to have released does not change. */
  ghost predicate Settles(s: Sched, s': Sched) {
    && s.store.Buffered? && s'.store.Buffered? && s'.cfg == s.cfg
    && (Clears(s) ==> Clears(s')) && Waiting(s') <= Waiting(s)
    && s'.released + |s'.store.buffer.queue| == s.released + |s.store.buffer.queue|
  }

  lemma SlotSettles(s: Sched, x: Ctx)
    requires s.store.Buffered?
    ensures Settles(s, EmitSlot(s, x).s)
  {
    hide EmitSlot, PlainBehindPcr;
    var s' := EmitSlot(s, x).s;
    SlotMovesLine(s, x);
    SlotKeepsTotal(s, x);
    LineIsWaiting(s);
    LineIsWaiting(s');
    if !PlainBehindPcr(s) {
      if Sends(s, s') {
        ShorterStaysClear(s, s');
      } else {
        SameStaysClear(s, s');
      }
    }
  }

  lemma SlotKeepsTotal(s: Sched, x: Ctx)
    requires s.store.Buffered?
    ensures
      var s' := EmitSlot(s, x).s;
      s'.store.Buffered? && s'.released + |s'.store.buffer.queue| == s.released + |s.store.buffer.queue|
  {
    hide FillSlot, Transmit, Counted;
  }

  lemma SameStaysClear(s: Sched, s': Sched)
    requires s.store.Buffered? && !PlainBehindPcr(s) && Holds(s, s')
    ensures !PlainBehindPcr(s')
  {
  }

  lemma {:induction false} SlotsSettle(s: Sched, n: nat, x: Ctx)
    requires s.store.Buffered?
    ensures Settles(s, EmitSlots(s, n, x).s)
  {
    hide EmitSlot, Clears, Waiting;
    if n == 0 {
    } else {
      SlotsSettle(s, n - 1, x);
      SlotSettles(EmitSlots(s, n - 1, x).s, x);
    }
  }

  lemma EmitSettles(s: Sched, now: nat, due: nat)
    requires s.store.Buffered?
    ensures Settles(s, EmitDatagram(s, now, due).s)
  {
    hide EmitSlots, Opens, Clears;
    Repetition.CatchUpIsForGrids(s, now);
    SendsOffGrid(s, now, due);
    var x := Opens(s, now, due);
    SameNeed(s, Opening(s, x));
    SlotsSettle(Opening(s, x), s.cfg.perDatagram, x);
  }

  lemma {:induction false} ClosingSettles(s: Sched, calls: seq<Call>)
    requires s.store.Buffered? && Closing(calls)
    ensures Settles(s, RunCalls(s, calls))
    decreases |calls|
  {
    hide EmitDatagram, Clears, Waiting;
    if calls == [] {
    } else {
      assert calls[0] in calls;
      EmitSettles(s, calls[0].now, calls[0].due);
      ClosingSettles(EmitDatagram(s, calls[0].now, calls[0].due).s, calls[1..]);
    }
  }

  /** Slots that surely suffice for what waits, whenever it all comes due. */
  function SlotsFor(s: Sched): nat {
    2 * Waiting(s) + 1
  }

  /** An arrival-clocked leg empties too where re-insertion cannot come to take every slot:
      however many datagrams find less than all it holds due, enough that find it all do. */
  lemma ArrivalDrains(s: Sched, early: seq<Call>, late: seq<Call>)
    requires s.store.Buffered? && Clears(s) && Closing(early) && AlwaysDue(RunCalls(s, early), late)
    requires |late| * s.cfg.perDatagram >= SlotsFor(s)
    ensures !RunCalls(RunCalls(s, early), late).HasPending()
  {
    hide RunCalls, Clears, AlwaysDue, Waiting;
    ClosingSettles(s, early);
    DueDrains(RunCalls(s, early), late);
  }

  // ---- A threshold of one slot ----

  /** Re-insertion has come, or will, to take every slot from something that waits. */
  ghost predicate Doomed(s: Sched) {
    s.store.Buffered? && !s.cfg.streamed && Repetition.Sound(s) && !Clears(s)
  }

  lemma SlotStaysDoomed(s: Sched, x: Ctx)
    requires Doomed(s) && !x.stalled
    ensures Doomed(EmitSlot(s, x).s) && EmitSlot(s, x).s.cfg == s.cfg
  {
    hide EmitSlot, Conservation.Conserves, Repetition.KnowsPid;
    var s' := EmitSlot(s, x).s;
    Repetition.SlotKeepsSound(s, x);
    SlotMovesLine(s, x);
    var line, line' := InLine(s), InLine(s');
    var i :| 0 <= i < |line| && line[i].pcr.None? && (s.em.lastPcr.Some? || exists j | 0 <= j < i :: line[j].pcr.Some?);
    if Holds(s, s') {
      assert line'[i].pcr.None?;
    } else {
      assert i > 0;
      assert line'[i - 1].pcr.None?;
      if s'.em.lastPcr.None? {
        var j :| 0 <= j < i && line[j].pcr.Some?;
        assert line'[j - 1].pcr.Some?;
      }
    }
  }

  lemma {:induction false} SlotsStayDoomed(s: Sched, n: nat, x: Ctx)
    requires Doomed(s) && !x.stalled
    ensures Doomed(EmitSlots(s, n, x).s)
  {
    hide Doomed, EmitSlot;
    if n == 0 {
    } else {
      SlotsStayDoomed(s, n - 1, x);
      SlotStaysDoomed(EmitSlots(s, n - 1, x).s, x);
    }
  }

  lemma DoomedIsPending(s: Sched)
    requires Doomed(s)
    ensures s.HasPending()
  {
    hide Repetition.Sound;
    LineIsWaiting(s);
    PendingIsWaiting(s);
  }

  lemma EmitStaysDoomed(s: Sched, now: nat, due: nat)
    requires Doomed(s)
    ensures Doomed(EmitDatagram(s, now, due).s)
  {
    hide EmitSlots, Conservation.Conserves, Clears;
    DoomedIsPending(s);
    Repetition.CatchUpIsForGrids(s, now);
    SendsOffGrid(s, now, due);
    var x := Opens(s, now, due);
    assert !x.stalled;
    var ready := Opening(s, x);
    Conservation.SameConserves(s, ready);
    SameNeed(s, ready);
    SlotsStayDoomed(ready, s.cfg.perDatagram, x);
  }

  /** Then, however many datagrams are asked for, at whatever times and with whatever due,
      it never empties, and the pacer's closing exit is never reached. */
  lemma {:induction false} NeverDrains(s: Sched, calls: seq<Call>)
    requires Doomed(s) && Closing(calls)
    ensures RunCalls(s, calls).HasPending()
    decreases |calls|
  {
    hide EmitDatagram, Doomed;
    if calls == [] {
      DoomedIsPending(s);
    } else {
      assert calls[0] in calls;
      EmitStaysDoomed(s, calls[0].now, calls[0].due);
      NeverDrains(EmitDatagram(s, calls[0].now, calls[0].due).s, calls[1..]);
    }
  }

  lemma {:induction false} StaysDoomed(s: Sched, calls: seq<Call>)
    requires Doomed(s) && Closing(calls)
    ensures Doomed(RunCalls(s, calls))
    decreases |calls|
  {
    hide EmitDatagram, Doomed;
    if calls == [] {
    } else {
      assert calls[0] in calls;
      EmitStaysDoomed(s, calls[0].now, calls[0].due);
      StaysDoomed(EmitDatagram(s, calls[0].now, calls[0].due).s, calls[1..]);
    }
  }

  /** Exactly when an arrival-clocked leg drains, from any run whatever: with all it holds
      due in the end and datagrams enough from there, it empties if and only if the
      threshold is more than one slot, or PCRs are left alone, or no packet without a PCR
      waits behind a PCR already sent or waiting ahead of it. */
  lemma DrainsExactlyWhenClear(cfg: Config, before: seq<Call>, early: seq<Call>, late: seq<Call>)
    requires !cfg.streamed
    requires
      var s := RunCalls(NewSched(cfg), before);
      && Closing(early) && Closing(late) && AlwaysDue(RunCalls(s, early), late)
      && |late| * cfg.perDatagram >= SlotsFor(s)
    ensures
      var s := RunCalls(NewSched(cfg), before);
      && s.store.Buffered?
      && (!RunCalls(RunCalls(s, early), late).HasPending()
          <==> cfg.pcrMax >= 2 || !cfg.regenerate || !PlainBehindPcr(s))
  {
    hide RunCalls, Waiting, PlainBehindPcr, Sched.HasPending, Conservation.Conserves, AlwaysDue;
    var s := RunCalls(NewSched(cfg), before);
    ReachedIsSound(cfg, before);
    if Clears(s) {
      ArrivalDrains(s, early, late);
    } else {
      StaysDoomed(s, early);
      NeverDrains(RunCalls(s, early), late);
    }
  }

  lemma ReachedIsSound(cfg: Config, calls: seq<Call>)
    requires !cfg.streamed
    ensures
      var s := RunCalls(NewSched(cfg), calls);
      s.store.Buffered? && s.cfg == cfg && Repetition.Sound(s)
  {
    hide RunCalls;
    Repetition.NewKept(cfg);
    Repetition.RunKept(NewSched(cfg), calls);
    Conservation.RunKeepsConfig(NewSched(cfg), calls);
  }

  /** And it fails at once: a PCR-bearing packet and a plain one are enough, at any times,
      and no closing datagrams, whenever asked for and whatever the media clock then says
      is due, empty the leg. */
  lemma TwoPacketsNeverDrain(c: Config, first: Packet, second: Packet, at: nat, later: nat, closing: seq<Call>)
    requires !c.streamed && c.regenerate && c.pcrMax == 1 && c.maxLatency >= 2 && Closing(closing)
    requires first.pcr.Some? && first.pid != NULL_PID && second.pcr.None? && second.pid != NULL_PID
    ensures RunCalls(RunCalls(NewSched(c), [Enqueue(first, at), Enqueue(second, later)]), closing).HasPending()
  {
    var s0 := NewSched(c);
    var s1 := s0.Enqueue(first, at);
    var s2 := s1.Enqueue(second, later);
    var both := [Enqueue(first, at), Enqueue(second, later)];
    ReachedIsSound(c, both);
    assert both[1..] == [Enqueue(second, later)] && [Enqueue(second, later)][1..] == [];
    assert RunCalls(s0, both) == s2 by {
      assert RunCalls(s1, both[1..]) == s2;
    }
    assert s2.store.buffer.queue == [first, second];
    assert InLine(s2)[1].pcr.None? && InLine(s2)[0].pcr.Some?;
    NeverDrains(s2, closing);
  }
}
