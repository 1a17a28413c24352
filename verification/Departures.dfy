/** What may still leave the queue of placed packets once a datagram has gone by
    (src/scheduler.rs, `take`, `determined`, `emit_datagram`). */
module Departures {
  import opened Prelude
  import opened Packets
  import opened GridSpec
  import opened SchedulerSpec
  import opened TwoLegs
  import GridQueue

  function Gone(s: Sched): nat
    requires s.store.Gridded?
  {
    s.store.grid.queue.gone
  }

  lemma AdmitSweeps(s: Sched, want: bool)
    requires Leg(s)
    ensures
      var a := s.Admit(want);
      s.store.Gridded? && a.store.Gridded? && Gone(a) >= Gone(s) && GridQueue.Swept(Gone(a), LogOf(s), s.slot + 1)
  {
    hide GridQueue.Reachable, Queue.Take, GridQueue.Tagged, GridQueue.Swept, GridQueue.Refines;
    var q, log := s.store.grid.queue, LogOf(s);
    ReachableParts(s.store.grid);
    GridQueue.TakeSweeps(q, log, s.slot);
    GridQueue.TakeReachable(s.store.grid, s.slot);
    GoneIsPlaced(s);
  }

  lemma GoneIsPlaced(s: Sched)
    requires Leg(s)
    ensures Gone(s) <= |LogOf(s)|
  {
  }

  lemma SlotSweeps(s: Sched, x: Ctx)
    requires Leg(s)
    ensures
      var s' := EmitSlot(s, x).s;
      s'.store.Gridded? && Gone(s') >= Gone(s) && GridQueue.Swept(Gone(s'), LogOf(s'), s'.slot)
  {
    hide Leg, Sched.Admit, PutSlot, GridQueue.Swept;
    var want := s.released < x.due;
    var a := s.Admit(want);
    AdmitSweeps(s, want);
    PutLeavesStore(a, x, want, |a.em.deferred| > |s.em.deferred|);
    AdmitPlacesNothing(s, want);
  }

  lemma AdmitPlacesNothing(s: Sched, want: bool)
    requires s.store.Gridded?
    ensures
      var a := s.Admit(want);
      a.store.Gridded? && LogOf(a) == LogOf(s) && a.slot == s.slot
  {
    hide Queue.Take;
  }

  lemma PutLeavesStore(s: Sched, x: Ctx, want: bool, admitted: bool)
    ensures
      var s' := PutSlot(s, x, want, admitted).s;
      s'.store == s.store && s'.slot == s.slot + 1
  {
    hide FillSlot, Transmit, Counted;
  }

  lemma {:induction false} SlotsSweep(s: Sched, n: nat, x: Ctx)
    requires Leg(s)
    ensures
      var s' := EmitSlots(s, n, x).s;
      s'.store.Gridded? && Gone(s') >= Gone(s) && (n > 0 ==> GridQueue.Swept(Gone(s'), LogOf(s'), s'.slot))
  {
    hide Leg, EmitSlot, GridQueue.Swept;
    if n == 0 {
      LegGridded(s);
    } else {
      SlotsSweep(s, n - 1, x);
      SlotsKeepLeg(s, n - 1, x);
      SlotSweeps(EmitSlots(s, n - 1, x).s, x);
    }
  }

  lemma LegGridded(s: Sched)
    requires Leg(s)
    ensures s.store.Gridded?
  {
  }

  /** After a datagram nothing queued lies before the next slot. */
  lemma EmitSweeps(s: Sched, now: nat, due: nat)
    requires Leg(s)
    ensures
      var s' := EmitDatagram(s, now, due).s;
      s'.store.Gridded? && Gone(s') >= Gone(s) && GridQueue.Swept(Gone(s'), LogOf(s'), s'.slot)
  {
    hide EmitSlots, Opens, Sched.Boundary, GridQueue.Swept, GridQueue.Reachable;
    var caught := s.CatchUp(now);
    CatchUpKeepsLeg(s, now);
    var x := Opens(caught, now, due);
    SlotsSweep(Opening(caught, x), s.cfg.perDatagram, x);
  }

  /** Nothing past the first `gone` placements lies before `asked`, nor ever will. */
  ghost predicate Finished(s: Sched, gone: nat, asked: nat) {
    && Leg(s) && gone <= Gone(s) <= |LogOf(s)| && GridQueue.Swept(gone, LogOf(s), asked)
    && asked <= GridQueue.Frontier(s.store.grid.core)
  }

  lemma EnqueueFinishes(s: Sched, p: Packet, now: nat, gone: nat, asked: nat)
    requires Finished(s, gone, asked)
    ensures Finished(s.Enqueue(p, now), gone, asked)
  {
    hide Grid.Push, GridQueue.Reachable, GridQueue.Swept, GridQueue.Frontier, Sched.Boundary;
    EnqueueGrows(s, p, now);
    GoneIsPlaced(s.Enqueue(p, now));
    if p.pid != NULL_PID {
      var horizon := if s.Started() then Some(s.slot + s.cfg.maxLatency) else None;
      GridQueue.PushSweeps(s.store.grid, p, now, horizon, gone, asked);
      var a := s.Resumed().Accepted(p, now);
      assert a.Started() == s.Started() && a.store == s.store && a.slot == s.slot;
    }
  }

  lemma EmitFinishes(s: Sched, now: nat, due: nat, gone: nat, asked: nat)
    requires Finished(s, gone, asked)
    ensures Finished(EmitDatagram(s, now, due).s, gone, asked)
  {
    hide Leg, EmitDatagram, Sched.CatchUp, GridQueue.Swept, GridQueue.Frontier;
    EmitKeepsLeg(s, now, due);
    EmitSweeps(s, now, due);
    GoneIsPlaced(EmitDatagram(s, now, due).s);
  }

  lemma MuteFinishes(s: Sched, now: nat, gone: nat, asked: nat)
    requires Finished(s, gone, asked)
    ensures Finished(AdvanceMuted(s, now), gone, asked)
  {
    hide GridQueue.Reachable, GridQueue.Swept, GridQueue.Frontier, Sched.State;
  }

  lemma {:induction false} RunFinishes(s: Sched, calls: seq<Call>, gone: nat, asked: nat)
    requires Finished(s, gone, asked)
    ensures Finished(RunCalls(s, calls), gone, asked)
    decreases |calls|
  {
    hide Finished, EmitDatagram, Sched.Enqueue, AdvanceMuted;
    if calls == [] {
    } else {
      match calls[0] {
        case Enqueue(p, now) => EnqueueFinishes(s, p, now, gone, asked);
        case Emit(now, due) => EmitFinishes(s, now, due, gone, asked);
        case Mute(now) => MuteFinishes(s, now, gone, asked);
      }
      RunFinishes(Do(s, calls[0]), calls[1..], gone, asked);
    }
  }

  lemma DeterminedIsBelowFrontier(s: Sched, now: nat, due: nat)
    requires Leg(s) && Opens(s.CatchUp(now), now, due).determined
    ensures
      var s' := EmitDatagram(s, now, due).s;
      s'.store.Gridded? && s'.slot <= GridQueue.Frontier(s'.store.grid.core)
  {
    hide EmitDatagram, Sched.CatchUp, Sched.State, GridQueue.Reachable;
    EmitKeepsLeg(s, now, due);
    CatchUpKeepsLeg(s, now);
  }

  /** The slots of a determined datagram, and all before them, are finished with for good. */
  lemma SentStaysFinished(cfg: Config, before: seq<Call>, now: nat, due: nat, after: seq<Call>)
    requires cfg.streamed
    requires
      var s := RunCalls(NewSched(cfg), before);
      Opens(s.CatchUp(now), now, due).determined
    ensures
      var sent := EmitDatagram(RunCalls(NewSched(cfg), before), now, due).s;
      sent.store.Gridded? && Finished(RunCalls(sent, after), Gone(sent), sent.slot)
  {
    hide RunCalls, EmitDatagram, Opens, Sched.CatchUp, Leg, GridQueue.Frontier;
    NewLeg(cfg);
    WholeIsLeg(NewSched(cfg));
    RunLeg(NewSched(cfg), before);
    var s := RunCalls(NewSched(cfg), before);
    var sent := EmitDatagram(s, now, due).s;
    EmitKeepsLeg(s, now, due);
    EmitSweeps(s, now, due);
    DeterminedIsBelowFrontier(s, now, due);
    GoneIsPlaced(sent);
    RunFinishes(sent, after, Gone(sent), sent.slot);
  }

  /** Once a leg has been through a datagram whose slots it knew, sent or not, no packet of
      those slots or of any before them leaves the queue again: over every later run of
      calls whatever is taken, dropped as late or evicted lies past them. */
  lemma NothingOfASentSlotLeaves(cfg: Config, before: seq<Call>, now: nat, due: nat, after: seq<Call>)
    requires cfg.streamed
    requires
      var s := RunCalls(NewSched(cfg), before);
      Opens(s.CatchUp(now), now, due).determined
    ensures
      var sent := EmitDatagram(RunCalls(NewSched(cfg), before), now, due).s;
      var s := RunCalls(sent, after);
      && sent.store.Gridded? && s.store.Gridded? && Gone(sent) <= Gone(s) <= |LogOf(s)|
      && forall i | Gone(sent) <= i < |LogOf(s)| :: LogOf(s)[i].slot >= sent.slot
  {
    hide RunCalls, EmitDatagram, Opens, Sched.CatchUp, Leg, GridQueue.Frontier;
    SentStaysFinished(cfg, before, now, due, after);
    LegGridded(RunCalls(EmitDatagram(RunCalls(NewSched(cfg), before), now, due).s, after));
  }
}
