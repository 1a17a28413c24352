/** When a stream-clocked leg is in phase, and so when it sends (src/scheduler.rs,
    `emit_datagram`, `advance_muted`, `catch_up`). */
module Phases {
  import opened Packets
  import opened GridSpec
  import opened SchedulerSpec
  import Conservation
  import Departures
  import PcrRegens
  import TwoLegs

  /** In some slot of a datagram filled from `s` a content PCR goes out with nothing having
      waited ahead of it. */
  predicate MeetsPcr(s: Sched, n: nat, x: Ctx) {
    exists k :: 0 <= k < n && MeetsIn(EmitSlots(s, k, x).s, x)
  }

  predicate MeetsIn(s: Sched, x: Ctx) {
    var cell := EmitSlot(s, x).cell;
    s.em.deferred == [] && cell.Content? && cell.packet.pcr.Some?
  }

  /** What the run leaves of phase, `before` being whether the leg was in it: a datagram whose
      slots the leg does not all know, and muting, end it; so does a jump of the clock; and
      a datagram it does know in which a content PCR goes out with nothing ahead of it
      begins it. */
  predicate InPhase(s: Sched, calls: seq<Call>, before: bool)
    decreases |calls|
  {
    if calls == [] then before
    else
      var now := match calls[0]
        case Enqueue(_, _) => before
        case Mute(_) => false
        case Emit(now, due) =>
          var caught := s.CatchUp(now);
          var x := Opens(caught, now, due);
          && x.determined
          && ((before && caught.slot == s.slot) || MeetsPcr(Opening(caught, x), s.cfg.perDatagram, x));
      InPhase(Do(s, calls[0]), calls[1..], now)
  }

  lemma AdmitsOne(s: Sched, want: bool)
    ensures |s.em.deferred| <= |s.Admit(want).em.deferred| <= |s.em.deferred| + 1
  {
    hide Queue.Take;
  }

  lemma PutPhases(s: Sched, x: Ctx, want: bool, admitted: bool)
    ensures
      var f := PutSlot(s, x, want, admitted);
      && (f.s.em.phased <==>
            || s.em.phased
            || (&& f.cell.Content? && f.cell.packet.pcr.Some? && admitted && |s.em.deferred| == 1 && x.determined))
      && (f.cell.Content? ==> s.em.deferred != []) && f.s.store == s.store
  {
    hide Counted, PcrRegens.Regen.Observe, PcrRegens.Regen.Locked, PcrRegens.Regen.Flags, InsertedClock, GridClock;
  }

  lemma SlotPhases(s: Sched, x: Ctx)
    ensures EmitSlot(s, x).s.em.phased <==> s.em.phased || (MeetsIn(s, x) && x.determined)
  {
    hide PutSlot, Sched.Admit;
    var want := s.released < x.due;
    var a := s.Admit(want);
    Conservation.AdmitTouches(s, want);
    AdmitsOne(s, want);
    PutPhases(a, x, want, |a.em.deferred| > |s.em.deferred|);
  }

  lemma {:induction false} SlotsPhase(s: Sched, n: nat, x: Ctx)
    ensures EmitSlots(s, n, x).s.em.phased <==> s.em.phased || (MeetsPcr(s, n, x) && x.determined)
  {
    hide EmitSlot, MeetsIn;
    if n == 0 {
    } else {
      SlotsPhase(s, n - 1, x);
      SlotPhases(EmitSlots(s, n - 1, x).s, x);
      assert MeetsPcr(s, n, x) <==> MeetsPcr(s, n - 1, x) || MeetsIn(EmitSlots(s, n - 1, x).s, x);
    }
  }

  lemma OpeningPhases(s: Sched, now: nat, due: nat)
    requires s.store.Gridded?
    ensures
      var caught := s.CatchUp(now);
      var x := Opens(caught, now, due);
      && (Opening(caught, x).em.phased <==> s.em.phased && caught.slot == s.slot && x.determined)
      && caught.cfg == s.cfg && (x.send <==> x.determined && s.em.phased && caught.slot == s.slot)
  {
    hide Sched.Boundary, Core.Determined, Sched.State;
  }

  lemma CallPhases(s: Sched, call: Call)
    requires s.store.Gridded?
    ensures Do(s, call).em.phased <==> InPhase(s, [call], s.em.phased)
  {
    hide EmitSlots, Opens, Sched.CatchUp, MeetsPcr, Sched.Enqueue, Sched.State;
    assert [call][1..] == [];
    match call {
      case Enqueue(p, now) => EnqueueKeepsPhase(s, p, now);
      case Emit(now, due) =>
        var caught := s.CatchUp(now);
        var x := Opens(caught, now, due);
        OpeningPhases(s, now, due);
        SlotsPhase(Opening(caught, x), s.cfg.perDatagram, x);
      case Mute(now) =>
    }
  }

  lemma EnqueueKeepsPhase(s: Sched, p: Packet, now: nat)
    ensures s.Enqueue(p, now).em == s.em
  {
    hide Grid.Push, Sched.Boundary;
  }

  lemma {:induction false} RunPhases(s: Sched, calls: seq<Call>)
    requires TwoLegs.Leg(s)
    ensures RunCalls(s, calls).em.phased <==> InPhase(s, calls, s.em.phased)
    decreases |calls|
  {
    hide Do, TwoLegs.Leg;
    Departures.LegGridded(s);
    if calls == [] {
    } else {
      CallPhases(s, calls[0]);
      assert [calls[0]][1..] == [];
      TwoLegs.RunLeg(s, [calls[0]]);
      RunPhases(Do(s, calls[0]), calls[1..]);
    }
  }

  /** Over every stream-clocked run from new: a datagram is sent if and only if the leg knows
      all its slots, has not just jumped, and is in phase: since some datagram it knew, in
      which a content PCR went out with nothing having waited ahead of it, there has been
      no jump, no muting and no datagram it did not know. */
  lemma SendsExactlyInPhase(cfg: Config, calls: seq<Call>, now: nat, due: nat)
    requires cfg.streamed
    ensures
      var s := RunCalls(NewSched(cfg), calls);
      var x := Opens(s.CatchUp(now), now, due);
      && (s.em.phased <==> InPhase(NewSched(cfg), calls, false))
      && (x.send <==> x.determined && s.CatchUp(now).slot == s.slot && InPhase(NewSched(cfg), calls, false))
  {
    hide RunCalls, InPhase, Opens, Sched.CatchUp, TwoLegs.Leg;
    TwoLegs.NewLeg(cfg);
    TwoLegs.RunLeg(NewSched(cfg), calls);
    RunPhases(NewSched(cfg), calls);
    var s := RunCalls(NewSched(cfg), calls);
    Departures.LegGridded(s);
    OpeningPhases(s, now, due);
  }
}
