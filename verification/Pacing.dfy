/** The scheduler with its own media clock (src/scheduler.rs, `enqueue`, `emit_datagram`):
    what is due is what the clock says, and not a free choice. `Schedulers.Scheduler` is
    proved to step as this does. */
module Pacing {
  import opened Prelude
  import opened Packets
  import opened SlotMaps
  import opened SchedulerSpec
  import opened MediaClocks
  import Drain
  import OutputClock
  import Repetition

  type Clocked = m: Media | m.pendingSecs >= 0.0 witness NewMedia(0.0)

  datatype Paced = Paced(s: Sched, m: Clocked)
  {
    /** What enqueueing a packet does to the media clock: under arrival clocking it restarts
        after a stall, observes the packet, and is armed with the output clock. */
    function ClockOnEnqueue(p: Packet, now: nat, decay: Decay): Clocked {
      if p.pid == NULL_PID || s.store.Gridded? then m
      else
        var resumed := if s.stalled then m.Resumed(now + s.cfg.target) else m;
        ObservedIsClocked(resumed, p, decay);
        var observed := resumed.Observed(p, decay);
        if s.anchor.None? then observed.(anchor := Some(now + s.cfg.target)) else observed
    }

    function Enqueue(p: Packet, now: nat, decay: Decay): Paced {
      Paced(s.Enqueue(p, now), ClockOnEnqueue(p, now, decay))
    }

    /** How many packets wait for the clock to release them. */
    function Held(): nat {
      match s.store
      case Gridded(_) => 0
      case Buffered(buffer) => |buffer.queue|
    }

    /** The clock ticked to `now`, holding the buffer at its target. */
    function Ticked(now: nat): Clocked {
      m.Ticked(now, Held(), Depth(m.ratePps, s.cfg.target))
    }

    function Due(now: nat): nat {
      Ticked(now).DueAt(now)
    }

    function Emit(now: nat): Paced {
      var after := EmitDatagram(s, now, Due(now)).s;
      Paced(after, Ticked(now).(released := after.released))
    }

    function Mute(now: nat): Paced {
      Paced(AdvanceMuted(s, now), m)
    }
  }

  lemma ObservedIsClocked(m: Media, p: Packet, decay: Decay)
    requires m.pendingSecs >= 0.0
    ensures m.Observed(p, decay).pendingSecs >= 0.0
  {
    hide ForwardDelta, Ratio, Decayed;
  }

  /** The carrier's rate in packets a second, at which a clock starts. */
  function CarrierRate(cfg: Config): real {
    cfg.m.rate as real / PACKET_BITS as real
  }

  function NewPaced(cfg: Config): Paced {
    Paced(NewSched(cfg), NewMedia(CarrierRate(cfg)))
  }

  // ---- Whole runs ----

  datatype Step =
    | Enqueue(packet: Packet, now: nat, decay: Decay)
    | Emit(now: nat)
    | Mute(now: nat)

  function Take(p: Paced, step: Step): Paced {
    match step
    case Enqueue(packet, now, decay) => p.Enqueue(packet, now, decay)
    case Emit(now) => p.Emit(now)
    case Mute(now) => p.Mute(now)
  }

  function Run(p: Paced, steps: seq<Step>): Paced
    decreases |steps|
  {
    if steps == [] then p else Run(Take(p, steps[0]), steps[1..])
  }

  /** The scheduler's side of a step. */
  function CallOf(p: Paced, step: Step): Call {
    match step
    case Enqueue(packet, now, _) => Call.Enqueue(packet, now)
    case Emit(now) => Call.Emit(now, p.Due(now))
    case Mute(now) => Call.Mute(now)
  }

  function CallsOf(p: Paced, steps: seq<Step>): (calls: seq<Call>)
    ensures |calls| == |steps|
    decreases |steps|
  {
    if steps == [] then [] else [CallOf(p, steps[0])] + CallsOf(Take(p, steps[0]), steps[1..])
  }

  /** A paced run is a run of the scheduler, with what is due decided. */
  lemma {:induction false} RunIsCalls(p: Paced, steps: seq<Step>)
    ensures Run(p, steps).s == RunCalls(p.s, CallsOf(p, steps))
    decreases |steps|
  {
    hide EmitDatagram, Sched.Enqueue, AdvanceMuted, Paced.Due, Paced.Ticked, Paced.ClockOnEnqueue;
    if steps == [] {
    } else {
      var calls := CallsOf(p, steps);
      assert calls[0] == CallOf(p, steps[0]) && calls[1..] == CallsOf(Take(p, steps[0]), steps[1..]);
      RunIsCalls(Take(p, steps[0]), steps[1..]);
    }
  }

  // ---- What is released ----

  /** Under arrival clocking the clock is within its bounds and counts what was released. */
  ghost predicate InStep(p: Paced) {
    && p.s.store.Buffered? && !p.s.cfg.streamed && Bounded(p.m) && p.m.released == p.s.released
    && (p.m.anchor.Some? <==> p.s.anchor.Some?)
  }

  lemma EnqueueInStep(p: Paced, packet: Packet, now: nat, decay: Decay)
    requires InStep(p)
    ensures InStep(p.Enqueue(packet, now, decay)) && p.Enqueue(packet, now, decay).m.carrierPps == p.m.carrierPps
  {
    hide Bounded, Media.Observed, Media.Resumed;
    if packet.pid != NULL_PID {
      var resumed := if p.s.stalled then p.m.Resumed(now + p.s.cfg.target) else p.m;
      ResumeBounded(p.m, now + p.s.cfg.target);
      ObservedBounded(resumed, packet, decay);
      ObservedKeeps(resumed, packet, decay);
      NotTickedUnarmed(p.m);
      if p.s.anchor.None? {
        ArmBounded(resumed.Observed(packet, decay), now + p.s.cfg.target);
      }
    }
  }

  lemma NotTickedUnarmed(m: Media)
    requires Bounded(m)
    ensures m.anchor.None? ==> m.ticked.None?
  {
  }

  lemma ResumeBounded(m: Media, at: nat)
    requires m.pendingSecs >= 0.0 && Bounded(m)
    ensures Bounded(m.Resumed(at)) && m.Resumed(at).pendingSecs >= 0.0
    ensures m.Resumed(at).released == 0 && m.Resumed(at).carrierPps == m.carrierPps
    ensures m.Resumed(at).anchor.Some? && m.Resumed(at).ticked.None?
  {
    StepBounded(m, Event.Resume(at));
  }

  lemma ObservedKeeps(m: Media, p: Packet, decay: Decay)
    requires m.pendingSecs >= 0.0
    ensures
      var o := m.Observed(p, decay);
      o.released == m.released && o.anchor == m.anchor && o.ticked == m.ticked && o.credit == m.credit
  {
    hide ForwardDelta, Ratio, Decayed;
  }

  lemma ArmBounded(m: Media, at: nat)
    requires Bounded(m) && m.ticked.None?
    ensures Bounded(m.(anchor := Some(at)))
  {
  }

  lemma TickedKeeps(p: Paced, now: nat)
    ensures
      var t := p.Ticked(now);
      t.anchor == p.m.anchor && t.released == p.m.released && t.carrierPps == p.m.carrierPps && t.ratePps == p.m.ratePps
  {
    hide Media.ReleaseRate;
  }

  lemma TickInStep(p: Paced, now: nat)
    requires Bounded(p.m)
    ensures Bounded(p.Ticked(now))
  {
    hide Bounded, Media.Ticked, Depth;
    var target := Depth(p.m.ratePps, p.s.cfg.target);
    TickBounded(p.m, now, p.Held(), target);
    assert p.Ticked(now) == p.m.Ticked(now, p.Held(), target);
  }

  lemma EmitInStep(p: Paced, now: nat)
    requires InStep(p)
    ensures InStep(p.Emit(now)) && p.Emit(now).m.carrierPps == p.m.carrierPps
  {
    hide EmitDatagram, Media.Ticked, Bounded, Paced.Ticked;
    TickInStep(p, now);
    TickedKeeps(p, now);
    EmitKeepsMode(p.s, now, p.Due(now));
    OutputClock.ReleasesOnlyWhatIsDue(p.s, now, p.Due(now));
    ReleaseBounded(p.Ticked(now), now, EmitDatagram(p.s, now, p.Due(now)).s.released);
  }

  lemma EmitKeepsMode(s: Sched, now: nat, due: nat)
    requires s.store.Buffered?
    ensures
      var s' := EmitDatagram(s, now, due).s;
      s'.store.Buffered? && s'.anchor == s.anchor && s'.cfg == s.cfg
  {
    hide EmitSlots, Opens;
    Repetition.CatchUpIsForGrids(s, now);
    var x := Opens(s, now, due);
    OutputClock.SlotsAdvance(Opening(s, x), s.cfg.perDatagram, x);
  }

  lemma ReleaseBounded(m: Media, now: nat, released: nat)
    requires Bounded(m) && released <= Max(m.released, m.DueAt(now))
    ensures Bounded(m.(released := released))
  {
    hide Allowance, Seconds;
  }

  lemma {:induction false} RunInStep(p: Paced, steps: seq<Step>)
    requires InStep(p)
    ensures InStep(Run(p, steps)) && Run(p, steps).m.carrierPps == p.m.carrierPps
    decreases |steps|
  {
    hide InStep, Paced.Enqueue, Paced.Emit, Paced.Mute;
    if steps == [] {
    } else {
      match steps[0] {
        case Enqueue(packet, now, decay) => EnqueueInStep(p, packet, now, decay);
        case Emit(now) => EmitInStep(p, now);
        case Mute(now) => MuteInStep(p, now);
      }
      RunInStep(Take(p, steps[0]), steps[1..]);
    }
  }

  lemma MuteInStep(p: Paced, now: nat)
    requires InStep(p)
    ensures InStep(p.Mute(now)) && p.Mute(now).m.carrierPps == p.m.carrierPps
  {
    hide Bounded, Sched.State;
  }

  lemma NewInStep(cfg: Config)
    requires !cfg.streamed
    ensures InStep(NewPaced(cfg))
  {
  }

  /** Over every run of an arrival-clocked scheduler on its own clock, whatever the input
      and however late the polls: what it has released since the clock was last anchored
      never exceeds one packet more than the carrier's rate and a twentieth allow for the
      time the clock has run. */
  lemma ReleasedIsBounded(cfg: Config, steps: seq<Step>)
    requires !cfg.streamed
    ensures
      var p := Run(NewPaced(cfg), steps);
      && p.m.released == p.s.released
      && p.s.released as real <= 1.0 + Allowance(CarrierRate(cfg), RunTime(p.m))
  {
    hide Run, RunTime, Allowance;
    NewInStep(cfg);
    RunInStep(NewPaced(cfg), steps);
    var m := Run(NewPaced(cfg), steps).m;
    assert m.credit.Floor as real <= m.credit;
    assert m.released as real <= (m.credit.Floor + 1) as real;
  }

  // ---- Draining on the clock's own time ----

  /** The clock asked at each instant in turn, with nothing more coming in. */
  function Asks(instants: seq<nat>): (steps: seq<Step>)
    ensures |steps| == |instants| && forall k | 0 <= k < |steps| :: steps[k] == Step.Emit(instants[k])
  {
    seq(|instants|, k requires 0 <= k < |instants| => Step.Emit(instants[k]))
  }

  function LastTick(m: Media): nat {
    if m.ticked.Some? then m.ticked.value else if m.anchor.Some? then m.anchor.value else 0
  }

  /** By instant `t` even the slowest release has earned everything the leg holds. */
  predicate Enough(p: Paced, t: nat) {
    Earned(p.m.ratePps, SatSub(t, LastTick(p.m))) >= (p.s.released + p.Held()) as real
  }

  /** What asking keeps: the rate and the anchor, what there is to release, and a credit
      that is at least what the slowest release has earned since `from`. */
  ghost predicate Gains(from: Paced, p: Paced) {
    && InStep(from) && InStep(p) && from.m.anchor.Some?
    && p.m.anchor == from.m.anchor && p.m.ratePps == from.m.ratePps
    && p.s.released + p.Held() == from.s.released + from.Held()
    && LastTick(p.m) >= LastTick(from.m)
    && p.m.credit >= Earned(p.m.ratePps, LastTick(p.m) - LastTick(from.m))
  }

  lemma GainsAtOnce(p: Paced)
    requires InStep(p) && p.m.anchor.Some?
    ensures Gains(p, p)
  {
    EarnedAdds(p.m.ratePps, 0, 0);
    hide Earned;
  }

  lemma TickGains(from: Paced, p: Paced, now: nat)
    requires Gains(from, p)
    ensures
      var t := p.Ticked(now);
      && LastTick(t) >= LastTick(from.m) && t.credit >= Earned(t.ratePps, LastTick(t) - LastTick(from.m))
      && t.ratePps == p.m.ratePps && t.anchor == p.m.anchor
      && (now >= t.anchor.value ==> LastTick(t) >= now)
  {
    hide Earned, Media.ReleaseRate, Seconds, Depth, Allowance, RunTime;
    var last := LastTick(p.m);
    if now > last {
      EarnedAtLeast(p.m, p.Held(), Depth(p.m.ratePps, p.s.cfg.target), now - last);
      EarnedAdds(p.m.ratePps, last - LastTick(from.m), now - last);
    }
  }

  lemma EnoughIsDue(from: Paced, p: Paced, now: nat)
    requires Gains(from, p) && Enough(from, now)
    ensures Drain.AllDue(p.s, p.Due(now))
  {
    hide Earned, Paced.Ticked, Allowance, RunTime;
    var t, all := p.Ticked(now), from.s.released + from.Held();
    TickGains(from, p, now);
    if all > 0 {
      EarnedNothing(p.m.ratePps);
      assert now > LastTick(from.m);
      EarnedGrows(p.m.ratePps, now - LastTick(from.m), LastTick(t) - LastTick(from.m));
      FloorReaches(t.credit, all);
    }
  }

  lemma EarnedNothing(rate: real)
    ensures Earned(rate, 0) == 0.0
  {
    EarnedAdds(rate, 0, 0);
  }

  lemma EarnedGrows(rate: real, a: nat, b: nat)
    requires 0.0 <= rate && a <= b
    ensures Earned(rate, a) <= Earned(rate, b)
  {
    EarnedAdds(rate, a, b - a);
    ProductWithin((1.0 - RATE_SERVO_GAIN) * rate, Seconds(b - a), (1.0 - RATE_SERVO_GAIN) * rate, Seconds(b - a));
  }

  lemma FloorReaches(credit: real, n: nat)
    requires credit >= n as real
    ensures credit.Floor >= n && credit >= 0.0
  {
    assert (credit.Floor + 1) as real > credit;
  }

  lemma EmitGains(from: Paced, p: Paced, now: nat)
    requires Gains(from, p)
    ensures Gains(from, p.Emit(now))
  {
    hide EmitDatagram, Earned, Paced.Ticked, Allowance, RunTime, Bounded;
    EmitInStep(p, now);
    TickGains(from, p, now);
    Drain.EmitSettles(p.s, now, p.Due(now));
  }

  lemma {:induction false} AskingGains(from: Paced, p: Paced, instants: seq<nat>)
    requires Gains(from, p)
    ensures Gains(from, Run(p, Asks(instants)))
    decreases |instants|
  {
    hide Gains, Paced.Emit;
    if instants == [] {
    } else {
      assert Asks(instants)[1..] == Asks(instants[1..]);
      EmitGains(from, p, instants[0]);
      AskingGains(from, p.Emit(instants[0]), instants[1..]);
    }
  }

  lemma {:induction false} AskedIsDue(from: Paced, p: Paced, instants: seq<nat>)
    requires Gains(from, p) && forall t <- instants :: Enough(from, t)
    ensures Drain.AlwaysDue(p.s, CallsOf(p, Asks(instants)))
    decreases |instants|
  {
    hide EmitDatagram, Enough, Earned, Paced.Due, Drain.AllDue, Bounded;
    if instants == [] {
    } else {
      var calls := CallsOf(p, Asks(instants));
      assert Asks(instants)[1..] == Asks(instants[1..]) && instants[0] in instants;
      EnoughIsDue(from, p, instants[0]);
      EmitGains(from, p, instants[0]);
      AskedIsDue(from, p.Emit(instants[0]), instants[1..]);
      assert calls[0] == Call.Emit(instants[0], p.Due(instants[0]));
      assert calls[1..] == CallsOf(p.Emit(instants[0]), Asks(instants[1..]));
    }
  }

  lemma {:induction false} AskingCloses(p: Paced, instants: seq<nat>)
    ensures Drain.Closing(CallsOf(p, Asks(instants)))
    decreases |instants|
  {
    hide Paced.Emit, Paced.Due;
    if instants == [] {
    } else {
      assert Asks(instants)[1..] == Asks(instants[1..]);
      AskingCloses(p.Emit(instants[0]), instants[1..]);
    }
  }

  /** Exactly when an arrival-clocked leg drains on its own clock, from any run whatever:
      asked at any instants, and then often enough at instants by which the slowest release
      has earned what it holds, it empties if and only if re-insertion cannot come to take
      every slot from something that waits. */
  lemma DrainsOnItsOwnClock(cfg: Config, before: seq<Step>, early: seq<nat>, late: seq<nat>)
    requires !cfg.streamed
    requires
      var p := Run(NewPaced(cfg), before);
      && p.m.anchor.Some? && (forall t <- late :: Enough(p, t))
      && |late| * cfg.perDatagram >= Drain.SlotsFor(p.s)
    ensures
      var p := Run(NewPaced(cfg), before);
      && p.s.store.Buffered?
      && (!Run(Run(p, Asks(early)), Asks(late)).s.HasPending()
          <==> cfg.pcrMax >= 2 || !cfg.regenerate || !Drain.PlainBehindPcr(p.s))
  {
    hide Run, CallsOf, Enough, Drain.SlotsFor, Drain.PlainBehindPcr, Sched.HasPending, Gains, Drain.AlwaysDue, RunCalls;
    var p := Run(NewPaced(cfg), before);
    NewInStep(cfg);
    RunInStep(NewPaced(cfg), before);
    GainsAtOnce(p);
    AskingGains(p, p, early);
    var after := Run(p, Asks(early));
    RunIsCalls(NewPaced(cfg), before);
    RunIsCalls(p, Asks(early));
    RunIsCalls(after, Asks(late));
    AskingCloses(p, early);
    AskingCloses(after, late);
    AskedIsDue(p, after, late);
    Drain.DrainsExactlyWhenClear(cfg, CallsOf(NewPaced(cfg), before), CallsOf(p, Asks(early)),
                                 CallsOf(after, Asks(late)));
  }
}
