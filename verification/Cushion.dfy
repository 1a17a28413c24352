/** An arrival-clocked scheduler's own media clock against what it has accepted
    (src/scheduler.rs, `enqueue`, `arm`, `resume`, `emit_datagram`): from when it releases,
    at what rate, and towards what depth. */
module Cushions {
  import opened Prelude
  import opened Packets
  import opened SlotMaps
  import opened SchedulerSpec
  import opened MediaClocks
  import opened Pacing
  import Conservation
  import RateSamples

  // ---- What has been accepted ----

  /** The packets a run has accepted since the one that ended the last stall, that one
      included, or since it began; `before` being those accepted before it. */
  function AcceptedSince(p: Paced, steps: seq<Pacing.Step>, before: seq<Packet>): seq<Packet>
    decreases |steps|
  {
    if steps == [] then before
    else
      var now := if !steps[0].Enqueue? || steps[0].packet.pid == NULL_PID then before
        else if p.s.stalled then [steps[0].packet] else before + [steps[0].packet];
      AcceptedSince(Take(p, steps[0]), steps[1..], now)
  }

  /** When the first content was accepted, or that which ended the last stall. */
  function BegunAt(p: Paced, steps: seq<Pacing.Step>, before: Option<nat>): Option<nat>
    decreases |steps|
  {
    if steps == [] then before
    else
      var begins := steps[0].Enqueue? && steps[0].packet.pid != NULL_PID && (before.None? || p.s.stalled);
      BegunAt(Take(p, steps[0]), steps[1..], if begins then Some(steps[0].now) else before)
  }

  // ---- The clock is one that has observed just that ----

  /** The same clock, but for how much was released. */
  predicate SameClock(m: Media, n: Media) {
    n == m.(released := n.released)
  }

  lemma RateSame(m: Media, n: Media, buffered: nat, target: real)
    requires SameClock(m, n)
    ensures m.ReleaseRate(buffered, target) == n.ReleaseRate(buffered, target)
  {
  }

  lemma SampledSame(m: Media, n: Media, secs: real, decay: Decay)
    requires secs > 0.0 && m.pendingSecs >= 0.0 && SameClock(m, n)
    ensures SameClock(m.Sampled(secs, decay), n.Sampled(secs, decay))
  {
    hide Ratio, Decayed;
  }

  lemma ObservedSame(m: Media, n: Media, p: Packet, decay: Decay)
    requires m.pendingSecs >= 0.0 && SameClock(m, n)
    ensures SameClock(m.Observed(p, decay), n.Observed(p, decay))
  {
    hide ForwardDelta, Media.Sampled;
    if p.pcr.Some? && m.Elapses(p.pcr.value, p.declared) {
      var secs := Seconds(TicksToNanos(ForwardDelta(m.lastPcr.value, p.pcr.value)));
      SampledSame(m.(packetsSincePcr := m.packetsSincePcr + 1), n.(packetsSincePcr := n.packetsSincePcr + 1), secs,
                  decay);
    }
  }

  lemma StepsSame(m: Media, n: Media, e: MediaClocks.Event)
    requires m.pendingSecs >= 0.0 && SameClock(m, n) && !e.Release?
    ensures SameClock(MediaClocks.Step(m, e), MediaClocks.Step(n, e))
  {
    hide Media.ReleaseRate, Media.Observed;
    match e {
      case Observe(p, decay) => ObservedSame(m, n, p, decay);
      case Tick(now, buffered, target) => RateSame(m, n, buffered, target);
      case _ =>
    }
  }

  /** `m` is a clock that has gone through `events`, and observed `packets` in them. */
  ghost predicate Observes(m: Media, fallback: real, events: seq<MediaClocks.Event>, packets: seq<Packet>)
    requires fallback >= 0.0
  {
    SameClock(MediaClocks.Run(fallback, events), m) && RateSamples.Observed(events) == packets
  }

  lemma OneMore(m: Media, fallback: real, events: seq<MediaClocks.Event>, packets: seq<Packet>, e: MediaClocks.Event)
    requires fallback >= 0.0 && m.pendingSecs >= 0.0 && Observes(m, fallback, events, packets) && !e.Release?
    ensures
      Observes(MediaClocks.Step(m, e), fallback, events + [e],
               match e
               case Observe(p, _) => packets + [p]
               case Resume(_) => []
               case _ => packets)
  {
    hide MediaClocks.Step;
    assert (events + [e])[..|events|] == events;
    StepsSame(MediaClocks.Run(fallback, events), m, e);
  }

  lemma ArmAgain(m: Media, at: nat)
    requires m.pendingSecs >= 0.0 && (m.anchor.None? || m.anchor == Some(at))
    ensures MediaClocks.Step(m, MediaClocks.Event.Arm(at)) == m.(anchor := Some(at))
  {
  }

  lemma RestartsAt(m: Media, at: nat)
    ensures m.Resumed(at).anchor == Some(at)
  {
  }

  lemma EnqueueObserves(p: Paced, packet: Packet, now: nat, decay: Decay, events: seq<MediaClocks.Event>,
      packets: seq<Packet>) returns (events': seq<MediaClocks.Event>)
    requires InStep(p) && Observes(p.m, CarrierRate(p.s.cfg), events, packets) && packet.pid != NULL_PID
    ensures
      Observes(p.Enqueue(packet, now, decay).m, CarrierRate(p.s.cfg), events',
               if p.s.stalled then [packet] else packets + [packet])
  {
    hide Observes, Media.Observed, Media.Resumed, Bounded;
    var fallback, at := CarrierRate(p.s.cfg), now + p.s.cfg.target;
    var m, seen := p.m, packets;
    events' := events;
    if p.s.stalled {
      var e := MediaClocks.Event.Resume(at);
      OneMore(m, fallback, events', seen, e);
      ResumeBounded(m, at);
      RestartsAt(m, at);
      m, seen, events' := m.Resumed(at), [], events' + [e];
    }
    var e := MediaClocks.Event.Observe(packet, decay);
    OneMore(m, fallback, events', seen, e);
    ObservedIsClocked(m, packet, decay);
    ObservedKeeps(m, packet, decay);
    assert [] + [packet] == [packet];
    m, seen, events' := m.Observed(packet, decay), seen + [packet], events' + [e];
    if p.s.anchor.None? {
      var e := MediaClocks.Event.Arm(at);
      OneMore(m, fallback, events', seen, e);
      ArmAgain(m, at);
      events' := events' + [e];
    }
  }

  lemma TickObserves(p: Paced, now: nat, events: seq<MediaClocks.Event>, packets: seq<Packet>)
    returns (events': seq<MediaClocks.Event>)
    requires InStep(p) && Observes(p.m, CarrierRate(p.s.cfg), events, packets)
    ensures Observes(p.Emit(now).m, CarrierRate(p.s.cfg), events', packets)
  {
    hide EmitDatagram, Media.Ticked, Bounded;
    var e := MediaClocks.Event.Tick(now, p.Held(), Depth(p.m.ratePps, p.s.cfg.target));
    OneMore(p.m, CarrierRate(p.s.cfg), events, packets, e);
    events' := events + [e];
  }

  lemma StepKeepsConfig(p: Paced, step: Pacing.Step)
    ensures Take(p, step).s.cfg == p.s.cfg
  {
    hide EmitDatagram, Sched.Enqueue, AdvanceMuted, Paced.Due, Paced.ClockOnEnqueue;
    Conservation.RunKeepsConfig(p.s, [CallOf(p, step)]);
    OneCall(p.s, CallOf(p, step));
  }

  lemma OneCall(s: Sched, call: Call)
    ensures RunCalls(s, [call]) == Do(s, call)
  {
    hide Do;
    assert [call][1..] == [];
  }

  lemma StepInStep(p: Paced, step: Pacing.Step)
    requires InStep(p)
    ensures InStep(Take(p, step))
  {
    hide InStep, Paced.Enqueue, Paced.Emit, Paced.Mute;
    match step {
      case Enqueue(packet, now, decay) => EnqueueInStep(p, packet, now, decay);
      case Emit(now) => EmitInStep(p, now);
      case Mute(now) => MuteInStep(p, now);
    }
  }

  lemma {:induction false} RunObserves(p: Paced, steps: seq<Pacing.Step>, events: seq<MediaClocks.Event>,
      packets: seq<Packet>) returns (events': seq<MediaClocks.Event>)
    requires InStep(p) && Observes(p.m, CarrierRate(p.s.cfg), events, packets)
    ensures
      Observes(Pacing.Run(p, steps).m, CarrierRate(p.s.cfg), events', AcceptedSince(p, steps, packets))
    decreases |steps|
  {
    hide Observes, Paced.Enqueue, Paced.Emit, InStep;
    if steps == [] {
      events' := events;
    } else {
      var step := steps[0];
      StepInStep(p, step);
      StepKeepsConfig(p, step);
      if step.Enqueue? && step.packet.pid != NULL_PID {
        events' := EnqueueObserves(p, step.packet, step.now, step.decay, events, packets);
        var seen := if p.s.stalled then [step.packet] else packets + [step.packet];
        events' := RunObserves(Take(p, step), steps[1..], events', seen);
      } else {
        events' := events;
        if step.Emit? {
          events' := TickObserves(p, step.now, events, packets);
        } else {
          ClockStands(p, step);
        }
        events' := RunObserves(Take(p, step), steps[1..], events', packets);
      }
    }
  }

  lemma ClockStands(p: Paced, step: Pacing.Step)
    requires step.Mute? || (step.Enqueue? && step.packet.pid == NULL_PID)
    ensures Take(p, step).m == p.m
  {
    hide Sched.Enqueue, AdvanceMuted;
  }

  lemma NewObserves(cfg: Config)
    ensures Observes(NewPaced(cfg).m, CarrierRate(cfg), [], [])
  {
  }

  // ---- At what rate it releases ----

  /** Over every run of an arrival-clocked scheduler on its own clock: while what it has
      accepted since the last stall carries from `low` to `high` packets a second between one
      PCR and the next, its estimate is from `low` to `high`, once a sample has ended and if
      the carrier can hold it. */
  lemma EstimateFollowsTheInput(cfg: Config, steps: seq<Pacing.Step>, low: real, high: real)
    requires !cfg.streamed && CarrierRate(cfg) >= high
    requires RateSamples.RatesWithin(RateSamples.Intervals(AcceptedSince(NewPaced(cfg), steps, [])), low, high)
    ensures
      var m := Pacing.Run(NewPaced(cfg), steps).m;
      var intervals := RateSamples.Intervals(AcceptedSince(NewPaced(cfg), steps, []));
      && |m.samples| == |RateSamples.Grouped(intervals).samples|
      && (m.samples != [] ==> low <= m.ratePps <= high)
  {
    hide Pacing.Run, AcceptedSince, RateSamples.RatesWithin, RateSamples.Intervals, RateSamples.Grouped;
    hide MediaClocks.Run, RateSamples.Observed;
    NewInStep(cfg);
    NewObserves(cfg);
    var events := RunObserves(NewPaced(cfg), steps, [], []);
    RateSamples.RateFollowsTheSource(CarrierRate(cfg), events, low, high);
  }

  // ---- From when it releases ----

  /** The clock runs from a target after `begun`, or not yet. */
  ghost predicate RunsFrom(p: Paced, begun: Option<nat>) {
    InStep(p) && p.m.anchor == if begun.Some? then Some(begun.value + p.s.cfg.target) else None
  }

  lemma EnqueueRunsFrom(p: Paced, packet: Packet, now: nat, decay: Decay, begun: Option<nat>)
    requires RunsFrom(p, begun) && packet.pid != NULL_PID
    ensures RunsFrom(p.Enqueue(packet, now, decay), if begun.None? || p.s.stalled then Some(now) else begun)
  {
    hide Media.Observed, Media.Resumed, Bounded, Sched.Enqueue;
    var at := now + p.s.cfg.target;
    var resumed := if p.s.stalled then p.m.Resumed(at) else p.m;
    RestartsAt(p.m, at);
    ResumeBounded(p.m, at);
    ObservedKeeps(resumed, packet, decay);
    EnqueueInStep(p, packet, now, decay);
    StepKeepsConfig(p, Pacing.Step.Enqueue(packet, now, decay));
  }

  lemma OtherwiseRunsFrom(p: Paced, step: Pacing.Step, begun: Option<nat>)
    requires RunsFrom(p, begun) && !(step.Enqueue? && step.packet.pid != NULL_PID)
    ensures RunsFrom(Take(p, step), begun)
  {
    hide EmitDatagram, Media.Ticked, Bounded, Paced.Ticked, Paced.Enqueue, Paced.Mute, InStep;
    StepInStep(p, step);
    StepKeepsConfig(p, step);
    if step.Emit? {
      TickedKeeps(p, step.now);
    } else {
      ClockStands(p, step);
    }
  }

  lemma {:induction false} RunRunsFrom(p: Paced, steps: seq<Pacing.Step>, begun: Option<nat>)
    requires RunsFrom(p, begun)
    ensures RunsFrom(Pacing.Run(p, steps), BegunAt(p, steps, begun))
    decreases |steps|
  {
    hide RunsFrom, Take;
    if steps == [] {
    } else {
      var step := steps[0];
      if step.Enqueue? && step.packet.pid != NULL_PID {
        TakeEnqueues(p, step);
        EnqueueRunsFrom(p, step.packet, step.now, step.decay, begun);
      } else {
        OtherwiseRunsFrom(p, step, begun);
      }
      var begins := step.Enqueue? && step.packet.pid != NULL_PID && (begun.None? || p.s.stalled);
      RunRunsFrom(Take(p, step), steps[1..], if begins then Some(step.now) else begun);
    }
  }

  lemma TakeEnqueues(p: Paced, step: Pacing.Step)
    requires step.Enqueue?
    ensures Take(p, step) == p.Enqueue(step.packet, step.now, step.decay)
  {
  }

  /** Over every run of an arrival-clocked scheduler on its own clock: anything is due if and
      only if a target has passed since the first content was accepted, or that which ended
      the last stall. */
  lemma ReleaseStartsATargetOn(cfg: Config, steps: seq<Pacing.Step>, now: nat)
    requires !cfg.streamed
    ensures
      var p, begun := Pacing.Run(NewPaced(cfg), steps), BegunAt(NewPaced(cfg), steps, None);
      p.Due(now) > 0 <==> begun.Some? && now >= begun.value + cfg.target
  {
    hide Pacing.Run, BegunAt, Paced.Ticked, InStep;
    NewInStep(cfg);
    RunRunsFrom(NewPaced(cfg), steps, None);
    var p := Pacing.Run(NewPaced(cfg), steps);
    TickedKeeps(p, now);
    RunIsCalls(NewPaced(cfg), steps);
    Conservation.RunKeepsConfig(NewSched(cfg), CallsOf(NewPaced(cfg), steps));
    CreditIsSome(p, now);
  }

  lemma CreditIsSome(p: Paced, now: nat)
    requires InStep(p)
    ensures p.Ticked(now).credit >= 0.0
  {
    hide Allowance, Media.Ticked, Paced.Ticked;
    TickInStep(p, now);
  }

  // ---- Towards what depth ----

  /** Held at its target depth, what the estimate delivers in a target's time, it earns what
      the estimate says; with more in the buffer it earns more, with less it earns less, and
      with nothing a twentieth less. */
  lemma ReleasesTowardsItsTarget(p: Paced, now: nat)
    requires InStep(p) && p.m.anchor.Some? && now > LastTick(p.m) && p.m.ratePps > 0.0 && p.s.cfg.target > 0
    ensures
      var earned := p.Ticked(now).credit - p.m.credit;
      var even := p.m.ratePps * Seconds(now - LastTick(p.m));
      var held, target := p.Held() as real, Depth(p.m.ratePps, p.s.cfg.target);
      && (earned > even <==> held > target) && (earned < even <==> held < target)
      && (p.Held() == 0 ==> earned == even * (1.0 - RATE_SERVO_GAIN))
  {
    hide Depth, Allowance, RunTime, Media.ReleaseRate, Seconds;
    var m, target := p.m, Depth(p.m.ratePps, p.s.cfg.target);
    var secs := Seconds(now - LastTick(m));
    TargetIsSome(m.ratePps, p.s.cfg.target);
    TimePasses(now - LastTick(m));
    ServoPullsToTarget(m, p.Held(), target);
    var rate := m.ReleaseRate(p.Held(), target);
    assert p.Ticked(now).credit == m.credit + secs * rate;
    TimesMore(secs, rate, m.ratePps);
    assert secs * (m.ratePps * (1.0 - RATE_SERVO_GAIN)) == m.ratePps * secs * (1.0 - RATE_SERVO_GAIN);
  }

  lemma TimePasses(nanos: nat)
    requires nanos > 0
    ensures Seconds(nanos) > 0.0
  {
  }

  lemma TargetIsSome(rate: real, target: nat)
    requires rate > 0.0 && target > 0
    ensures Depth(rate, target) > 0.0
  {
    TimePasses(target);
    hide Seconds;
  }

  lemma TimesMore(secs: real, a: real, b: real)
    requires secs > 0.0
    ensures secs * a > b * secs <==> a > b
    ensures secs * a < b * secs <==> a < b
  {
    if a > b {
      assert secs * (a - b) > 0.0;
    } else if a < b {
      assert secs * (b - a) > 0.0;
    }
  }
}
