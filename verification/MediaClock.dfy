/** Recovering the media rate and releasing on it (src/scheduler.rs, `MediaClock`).
    Rates and credit are reals, instants whole nanoseconds, and the decay of a sample,
    exp(-seconds / window), any factor in (0, 1]. */
module MediaClocks {
  import opened Prelude
  import opened Packets
  import opened SlotMaps

  const MIN_RATE_SAMPLE: real := 0.010
  const RATE_SERVO_GAIN: real := 0.05

  type Decay = d: real | 0.0 < d <= 1.0 witness 1.0

  /** How many packets of content arrive in `target` at `rate`. */
  function Depth(rate: real, target: nat): real {
    rate * Seconds(target)
  }

  /** A decayed running sum with `more` added. */
  function Decayed(sum: real, decay: Decay, more: real): real {
    sum * decay + more
  }

  function Ratio(packets: real, secs: real): real
    requires secs > 0.0
  {
    packets / secs
  }

  /** `samples` is history: the rates of the samples folded in since the last reset. */
  datatype Media = Media(
    anchor: Option<nat>, ticked: Option<nat>, credit: real, released: nat,
    ratePps: real, estimated: bool, lastPcr: Option<nat>, packetsSincePcr: nat,
    decayedPackets: real, decayedSecs: real, pendingPackets: nat, pendingSecs: real,
    stalledClock: bool, stallClockPackets: nat, carrierPps: real, samples: seq<real>)
  {
    /** A step of the source clock that reflects elapsed time. */
    predicate Elapses(pcr: nat, declared: bool) {
      lastPcr.Some? &&
      var nanos := TicksToNanos(ForwardDelta(lastPcr.value, pcr));
      0 < nanos <= DISCONTINUITY_GAP && !declared
    }

    /** Fold the pending sample in, decaying what was there, and take the ratio of the
        sums as the rate if the carrier could hold it. */
    function Folded(decay: Decay): Media
      requires pendingSecs > 0.0
    {
      var packets := Decayed(decayedPackets, decay, pendingPackets as real);
      var secs := Decayed(decayedSecs, decay, pendingSecs);
      var m := this.(decayedPackets := packets, decayedSecs := secs, pendingPackets := 0, pendingSecs := 0.0,
                     samples := samples + [Ratio(pendingPackets as real, pendingSecs)]);
      if secs <= 0.0 then m
      else if Ratio(packets, secs) <= carrierPps
      then m.(ratePps := Ratio(packets, secs), estimated := true, stalledClock := false)
      else m.(stalledClock := true)
    }

    function Sampled(secs: real, decay: Decay): Media
      requires secs > 0.0 && pendingSecs >= 0.0
    {
      var m := this.(pendingPackets := pendingPackets + packetsSincePcr, pendingSecs := pendingSecs + secs);
      if m.pendingSecs >= MIN_RATE_SAMPLE then m.Folded(decay)
      else if m.pendingPackets > stallClockPackets then m.(stalledClock := true)
      else m
    }

    function Observed(p: Packet, decay: Decay): Media
      requires pendingSecs >= 0.0
    {
      var counted := this.(packetsSincePcr := packetsSincePcr + 1);
      if p.pcr.None? then counted
      else
        var pcr := p.pcr.value;
        var m := if Elapses(pcr, p.declared)
          then counted.Sampled(Seconds(TicksToNanos(ForwardDelta(lastPcr.value, pcr))), decay) else counted;
        m.(lastPcr := Some(pcr), packetsSincePcr := 0)
    }

    /** The release rate: the estimate, trimmed towards the target depth. */
    function ReleaseRate(buffered: nat, target: real): real {
      if target <= 0.0 then ratePps
      else
        var error := (buffered as real - target) / target;
        ratePps * (1.0 + (if error > 1.0 then 1.0 else if error < -1.0 then -1.0 else error) * RATE_SERVO_GAIN)
    }

    function Ticked(now: nat, buffered: nat, target: real): Media {
      if anchor.None? || now < anchor.value then this
      else
        var last := if ticked.Some? then ticked.value else anchor.value;
        if now <= last then this
        else this.(ticked := Some(now), credit := credit + Seconds(now - last) * ReleaseRate(buffered, target))
    }

    /** How many packets should have been released by `now`, the clock ticked to it. */
    function DueAt(now: nat): nat {
      if anchor.None? || now < anchor.value then 0
      else if credit < 0.0 then 1
      else credit.Floor + 1
    }

    /** Restart after a stall, at `anchor`. */
    function Resumed(anchor: nat): Media {
      Media(Some(anchor), None, 0.0, 0, ratePps, estimated, None, 0, 0.0, 0.0, 0, 0.0,
            false, stallClockPackets, carrierPps, [])
    }
  }

  function NewMedia(fallback: real): Media
    requires fallback >= 0.0
  {
    Media(None, None, 0.0, 0, fallback, false, None, 0, 0.0, 0.0, 0, 0.0, false,
          if fallback >= 1.0 then fallback.Floor else 1, fallback, [])
  }

  /** The clock as the program keeps it, updated in place. */
  class MediaClock {
    var anchor: Option<nat>
    var ticked: Option<nat>
    var credit: real
    var released: nat
    var ratePps: real
    var estimated: bool
    var lastPcr: Option<nat>
    var packetsSincePcr: nat
    var decayedPackets: real
    var decayedSecs: real
    var pendingPackets: nat
    var pendingSecs: real
    var stalledClock: bool
    const stallClockPackets: nat
    const carrierPps: real
    ghost var samples: seq<real>

    ghost predicate Valid()
      reads this
    {
      pendingSecs >= 0.0
    }

    ghost function State(): Media
      reads this
    {
      Media(anchor, ticked, credit, released, ratePps, estimated, lastPcr, packetsSincePcr,
            decayedPackets, decayedSecs, pendingPackets, pendingSecs,
            stalledClock, stallClockPackets, carrierPps, samples)
    }

    constructor (fallback: real)
      requires fallback >= 0.0
      ensures Valid() && State() == NewMedia(fallback)
    {
      anchor, ticked, credit, released := None, None, 0.0, 0;
      ratePps, estimated, lastPcr, packetsSincePcr := fallback, false, None, 0;
      decayedPackets, decayedSecs, pendingPackets, pendingSecs := 0.0, 0.0, 0, 0.0;
      stalledClock, carrierPps, samples := false, fallback, [];
      stallClockPackets := if fallback >= 1.0 then fallback.Floor else 1;
    }

    /** Add the pending sample to the decayed sums. */
    method Accumulate(decay: Decay)
      requires pendingSecs > 0.0
      modifies this`samples, this`decayedPackets, this`decayedSecs, this`pendingPackets, this`pendingSecs
      ensures decayedPackets == Decayed(old(decayedPackets), decay, old(pendingPackets) as real)
      ensures decayedSecs == Decayed(old(decayedSecs), decay, old(pendingSecs))
      ensures samples == old(samples) + [Ratio(old(pendingPackets) as real, old(pendingSecs))]
      ensures pendingPackets == 0 && pendingSecs == 0.0
    {
      hide Decayed, Ratio;
      samples := samples + [Ratio(pendingPackets as real, pendingSecs)];
      decayedPackets := Decayed(decayedPackets, decay, pendingPackets as real);
      decayedSecs := Decayed(decayedSecs, decay, pendingSecs);
      pendingPackets := 0;
      pendingSecs := 0.0;
    }

    /** Fold the pending sample in, and take the new ratio if the carrier could hold it. */
    method Fold(decay: Decay)
      requires pendingSecs > 0.0
      modifies this
      ensures Valid() && State() == old(State()).Folded(decay)
    {
      hide Decayed, Ratio;
      Accumulate(decay);
      if decayedSecs > 0.0 {
        var candidate := Ratio(decayedPackets, decayedSecs);
        if candidate <= carrierPps {
          ratePps := candidate;
          estimated := true;
          stalledClock := false;
        } else {
          stalledClock := true;
        }
      }
    }

    /** Observe an enqueued packet, refining the estimate on each PCR. */
    method Observe(p: Packet, decay: Decay)
      requires Valid()
      modifies this
      ensures Valid() && State() == old(State()).Observed(p, decay)
    {
      hide Media.Folded, ForwardDelta;
      packetsSincePcr := packetsSincePcr + 1;
      if p.pcr.None? {
        return;
      }
      var pcr := p.pcr.value;
      if lastPcr.Some? {
        var nanos := TicksToNanos(ForwardDelta(lastPcr.value, pcr));
        if 0 < nanos <= DISCONTINUITY_GAP && !p.declared {
          pendingPackets := pendingPackets + packetsSincePcr;
          pendingSecs := pendingSecs + Seconds(nanos);
          if pendingSecs >= MIN_RATE_SAMPLE {
            Fold(decay);
          } else if pendingPackets > stallClockPackets {
            stalledClock := true;
          }
        }
      }
      lastPcr := Some(pcr);
      packetsSincePcr := 0;
    }

    /** How many packets should have been released by `now`, holding the buffer at
        `target` deep. */
    method Due(now: nat, buffered: nat, target: real) returns (due: nat)
      modifies this`ticked, this`credit
      ensures State() == old(State()).Ticked(now, buffered, target)
      ensures due == State().DueAt(now)
    {
      if anchor.None? || now < anchor.value {
        return 0;
      }
      var last := if ticked.Some? then ticked.value else anchor.value;
      if now > last {
        ticked := Some(now);
        credit := credit + Seconds(now - last) * ReleaseRate(buffered, target);
      }
      due := (if credit < 0.0 then 0 else credit.Floor) + 1;
    }

    /** Forget every rate sample, finished or not; the rate itself stands. */
    method ForgetSamples()
      modifies this`lastPcr, this`packetsSincePcr, this`decayedPackets, this`decayedSecs
      modifies this`pendingPackets, this`pendingSecs, this`stalledClock, this`samples
      ensures lastPcr == None && packetsSincePcr == 0 && decayedPackets == 0.0 && decayedSecs == 0.0
      ensures pendingPackets == 0 && pendingSecs == 0.0 && !stalledClock && samples == []
    {
      lastPcr, packetsSincePcr := None, 0;
      decayedPackets, decayedSecs, pendingPackets, pendingSecs := 0.0, 0.0, 0, 0.0;
      stalledClock, samples := false, [];
    }

    /** Restart after a stall, releasing nothing before `at`. */
    method Resume(at: nat)
      modifies this
      ensures Valid() && State() == old(State()).Resumed(at)
    {
      anchor, ticked, credit, released := Some(at), None, 0.0, 0;
      ForgetSamples();
    }

    function ReleaseRate(buffered: nat, target: real): (rate: real)
      reads this
      ensures rate == State().ReleaseRate(buffered, target)
    {
      if target <= 0.0 then ratePps
      else
        var error := (buffered as real - target) / target;
        ratePps * (1.0 + (if error > 1.0 then 1.0 else if error < -1.0 then -1.0 else error) * RATE_SERVO_GAIN)
    }
  }

  // ---- The clock over a whole run ----

  /** What happens to the clock: a packet observed, a slot asking what is due, a packet
      released (which only happens when one is due), the clock armed, or a stall ended. */
  datatype Event =
    | Observe(packet: Packet, decay: Decay)
    | Tick(now: nat, buffered: nat, target: real)
    | Release(now: nat)
    | Arm(anchor: nat)
    | Resume(anchor: nat)

  function Step(m: Media, e: Event): Media
    requires m.pendingSecs >= 0.0
  {
    match e
    case Observe(p, decay) => m.Observed(p, decay)
    case Tick(now, buffered, target) => m.Ticked(now, buffered, target)
    case Release(now) => if m.released < m.DueAt(now) then m.(released := m.released + 1) else m
    case Arm(anchor) => if m.anchor.None? then m.(anchor := Some(anchor)) else m
    case Resume(anchor) => m.Resumed(anchor)
  }

  function Run(fallback: real, events: seq<Event>): (m: Media)
    requires fallback >= 0.0
    ensures m.pendingSecs >= 0.0
  {
    if events == [] then NewMedia(fallback)
    else Step(Run(fallback, events[..|events| - 1]), events[|events| - 1])
  }

  // ---- The rate ----

  ghost predicate Within(samples: seq<real>, low: real, high: real) {
    forall k | 0 <= k < |samples| :: low <= samples[k] <= high
  }

  /** Both sums lie between the same multiples of each other, and so does the rate, where
      the carrier could hold it. */
  ghost predicate Mediant(m: Media, low: real, high: real) {
    && m.decayedSecs >= 0.0
    && (m.samples != [] ==> m.decayedSecs > 0.0)
    && low * m.decayedSecs <= m.decayedPackets <= high * m.decayedSecs
    && (m.samples != [] && high <= m.carrierPps ==> low <= m.ratePps <= high)
  }

  lemma DecayKeepsBelow(sum: real, secs: real, packets: real, span: real, decay: Decay, bound: real)
    requires sum <= bound * secs && packets <= bound * span
    ensures Decayed(sum, decay, packets) <= bound * Decayed(secs, decay, span)
  {
    assert (bound * secs - sum) * decay >= 0.0;
    assert (bound * secs - sum) * decay == bound * (secs * decay) - sum * decay;
    assert bound * (secs * decay + span) == bound * (secs * decay) + bound * span;
  }

  lemma DecayKeepsAbove(sum: real, secs: real, packets: real, span: real, decay: Decay, bound: real)
    requires sum >= bound * secs && packets >= bound * span
    ensures Decayed(sum, decay, packets) >= bound * Decayed(secs, decay, span)
  {
    assert (sum - bound * secs) * decay >= 0.0;
    assert (sum - bound * secs) * decay == sum * decay - bound * (secs * decay);
    assert bound * (secs * decay + span) == bound * (secs * decay) + bound * span;
  }

  lemma RatioAtMost(packets: real, secs: real, bound: real)
    requires secs > 0.0
    ensures Ratio(packets, secs) <= bound <==> packets <= bound * secs
    ensures bound <= Ratio(packets, secs) <==> bound * secs <= packets
  {
    var gap := bound - packets / secs;
    assert gap * secs == bound * secs - packets;
    assert gap > 0.0 ==> gap * secs > 0.0;
    assert gap < 0.0 ==> gap * secs < 0.0;
  }

  lemma FoldIsMediant(m: Media, decay: Decay, low: real, high: real)
    requires Mediant(m, low, high) && m.pendingSecs > 0.0
    requires low <= Ratio(m.pendingPackets as real, m.pendingSecs) <= high
    ensures Mediant(m.Folded(decay), low, high)
  {
    var packets := Decayed(m.decayedPackets, decay, m.pendingPackets as real);
    var secs := Decayed(m.decayedSecs, decay, m.pendingSecs);
    hide Ratio, Decayed;
    RatioAtMost(m.pendingPackets as real, m.pendingSecs, low);
    RatioAtMost(m.pendingPackets as real, m.pendingSecs, high);
    DecayKeepsAbove(m.decayedPackets, m.decayedSecs, m.pendingPackets as real, m.pendingSecs, decay, low);
    DecayKeepsBelow(m.decayedPackets, m.decayedSecs, m.pendingPackets as real, m.pendingSecs, decay, high);
    DecayedPositive(m.decayedSecs, decay, m.pendingSecs);
    RatioAtMost(packets, secs, low);
    RatioAtMost(packets, secs, high);
  }

  lemma DecayedPositive(sum: real, decay: Decay, more: real)
    requires sum >= 0.0 && more > 0.0
    ensures Decayed(sum, decay, more) > 0.0
  {
    assert sum * decay >= 0.0;
  }

  lemma ObservedIsMediant(m: Media, p: Packet, decay: Decay, low: real, high: real)
    requires Mediant(m, low, high) && m.pendingSecs >= 0.0
    requires Within(m.Observed(p, decay).samples, low, high)
    ensures Mediant(m.Observed(p, decay), low, high)
  {
    hide ForwardDelta, Ratio, Media.Folded;
    if p.pcr.Some? && m.Elapses(p.pcr.value, p.declared) {
      var secs := Seconds(TicksToNanos(ForwardDelta(m.lastPcr.value, p.pcr.value)));
      var counted := m.(packetsSincePcr := m.packetsSincePcr + 1);
      SampledIsMediant(counted, secs, decay, low, high);
    }
  }

  lemma SampledIsMediant(m: Media, secs: real, decay: Decay, low: real, high: real)
    requires Mediant(m, low, high) && m.pendingSecs >= 0.0 && secs > 0.0
    requires Within(m.Sampled(secs, decay).samples, low, high)
    ensures Mediant(m.Sampled(secs, decay), low, high)
  {
    hide Ratio, Decayed;
    var p := m.(pendingPackets := m.pendingPackets + m.packetsSincePcr, pendingSecs := m.pendingSecs + secs);
    if p.pendingSecs >= MIN_RATE_SAMPLE {
      var samples := p.Folded(decay).samples;
      assert samples[|m.samples|] == Ratio(p.pendingPackets as real, p.pendingSecs);
      FoldIsMediant(p, decay, low, high);
    }
  }

  lemma SamplesGrow(m: Media, e: Event, low: real, high: real)
    requires m.pendingSecs >= 0.0
    requires Within(Step(m, e).samples, low, high) && !e.Resume?
    ensures Within(m.samples, low, high)
  {
    hide Ratio, Decayed, ForwardDelta;
    var after := Step(m, e).samples;
    assert |m.samples| <= |after| && forall k | 0 <= k < |m.samples| :: m.samples[k] == after[k];
  }

  /** Over any run and any decays: while the samples folded in since the last reset lie
      between `low` and `high`, so does the candidate, the ratio of the decayed sums; and
      so does the rate itself if the carrier can hold `high`. On a constant-rate source
      (`low` == `high`) both are exact. */
  lemma {:induction false} RateIsMediant(fallback: real, events: seq<Event>, low: real, high: real)
    requires fallback >= 0.0
    requires Within(Run(fallback, events).samples, low, high)
    ensures Mediant(Run(fallback, events), low, high)
    ensures
      var m := Run(fallback, events);
      m.samples != [] ==> m.decayedSecs > 0.0 && low <= Ratio(m.decayedPackets, m.decayedSecs) <= high
    decreases |events|
  {
    hide Mediant, Ratio, Within, Media.Observed, Media.Ticked, Media.DueAt;
    if events == [] {
      ResetIsMediant(Run(fallback, events), low, high);
    } else {
      var before := Run(fallback, events[..|events| - 1]);
      var e := events[|events| - 1];
      if e.Resume? {
        ResetIsMediant(Run(fallback, events), low, high);
      } else {
        SamplesGrow(before, e, low, high);
        RateIsMediant(fallback, events[..|events| - 1], low, high);
        StepIsMediant(before, e, low, high);
      }
    }
    CandidateWithin(Run(fallback, events), low, high);
  }

  lemma ResetIsMediant(m: Media, low: real, high: real)
    requires m.decayedSecs == 0.0 && m.decayedPackets == 0.0 && m.samples == []
    ensures Mediant(m, low, high)
  {
  }

  lemma CandidateWithin(m: Media, low: real, high: real)
    requires Mediant(m, low, high)
    ensures m.samples != [] ==> m.decayedSecs > 0.0 && low <= Ratio(m.decayedPackets, m.decayedSecs) <= high
  {
    if m.samples != [] {
      RatioAtMost(m.decayedPackets, m.decayedSecs, low);
      RatioAtMost(m.decayedPackets, m.decayedSecs, high);
    }
  }

  lemma StepIsMediant(m: Media, e: Event, low: real, high: real)
    requires m.pendingSecs >= 0.0 && Mediant(m, low, high)
    requires Within(Step(m, e).samples, low, high)
    ensures Mediant(Step(m, e), low, high)
  {
    hide Media.Observed, Media.ReleaseRate, Within;
    if e.Observe? {
      ObservedIsMediant(m, e.packet, e.decay, low, high);
    }
  }

  // ---- The release ----

  /** How long the clock has run, in seconds, at its last tick. */
  function RunTime(m: Media): real {
    if m.anchor.Some? && m.ticked.Some? then Seconds(SatSub(m.ticked.value, m.anchor.value)) else 0.0
  }

  /** What the carrier's rate and a twentieth earns in `ran` seconds. */
  function Allowance(carrier: real, ran: real): real {
    (1.0 + RATE_SERVO_GAIN) * carrier * ran
  }

  /** The rate is one the carrier can hold, and the credit is what at most that rate and
      a twentieth has earned since the anchor. */
  ghost predicate Bounded(m: Media) {
    && 0.0 <= m.ratePps <= m.carrierPps
    && m.decayedPackets >= 0.0 && m.decayedSecs >= 0.0
    && 0.0 <= m.credit <= Allowance(m.carrierPps, RunTime(m))
    && (m.ticked.Some? ==> m.anchor.Some? && m.anchor.value <= m.ticked.value)
    && m.released <= m.credit.Floor + 1
  }

  lemma ProductWithin(a: real, b: real, aTop: real, bTop: real)
    requires 0.0 <= a <= aTop && 0.0 <= b <= bTop
    ensures 0.0 <= a * b <= aTop * bTop
  {
    assert a * (bTop - b) >= 0.0;
    assert (aTop - a) * bTop >= 0.0;
  }

  /** The trim the servo applies, as a factor of the rate. */
  function Trim(buffered: nat, target: real): (factor: real)
    requires target > 0.0
    ensures 1.0 - RATE_SERVO_GAIN <= factor <= 1.0 + RATE_SERVO_GAIN
  {
    var error := (buffered as real - target) / target;
    1.0 + (if error > 1.0 then 1.0 else if error < -1.0 then -1.0 else error) * RATE_SERVO_GAIN
  }

  lemma RateWithinServo(m: Media, buffered: nat, target: real)
    requires 0.0 <= m.ratePps <= m.carrierPps
    ensures 0.0 <= m.ReleaseRate(buffered, target) <= m.carrierPps * (1.0 + RATE_SERVO_GAIN)
  {
    if target > 0.0 {
      hide Trim;
      ProductWithin(m.ratePps, Trim(buffered, target), m.carrierPps, 1.0 + RATE_SERVO_GAIN);
      RateIsTrimmed(m, buffered, target);
    } else {
      ProductWithin(m.ratePps, 1.0, m.carrierPps, 1.0 + RATE_SERVO_GAIN);
    }
  }

  /** What the rate less a twentieth earns in `nanos`: the least the servo may trim it to. */
  function Earned(rate: real, nanos: nat): real {
    (1.0 - RATE_SERVO_GAIN) * rate * Seconds(nanos)
  }

  lemma EarnedAtLeast(m: Media, buffered: nat, target: real, nanos: nat)
    requires 0.0 <= m.ratePps
    ensures Seconds(nanos) * m.ReleaseRate(buffered, target) >= Earned(m.ratePps, nanos) >= 0.0
  {
    var least := m.ratePps * (1.0 - RATE_SERVO_GAIN);
    if target > 0.0 {
      hide Trim;
      RateIsTrimmed(m, buffered, target);
      ProductWithin(m.ratePps, 1.0 - RATE_SERVO_GAIN, m.ratePps, Trim(buffered, target));
    } else {
      ProductWithin(m.ratePps, 1.0 - RATE_SERVO_GAIN, m.ratePps, 1.0);
    }
    hide Media.ReleaseRate;
    ProductWithin(Seconds(nanos), least, Seconds(nanos), m.ReleaseRate(buffered, target));
    assert Earned(m.ratePps, nanos) == Seconds(nanos) * least;
  }

  lemma EarnedAdds(rate: real, a: nat, b: nat)
    ensures Earned(rate, a + b) == Earned(rate, a) + Earned(rate, b)
  {
    SecondsAdd(a, b);
    AllowanceAdds((1.0 - RATE_SERVO_GAIN) * rate, Seconds(a), Seconds(b));
    hide Seconds;
  }

  lemma RateIsTrimmed(m: Media, buffered: nat, target: real)
    requires target > 0.0
    ensures m.ReleaseRate(buffered, target) == m.ratePps * Trim(buffered, target)
  {
  }

  lemma TickBounded(m: Media, now: nat, buffered: nat, target: real)
    requires Bounded(m)
    ensures Bounded(m.Ticked(now, buffered, target))
  {
    hide Media.ReleaseRate, Allowance, Seconds;
    RateWithinServo(m, buffered, target);
    var t := m.Ticked(now, buffered, target);
    if t != m {
      var last := if m.ticked.Some? then m.ticked.value else m.anchor.value;
      SecondsAdd(last - m.anchor.value, now - last);
      CreditStep(m.carrierPps, m.ReleaseRate(buffered, target), Seconds(now - last), RunTime(m));
    }
  }

  lemma SecondsAdd(a: nat, b: nat)
    ensures Seconds(a) >= 0.0 && Seconds(b) >= 0.0 && Seconds(a + b) == Seconds(a) + Seconds(b)
    ensures Seconds(0) == 0.0
  {
  }

  lemma CreditStep(carrier: real, rate: real, dt: real, ran: real)
    requires 0.0 <= rate <= carrier * (1.0 + RATE_SERVO_GAIN) && dt >= 0.0
    ensures 0.0 <= dt * rate && dt * rate + Allowance(carrier, ran) <= Allowance(carrier, ran + dt)
  {
    ProductWithin(dt, rate, dt, carrier * (1.0 + RATE_SERVO_GAIN));
    AllowanceAdds((1.0 + RATE_SERVO_GAIN) * carrier, ran, dt);
  }

  lemma AllowanceAdds(top: real, ran: real, dt: real)
    ensures top * (ran + dt) == top * ran + dt * top
  {
  }

  lemma FoldBounded(m: Media, decay: Decay)
    requires Bounded(m) && m.pendingSecs > 0.0
    ensures Bounded(m.Folded(decay)) && m.Folded(decay).carrierPps == m.carrierPps
  {
    var packets := Decayed(m.decayedPackets, decay, m.pendingPackets as real);
    var secs := Decayed(m.decayedSecs, decay, m.pendingSecs);
    assert m.decayedPackets * decay >= 0.0;
    DecayedPositive(m.decayedSecs, decay, m.pendingSecs);
    RatioAtMost(packets, secs, 0.0);
    hide Ratio;
  }

  lemma {:induction false} RunBounded(fallback: real, events: seq<Event>)
    requires fallback >= 0.0
    ensures Bounded(Run(fallback, events))
    ensures Run(fallback, events).carrierPps == fallback
    decreases |events|
  {
    if events == [] {
    } else {
      RunBounded(fallback, events[..|events| - 1]);
      StepBounded(Run(fallback, events[..|events| - 1]), events[|events| - 1]);
    }
  }

  lemma StepBounded(m: Media, e: Event)
    requires m.pendingSecs >= 0.0 && Bounded(m)
    ensures Bounded(Step(m, e)) && Step(m, e).carrierPps == m.carrierPps
  {
    match e {
      case Observe(p, decay) => ObservedBounded(m, p, decay);
      case Tick(now, buffered, target) => TickBounded(m, now, buffered, target);
      case _ =>
    }
  }

  lemma ObservedBounded(m: Media, p: Packet, decay: Decay)
    requires m.pendingSecs >= 0.0 && Bounded(m)
    ensures Bounded(m.Observed(p, decay)) && m.Observed(p, decay).carrierPps == m.carrierPps
  {
    hide ForwardDelta, Media.Sampled;
    if p.pcr.Some? && m.Elapses(p.pcr.value, p.declared) {
      SampledBounded(m.(packetsSincePcr := m.packetsSincePcr + 1),
                     Seconds(TicksToNanos(ForwardDelta(m.lastPcr.value, p.pcr.value))), decay);
    }
  }

  lemma SampledBounded(m: Media, secs: real, decay: Decay)
    requires m.pendingSecs >= 0.0 && secs > 0.0 && Bounded(m)
    ensures Bounded(m.Sampled(secs, decay)) && m.Sampled(secs, decay).carrierPps == m.carrierPps
    ensures m.Sampled(secs, decay).anchor == m.anchor && m.Sampled(secs, decay).ticked == m.ticked
  {
    hide Ratio, Decayed;
    FoldBounded(m.(pendingPackets := m.pendingPackets + m.packetsSincePcr, pendingSecs := m.pendingSecs + secs), decay);
  }

  /** Whatever the source clock does, the recovered rate never exceeds the carrier's, and
      what has been released never exceeds one packet more than the carrier's rate and a
      twentieth, over the time since the clock was anchored. */
  lemma ReleaseIsBounded(fallback: real, events: seq<Event>)
    requires fallback >= 0.0
    ensures
      var m := Run(fallback, events);
      && 0.0 <= m.ratePps <= fallback
      && m.released as real <= 1.0 + Allowance(fallback, RunTime(m))
  {
    hide Run, RunTime, Allowance;
    RunBounded(fallback, events);
    var m := Run(fallback, events);
    assert m.credit.Floor as real <= m.credit;
    assert m.released as real <= (m.credit.Floor + 1) as real;
  }

  // ---- The servo ----

  /** How far the release rate is trimmed, in proportion to the rate. */
  lemma TrimIsTheError(buffered: nat, target: real)
    requires target > 0.0
    ensures buffered == 0 ==> Trim(buffered, target) == 1.0 - RATE_SERVO_GAIN
    ensures buffered as real >= 2.0 * target ==> Trim(buffered, target) == 1.0 + RATE_SERVO_GAIN
    ensures buffered as real <= 2.0 * target ==>
      (Trim(buffered, target) - 1.0) * target == RATE_SERVO_GAIN * (buffered as real - target)
  {
    var off := buffered as real - target;
    hide Ratio;
    assert Trim(buffered, target) == Clamped(Ratio(off, target)) by {
      TrimIsClamped(buffered, target);
    }
    RatioAtMost(off, target, 1.0);
    RatioAtMost(off, target, -1.0);
    RatioIsShare(off, target);
    if buffered as real <= 2.0 * target {
      assert (Trim(buffered, target) - 1.0) * target == RATE_SERVO_GAIN * (Ratio(off, target) * target);
    }
  }

  /** One, and a twentieth of the error so far as that goes. */
  function Clamped(error: real): real {
    1.0 + (if error > 1.0 then 1.0 else if error < -1.0 then -1.0 else error) * RATE_SERVO_GAIN
  }

  lemma TrimIsClamped(buffered: nat, target: real)
    requires target > 0.0
    ensures Trim(buffered, target) == Clamped(Ratio(buffered as real - target, target))
  {
  }

  lemma RatioIsShare(off: real, target: real)
    requires target > 0.0
    ensures Ratio(off, target) * target == off
  {
  }

  /** The trim pulls the buffer to its target: faster than the estimate exactly when more is
      held than that, slower exactly when less is, by a twentieth when it is empty or holds
      twice the target, and in proportion to how far off it is between. */
  lemma ServoPullsToTarget(m: Media, buffered: nat, target: real)
    requires m.ratePps > 0.0 && target > 0.0
    ensures m.ReleaseRate(buffered, target) > m.ratePps <==> buffered as real > target
    ensures m.ReleaseRate(buffered, target) < m.ratePps <==> (buffered as real) < target
    ensures buffered == 0 ==> m.ReleaseRate(buffered, target) == m.ratePps * (1.0 - RATE_SERVO_GAIN)
    ensures buffered as real >= 2.0 * target ==>
      m.ReleaseRate(buffered, target) == m.ratePps * (1.0 + RATE_SERVO_GAIN)
    ensures buffered as real <= 2.0 * target ==>
      (m.ReleaseRate(buffered, target) - m.ratePps) * target
        == RATE_SERVO_GAIN * m.ratePps * (buffered as real - target)
  {
    hide Trim, Media.ReleaseRate;
    RateIsTrimmed(m, buffered, target);
    TrimIsTheError(buffered, target);
    TrimmedWhichWay(m.ratePps, Trim(buffered, target), target, buffered as real - target);
  }

  lemma TrimmedWhichWay(rate: real, trim: real, target: real, off: real)
    requires rate > 0.0 && target > 0.0
    requires off <= target ==> (trim - 1.0) * target == RATE_SERVO_GAIN * off
    requires off >= target ==> trim == 1.0 + RATE_SERVO_GAIN
    ensures rate * trim > rate <==> off > 0.0
    ensures rate * trim < rate <==> off < 0.0
    ensures off <= target ==> (rate * trim - rate) * target == RATE_SERVO_GAIN * rate * off
  {
    SignOfProduct(trim - 1.0, target);
    SignOfProduct(trim - 1.0, rate);
    assert rate * trim - rate == (trim - 1.0) * rate;
    assert (rate * trim - rate) * target == rate * ((trim - 1.0) * target);
  }

  lemma SignOfProduct(a: real, b: real)
    requires b > 0.0
    ensures a * b > 0.0 <==> a > 0.0
    ensures a * b < 0.0 <==> a < 0.0
  {
    assert a > 0.0 ==> a * b > 0.0;
    assert a < 0.0 ==> -a * b > 0.0;
  }

  /** Ticked at any instants with its target held, or without one, the clock earns exactly
      its rate: what is due is one packet more than the whole ones of the rate by the time
      since the anchor, however often it is asked. */
  lemma {:induction false} OnTargetIsExact(m: Media, instants: seq<nat>, buffered: nat, target: real)
    requires m.anchor.Some? && m.ticked.None? && m.credit == 0.0 && m.ratePps >= 0.0
    requires target <= 0.0 || buffered as real == target
    requires instants != [] && m.anchor.value <= instants[0]
    requires forall i, j | 0 <= i < j < |instants| :: instants[i] <= instants[j]
    ensures
      var now := instants[|instants| - 1];
      var t := TickedAt(m, instants, buffered, target);
      && Exact(m, t, now)
      && t.DueAt(now) == (m.ratePps * Seconds(now - m.anchor.value)).Floor + 1
  {
    hide Media.Ticked, Media.DueAt, Seconds;
    var last := |instants| - 1;
    if last == 0 {
      StartsExact(m);
      FirstTick(m, instants, buffered, target);
      TickIsExact(m, m, m.anchor.value, instants[0], buffered, target);
    } else {
      OnTargetIsExact(m, instants[..last], buffered, target);
      TickIsExact(m, TickedAt(m, instants[..last], buffered, target), instants[last - 1], instants[last],
                  buffered, target);
    }
    DueWhenExact(m, TickedAt(m, instants, buffered, target), instants[last]);
  }

  lemma FirstTick(m: Media, instants: seq<nat>, buffered: nat, target: real)
    requires |instants| == 1
    ensures TickedAt(m, instants, buffered, target) == m.Ticked(instants[0], buffered, target)
  {
    assert instants[..0] == [] && TickedAt(m, [], buffered, target) == m;
  }

  /** At `now` the clock `t` has earned exactly the rate of `m` since its anchor. */
  ghost predicate Exact(m: Media, t: Media, now: nat) {
    && m.anchor.Some? && t.anchor == m.anchor && t.ratePps == m.ratePps && m.anchor.value <= now
    && (if t.ticked.Some? then t.ticked.value else m.anchor.value) == now
    && t.credit == m.ratePps * Seconds(now - m.anchor.value)
  }

  lemma StartsExact(m: Media)
    requires m.anchor.Some? && m.ticked.None? && m.credit == 0.0
    ensures Exact(m, m, m.anchor.value)
  {
  }

  lemma TickIsExact(m: Media, t: Media, before: nat, now: nat, buffered: nat, target: real)
    requires Exact(m, t, before) && before <= now && (target <= 0.0 || buffered as real == target)
    ensures Exact(m, t.Ticked(now, buffered, target), now)
  {
    hide Media.ReleaseRate, Seconds;
    OnTargetRate(t, buffered, target);
    SecondsAdd(before - m.anchor.value, now - before);
    AllowanceAdds(m.ratePps, Seconds(before - m.anchor.value), Seconds(now - before));
  }

  lemma DueWhenExact(m: Media, t: Media, now: nat)
    requires Exact(m, t, now) && m.ratePps >= 0.0
    ensures t.DueAt(now) == (m.ratePps * Seconds(now - m.anchor.value)).Floor + 1
  {
    hide Seconds;
    SecondsAdd(now - m.anchor.value, 0);
    ProductWithin(m.ratePps, Seconds(now - m.anchor.value), m.ratePps, Seconds(now - m.anchor.value));
  }

  function TickedAt(m: Media, instants: seq<nat>, buffered: nat, target: real): Media {
    if instants == [] then m
    else TickedAt(m, instants[..|instants| - 1], buffered, target).Ticked(instants[|instants| - 1], buffered, target)
  }

  lemma OnTargetRate(m: Media, buffered: nat, target: real)
    requires target <= 0.0 || buffered as real == target
    ensures m.ReleaseRate(buffered, target) == m.ratePps
  {
  }

  /** Nothing but a finished sample moves the rate: not a stall's end, nor a packet, nor time. */
  lemma OnlySamplesMoveTheRate(m: Media, e: Event)
    requires m.pendingSecs >= 0.0 && Step(m, e).ratePps != m.ratePps
    ensures e.Observe? && |Step(m, e).samples| == |m.samples| + 1 && Step(m, e).estimated
  {
    hide Ratio, Decayed, ForwardDelta, Media.ReleaseRate;
  }

  /** A clock not judged stopped has its rate from its samples, once there are any; and one
      is judged stopped that has more than a second of carriage counted and no sample yet. */
  predicate JudgedFairly(m: Media) {
    && (m.samples != [] ==> m.decayedSecs > 0.0)
    && m.decayedSecs >= 0.0
    && (m.samples != [] && !m.stalledClock ==> m.ratePps == Ratio(m.decayedPackets, m.decayedSecs) <= m.carrierPps)
    && (m.pendingPackets > m.stallClockPackets ==> m.stalledClock)
  }

  lemma StepJudgesFairly(m: Media, e: Event)
    requires m.pendingSecs >= 0.0 && JudgedFairly(m)
    ensures JudgedFairly(Step(m, e))
  {
    hide Ratio, ForwardDelta, Media.ReleaseRate, Decayed;
    if e.Observe? {
      DecayedPositive(m.decayedSecs, e.decay, m.pendingSecs + 1.0);
      ObserveJudgesFairly(m, e.packet, e.decay);
    }
  }

  lemma ObserveJudgesFairly(m: Media, p: Packet, decay: Decay)
    requires m.pendingSecs >= 0.0 && JudgedFairly(m)
    ensures JudgedFairly(m.Observed(p, decay))
  {
    hide Ratio, ForwardDelta, Decayed;
    if p.pcr.Some? && m.Elapses(p.pcr.value, p.declared) {
      var secs := Seconds(TicksToNanos(ForwardDelta(m.lastPcr.value, p.pcr.value)));
      DecayedPositive(m.decayedSecs, decay, m.pendingSecs + secs);
    }
  }

  /** Over every run. */
  lemma {:induction false} StoppedClockIsSeen(fallback: real, events: seq<Event>)
    requires fallback >= 0.0
    ensures JudgedFairly(Run(fallback, events))
    decreases |events|
  {
    hide JudgedFairly, Step;
    if events == [] {
      NewIsFair(fallback);
    } else {
      StoppedClockIsSeen(fallback, events[..|events| - 1]);
      StepJudgesFairly(Run(fallback, events[..|events| - 1]), events[|events| - 1]);
    }
  }

  lemma NewIsFair(fallback: real)
    requires fallback >= 0.0
    ensures JudgedFairly(NewMedia(fallback))
  {
  }
}
