/** What the recovered rate is measured from (src/scheduler.rs, `MediaClock::observe`):
    packets counted between the PCRs they lie between, over the time between those PCRs. */
module RateSamples {
  import opened Prelude
  import opened Packets
  import opened SlotMaps
  import opened MediaClocks

  // ---- The packets observed ----

  /** The packets observed since the clock was new or last restarted. */
  function Observed(events: seq<Event>): seq<Packet> {
    if events == [] then []
    else
      var before := Observed(events[..|events| - 1]);
      match events[|events| - 1]
      case Observe(p, _) => before + [p]
      case Resume(_) => []
      case _ => before
  }

  /** Where the PCRs stand among `packets`. */
  function PcrsIn(packets: seq<Packet>): (at: seq<nat>)
    ensures forall k | 0 <= k < |at| :: at[k] < |packets| && packets[at[k]].pcr.Some?
    ensures forall j, k | 0 <= j < k < |at| :: at[j] < at[k]
  {
    if packets == [] then []
    else
      var last := |packets| - 1;
      PcrsIn(packets[..last]) + if packets[last].pcr.Some? then [last] else []
  }

  /** From one PCR to the next: how many packets on the next is, how much later it reads,
      and whether it is declared a discontinuity. */
  datatype Interval = Interval(packets: nat, nanos: nat, declared: bool)

  function IntervalAt(packets: seq<Packet>, from: nat, to: nat): Interval
    requires from < to < |packets| && packets[from].pcr.Some? && packets[to].pcr.Some?
  {
    var delta := ForwardDelta(packets[from].pcr.value, packets[to].pcr.value);
    Interval(to - from, TicksToNanos(delta), packets[to].declared)
  }

  function Intervals(packets: seq<Packet>): (r: seq<Interval>)
    ensures |r| == SatSub(|PcrsIn(packets)|, 1)
    ensures forall k | 0 <= k < |r| :: r[k] == IntervalAt(packets, PcrsIn(packets)[k], PcrsIn(packets)[k + 1])
  {
    var at := PcrsIn(packets);
    seq(SatSub(|at|, 1), k requires 0 <= k < SatSub(|at|, 1) => IntervalAt(packets, at[k], at[k + 1]))
  }

  /** An interval over which source time can be believed to have passed. */
  predicate Passes(i: Interval) {
    0 < i.nanos <= DISCONTINUITY_GAP && !i.declared
  }

  function PacketsOver(intervals: seq<Interval>): nat {
    if intervals == [] then 0
    else
      var last := intervals[|intervals| - 1];
      PacketsOver(intervals[..|intervals| - 1]) + if Passes(last) then last.packets else 0
  }

  function TimeOver(intervals: seq<Interval>): (secs: real)
    ensures secs >= 0.0
  {
    if intervals == [] then 0.0
    else
      var last := intervals[|intervals| - 1];
      TimeOver(intervals[..|intervals| - 1]) + if Passes(last) then Seconds(last.nanos) else 0.0
  }

  /** The intervals of each finished sample, and those of the one still open. */
  datatype Grouping = Grouping(samples: seq<seq<Interval>>, open: seq<Interval>)

  /** A sample ends with the interval that brings its time to enough for one. */
  function Grouped(intervals: seq<Interval>): Grouping {
    if intervals == [] then Grouping([], [])
    else
      var before := Grouped(intervals[..|intervals| - 1]);
      var now := before.open + [intervals[|intervals| - 1]];
      if TimeOver(now) >= MIN_RATE_SAMPLE then Grouping(before.samples + [now], []) else Grouping(before.samples, now)
  }

  function Joined(parts: seq<seq<Interval>>): seq<Interval> {
    if parts == [] then [] else Joined(parts[..|parts| - 1]) + parts[|parts| - 1]
  }

  /** A sample has just enough time: without its last interval it had too little. */
  predicate JustEnough(sample: seq<Interval>) {
    sample != [] && TimeOver(sample) >= MIN_RATE_SAMPLE && TimeOver(sample[..|sample| - 1]) < MIN_RATE_SAMPLE
  }

  ghost predicate Covers(g: Grouping, intervals: seq<Interval>) {
    && Joined(g.samples) + g.open == intervals && TimeOver(g.open) < MIN_RATE_SAMPLE
    && forall k | 0 <= k < |g.samples| :: JustEnough(g.samples[k])
  }

  /** The samples and what is open follow on one another, each sample just enough. */
  lemma {:induction false} GroupingCovers(intervals: seq<Interval>)
    ensures Covers(Grouped(intervals), intervals)
  {
    hide TimeOver, JustEnough, Covers;
    if intervals == [] {
      NothingCovers();
    } else {
      var front, last := intervals[..|intervals| - 1], intervals[|intervals| - 1];
      GroupingCovers(front);
      assert front + [last] == intervals;
      CoversOneMore(Grouped(front), front, last);
    }
  }

  lemma NothingCovers()
    ensures Covers(Grouping([], []), [])
  {
    NothingOver();
    assert Joined([]) == [];
  }

  lemma CoversOneMore(g: Grouping, intervals: seq<Interval>, last: Interval)
    requires Covers(g, intervals)
    ensures
      var now := g.open + [last];
      Covers(if TimeOver(now) >= MIN_RATE_SAMPLE then Grouping(g.samples + [now], []) else Grouping(g.samples, now),
             intervals + [last])
  {
    hide TimeOver, JustEnough;
    var now := g.open + [last];
    assert Joined(g.samples) + now == intervals + [last];
    if TimeOver(now) >= MIN_RATE_SAMPLE {
      FirstEnough(g.open, last);
      assert (g.samples + [now])[..|g.samples|] == g.samples;
      NothingOver();
    }
  }

  lemma FirstEnough(open: seq<Interval>, last: Interval)
    requires TimeOver(open) < MIN_RATE_SAMPLE <= TimeOver(open + [last])
    ensures JustEnough(open + [last])
  {
    hide TimeOver;
    assert (open + [last])[..|open|] == open;
  }

  lemma NothingOver()
    ensures TimeOver([]) == 0.0 && PacketsOver([]) == 0
  {
  }

  // ---- Each step ----

  lemma PcrsOneMore(packets: seq<Packet>, p: Packet)
    ensures PcrsIn(packets + [p]) == PcrsIn(packets) + if p.pcr.Some? then [|packets|] else []
  {
    assert (packets + [p])[..|packets|] == packets;
  }

  lemma IntervalStands(packets: seq<Packet>, p: Packet, from: nat, to: nat)
    requires from < to < |packets| && packets[from].pcr.Some? && packets[to].pcr.Some?
    ensures IntervalAt(packets + [p], from, to) == IntervalAt(packets, from, to)
  {
  }

  lemma IntervalsOneMore(packets: seq<Packet>, p: Packet)
    ensures
      var at := PcrsIn(packets);
      if p.pcr.Some? && at != []
      then Intervals(packets + [p]) == Intervals(packets) + [IntervalAt(packets + [p], at[|at| - 1], |packets|)]
      else Intervals(packets + [p]) == Intervals(packets)
  {
    hide PcrsIn, IntervalAt;
    PcrsOneMore(packets, p);
    var at, at' := PcrsIn(packets), PcrsIn(packets + [p]);
    var was, now := Intervals(packets), Intervals(packets + [p]);
    forall k | 0 <= k < |was|
      ensures now[k] == was[k]
    {
      assert at'[k] == at[k] && at'[k + 1] == at[k + 1];
      IntervalStands(packets, p, at[k], at[k + 1]);
    }
  }

  /** What has been counted since the last PCR, and what of it is pending. */
  ghost predicate Counting(m: Media, packets: seq<Packet>) {
    var at := PcrsIn(packets);
    && (at == [] ==> m.lastPcr.None?)
    && (at != [] ==> m.lastPcr == packets[at[|at| - 1]].pcr && m.packetsSincePcr == |packets| - 1 - at[|at| - 1])
  }

  ghost predicate Pending(m: Media, intervals: seq<Interval>) {
    var g := Grouped(intervals);
    && m.pendingPackets == PacketsOver(g.open) && m.pendingSecs == TimeOver(g.open) < MIN_RATE_SAMPLE
    && SamplesAre(m.samples, g.samples)
  }

  /** Sample `k` is the packets counted over its intervals by the time they take. */
  ghost predicate SamplesAre(samples: seq<real>, groups: seq<seq<Interval>>) {
    && |samples| == |groups|
    && forall k | 0 <= k < |groups| ::
         TimeOver(groups[k]) > 0.0 && samples[k] == Ratio(PacketsOver(groups[k]) as real, TimeOver(groups[k]))
  }

  lemma OverOneMore(intervals: seq<Interval>, i: Interval)
    ensures PacketsOver(intervals + [i]) == PacketsOver(intervals) + if Passes(i) then i.packets else 0
    ensures TimeOver(intervals + [i]) == TimeOver(intervals) + if Passes(i) then Seconds(i.nanos) else 0.0
  {
    assert (intervals + [i])[..|intervals|] == intervals;
  }

  lemma GroupedOneMore(intervals: seq<Interval>, i: Interval)
    ensures
      var before, g := Grouped(intervals), Grouped(intervals + [i]);
      var now := before.open + [i];
      if TimeOver(now) >= MIN_RATE_SAMPLE then g == Grouping(before.samples + [now], [])
      else g == Grouping(before.samples, now)
  {
    hide TimeOver;
    assert (intervals + [i])[..|intervals|] == intervals;
  }

  lemma ObserveCounts(m: Media, packets: seq<Packet>, p: Packet, decay: Decay)
    requires m.pendingSecs >= 0.0 && Counting(m, packets)
    ensures Counting(m.Observed(p, decay), packets + [p])
  {
    hide ForwardDelta, Ratio, Decayed;
    PcrsOneMore(packets, p);
    SampledKeepsCount(m, p, decay);
  }

  lemma SampledKeepsCount(m: Media, p: Packet, decay: Decay)
    requires m.pendingSecs >= 0.0
    ensures
      var m' := m.Observed(p, decay);
      if p.pcr.Some? then m'.lastPcr == p.pcr && m'.packetsSincePcr == 0
      else m'.lastPcr == m.lastPcr && m'.packetsSincePcr == m.packetsSincePcr + 1
  {
    hide ForwardDelta, Ratio, Decayed;
  }

  /** What one packet does to the samples, the clock counting as it should. */
  lemma ObserveSamples(m: Media, packets: seq<Packet>, p: Packet, decay: Decay)
    requires m.pendingSecs >= 0.0 && Counting(m, packets) && Pending(m, Intervals(packets))
    ensures Pending(m.Observed(p, decay), Intervals(packets + [p]))
  {
    hide ForwardDelta, Ratio, Decayed, SamplesAre, TimeOver, PacketsOver, Grouped, TicksToNanos, Intervals, PcrsIn;
    IntervalsOneMore(packets, p);
    var at, intervals := PcrsIn(packets), Intervals(packets);
    if p.pcr.None? || at == [] {
      assert intervals + [] == intervals;
    } else {
      var i := IntervalAt(packets + [p], at[|at| - 1], |packets|);
      assert i.packets == m.packetsSincePcr + 1;
      OverOneMore(Grouped(intervals).open, i);
      GroupedOneMore(intervals, i);
      PassedSamples(m, p, i, decay);
      NothingOver();
      if TimeOver(Grouped(intervals).open + [i]) >= MIN_RATE_SAMPLE {
        OneMoreSample(m.samples, Grouped(intervals).samples, Grouped(intervals).open + [i]);
      }
    }
  }

  lemma OneMoreSample(samples: seq<real>, groups: seq<seq<Interval>>, now: seq<Interval>)
    requires SamplesAre(samples, groups) && TimeOver(now) >= MIN_RATE_SAMPLE
    ensures SamplesAre(samples + [Ratio(PacketsOver(now) as real, TimeOver(now))], groups + [now])
  {
    hide TimeOver, PacketsOver, Ratio;
  }

  /** The pending sample after the packet that ends interval `i`. */
  lemma PassedSamples(m: Media, p: Packet, i: Interval, decay: Decay)
    requires 0.0 <= m.pendingSecs < MIN_RATE_SAMPLE && m.lastPcr.Some? && p.pcr.Some?
    requires i == Interval(m.packetsSincePcr + 1, TicksToNanos(ForwardDelta(m.lastPcr.value, p.pcr.value)), p.declared)
    ensures
      var m' := m.Observed(p, decay);
      var packets := m.pendingPackets + if Passes(i) then i.packets else 0;
      var secs := m.pendingSecs + if Passes(i) then Seconds(i.nanos) else 0.0;
      if secs >= MIN_RATE_SAMPLE
      then m'.samples == m.samples + [Ratio(packets as real, secs)] && m'.pendingPackets == 0 && m'.pendingSecs == 0.0
      else m'.samples == m.samples && m'.pendingPackets == packets && m'.pendingSecs == secs
  {
    hide ForwardDelta, Ratio, Decayed, TicksToNanos;
  }

  // ---- Over whole runs ----

  lemma {:induction false} RunCounts(fallback: real, events: seq<Event>)
    requires fallback >= 0.0
    ensures Counting(Run(fallback, events), Observed(events))
    ensures Pending(Run(fallback, events), Intervals(Observed(events)))
    decreases |events|
  {
    hide Media.Observed, Media.Ticked, Media.DueAt, Counting, Pending, Intervals;
    if events == [] {
      ResetCounts(Run(fallback, events));
    } else {
      var front, e := events[..|events| - 1], events[|events| - 1];
      RunCounts(fallback, front);
      var m, packets := Run(fallback, front), Observed(front);
      match e {
        case Observe(p, decay) =>
          ObserveCounts(m, packets, p, decay);
          ObserveSamples(m, packets, p, decay);
        case Resume(_) => ResetCounts(Run(fallback, events));
        case _ => OtherwiseCounts(m, e, packets);
      }
    }
  }

  lemma ResetCounts(m: Media)
    requires m.lastPcr.None? && m.pendingPackets == 0 && m.pendingSecs == 0.0 && m.samples == []
    ensures Counting(m, []) && Pending(m, Intervals([]))
  {
    assert Intervals([]) == [];
    NothingOver();
  }

  lemma OtherwiseCounts(m: Media, e: Event, packets: seq<Packet>)
    requires m.pendingSecs >= 0.0 && !e.Observe? && !e.Resume?
    requires Counting(m, packets) && Pending(m, Intervals(packets))
    ensures Counting(Step(m, e), packets) && Pending(Step(m, e), Intervals(packets))
  {
    hide SamplesAre, TimeOver, PacketsOver, Media.ReleaseRate;
  }

  /** Over every run: each sample is the packets counted from the PCR that began it to the
      one that ended it, by the time between them. The samples follow on one another from
      the first PCR observed, each with just enough time to be one; and only an interval
      over which source time cannot be believed to have passed is left out of both counts. */
  lemma SamplesAreMeasured(fallback: real, events: seq<Event>)
    requires fallback >= 0.0
    ensures
      var intervals := Intervals(Observed(events));
      var g := Grouped(intervals);
      SamplesAre(Run(fallback, events).samples, g.samples) && Covers(g, intervals)
  {
    hide SamplesAre, TimeOver, Run, Grouped, Covers, Intervals;
    RunCounts(fallback, events);
    GroupingCovers(Intervals(Observed(events)));
  }

  /** Every interval that counts carries packets at a rate from `low` to `high`. */
  ghost predicate RatesWithin(intervals: seq<Interval>, low: real, high: real) {
    forall i <- intervals :: Passes(i) ==>
      low * Seconds(i.nanos) <= i.packets as real <= high * Seconds(i.nanos)
  }

  /** So do all of them together. */
  ghost predicate RateWithin(intervals: seq<Interval>, low: real, high: real) {
    low * TimeOver(intervals) <= PacketsOver(intervals) as real <= high * TimeOver(intervals)
  }

  lemma {:induction false} SumWithin(intervals: seq<Interval>, low: real, high: real)
    requires RatesWithin(intervals, low, high)
    ensures RateWithin(intervals, low, high)
  {
    hide RateWithin;
    if intervals == [] {
      NothingWithin(low, high);
    } else {
      var front, last := intervals[..|intervals| - 1], intervals[|intervals| - 1];
      assert last in intervals && forall i <- front :: i in intervals;
      SumWithin(front, low, high);
      WithinOneMore(front, last, low, high);
      assert front + [last] == intervals;
    }
  }

  lemma NothingWithin(low: real, high: real)
    ensures RateWithin([], low, high)
  {
    NothingOver();
  }

  lemma WithinOneMore(intervals: seq<Interval>, i: Interval, low: real, high: real)
    requires RateWithin(intervals, low, high)
    requires Passes(i) ==> low * Seconds(i.nanos) <= i.packets as real <= high * Seconds(i.nanos)
    ensures RateWithin(intervals + [i], low, high)
  {
    hide Seconds, TimeOver, PacketsOver, Passes;
    OverOneMore(intervals, i);
    TimesAdd(low, TimeOver(intervals), Seconds(i.nanos));
    TimesAdd(high, TimeOver(intervals), Seconds(i.nanos));
  }

  lemma TimesAdd(rate: real, a: real, b: real)
    ensures rate * (a + b) == rate * a + rate * b
  {
  }

  lemma {:induction false} PartOfJoined(parts: seq<seq<Interval>>, k: nat, i: Interval)
    requires k < |parts| && i in parts[k]
    ensures i in Joined(parts)
  {
    if k < |parts| - 1 {
      PartOfJoined(parts[..|parts| - 1], k, i);
    }
  }

  lemma SamplesWithin(samples: seq<real>, intervals: seq<Interval>, g: Grouping, low: real, high: real)
    requires SamplesAre(samples, g.samples) && Covers(g, intervals)
    requires RatesWithin(intervals, low, high)
    ensures Within(samples, low, high)
  {
    hide TimeOver, PacketsOver, Ratio;
    forall k | 0 <= k < |samples|
      ensures low <= samples[k] <= high
    {
      forall i <- g.samples[k]
        ensures i in intervals
      {
        PartOfJoined(g.samples, k, i);
      }
      SumWithin(g.samples[k], low, high);
      RatioAtMost(PacketsOver(g.samples[k]) as real, TimeOver(g.samples[k]), low);
      RatioAtMost(PacketsOver(g.samples[k]) as real, TimeOver(g.samples[k]), high);
    }
  }

  /** Over every run: while the source carries from `low` to `high` packets a second between
      one PCR and the next, the recovered rate is from `low` to `high`, once a sample has
      ended and if the carrier can hold it. */
  lemma RateFollowsTheSource(fallback: real, events: seq<Event>, low: real, high: real)
    requires fallback >= high && fallback >= 0.0
    requires RatesWithin(Intervals(Observed(events)), low, high)
    ensures
      var m := Run(fallback, events);
      && |m.samples| == |Grouped(Intervals(Observed(events))).samples|
      && (m.samples != [] ==> low <= m.ratePps <= high)
  {
    hide SamplesAre, TimeOver, Run, Grouped, Covers, Intervals, RatesWithin, Mediant;
    var m := Run(fallback, events);
    SamplesAreMeasured(fallback, events);
    SamplesWithin(m.samples, Intervals(Observed(events)), Grouped(Intervals(Observed(events))), low, high);
    RateIsMediant(fallback, events, low, high);
    RunBounded(fallback, events);
    MediantRate(m, low, high);
    SampleForSample(m.samples, Grouped(Intervals(Observed(events))).samples);
  }

  lemma SampleForSample(samples: seq<real>, groups: seq<seq<Interval>>)
    requires SamplesAre(samples, groups)
    ensures |samples| == |groups|
  {
  }

  lemma MediantRate(m: Media, low: real, high: real)
    requires Mediant(m, low, high) && high <= m.carrierPps
    ensures m.samples != [] ==> low <= m.ratePps <= high
  {
  }

  /** So with `n` packets from each PCR to the next and `nanos` between them the rate is
      exactly `n` by that time, once the PCRs have gone on for long enough for a sample. */
  lemma RateIsExact(fallback: real, events: seq<Event>, n: nat, nanos: nat)
    requires 0 < nanos <= DISCONTINUITY_GAP && fallback >= Ratio(n as real, Seconds(nanos))
    requires
      var intervals := Intervals(Observed(events));
      && (forall i <- intervals :: i == Interval(n, nanos, false))
      && |intervals| as real * Seconds(nanos) >= MIN_RATE_SAMPLE
    ensures Run(fallback, events).ratePps == Ratio(n as real, Seconds(nanos))
  {
    hide TimeOver, Run, Grouped, Intervals, Ratio;
    var intervals, rate := Intervals(Observed(events)), Ratio(n as real, Seconds(nanos));
    RatioTimes(n as real, Seconds(nanos));
    assert rate >= 0.0 by {
      RatioAtMost(n as real, Seconds(nanos), 0.0);
    }
    RateFollowsTheSource(fallback, events, rate, rate);
    AllPass(intervals, n, nanos);
    SomeSampleEnds(intervals);
  }

  lemma RatioTimes(packets: real, secs: real)
    requires secs > 0.0
    ensures Ratio(packets, secs) * secs == packets
  {
  }

  /** All of them pass, and take `nanos` each. */
  ghost predicate AllTake(intervals: seq<Interval>, nanos: nat) {
    TimeOver(intervals) == |intervals| as real * Seconds(nanos)
  }

  lemma {:induction false} AllPass(intervals: seq<Interval>, n: nat, nanos: nat)
    requires 0 < nanos <= DISCONTINUITY_GAP && forall i <- intervals :: i == Interval(n, nanos, false)
    ensures AllTake(intervals, nanos)
  {
    hide AllTake;
    if intervals == [] {
      NoneTake(nanos);
    } else {
      var front, last := intervals[..|intervals| - 1], intervals[|intervals| - 1];
      assert last in intervals && forall i <- front :: i in intervals;
      AllPass(front, n, nanos);
      OneMoreTakes(front, last, nanos);
      assert front + [last] == intervals;
    }
  }

  lemma NoneTake(nanos: nat)
    ensures AllTake([], nanos)
  {
    NothingOver();
  }

  lemma OneMoreTakes(intervals: seq<Interval>, i: Interval, nanos: nat)
    requires AllTake(intervals, nanos) && Passes(i) && i.nanos == nanos
    ensures AllTake(intervals + [i], nanos)
  {
    hide TimeOver, Seconds, Passes;
    OverOneMore(intervals, i);
    TimesAdd(Seconds(nanos), |intervals| as real, 1.0);
  }

  lemma SomeSampleEnds(intervals: seq<Interval>)
    requires TimeOver(intervals) >= MIN_RATE_SAMPLE
    ensures Grouped(intervals).samples != []
  {
    hide TimeOver, JustEnough;
    GroupingCovers(intervals);
    assert Joined([]) == [];
    assert [] + Grouped(intervals).open == Grouped(intervals).open;
  }
}
