/** Measuring how far ahead of real time the input delivers (src/arrival.rs). Durations
    and rates are reals, instants whole nanoseconds. */
module ArrivalProfiles {
  import opened Prelude

  const WINDOW: nat := 8
  /** One millisecond. */
  const BURST_SEPARATION: nat := 1_000_000

  function Elapsed(from: nat, to: nat): real {
    Seconds(SatSub(to, from))
  }

  function MaxReal(a: real, b: real): real {
    if a >= b then a else b
  }

  function Greatest(values: seq<real>, start: real): real {
    if values == [] then start else Greatest(values[1..], MaxReal(start, values[0]))
  }

  type Peaks = r: seq<real> | |r| == WINDOW witness seq(WINDOW, _ => 0.0)

  datatype Profile = Profile(
    anchor: Option<nat>, packets: nat, peak: real, recent: Peaks, next: nat, cycles: nat,
    lastAt: Option<nat>, burst: nat, burstMax: nat, bursts: nat)
  {
    function Grouped(now: nat): Profile {
      var separated := lastAt.Some? && SatSub(now, lastAt.value) > BURST_SEPARATION;
      this.(burst := if separated then 1 else burst + 1,
            burstMax := if separated && burst > burstMax then burst else burstMax,
            bursts := bursts + if separated then 1 else 0)
    }

    /** Bank the cycle's peak and start a fresh one at `now`. */
    function Closed(now: nat): Profile
      requires next < WINDOW
    {
      this.(recent := recent[next := peak], next := (next + 1) % WINDOW, cycles := cycles + 1,
            peak := 0.0, anchor := Some(now), packets := 1)
    }

    function Observed(now: nat, rate: real): Profile
      requires next < WINDOW
    {
      var g := Grouped(now).(lastAt := Some(now));
      if rate <= 0.0 then g
      else
        var start := if anchor.Some? then anchor.value else now;
        var counted := g.(anchor := Some(start), packets := packets + 1);
        var media := counted.packets as real / rate;
        if media <= Elapsed(start, now) then counted.Closed(now)
        else counted.(peak := MaxReal(peak, media - Elapsed(start, now)))
    }

    function Lead(): real {
      Greatest(recent, peak)
    }
  }

  function NewProfile(): Profile {
    Profile(None, 0, 0.0, seq(WINDOW, _ => 0.0), 0, 0, None, 0, 0, 0)
  }

  class ArrivalProfile {
    var anchor: Option<nat>
    var packets: nat
    var peak: real
    const recent: array<real>
    var next: nat
    var cycles: nat
    var lastAt: Option<nat>
    var burst: nat
    var burstMax: nat
    var bursts: nat

    ghost predicate Valid()
      reads this
    {
      recent.Length == WINDOW && next < WINDOW
    }

    ghost function State(): Profile
      reads this, recent
      requires Valid()
    {
      Profile(anchor, packets, peak, recent[..], next, cycles, lastAt, burst, burstMax, bursts)
    }

    constructor ()
      ensures Valid() && fresh(recent) && State() == NewProfile()
    {
      anchor, packets, peak, next, cycles := None, 0, 0.0, 0, 0;
      lastAt, burst, burstMax, bursts := None, 0, 0, 0;
      recent := new real[WINDOW](_ => 0.0);
      new;
      assert recent[..] == seq(WINDOW, _ => 0.0);
    }

    /** Fold an arrival into the burst figures, closing the open burst after a silence. */
    method GroupBurst(now: nat)
      requires Valid()
      modifies this`burst, this`burstMax, this`bursts
      ensures Valid() && State() == old(State()).Grouped(now)
    {
      if lastAt.Some? && SatSub(now, lastAt.value) > BURST_SEPARATION {
        burstMax := if burst > burstMax then burst else burstMax;
        bursts := bursts + 1;
        burst := 0;
      }
      burst := burst + 1;
    }

    method CloseCycle()
      requires Valid()
      modifies this`next, this`cycles, this`peak, recent
      ensures Valid() && peak == 0.0 && cycles == old(cycles) + 1 && next == (old(next) + 1) % WINDOW
      ensures recent[..] == old(recent[..])[old(next) := old(peak)]
    {
      recent[next] := peak;
      next := (next + 1) % WINDOW;
      cycles := cycles + 1;
      peak := 0.0;
    }

    /** Note one packet arriving at `now` against the stream's own media rate. */
    method Observe(now: nat, rate: real)
      requires Valid()
      modifies this, recent
      ensures Valid() && State() == old(State()).Observed(now, rate)
    {
      GroupBurst(now);
      lastAt := Some(now);
      if rate <= 0.0 {
        return;
      }
      if anchor.None? {
        anchor := Some(now);
      }
      packets := packets + 1;
      var media := packets as real / rate;
      var elapsed := Elapsed(anchor.value, now);
      if media <= elapsed {
        CloseCycle();
        anchor := Some(now);
        packets := 1;
        return;
      }
      peak := MaxReal(peak, media - elapsed);
    }

    /** The worst lead of the open cycle and the last eight closed ones. */
    method Lead() returns (lead: real)
      requires Valid()
      ensures lead == State().Lead()
    {
      lead := peak;
      for k := 0 to WINDOW
        invariant Greatest(recent[k..], lead) == Greatest(recent[..], peak)
      {
        lead := MaxReal(lead, recent[k]);
        assert recent[k..][1..] == recent[k + 1..];
      }
    }
  }

  // ---- What the lead measures ----

  function Watch(arrivals: seq<nat>, rate: real): (p: Profile)
    ensures p.next < WINDOW
  {
    if arrivals == [] then NewProfile()
    else Watch(arrivals[..|arrivals| - 1], rate).Observed(arrivals[|arrivals| - 1], rate)
  }

  /** Media delivered by arrivals `i..=j`, less the time it took: how far that window of
      the input ran ahead of real time. */
  function Excess(arrivals: seq<nat>, rate: real, i: nat, j: nat): real
    requires i <= j < |arrivals| && rate > 0.0
  {
    (j - i + 1) as real / rate - Elapsed(arrivals[i], arrivals[j])
  }

  /** `value` is nothing, or the excess of some window. */
  ghost predicate Measured(arrivals: seq<nat>, rate: real, value: real)
    requires rate > 0.0
  {
    value == 0.0 || exists i, j | 0 <= i <= j < |arrivals| :: value == Excess(arrivals, rate, i, j)
  }

  /** The cycle open since arrival `start`: never level with real time since, and its
      peak the worst it has been ahead, counted from its start. */
  ghost predicate Cycle(p: Profile, arrivals: seq<nat>, rate: real, start: nat)
    requires rate > 0.0
  {
    && start < |arrivals|
    && p.anchor == Some(arrivals[start]) && p.packets == |arrivals| - start
    && p.peak >= 0.0
    && (forall j | start < j < |arrivals| :: 0.0 < Excess(arrivals, rate, start, j) <= p.peak)
  }

  lemma MeasuredGrows(arrivals: seq<nat>, rate: real, value: real, now: nat)
    requires rate > 0.0 && Measured(arrivals, rate, value)
    ensures Measured(arrivals + [now], rate, value)
  {
    if value != 0.0 {
      var i, j :| 0 <= i <= j < |arrivals| && value == Excess(arrivals, rate, i, j);
      assert Excess(arrivals + [now], rate, i, j) == value;
    }
  }

  ghost predicate AllMeasured(p: Profile, arrivals: seq<nat>, rate: real)
    requires rate > 0.0
  {
    && Measured(arrivals, rate, p.peak)
    && forall k | 0 <= k < WINDOW :: Measured(arrivals, rate, p.recent[k])
  }

  lemma {:induction false} WatchMeasures(arrivals: seq<nat>, rate: real) returns (start: nat)
    requires rate > 0.0 && arrivals != []
    ensures Cycle(Watch(arrivals, rate), arrivals, rate, start)
    ensures AllMeasured(Watch(arrivals, rate), arrivals, rate)
  {
    var init, now := arrivals[..|arrivals| - 1], arrivals[|arrivals| - 1];
    var p := Watch(arrivals, rate);
    assert arrivals == init + [now];
    if init == [] {
      start := 0;
      assert p == NewProfile().Observed(now, rate) by {
        assert Watch(init, rate) == NewProfile();
      }
      assert 1.0 / rate > 0.0;
      assert p.peak == Excess(arrivals, rate, 0, 0);
    } else {
      var before := Watch(init, rate);
      start := WatchMeasures(init, rate);
      forall v: real | Measured(init, rate, v)
        ensures Measured(arrivals, rate, v)
      {
        MeasuredGrows(init, rate, v, now);
      }
      start := CycleGoesOn(before, init, rate, start, now);
    }
  }

  lemma CycleGoesOn(before: Profile, init: seq<nat>, rate: real, start: nat, now: nat) returns (start': nat)
    requires rate > 0.0 && before.next < WINDOW
    requires Cycle(before, init, rate, start)
    requires forall v: real | Measured(init, rate, v) :: Measured(init + [now], rate, v)
    requires AllMeasured(before, init, rate)
    ensures Cycle(before.Observed(now, rate), init + [now], rate, start')
    ensures AllMeasured(before.Observed(now, rate), init + [now], rate)
  {
    var all := init + [now];
    var p := before.Observed(now, rate);
    var ahead := Excess(all, rate, start, |init|);
    assert forall j | start < j < |init| :: Excess(all, rate, start, j) == Excess(init, rate, start, j);
    if ahead <= 0.0 {
      start' := |init|;
    } else {
      start' := start;
      assert p.peak == MaxReal(before.peak, ahead);
    }
  }

  lemma {:induction false} GreatestBounds(values: seq<real>, start: real, bound: real)
    ensures Greatest(values, start) <= bound <==> start <= bound && forall k | 0 <= k < |values| :: values[k] <= bound
  {
    if values == [] {
    } else {
      GreatestBounds(values[1..], MaxReal(start, values[0]), bound);
      assert forall k | 0 < k < |values| :: values[k] == values[1..][k - 1];
    }
  }

  /** If no window of arrivals runs ahead of real time by more than `sigma` packets' worth
      of media, the lead never reads more than that, over any input whatever. */
  lemma LeadIsBoundedByBurstiness(arrivals: seq<nat>, rate: real, sigma: real)
    requires rate > 0.0 && sigma >= 0.0
    requires forall i, j | 0 <= i <= j < |arrivals| :: Excess(arrivals, rate, i, j) <= sigma / rate
    ensures Watch(arrivals, rate).Lead() <= sigma / rate
  {
    var p := Watch(arrivals, rate);
    assert sigma / rate >= 0.0;
    if arrivals != [] {
      var _ := WatchMeasures(arrivals, rate);
      forall v: real | Measured(arrivals, rate, v)
        ensures v <= sigma / rate
      {
      }
    }
    GreatestBounds(p.recent, p.peak, sigma / rate);
  }

  /** And within the open cycle the peak misses no burst by more than one packet: every
      window of it runs ahead by at most the peak and one packet's media. */
  lemma PeakMissesAtMostOnePacket(arrivals: seq<nat>, rate: real) returns (start: nat)
    requires rate > 0.0 && arrivals != []
    requires forall i, j | 0 <= i <= j < |arrivals| :: arrivals[i] <= arrivals[j]
    ensures start < |arrivals| && Watch(arrivals, rate).anchor == Some(arrivals[start])
    ensures forall i, j | start <= i <= j < |arrivals| ::
      Excess(arrivals, rate, i, j) <= Watch(arrivals, rate).peak + 1.0 / rate
    ensures Measured(arrivals, rate, Watch(arrivals, rate).peak)
  {
    start := WatchMeasures(arrivals, rate);
    var peak := Watch(arrivals, rate).peak;
    hide Watch;
    forall i, j | start <= i <= j < |arrivals|
      ensures Excess(arrivals, rate, i, j) <= peak + 1.0 / rate
    {
      WindowsJoin(arrivals, rate, start, i, j);
    }
  }

  lemma WindowsJoin(arrivals: seq<nat>, rate: real, a: nat, i: nat, j: nat)
    requires rate > 0.0 && a <= i <= j < |arrivals|
    requires arrivals[a] <= arrivals[i] <= arrivals[j]
    ensures Excess(arrivals, rate, a, i) + Excess(arrivals, rate, i, j) == Excess(arrivals, rate, a, j) + 1.0 / rate
  {
    assert (i - a + 1) as real / rate + (j - i + 1) as real / rate == (j - a + 2) as real / rate;
    assert (j - a + 2) as real / rate == (j - a + 1) as real / rate + 1.0 / rate;
    assert Elapsed(arrivals[a], arrivals[i]) + Elapsed(arrivals[i], arrivals[j]) == Elapsed(arrivals[a], arrivals[j]);
  }

  // ---- The open cycle, exactly ----

  /** The arrival at which the open cycle began: the first, or the last by which no more media
      had come since the cycle before it began than the time that took. */
  function OpenedAt(arrivals: seq<nat>, rate: real): (start: nat)
    requires rate > 0.0 && arrivals != []
    ensures start < |arrivals|
  {
    var last := |arrivals| - 1;
    if last == 0 then 0
    else
      var start := OpenedAt(arrivals[..last], rate);
      if Excess(arrivals, rate, start, last) <= 0.0 then last else start
  }

  /** The first arrival measured in a cycle: the one that ends a cycle begins the next, and is
      not measured in it. */
  function FirstIn(start: nat): nat {
    if start == 0 then 0 else start + 1
  }

  /** `worst` is the furthest the input has run ahead since `start`, if it has at all. */
  ghost predicate WorstSince(arrivals: seq<nat>, rate: real, start: nat, worst: real)
    requires rate > 0.0
  {
    && worst >= 0.0
    && (forall j | FirstIn(start) <= j < |arrivals| :: Excess(arrivals, rate, start, j) <= worst)
    && (worst == 0.0 || exists j | FirstIn(start) <= j < |arrivals| :: Excess(arrivals, rate, start, j) == worst)
  }

  ghost predicate OpenSince(p: Profile, arrivals: seq<nat>, rate: real, start: nat)
    requires rate > 0.0 && start < |arrivals|
  {
    && p.anchor == Some(arrivals[start]) && p.packets == |arrivals| - start
    && WorstSince(arrivals, rate, start, p.peak)
  }

  /** The open cycle and its peak, over any arrivals at one rate: and a cycle is closed exactly
      when the input comes level with real time. */
  lemma {:induction false} OpenCycleIsExact(arrivals: seq<nat>, rate: real)
    requires rate > 0.0 && arrivals != []
    ensures OpenSince(Watch(arrivals, rate), arrivals, rate, OpenedAt(arrivals, rate))
    ensures
      var front := arrivals[..|arrivals| - 1];
      var closed := front != [] && Excess(arrivals, rate, OpenedAt(front, rate), |arrivals| - 1) <= 0.0;
      Watch(arrivals, rate).cycles == Watch(front, rate).cycles + if closed then 1 else 0
  {
    hide OpenSince, Excess, Profile.Observed;
    var front, now := arrivals[..|arrivals| - 1], arrivals[|arrivals| - 1];
    assert arrivals == front + [now];
    if front == [] {
      NothingWatched(rate);
      FirstOpens(now, rate);
    } else {
      OpenCycleIsExact(front, rate);
      OpenGoesOn(Watch(front, rate), front, rate, OpenedAt(front, rate), now);
    }
  }

  lemma NothingWatched(rate: real)
    ensures Watch([], rate) == NewProfile()
  {
  }

  lemma FirstOpens(now: nat, rate: real)
    requires rate > 0.0
    ensures
      var p := NewProfile().Observed(now, rate);
      OpenSince(p, [now], rate, 0) && p.cycles == 0
  {
    assert 1.0 / rate > 0.0;
    assert Excess([now], rate, 0, 0) == 1.0 / rate;
  }

  lemma OpenGoesOn(p: Profile, front: seq<nat>, rate: real, start: nat, now: nat)
    requires rate > 0.0 && p.next < WINDOW && start < |front| && OpenSince(p, front, rate, start)
    ensures
      var all, p' := front + [now], p.Observed(now, rate);
      var level := Excess(all, rate, start, |front|) <= 0.0;
      OpenSince(p', all, rate, if level then |front| else start) && p'.cycles == p.cycles + if level then 1 else 0
  {
    var all, p' := front + [now], p.Observed(now, rate);
    var ahead := Excess(all, rate, start, |front|);
    forall j | start <= j < |front|
      ensures Excess(all, rate, start, j) == Excess(front, rate, start, j)
    {
    }
    if ahead > 0.0 {
      assert p'.peak == MaxReal(p.peak, ahead);
      if p'.peak == p.peak != 0.0 {
        var j :| FirstIn(start) <= j < |front| && Excess(front, rate, start, j) == p.peak;
        assert Excess(all, rate, start, j) == p'.peak;
      }
    }
  }

  // ---- What the lead remembers ----

  /** The peak of every cycle that has closed, in order. */
  function ClosedPeaks(arrivals: seq<nat>, rate: real): seq<real> {
    if arrivals == [] then []
    else
      var front := arrivals[..|arrivals| - 1];
      ClosedPeaks(front, rate)
        + if Watch(arrivals, rate).cycles > Watch(front, rate).cycles then [Watch(front, rate).peak] else []
  }

  /** The ring holds the last eight, and nothing where there have not been so many. */
  ghost predicate Rings(p: Profile, closed: seq<real>) {
    && p.next == |closed| % WINDOW && p.cycles == |closed|
    && (forall k | 0 <= k < |closed| && k + WINDOW >= |closed| :: p.recent[k % WINDOW] == closed[k])
    && (forall k | |closed| <= k < WINDOW :: p.recent[k] == 0.0)
  }

  lemma RingTurns(p: Profile, closed: seq<real>, now: nat)
    requires p.next < WINDOW && Rings(p, closed)
    ensures Rings(p.Closed(now), closed + [p.peak])
  {
    var c, more := p.Closed(now), closed + [p.peak];
    forall k | 0 <= k < |more| && k + WINDOW >= |more|
      ensures c.recent[k % WINDOW] == more[k]
    {
      if k < |closed| {
        assert k % WINDOW != |closed| % WINDOW;
      }
    }
  }

  lemma {:induction false} WatchRings(arrivals: seq<nat>, rate: real)
    ensures Rings(Watch(arrivals, rate), ClosedPeaks(arrivals, rate))
  {
    hide Rings;
    if arrivals == [] {
      NothingRings();
    } else {
      var front, now := arrivals[..|arrivals| - 1], arrivals[|arrivals| - 1];
      WatchRings(front, rate);
      ObservedRings(Watch(front, rate), ClosedPeaks(front, rate), now, rate);
    }
  }

  lemma NothingRings()
    ensures Rings(NewProfile(), [])
  {
  }

  lemma ObservedRings(p: Profile, closed: seq<real>, now: nat, rate: real)
    requires p.next < WINDOW && Rings(p, closed)
    ensures
      var p' := p.Observed(now, rate);
      Rings(p', closed + if p'.cycles > p.cycles then [p.peak] else [])
  {
    assert closed + [] == closed;
    var p' := p.Observed(now, rate);
    if p'.cycles > p.cycles {
      hide Rings;
      var g := p.Grouped(now).(lastAt := Some(now));
      var start := if p.anchor.Some? then p.anchor.value else now;
      var counted := g.(anchor := Some(start), packets := p.packets + 1);
      SameRings(p, counted, closed);
      RingTurns(counted, closed, now);
    }
  }

  lemma SameRings(p: Profile, q: Profile, closed: seq<real>)
    requires Rings(p, closed) && q.next == p.next && q.cycles == p.cycles && q.recent == p.recent
    ensures Rings(q, closed)
  {
  }

  lemma {:induction false} GreatestIsOne(values: seq<real>, start: real)
    ensures Greatest(values, start) == start || exists k | 0 <= k < |values| :: Greatest(values, start) == values[k]
  {
    if values == [] {
    } else {
      GreatestIsOne(values[1..], MaxReal(start, values[0]));
      if k :| 0 <= k < |values[1..]| && Greatest(values, start) == values[1..][k] {
        assert values[k + 1] == Greatest(values, start);
      }
    }
  }

  /** Over any input: the lead is the peak of the open cycle or of one of the last eight that
      have closed, the greatest of them all, or nothing. */
  lemma LeadRemembersEightCycles(arrivals: seq<nat>, rate: real)
    ensures
      var lead, peak, closed := Watch(arrivals, rate).Lead(), Watch(arrivals, rate).peak, ClosedPeaks(arrivals, rate);
      && lead >= peak && (forall k | 0 <= k < |closed| && k + 8 >= |closed| :: lead >= closed[k])
      && (lead == peak || lead == 0.0 || exists k | 0 <= k < |closed| && k + 8 >= |closed| :: lead == closed[k])
  {
    hide Greatest, Watch, ClosedPeaks;
    var p, closed := Watch(arrivals, rate), ClosedPeaks(arrivals, rate);
    WatchRings(arrivals, rate);
    GreatestBounds(p.recent, p.peak, p.Lead());
    GreatestIsOne(p.recent, p.peak);
    forall k | 0 <= k < |closed| && k + 8 >= |closed|
      ensures p.Lead() >= closed[k]
    {
      assert p.recent[k % WINDOW] == closed[k];
    }
    if k :| 0 <= k < WINDOW && p.Lead() == p.recent[k] {
      if |closed| <= k {
      } else {
        var i := |closed| - 1 - (|closed| - 1 - k) % WINDOW;
        assert i % WINDOW == k && i + 8 >= |closed|;
        assert p.recent[i % WINDOW] == closed[i];
      }
    }
  }

  // ---- The bursts ----

  /** Where bursts begin: at the first arrival, and after a silence of over a millisecond. */
  function BurstStarts(arrivals: seq<nat>): (starts: seq<nat>)
    ensures forall k | 0 <= k < |starts| :: starts[k] < |arrivals|
    ensures arrivals != [] ==> starts != []
  {
    if arrivals == [] then []
    else
      var last := |arrivals| - 1;
      BurstStarts(arrivals[..last])
        + if last == 0 || SatSub(arrivals[last], arrivals[last - 1]) > BURST_SEPARATION then [last] else []
  }

  /** The longest of the bursts that have ended. */
  ghost predicate LongestEnded(starts: seq<nat>, longest: nat) {
    && (forall k | 0 <= k < |starts| - 1 :: starts[k + 1] <= starts[k] + longest)
    && (longest == 0 || exists k | 0 <= k < |starts| - 1 :: starts[k + 1] == starts[k] + longest)
  }

  ghost predicate Bursts(p: Profile, arrivals: seq<nat>) {
    var starts := BurstStarts(arrivals);
    if arrivals == [] then p.lastAt.None? && p.burst == 0 && p.burstMax == 0 && p.bursts == 0
    else
      && p.lastAt == Some(arrivals[|arrivals| - 1])
      && p.burst == |arrivals| - starts[|starts| - 1] && p.bursts == |starts| - 1 && LongestEnded(starts, p.burstMax)
  }

  lemma EndOneMore(starts: seq<nat>, longest: nat, next: nat)
    requires starts != [] && LongestEnded(starts, longest) && next > starts[|starts| - 1]
    ensures
      var burst := next - starts[|starts| - 1];
      LongestEnded(starts + [next], if burst > longest then burst else longest)
  {
    var more, last := starts + [next], |starts| - 1;
    var burst: nat := next - starts[last];
    var most := if burst > longest then burst else longest;
    forall k | 0 <= k < |more| - 1
      ensures more[k + 1] <= more[k] + most
    {
      assert more[k] == starts[k] && (k == last || more[k + 1] == starts[k + 1]);
    }
    if most == burst {
      assert more[last + 1] == more[last] + most;
    } else if longest != 0 {
      var k :| 0 <= k < |starts| - 1 && starts[k + 1] == starts[k] + longest;
      assert more[k] == starts[k] && more[k + 1] == starts[k + 1];
    }
  }

  lemma GroupedBursts(p: Profile, arrivals: seq<nat>, now: nat)
    requires Bursts(p, arrivals)
    ensures Bursts(p.Grouped(now).(lastAt := Some(now)), arrivals + [now])
  {
    hide LongestEnded;
    var all, starts := arrivals + [now], BurstStarts(arrivals);
    assert all[..|arrivals|] == arrivals;
    if arrivals == [] {
      NoneEnded(0);
      assert BurstStarts(all) == [] + [0] == [0];
    } else {
      assert all[|arrivals| - 1] == arrivals[|arrivals| - 1];
      if SatSub(now, arrivals[|arrivals| - 1]) > BURST_SEPARATION {
        EndOneMore(starts, p.burstMax, |arrivals|);
      } else {
        assert starts + [] == starts;
      }
    }
  }

  lemma NoneEnded(start: nat)
    ensures LongestEnded([start], 0)
  {
  }

  /** Over any input: the open burst is the arrivals since the last silence of over a
      millisecond, the bursts counted are those before it, and the longest is the longest of
      those. */
  lemma {:induction false} BurstsAreBetweenSilences(arrivals: seq<nat>, rate: real)
    ensures Bursts(Watch(arrivals, rate), arrivals)
  {
    hide LongestEnded;
    if arrivals == [] {
    } else {
      var front, now := arrivals[..|arrivals| - 1], arrivals[|arrivals| - 1];
      BurstsAreBetweenSilences(front, rate);
      GroupedBursts(Watch(front, rate), front, now);
      assert front + [now] == arrivals;
      BurstsStand(Watch(front, rate), now, rate, arrivals);
    }
  }

  lemma BurstsStand(p: Profile, now: nat, rate: real, arrivals: seq<nat>)
    requires p.next < WINDOW && Bursts(p.Grouped(now).(lastAt := Some(now)), arrivals)
    ensures Bursts(p.Observed(now, rate), arrivals)
  {
    hide LongestEnded, BurstStarts;
  }
}
