/** Where the packets of a run go (src/scheduler.rs, `push`, `close_run`): evenly over the
    slots between the PCR that opened the run and the one that closed it, or as near after
    that as there is room. */
module Spreading {
  import opened Prelude
  import opened Packets
  import opened SlotMaps
  import opened GridSpec
  import Coalescence
  import Paths

  /** A run that was placed: the placements that are its, from `first` on, its packets, the
      slot of its own PCR and that of the PCR which closed it. */
  datatype Closed = Closed(first: nat, run: seq<Packet>, from: nat, to: nat)

  /** The run a push placed, if it placed one. */
  function ClosedBy(c: Core, c': Core): seq<Closed> {
    if |c'.log| > |c.log| && c.clock.open.Some? && c'.clock.open.Some?
    then [Closed(|c.log|, c.run, c.clock.open.value.slot, c'.clock.open.value.slot)]
    else []
  }

  /** Every run placed over a stretch of what a leg hears. */
  function RunsClosed(c: Core, heard: seq<Paths.Heard>): seq<Closed>
    decreases |heard|
  {
    if heard == [] then []
    else
      var c' := c.Push(heard[0].packet, heard[0].at);
      ClosedBy(c, c') + RunsClosed(c', heard[1..])
  }

  /** Of `count` packets to spread over the slots from `from` to `to`, packet `i` asks for
      `slot`: no slot before its even share of the way, and less than a slot past that. If
      the closing PCR lies behind the opening one there is no way to share. */
  predicate AsksEvenly(i: nat, count: nat, from: nat, to: nat, slot: nat) {
    if from <= to then 0 <= i * (to - from) - (slot - from) * count < count else slot == from
  }

  /** Placement `k` is in the slot its packet asked for, or the first after that not taken
      by the placement before it. */
  predicate TakesFirstFree(log: seq<Placement>, k: nat)
    requires k < |log|
  {
    log[k].slot == Max(log[k].ideal, if k == 0 then 0 else log[k - 1].slot + 1)
  }

  /** A run begins with a PCR and holds no other. */
  predicate IsRun(run: seq<Packet>) {
    run != [] && run[0].pcr.Some? && forall i | 0 < i < |run| :: run[i].pcr.None?
  }

  /** Where packet `i` of a run is. */
  predicate InItsShare(log: seq<Placement>, r: Closed, i: nat)
    requires i < |r.run| && r.first + |r.run| <= |log|
  {
    && log[r.first + i].packet == r.run[i]
    && AsksEvenly(i, |r.run|, r.from, r.to, log[r.first + i].ideal)
    && TakesFirstFree(log, r.first + i)
  }

  ghost predicate PlacedEvenly(log: seq<Placement>, r: Closed) {
    && IsRun(r.run) && r.first + |r.run| <= |log|
    && forall i | 0 <= i < |r.run| :: InItsShare(log, r, i)
  }

  /** The runs are all there is in the log, one after another. */
  predicate Tile(runs: seq<Closed>, from: nat, to: nat)
    decreases |runs|
  {
    if runs == [] then from == to else runs[0].first == from && Tile(runs[1..], from + |runs[0].run|, to)
  }

  // ---- One run ----

  lemma EvenShare(index: nat, count: Positive, open: nat, span: nat)
    ensures 0 <= index * span - (Ideal(open, span, count, index) - open) * count < count
  {
    QuotientBounds(index * span, count);
  }

  lemma NoShare(index: nat, count: Positive, open: nat)
    ensures Ideal(open, 0, count, index) == open
  {
    QuotientAtLeast(0, count, 1);
    assert index * 0 == 0;
  }

  lemma IdealAsksEvenly(index: nat, count: Positive, open: nat, next: nat)
    ensures AsksEvenly(index, count, open, next, Ideal(open, SatSub(next, open), count, index))
  {
    EvenShare(index, count, open, SatSub(next, open));
    if next < open {
      NoShare(index, count, open);
    }
    hide Ideal;
  }

  /** The placement of packet `i` of `run`, whatever free slot it found. */
  predicate Asks(p: Placement, run: seq<Packet>, i: nat, open: nat, next: nat)
    requires i < |run|
  {
    p.packet == run[i] && AsksEvenly(i, |run|, open, next, p.ideal)
  }

  lemma {:induction false} SpreadAsks(run: seq<Packet>, index: nat, open: nat, next: nat, free: nat, base: int,
      wraps: nat, i: nat)
    requires index <= i < |run|
    ensures Asks(Spread(run, index, open, SatSub(next, open), free, base, wraps)[i - index], run, i, open, next)
    decreases |run| - index
  {
    hide Ideal, AsksEvenly;
    var span := SatSub(next, open);
    var slot := Max(Ideal(open, span, |run|, index), free);
    IdealAsksEvenly(index, |run|, open, next);
    if i > index {
      SpreadAsks(run, index + 1, open, next, slot + 1, base, wraps, i);
    }
  }

  // ---- Every push ----

  /** The first free slot is the one after the last placement. */
  predicate FreeIsNext(c: Core) {
    c.nextFree == FreeAfter(c.log, 0)
  }

  ghost predicate Orderly(c: Core) {
    FreeIsNext(c) && (if c.clock.open.Some? then IsRun(c.run) else c.run == [])
  }

  lemma ClosePlacesEvenly(c: Core, open: nat, next: nat)
    requires IsRun(c.run) && FreeIsNext(c)
    ensures
      var c' := c.CloseRun(open, next);
      && |c'.log| == |c.log| + |c.run| && c.log <= c'.log && FreeIsNext(c')
      && PlacedEvenly(c'.log, Closed(|c.log|, c.run, open, next))
  {
    hide Spread, Asks, TakesFirstFree, IsRun, InItsShare, FreeAfter;
    assert c.run != [] by {
      RunHolds(c.run);
    }
    var placed := Spread(c.run, 0, open, SatSub(next, open), c.nextFree, c.openBase, c.openWraps);
    Coalescence.SpreadChained(c.run, 0, open, SatSub(next, open), c.nextFree, c.openBase, c.openWraps);
    ChainTakesFirstFree(c.log, placed, c.nextFree);
    forall i | 0 <= i < |c.run|
      ensures Asks(placed[i], c.run, i, open, next)
    {
      SpreadAsks(c.run, 0, open, next, c.nextFree, c.openBase, c.openWraps, i);
    }
    AllInTheirShare(c.log, placed, Closed(|c.log|, c.run, open, next));
    FreeAfterJoin(c.log, placed, c.nextFree);
  }

  lemma FreeAfterJoin(log: seq<Placement>, placed: seq<Placement>, free: nat)
    requires placed != []
    ensures FreeAfter(log + placed, 0) == FreeAfter(placed, free)
  {
  }

  lemma RunHolds(run: seq<Packet>)
    requires IsRun(run)
    ensures run != []
  {
  }

  lemma AllInTheirShare(log: seq<Placement>, placed: seq<Placement>, r: Closed)
    requires r.first == |log| && |placed| == |r.run|
    requires forall i | 0 <= i < |placed| :: Asks(placed[i], r.run, i, r.from, r.to)
    requires forall k | |log| <= k < |log + placed| :: TakesFirstFree(log + placed, k)
    ensures forall i | 0 <= i < |r.run| :: InItsShare(log + placed, r, i)
  {
    hide AsksEvenly, TakesFirstFree;
    forall i | 0 <= i < |r.run|
      ensures InItsShare(log + placed, r, i)
    {
      assert (log + placed)[r.first + i] == placed[i];
    }
  }

  lemma ChainTakesFirstFree(log: seq<Placement>, placed: seq<Placement>, free: nat)
    requires Coalescence.Chained(placed, free) && free == FreeAfter(log, 0)
    ensures forall k | |log| <= k < |log + placed| :: TakesFirstFree(log + placed, k)
  {
    forall k | |log| <= k < |log + placed|
      ensures TakesFirstFree(log + placed, k)
    {
      assert (log + placed)[k] == placed[k - |log|];
      if k > |log| {
        assert (log + placed)[k - 1] == placed[k - |log| - 1];
      }
    }
  }

  lemma EndPlacesEvenly(c: Core, aim: Aim)
    requires Orderly(c)
    ensures
      var c' := c.EndRun(aim);
      && FreeIsNext(c') && c.log <= c'.log
      && (c'.log == c.log
          || (&& c.clock.open.Some? && |c'.log| == |c.log| + |c.run|
              && PlacedEvenly(c'.log, Closed(|c.log|, c.run, c.clock.open.value.slot, aim.slot))))
  {
    hide Core.CloseRun, PlacedEvenly, FreeAfter;
    if c.clock.open.Some? {
      ClosePlacesEvenly(c, c.clock.open.value.slot, aim.slot);
    }
  }

  lemma PushPlacesEvenly(c: Core, p: Packet, at: Arrival)
    requires Orderly(c)
    ensures
      var c' := c.Push(p, at);
      && Orderly(c') && c.log <= c'.log
      && (if |c'.log| == |c.log| then ClosedBy(c, c') == []
          else
            && |ClosedBy(c, c')| == 1 && ClosedBy(c, c')[0].first == |c.log|
            && |c'.log| == |c.log| + |ClosedBy(c, c')[0].run| && PlacedEvenly(c'.log, ClosedBy(c, c')[0]))
  {
    hide Core.EndRun, PlacedEvenly, SlotFor, FreeAfter;
    if p.pcr.Some? {
      EndPlacesEvenly(c.Noted(p), c.Noted(p).Aims(p, at));
    }
  }

  lemma StillEven(log: seq<Placement>, log': seq<Placement>, r: Closed)
    requires log <= log' && PlacedEvenly(log, r)
    ensures PlacedEvenly(log', r)
  {
    hide AsksEvenly, IsRun;
    forall i | 0 <= i < |r.run|
      ensures InItsShare(log', r, i)
    {
      assert InItsShare(log, r, i);
      assert log'[r.first + i] == log[r.first + i];
      assert r.first + i > 0 ==> log'[r.first + i - 1] == log[r.first + i - 1];
    }
  }

  lemma {:induction false} HearingPlacesEvenly(c: Core, heard: seq<Paths.Heard>)
    requires Orderly(c)
    ensures
      var c', runs := Paths.Hear(c, heard), RunsClosed(c, heard);
      && Orderly(c') && c.log <= c'.log && Tile(runs, |c.log|, |c'.log|)
      && forall k | 0 <= k < |runs| :: PlacedEvenly(c'.log, runs[k])
    decreases |heard|
  {
    hide Core.Push, Orderly, PlacedEvenly, ClosedBy;
    if heard == [] {
    } else {
      var c' := c.Push(heard[0].packet, heard[0].at);
      PushPlacesEvenly(c, heard[0].packet, heard[0].at);
      HearingPlacesEvenly(c', heard[1..]);
      var end, first, rest := Paths.Hear(c', heard[1..]), ClosedBy(c, c'), RunsClosed(c', heard[1..]);
      if first == [] {
        assert first + rest == rest;
      } else {
        assert (first + rest)[1..] == rest;
        StillEven(c'.log, end.log, first[0]);
      }
    }
  }

  /** Over anything a leg can hear, at any instants, with any losses, splices and wraps: its
      placements are those of the runs it closed, one after another. A run is the packets
      from a PCR up to the next. Of `count` of them between PCRs of slots `from` and `to`,
      packet `i` asks for the slot that is `i` shares in `count` of the way, rounded down,
      and gets it or the first one free after it. */
  lemma RunsAreSpreadEvenly(m: SlotMap, heard: seq<Paths.Heard>)
    ensures
      var log, runs := Paths.Hear(NewCore(m), heard).log, RunsClosed(NewCore(m), heard);
      Tile(runs, 0, |log|) && forall k | 0 <= k < |runs| :: PlacedEvenly(log, runs[k])
  {
    hide PlacedEvenly, Tile;
    HearingPlacesEvenly(NewCore(m), heard);
  }

  /** So a run that has its first slot and no more packets than slots has every packet in the
      slot it asks for, and leaves no gap longer than an even share rounded up, to the
      closing PCR's slot included. */
  lemma UndisplacedRunLeavesNoGap(log: seq<Placement>, r: Closed, i: nat)
    requires PlacedEvenly(log, r) && r.from <= r.to && |r.run| <= r.to - r.from
    requires log[r.first].slot == r.from && i < |r.run|
    ensures log[r.first + i].slot == log[r.first + i].ideal
    ensures
      var next := if i + 1 < |r.run| then log[r.first + i + 1].slot else r.to;
      0 < next - log[r.first + i].slot && (next - log[r.first + i].slot - 1) * |r.run| < r.to - r.from
  {
    hide IsRun, InItsShare;
    UndisplacedRunIsInPlace(log, r, i);
    ShareOf(log, r, i);
    var n, span, e := |r.run|, r.to - r.from, log[r.first + i].ideal - r.from;
    if i + 1 < n {
      UndisplacedRunIsInPlace(log, r, i + 1);
      ShareOf(log, r, i + 1);
      ShareStep(i, n, span, e, log[r.first + i + 1].ideal - r.from);
    } else {
      ShareEnd(i, n, span, e);
    }
  }

  lemma ShareOf(log: seq<Placement>, r: Closed, i: nat)
    requires PlacedEvenly(log, r) && r.from <= r.to && i < |r.run|
    ensures 0 <= i * (r.to - r.from) - (log[r.first + i].ideal - r.from) * |r.run| < |r.run|
    ensures TakesFirstFree(log, r.first + i)
  {
    hide IsRun;
    assert InItsShare(log, r, i);
  }

  lemma ProductIsPositive(a: int, n: nat)
    ensures a >= 0 ==> a * n >= 0
    ensures a < 0 && n > 0 ==> a * n < 0
  {
  }

  lemma ShareStep(i: nat, n: nat, span: nat, e: int, e': int)
    requires n <= span && 0 <= i * span - e * n < n && 0 <= (i + 1) * span - e' * n < n
    ensures e < e' && (e' - e - 1) * n < span
  {
    assert (i + 1) * span == i * span + span;
    assert (e - e') * n == e * n - e' * n;
    assert (e' - e - 1) * n == e' * n - e * n - n;
    ProductIsPositive(e - e', n);
  }

  lemma ShareEnd(i: nat, n: nat, span: nat, e: int)
    requires i + 1 == n <= span && 0 <= i * span - e * n < n
    ensures e < span && (span - e - 1) * n < span
  {
    assert n * span == i * span + span;
    assert (e - span) * n == e * n - span * n;
    assert (span - e - 1) * n == span * n - e * n - n;
    ProductIsPositive(e - span, n);
  }

  lemma {:induction false} UndisplacedRunIsInPlace(log: seq<Placement>, r: Closed, i: nat)
    requires PlacedEvenly(log, r) && r.from <= r.to && |r.run| <= r.to - r.from
    requires log[r.first].slot == r.from && i < |r.run|
    ensures log[r.first + i].slot == log[r.first + i].ideal
  {
    hide IsRun, InItsShare;
    var n, span := |r.run|, r.to - r.from;
    ShareOf(log, r, i);
    if i == 0 {
      FirstShare(n, span, log[r.first].ideal - r.from);
    } else {
      UndisplacedRunIsInPlace(log, r, i - 1);
      ShareOf(log, r, i - 1);
      ShareStep(i - 1, n, span, log[r.first + i - 1].ideal - r.from, log[r.first + i].ideal - r.from);
    }
  }

  lemma FirstShare(n: Positive, span: nat, e: int)
    requires 0 <= 0 * span - e * n < n
    ensures e == 0
  {
    ProductIsPositive(e, n);
    assert (-e - 1) * n == -(e * n) - n;
    ProductIsPositive(-e - 1, n);
    ProductIsPositive(-e, n);
  }

  // ---- Across a re-base ----

  lemma RebasePlacesNext(c: Core, p: Packet, at: Arrival)
    requires p.pcr.Some? && c.clock.open.Some? && c.run != []
    requires c.Push(p, at).clock.rebases > c.clock.rebases
    ensures
      var c' := c.Push(p, at);
      c'.clock.open.Some? && c'.clock.open.value.slot == c.clock.open.value.slot + |c.run|
  {
    hide SlotMap.SlotOfPcr, Core.EndRun, ForwardDelta;
  }

  /** A run that fills every slot from its own on, one after another. */
  ghost predicate FillsEverySlot(log: seq<Placement>, r: Closed) {
    r.first + |r.run| <= |log| && forall k | r.first <= k < r.first + |r.run| :: log[k].slot == r.from + k - r.first
  }

  /** Over anything a leg can hear: where the source clock is taken to have moved, the next
      PCR's slot is the one after as many as the open run has packets, so that a run that
      has its first slot fills every slot up to it. */
  lemma RebaseIsSeamless(m: SlotMap, heard: seq<Paths.Heard>, p: Packet, at: Arrival)
    requires p.pcr.Some? && Paths.Hear(NewCore(m), heard).clock.open.Some?
    requires
      var c := Paths.Hear(NewCore(m), heard);
      c.Push(p, at).clock.rebases > c.clock.rebases
    ensures
      var c := Paths.Hear(NewCore(m), heard);
      var c' := c.Push(p, at);
      && c'.clock.open.Some? && c'.clock.open.value.slot == c.clock.open.value.slot + |c.run|
      && forall r <- ClosedBy(c, c') ::
           && r.to == r.from + |r.run| && r.first < |c'.log|
           && (c'.log[r.first].slot == r.from ==> FillsEverySlot(c'.log, r))
  {
    hide Core.Push, PlacedEvenly, Paths.Hear, FillsEverySlot, IsRun, FreeIsNext;
    NewIsOrderly(m);
    HearingPlacesEvenly(NewCore(m), heard);
    var c := Paths.Hear(NewCore(m), heard);
    var c' := c.Push(p, at);
    RunHolds(c.run);
    RebasePlacesNext(c, p, at);
    PushPlacesEvenly(c, p, at);
    if ClosedBy(c, c') != [] {
      FullRun(c'.log, ClosedBy(c, c')[0]);
    }
  }

  lemma NewIsOrderly(m: SlotMap)
    ensures Orderly(NewCore(m))
  {
  }

  lemma FullRun(log: seq<Placement>, r: Closed)
    requires PlacedEvenly(log, r) && r.to == r.from + |r.run|
    ensures r.first < |log|
    ensures log[r.first].slot == r.from ==> FillsEverySlot(log, r)
  {
    hide InItsShare;
    if log[r.first].slot == r.from {
      forall k | r.first <= k < r.first + |r.run|
        ensures log[k].slot == r.from + k - r.first
      {
        var i := k - r.first;
        assert log[r.first + i] == log[k];
        UndisplacedRunIsInPlace(log, r, i);
        ShareOf(log, r, i);
        ExactShare(i, |r.run|, log[k].ideal - r.from);
      }
    }
  }

  lemma ExactShare(i: nat, n: Positive, e: int)
    requires 0 <= i * n - e * n < n
    ensures e == i
  {
    assert (i - e) * n == i * n - e * n;
    assert (i - e - 1) * n == i * n - e * n - n;
    ProductIsPositive(i - e, n);
    ProductIsPositive(i - e - 1, n);
  }

  /** A clock value that repeats the one before is a clock that has moved. */
  lemma RepeatedClockRebases(c: Core, p: Packet, at: Arrival)
    requires p.pcr.Some? && c.clock.open.Some? && p.pcr.value == c.clock.open.value.pcr
    ensures c.Push(p, at).clock.rebases == c.clock.rebases + 1
  {
    hide SlotMap.SlotOfPcr, Core.EndRun;
  }

  // ---- What is counted ----

  /** How many runs had more packets than slots to spread over. */
  function Crowded(runs: seq<Closed>): nat
    decreases |runs|
  {
    if runs == [] then 0
    else (if |runs[0].run| > SatSub(runs[0].to, runs[0].from) then 1 else 0) + Crowded(runs[1..])
  }

  lemma {:induction false} CrowdedJoin(a: seq<Closed>, b: seq<Closed>)
    ensures Crowded(a + b) == Crowded(a) + Crowded(b)
    decreases |a|
  {
    if a == [] {
      assert a + b == b;
    } else {
      assert (a + b)[1..] == a[1..] + b;
      CrowdedJoin(a[1..], b);
    }
  }

  lemma EndCounts(c: Core, aim: Aim)
    ensures
      var c' := c.EndRun(aim);
      if |c'.log| > |c.log|
      then
        && c.clock.open.Some?
        && c'.overruns == c.overruns + if |c.run| > SatSub(aim.slot, c.clock.open.value.slot) then 1 else 0
      else c'.overruns == c.overruns
  {
    hide Core.Misses, Remember, Spread;
  }

  lemma PushCounts(c: Core, p: Packet, at: Arrival)
    ensures c.Push(p, at).overruns == c.overruns + Crowded(ClosedBy(c, c.Push(p, at)))
  {
    hide SlotFor, Core.EndRun;
    if p.pcr.Some? {
      EndCounts(c.Noted(p), c.Noted(p).Aims(p, at));
    }
    assert Crowded([]) == 0;
  }

  /** Over anything a leg can hear, an overrun is counted for each of its runs that had more
      packets than slots, and for nothing else. */
  lemma {:induction false} OverrunsAreCrowdedRuns(c: Core, heard: seq<Paths.Heard>)
    ensures Paths.Hear(c, heard).overruns == c.overruns + Crowded(RunsClosed(c, heard))
    decreases |heard|
  {
    hide Core.Push, ClosedBy, Crowded;
    if heard == [] {
      assert Crowded([]) == 0 by {
        NoneCrowded();
      }
    } else {
      var c' := c.Push(heard[0].packet, heard[0].at);
      PushCounts(c, heard[0].packet, heard[0].at);
      OverrunsAreCrowdedRuns(c', heard[1..]);
      CrowdedJoin(ClosedBy(c, c'), RunsClosed(c', heard[1..]));
    }
  }

  lemma NoneCrowded()
    ensures Crowded([]) == 0
  {
  }

  // ---- On the grid ----

  /** What a grid hears: each packet pushed, and when. */
  function HeardBy(g: Grid, events: seq<Event>): seq<Paths.Heard>
    decreases |events|
  {
    if events == [] then []
    else
      (match events[0]
       case Push(p, now, horizon) => [Paths.Heard(p, 0, g.ArrivalAt(now, horizon))]
       case _ => [])
      + HeardBy(Step(g, events[0]), events[1..])
  }

  /** Whatever is done to a grid, its placements are those of hearing the packets pushed. */
  lemma {:induction false} GridHears(g: Grid, events: seq<Event>)
    ensures Run(g, events).core == Paths.Hear(g.core, HeardBy(g, events))
    decreases |events|
  {
    hide Core.Push, Queue.Add, Queue.Take;
    if events == [] {
    } else {
      var rest := HeardBy(Step(g, events[0]), events[1..]);
      GridHears(Step(g, events[0]), events[1..]);
      match events[0] {
        case Push(p, now, horizon) =>
          assert ([Paths.Heard(p, 0, g.ArrivalAt(now, horizon))] + rest)[1..] == rest;
        case _ => assert [] + rest == rest;
      }
    }
  }

  /** So every run of the grid spreads its runs evenly. */
  lemma GridSpreadsEvenly(m: SlotMap, capacity: nat, events: seq<Event>)
    ensures
      var g := NewGrid(m, capacity);
      var log, runs := Run(g, events).core.log, RunsClosed(NewCore(m), HeardBy(g, events));
      Tile(runs, 0, |log|) && forall k | 0 <= k < |runs| :: PlacedEvenly(log, runs[k])
  {
    hide PlacedEvenly, Tile, Run;
    GridHears(NewGrid(m, capacity), events);
    RunsAreSpreadEvenly(m, HeardBy(NewGrid(m, capacity), events));
  }
}
