/** How far placement runs past the source's own PCR grid (src/scheduler.rs,
    `close_run`): the floor-spread, spill-forward placement is an exact Lindley queue,
    and its high-water mark is the worst windowed excess of packets over slots. */
module Displacement {
  import opened Prelude
  import opened Packets
  import opened SlotMaps
  import opened GridSpec

  // ---- The shape of a spread run ----

  ghost predicate Increasing(placed: seq<Placement>) {
    forall j, k | 0 <= j < k < |placed| :: placed[j].slot < placed[k].slot
  }

  /** The placement of `run[index + k]`. */
  ghost predicate PlacedFrom(p: Placement, packet: Packet, base: int, wraps: nat, open: nat) {
    p.packet == packet && p.base == base && p.wraps == wraps && p.slot >= p.ideal >= open
  }

  lemma IdealAfterOpen(open: nat, span: nat, count: Positive, index: nat)
    ensures Ideal(open, span, count, index) >= open
  {
    assert index * span >= 0;
  }

  /** Placements keep the run's order, carry its base, never use a slot before the run's
      own or one already taken, and strictly advance. */
  lemma {:induction false} SpreadShape(run: seq<Packet>, index: nat, open: nat, span: nat, free: nat, base: int,
      wraps: nat)
    requires index <= |run|
    ensures
      var placed := Spread(run, index, open, span, free, base, wraps);
      && (forall k | 0 <= k < |placed| ::
            PlacedFrom(placed[k], run[index + k], base, wraps, open) && placed[k].slot >= free + k)
      && Increasing(placed)
    decreases |run| - index
  {
    hide Ideal;
    if index == |run| {
    } else {
      var slot := Max(Ideal(open, span, |run|, index), free);
      IdealAfterOpen(open, span, |run|, index);
      var placed := Spread(run, index, open, span, free, base, wraps);
      var rest := Spread(run, index + 1, open, span, slot + 1, base, wraps);
      SpreadShape(run, index + 1, open, span, slot + 1, base, wraps);
      Consed(placed, rest, run, index, slot, free, base, wraps, open);
    }
  }

  lemma Consed(placed: seq<Placement>, rest: seq<Placement>, run: seq<Packet>, index: nat, slot: nat, free: nat,
      base: int, wraps: nat, open: nat)
    requires index < |run| && |rest| == |run| - index - 1
    requires placed != [] && placed == [placed[0]] + rest
    requires PlacedFrom(placed[0], run[index], base, wraps, open) && placed[0].slot == slot >= free
    requires forall k | 0 <= k < |rest| ::
      PlacedFrom(rest[k], run[index + 1 + k], base, wraps, open) && rest[k].slot >= slot + 1 + k
    requires Increasing(rest)
    ensures forall k | 0 <= k < |placed| ::
      PlacedFrom(placed[k], run[index + k], base, wraps, open) && placed[k].slot >= free + k
    ensures Increasing(placed)
  {
    forall k | 0 < k < |placed|
      ensures placed[k].slot >= slot + k
      ensures PlacedFrom(placed[k], run[index + k], base, wraps, open)
    {
      assert placed[k] == rest[k - 1];
      assert run[index + 1 + (k - 1)] == run[index + k];
    }
  }

  /** Exactly where the next free slot ends up. It is pushed up by the packets alone,
      and the even spread never pushes it past the run's end. */
  lemma {:induction false} FreeAfterSpread(run: seq<Packet>, index: nat, open: nat, span: nat, free: nat, base: int,
      wraps: nat, start: nat)
    requires index <= |run| && run != []
    requires start >= open
    requires index == 0 ==> free <= start
    requires free <= Max(start + index, open + span - (|run| - index))
    ensures
      var free' := FreeAfter(Spread(run, index, open, span, free, base, wraps), free);
      free + (|run| - index) <= free' <= Max(start + |run|, open + span)
    decreases |run| - index
  {
    if index == |run| {
    } else {
      var ideal := Ideal(open, span, |run|, index);
      IdealBound(open, span, |run|, index, start);
      var slot := Max(ideal, free);
      var placed := Spread(run, index, open, span, free, base, wraps);
      var rest := Spread(run, index + 1, open, span, slot + 1, base, wraps);
      assert placed == [placed[0]] + rest;
      assert FreeAfter(placed, free) == FreeAfter(rest, slot + 1);
      FreeAfterSpread(run, index + 1, open, span, slot + 1, base, wraps, start);
    }
  }

  lemma IdealBound(open: nat, span: nat, count: Positive, index: nat, start: nat)
    requires index < count && start >= open
    ensures Ideal(open, span, count, index) + 1 <= Max(start + index + 1, open + span - (count - index - 1))
  {
    if span < count {
      SparseQuotient(span, count, index);
    } else {
      DenseQuotient(span, count, index);
    }
  }

  lemma SparseQuotient(span: nat, count: Positive, index: nat)
    requires span < count
    ensures index * span / count <= index
  {
    MulMonotone(span, count, index);
    assert (index + 1) * count == index * count + count;
    QuotientAtLeast(index * span, count, index + 1);
  }

  lemma DenseQuotient(span: nat, count: Positive, index: nat)
    requires index < count <= span
    ensures index * span / count <= span - count + index
  {
    var cap := span - count + index;
    SpreadProduct(span, count, index);
    QuotientAtLeast(index * span, count, cap + 1);
  }

  lemma SpreadProduct(span: nat, count: nat, index: nat)
    requires index < count <= span
    ensures index * span < (span - count + index + 1) * count
  {
    var a, b := count - index, span - count;
    assert a * b >= 0;
    assert (b + index + 1) * count == index * (b + count) + a * b + count;
  }

  /** How far the first free slot lies past `slot`. */
  function Displaced(free: nat, slot: nat): nat {
    SatSub(free, slot)
  }

  /** Closing a run of c packets whose closing PCR asks for a slot S on from its own
      (S of either sign) takes a displacement D to max(0, D + c - S). */
  lemma ClosingIsLindley(c: Core, openSlot: nat, nextSlot: nat)
    requires c.run != []
    ensures Displaced(c.CloseRun(openSlot, nextSlot).nextFree, nextSlot)
         == Max(0, Displaced(c.nextFree, openSlot) + |c.run| - (nextSlot - openSlot))
  {
    var span := SatSub(nextSlot, openSlot);
    var start := Max(c.nextFree, openSlot);
    var placed := Spread(c.run, 0, openSlot, span, c.nextFree, c.openBase, c.openWraps);
    FreeAfterSpread(c.run, 0, openSlot, span, c.nextFree, c.openBase, c.openWraps, start);
    SpreadShape(c.run, 0, openSlot, span, c.nextFree, c.openBase, c.openWraps);
    var free := FreeAfter(placed, c.nextFree);
    assert free >= start + |c.run| by {
      if start == openSlot {
        SpreadFromOpen(c.run, openSlot, span, c.nextFree, c.openBase, c.openWraps);
      }
    }
  }

  lemma SpreadFromOpen(run: seq<Packet>, openSlot: nat, span: nat, free: nat, base: int, wraps: nat)
    requires run != []
    ensures FreeAfter(Spread(run, 0, openSlot, span, free, base, wraps), free) >= openSlot + |run|
  {
    SpreadShape(run, 0, openSlot, span, free, base, wraps);
    var placed := Spread(run, 0, openSlot, span, free, base, wraps);
    AdvancesByOne(placed, |placed| - 1);
  }

  lemma {:induction false} AdvancesByOne(placed: seq<Placement>, k: nat)
    requires k < |placed|
    requires Increasing(placed)
    ensures placed[k].slot >= placed[0].slot + k
  {
    if k == 0 {
    } else {
      AdvancesByOne(placed, k - 1);
    }
  }

  // ---- The queue over a whole run ----

  function Total(loads: seq<int>): int {
    if loads == [] then 0 else Total(loads[..|loads| - 1]) + loads[|loads| - 1]
  }

  /** The queue the loads leave behind, each step floored at zero. */
  function Queue(loads: seq<int>): nat {
    if loads == [] then 0 else Max(0, Queue(loads[..|loads| - 1]) + loads[|loads| - 1])
  }

  /** The longest the queue has been. */
  function Peak(loads: seq<int>): nat {
    if loads == [] then 0 else Max(Peak(loads[..|loads| - 1]), Queue(loads))
  }

  /** What ties a grid's displacement to the loads it has been given. */
  ghost predicate Flows(c: Core) {
    if c.clock.open.None? then
      c.loads == [] && c.highWater == 0 && c.nextFree == 0 && c.run == []
    else
      && c.run != []
      && Displaced(c.nextFree, c.clock.open.value.slot) == Queue(c.loads)
      && c.highWater == Peak(c.loads)
  }

  lemma CutGoesForward(c: Core, p: Packet, at: Arrival)
    requires p.pcr.Some? && c.clock.open.Some?
    requires c.Aims(p, at).afterSilence || c.Misses(c.Aims(p, at))
    ensures c.Aims(p, at).slot >= c.clock.open.value.slot
  {
  }

  lemma EndRunFlows(c: Core, aim: Aim)
    requires Flows(c) && c.clock.open.Some?
    requires aim.afterSilence || c.Misses(aim) ==> aim.slot >= c.clock.open.value.slot
    ensures
      var ended := c.EndRun(aim);
      && Displaced(ended.nextFree, aim.slot) == Queue(ended.loads)
      && ended.highWater == Peak(ended.loads)
  {
    var ended := c.EndRun(aim);
    if aim.afterSilence || c.Misses(aim) {
      assert ended.loads[..|c.loads|] == c.loads;
    } else {
      hide Spread;
      ClosingIsLindley(c, c.clock.open.value.slot, aim.slot);
      assert ended.loads[..|c.loads|] == c.loads;
    }
  }

  lemma PushFlows(c: Core, p: Packet, at: Arrival)
    requires Flows(c)
    ensures Flows(c.Push(p, at))
  {
    hide Core.CloseRun, Core.CutRun, Core.Misses, Judge, Applied;
    if p.pcr.Some? && c.clock.open.Some? {
      var noted := c.Noted(p);
      var aim := noted.Aims(p, at);
      if aim.afterSilence || noted.Misses(aim) {
        CutGoesForward(noted, p, at);
      }
      EndRunFlows(noted, aim);
    }
  }

  lemma {:induction false} RunFlows(g: Grid, events: seq<Event>)
    requires Flows(g.core)
    ensures Flows(Run(g, events).core)
    decreases |events|
  {
    if events == [] {
    } else {
      var e := events[0];
      match e {
        case Push(p, now, horizon) => PushFlows(g.core, p, g.ArrivalAt(now, horizon));
        case Take(_) =>
        case GrowTo(_) =>
      }
      RunFlows(Step(g, e), events[1..]);
    }
  }

  lemma {:induction false} WindowsBoundQueue(loads: seq<int>, i: nat)
    requires i <= |loads|
    ensures Total(loads) - Total(loads[..i]) <= Queue(loads)
  {
    if i < |loads| {
      WindowsBoundQueue(loads[..|loads| - 1], i);
      assert loads[..|loads| - 1][..i] == loads[..i];
    } else {
      assert loads[..i] == loads;
    }
  }

  /** Some window ending now accounts for the whole queue. */
  lemma {:induction false} QueueIsAWindow(loads: seq<int>) returns (i: nat)
    ensures i <= |loads| && Queue(loads) == Total(loads) - Total(loads[..i])
  {
    if Queue(loads) == 0 {
      i := |loads|;
      assert loads[..i] == loads;
    } else {
      i := QueueIsAWindow(loads[..|loads| - 1]);
      assert loads[..|loads| - 1][..i] == loads[..i];
    }
  }

  /** The excess of packets over slots in the closed runs numbered `i..j`. */
  function Window(loads: seq<int>, i: nat, j: nat): int
    requires i <= j <= |loads|
  {
    Total(loads[..j]) - Total(loads[..i])
  }

  lemma {:induction false} PeakIsWorstWindow(loads: seq<int>)
    ensures forall i, j | 0 <= i <= j <= |loads| :: Window(loads, i, j) <= Peak(loads)
    ensures exists i, j :: 0 <= i <= j <= |loads| && Window(loads, i, j) == Peak(loads)
  {
    if loads == [] {
      assert Window(loads, 0, 0) == Peak(loads);
    } else {
      var init := loads[..|loads| - 1];
      PeakIsWorstWindow(init);
      forall i, j | 0 <= i <= j <= |loads|
        ensures Window(loads, i, j) <= Peak(loads)
      {
        if j < |loads| {
          assert init[..i] == loads[..i] && init[..j] == loads[..j];
          assert Window(init, i, j) <= Peak(init);
        } else {
          assert loads[..j] == loads;
          WindowsBoundQueue(loads, i);
        }
      }
      if Peak(loads) == Queue(loads) {
        var i := QueueIsAWindow(loads);
        assert loads[..|loads|] == loads;
        assert Window(loads, i, |loads|) == Peak(loads);
      } else {
        var i, j :| 0 <= i <= j <= |init| && Window(init, i, j) == Peak(init);
        assert init[..i] == loads[..i] && init[..j] == loads[..j];
        assert Window(loads, i, j) == Peak(loads);
      }
    }
  }

  /** Over any run whatever (any packets, instants, horizons, splices, losses, takes and
      evictions) the high-water mark the grid reports is the worst windowed excess of
      packets over slots that it was ever given, so it stays within a bound for ever
      exactly when no window exceeds that bound. */
  lemma HighWaterIsWorstWindow(m: SlotMap, capacity: nat, events: seq<Event>, bound: nat)
    ensures
      var c := Run(NewGrid(m, capacity), events).core;
      && (forall i, j | 0 <= i <= j <= |c.loads| :: Window(c.loads, i, j) <= c.highWater)
      && (exists i, j :: 0 <= i <= j <= |c.loads| && Window(c.loads, i, j) == c.highWater)
      && (c.highWater <= bound <==>
            forall i, j | 0 <= i <= j <= |c.loads| :: Window(c.loads, i, j) <= bound)
  {
    var g := NewGrid(m, capacity);
    RunFlows(g, events);
    PeakIsWorstWindow(Run(g, events).core.loads);
  }
}
