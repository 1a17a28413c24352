/** The grid as the program keeps it (src/scheduler.rs, `StreamGrid`): flat fields, a
    continuity array and two deques, updated in place. Every method is proved to take
    `State()` where the functions of `GridSpec` say. */
module StreamGrids {
  import opened Prelude
  import opened Packets
  import opened SlotMaps
  import opened Continuity
  import opened GridSpec

  class StreamGrid {
    const rateMap: SlotMap
    var knownFrom: Option<nat>
    var recentSpans: seq<nat>
    var cut: nat
    const continuity: array<CcState>
    var runBroken: bool
    var run: seq<Packet>
    var open: Option<Opened>
    var openAt: nat
    var placed: seq<Slotted>
    var epoch: int
    var rebased: int
    var openBase: int
    var placedBase: int
    var bases: seq<BaseMark>
    var takenBase: int
    var nextFree: nat
    var overruns: nat
    var rebases: nat
    var displacementHighWater: nat
    var capacity: Positive

    ghost var log: seq<Placement>
    ghost var loads: seq<int>
    ghost var wraps: nat
    ghost var openWraps: nat
    ghost var gone: nat
    ghost var passed: nat
    ghost var evicted: nat

    ghost predicate Valid()
      reads this
    {
      continuity.Length == 8192 && |placed| <= capacity
    }

    /** The continuity array, as a value. */
    ghost function Counters(): Table
      reads continuity
      requires continuity.Length == 8192
    {
      continuity[..]
    }

    ghost function ClockState(): Clock
      reads this
    {
      Clock(open, epoch, rebased, rebases, wraps)
    }

    ghost function CoreState(): Core
      reads this, continuity
      requires continuity.Length == 8192
    {
      Core(rateMap, knownFrom, recentSpans, cut, Counters(), runBroken, run, ClockState(),
           openBase, openWraps, placedBase, nextFree, overruns, displacementHighWater, log, loads)
    }

    ghost function QueueState(): Queue
      reads this
    {
      Queue(placed, bases, takenBase, gone, passed)
    }

    ghost function State(): Grid
      reads this, continuity
      requires continuity.Length == 8192
    {
      Grid(CoreState(), openAt, QueueState(), capacity, evicted)
    }

    constructor (rateMap: SlotMap, capacity: nat)
      ensures Valid() && fresh(continuity)
      ensures State() == NewGrid(rateMap, capacity)
    {
      this.rateMap := rateMap;
      knownFrom, recentSpans, cut := None, [], 0;
      continuity := new CcState[8192](_ => Unseen);
      runBroken, run, open, openAt := false, [], None, 0;
      placed, epoch, rebased, openBase, placedBase := [], 0, 0, 0, 0;
      bases, takenBase, nextFree := [], 0, 0;
      overruns, rebases, displacementHighWater := 0, 0, 0;
      this.capacity := Max(capacity, 1);
      log, loads, wraps, openWraps := [], [], 0, 0;
      gone, passed, evicted := 0, 0, 0;
      new;
      assert continuity[..] == seq(8192, _ => Unseen);
    }

    /** Raise the placement bound, never lowering it. */
    method GrowTo(bound: nat)
      requires Valid()
      modifies this`capacity
      ensures Valid() && State() == old(State()).GrowTo(bound)
    {
      capacity := Max(capacity, Max(bound, 1));
    }

    method SlotFor(pcr: nat, declared: bool, since: nat, horizon: Option<nat>) returns (slot: nat, afterSilence: bool)
      modifies this`epoch, this`rebased, this`rebases, this`wraps
      ensures
        var aim := GridSpec.SlotFor(rateMap, old(ClockState()), |run|, pcr, declared, Arrival(since, horizon));
        && epoch == aim.clock.epoch && rebased == aim.clock.rebased
        && rebases == aim.clock.rebases && wraps == aim.clock.wraps
        && slot == aim.slot && afterSilence == aim.afterSilence
    {
      var raw := rateMap.SlotOfPcr(pcr);
      afterSilence := false;
      if open.Some? {
        var delta := ForwardDelta(open.value.pcr, pcr);
        var advanced := TicksToNanos(delta);
        var jumped := delta == 0 || advanced > DISCONTINUITY_GAP;
        var allowance := if declared then since + since / 4 else since * 2;
        var explainedBySilence := delta > 0 && advanced <= allowance;
        var onGrid := raw + epoch;
        var withinHorizon := delta > 0 && onGrid > open.value.slot && horizon.Some? && onGrid <= horizon.value;
        if (jumped || declared) && !explainedBySilence && (declared || !withinHorizon) {
          var resumeAt := open.value.slot + Max(|run|, 1);
          var epoch' := resumeAt - raw;
          rebased := rebased + epoch' - epoch;
          epoch := epoch';
          rebases := rebases + 1;
        } else if onGrid < open.value.slot {
          epoch := epoch + rateMap.SlotsPerWrap();
          wraps := wraps + 1;
        } else {
          afterSilence := jumped;
        }
      }
      slot := Max(raw + epoch, 0);
    }

    /** Record a packet's continuity counter, and whether it breaks its PID's. */
    method NoteContinuity(p: Packet)
      requires Valid()
      modifies this`runBroken, continuity
      ensures Valid() && CoreState() == old(CoreState()).Noted(p)
    {
      var last := continuity[p.pid];
      var next := last;
      if last.Unseen? || p.declared {
        next := Seen(p.cc, false);
      } else if !p.hasPayload {
        if p.cc != last.cc {
          runBroken := true;
        }
      } else if p.cc == (last.cc + 1) % 16 {
        next := Seen(p.cc, false);
      } else if p.cc == last.cc && !last.repeated {
        next := Seen(p.cc, true);
      } else {
        runBroken := true;
        next := Seen(p.cc, false);
      }
      continuity[p.pid] := next;
      assert continuity[..] == old(continuity[..])[p.pid := next];
    }

    /** The emitted clock value in `slot` on a time base `offset` slots from the grid. */
    function PcrOn(slot: nat, offset: int): nat {
      rateMap.PcrOfSlot(Max(slot - offset, 0))
    }

    predicate Determined(from: nat, to: nat)
      reads this
    {
      knownFrom.Some? && open.Some? && knownFrom.value <= from && to <= open.value.slot
    }

    /** The longest remembered span, by one pass. */
    method LongestSpan() returns (longest: nat)
      ensures longest == Longest(recentSpans)
    {
      longest := 0;
      for k := |recentSpans| downto 0
        invariant longest == Longest(recentSpans[k..])
      {
        longest := Max(recentSpans[k], longest);
        assert recentSpans[k..][1..] == recentSpans[k + 1..];
      }
      assert recentSpans[0..] == recentSpans;
    }

    method MissedPcrs(span: nat) returns (missed: bool)
      ensures missed == GridSpec.MissedPcrs(recentSpans, span)
    {
      var longest := LongestSpan();
      missed := longest > 0 && span >= longest * MISSED_PCR_FACTOR;
    }

    /** Discard a run left open by the end of the source. */
    method Flush()
      requires Valid()
      modifies this`cut, this`run
      ensures Valid() && State() == old(State()).Flush()
    {
      cut := cut + |run|;
      run := [];
    }

    /** Queue one placed packet, the oldest making way past the capacity. */
    method PlaceOne(slot: nat, p: Packet) returns (dropped: nat)
      requires Valid()
      modifies this`nextFree, this`placed, this`gone
      ensures Valid() && nextFree == slot + 1 && gone == old(gone) + dropped
      ensures
        var longer := old(placed) + [Slotted(slot, p)];
        && dropped == (if |longer| > capacity then 1 else 0)
        && placed == longer[dropped..]
    {
      dropped := 0;
      nextFree := slot + 1;
      placed := placed + [Slotted(slot, p)];
      if |placed| > capacity {
        placed := placed[1..];
        dropped := 1;
      }
      gone := gone + dropped;
    }

    /** Give each packet of the open run its slot. */
    method PlaceRun(openSlot: nat, span: nat) returns (dropped: nat)
      requires Valid() && run != []
      modifies this`bases, this`placedBase, this`nextFree, this`placed, this`gone
      ensures Valid()
      ensures
        var whole := Spread(run, 0, openSlot, span, old(nextFree), openBase, openWraps);
        && nextFree == FreeAfter(whole, old(nextFree))
        && Added(QueueState(), dropped) == old(QueueState()).Add(whole, old(placedBase), capacity)
        && placedBase == openBase
    {
      hide Spread, Queues, Queue.Add, Mark, FreeAfter;
      dropped := 0;
      var count := |run|;
      ghost var before, base := QueueState(), placedBase;
      ghost var whole := Spread(run, 0, openSlot, span, nextFree, openBase, openWraps);
      SpreadStart(whole, placed, capacity, base, nextFree);
      for index := 0 to count
        invariant |placed| <= capacity && gone == before.gone + dropped
        invariant Spread(run, index, openSlot, span, nextFree, openBase, openWraps) == whole[index..]
        invariant nextFree == FreeAfter(whole[..index], old(nextFree))
        invariant Queues(before.placed, whole[..index], capacity, placed, dropped)
        invariant bases == before.bases + Mark(whole[..index], base)
        invariant placedBase == if index == 0 then base else openBase
      {
        SpreadStep(run, index, openSlot, span, nextFree, openBase, openWraps, whole, base, old(nextFree));
        var ideal := openSlot + index * span / count;
        var slot := Max(ideal, nextFree);
        if index == 0 && openBase != placedBase {
          bases := bases + [BaseMark(slot, openBase)];
          placedBase := openBase;
        }
        QueueOne(before.placed, whole[..index], whole[index], capacity, placed, dropped);
        var pushedOut := PlaceOne(slot, run[index]);
        dropped := dropped + pushedOut;
      }
      assert whole[..count] == whole;
      QueuesIsAdd(before, whole, base, capacity, placed, dropped);
    }

    /** What the run just placed, `count` packets over `span` slots, says of the source:
        its cadence, whether it overran, and how far it displaced the grid. */
    method Account(count: nat, span: nat, openSlot: nat, nextSlot: nat)
      modifies this`recentSpans, this`overruns, this`run, this`displacementHighWater, this`loads
      ensures run == []
      ensures recentSpans == Remember(old(recentSpans), span)
      ensures overruns == old(overruns) + if count > span then 1 else 0
      ensures displacementHighWater == Max(old(displacementHighWater), SatSub(nextFree, nextSlot))
      ensures loads == old(loads) + [count - (nextSlot - openSlot)]
    {
      recentSpans := (if |recentSpans| == RECENT_SPANS then recentSpans[1..] else recentSpans) + [span];
      if count > span {
        overruns := overruns + 1;
      }
      var displacement := SatSub(nextFree, nextSlot);
      displacementHighWater := Max(displacementHighWater, displacement);
      loads := loads + [count - (nextSlot - openSlot)];
      run := [];
    }

    /** Spread the open run, which holds something, between its own slot and `nextSlot`. */
    method SpreadRun(nextSlot: nat) returns (dropped: nat)
      requires Valid() && open.Some? && run != []
      modifies this`recentSpans, this`overruns, this`run, this`bases, this`placedBase, this`nextFree, this`placed
      modifies this`displacementHighWater, this`log, this`loads, this`gone
      ensures Valid()
      ensures
        var c := old(CoreState()).CloseRun(open.value.slot, nextSlot);
        && recentSpans == c.recentSpans && overruns == c.overruns && run == c.run
        && placedBase == c.placedBase && nextFree == c.nextFree && displacementHighWater == c.highWater
        && log == c.log && loads == c.loads
      ensures |old(log)| <= |log|
      ensures Added(QueueState(), dropped) == old(QueueState()).Add(log[|old(log)|..], old(placedBase), capacity)
    {
      hide Counters, Spread, Queue.Add, Remember, Max, SatSub, FreeAfter;
      var openSlot := open.value.slot;
      var span := SatSub(nextSlot, openSlot);
      ghost var whole := Spread(run, 0, openSlot, span, nextFree, openBase, openWraps);
      var count := |run|;
      dropped := PlaceRun(openSlot, span);
      Account(count, span, openSlot, nextSlot);
      JoinedSuffix(log, whole);
      log := log + whole;
    }

    /** Close the open run at `nextSlot`, if there is one with anything in it. */
    method CloseRun(nextSlot: nat) returns (dropped: nat)
      requires Valid()
      modifies this`recentSpans, this`overruns, this`run, this`bases, this`placedBase, this`nextFree, this`placed
      modifies this`displacementHighWater, this`log, this`loads, this`gone
      ensures Valid()
      ensures
        var before := old(CoreState());
        var c := if open.Some? then before.CloseRun(open.value.slot, nextSlot) else before;
        && recentSpans == c.recentSpans && overruns == c.overruns && run == c.run
        && placedBase == c.placedBase && nextFree == c.nextFree && displacementHighWater == c.highWater
        && log == c.log && loads == c.loads
      ensures |old(log)| <= |log|
      ensures Added(QueueState(), dropped) == old(QueueState()).Add(log[|old(log)|..], old(placedBase), capacity)
      ensures open.None? || old(run) == [] ==> dropped == 0
    {
      hide Counters, Core.CloseRun, Queue.Add;
      dropped := 0;
      AddNothing(QueueState(), placedBase, capacity, log);
      if open.None? {
        return;
      }
      if run == [] {
        NothingToClose(CoreState(), open.value.slot, nextSlot);
        return;
      }
      dropped := SpreadRun(nextSlot);
    }

    /** End the open run at `slot`, where the next PCR belongs. */
    method EndRun(slot: nat, afterSilence: bool) returns (dropped: nat)
      requires Valid()
      modifies this`recentSpans, this`overruns, this`run, this`bases, this`placedBase, this`nextFree, this`placed
      modifies this`displacementHighWater, this`log, this`loads, this`gone, this`cut, this`knownFrom
      ensures Valid()
      ensures
        var c := old(CoreState()).EndRun(Aim(old(ClockState()), slot, afterSilence));
        && recentSpans == c.recentSpans && overruns == c.overruns && run == c.run
        && placedBase == c.placedBase && nextFree == c.nextFree && displacementHighWater == c.highWater
        && log == c.log && loads == c.loads && cut == c.cut && knownFrom == c.knownFrom
      ensures |old(log)| <= |log|
      ensures Added(QueueState(), dropped) == old(QueueState()).Add(log[|old(log)|..], old(placedBase), capacity)
    {
      hide Counters, Core.CloseRun, GridSpec.MissedPcrs, Queue.Add, Max, SatSub;
      var missed := false;
      if runBroken && open.Some? {
        missed := MissedPcrs(SatSub(slot, open.value.slot));
      }
      dropped := 0;
      AddNothing(QueueState(), placedBase, capacity, log);
      CloseRunKeeps(CoreState(), if open.Some? then open.value.slot else 0, slot);
      if open.None? {
        knownFrom := Some(slot);
      } else if afterSilence || missed {
        cut := cut + |run|;
        loads := loads + [open.value.slot - slot];
        run := [];
        knownFrom := Some(slot);
      } else {
        dropped := CloseRun(slot);
      }
    }

    /** Start the run of a PCR at `slot`. */
    method OpenRun(p: Packet, pcr: nat, slot: nat)
      modifies this`runBroken, this`open, this`openBase, this`openWraps, this`run
      ensures !runBroken && open == Some(Opened(pcr, slot)) && run == [p]
      ensures openBase == rebased && openWraps == wraps
    {
      runBroken := false;
      open := Some(Opened(pcr, slot));
      openBase := rebased;
      openWraps := wraps;
      run := [p];
    }

    /** End the open run where this packet's PCR says, and open its own. */
    method Turn(p: Packet, since: nat, horizon: Option<nat>) returns (dropped: nat)
      requires Valid() && p.pcr.Some?
      modifies this
      ensures Valid()
      ensures
        var noted := old(CoreState());
        var aim := noted.Aims(p, Arrival(since, horizon));
        var c := noted.EndRun(aim);
        && recentSpans == c.recentSpans && overruns == c.overruns && run == [p]
        && placedBase == c.placedBase && nextFree == c.nextFree && displacementHighWater == c.highWater
        && log == c.log && loads == c.loads && cut == c.cut && knownFrom == c.knownFrom
        && epoch == aim.clock.epoch && rebased == aim.clock.rebased
        && rebases == aim.clock.rebases && wraps == aim.clock.wraps
        && openBase == rebased && openWraps == wraps && !runBroken
        && open == Some(Opened(p.pcr.value, aim.slot))
      ensures |old(log)| <= |log|
      ensures Added(QueueState(), dropped) == old(QueueState()).Add(log[|old(log)|..], old(placedBase), capacity)
      ensures capacity == old(capacity) && evicted == old(evicted)
    {
      hide Counters, GridSpec.SlotFor, Core.EndRun, Queue.Add;
      ghost var noted := CoreState();
      ghost var aim := noted.Aims(p, Arrival(since, horizon));
      var slot, afterSilence := SlotFor(p.pcr.value, p.declared, since, horizon);
      EndRunMindsOnlyTheOpenSlot(noted, aim, ClockState());
      dropped := EndRun(slot, afterSilence);
      OpenRun(p, p.pcr.value, slot);
    }

    /** Accept a packet with a PCR, its counter noted. */
    method PushPcr(p: Packet, now: nat, horizon: Option<nat>) returns (dropped: nat)
      requires Valid() && p.pcr.Some?
      modifies this
      ensures Valid() && capacity == old(capacity) && openAt == now && evicted == old(evicted) + dropped
      ensures CoreState() == old(CoreState()).Turn(p, old(State()).ArrivalAt(now, horizon))
      ensures |old(log)| <= |log|
      ensures Added(QueueState(), dropped) == old(QueueState()).Add(log[|old(log)|..], old(placedBase), capacity)
    {
      hide GridSpec.SlotFor, Core.EndRun, Queue.Add, Counters, SatSub;
      var since := if open.Some? then SatSub(now, openAt) else 0;
      ghost var noted := CoreState();
      EndRunKeeps(noted, noted.Aims(p, Arrival(since, horizon)));
      dropped := Turn(p, since, horizon);
      openAt := now;
      evicted := evicted + dropped;
    }

    /** Accept one input packet, and say how many were lost for want of room. */
    method Push(p: Packet, now: nat, horizon: Option<nat>) returns (dropped: nat)
      requires Valid()
      modifies this, continuity
      ensures Valid()
      ensures Pushed(State(), dropped) == old(State()).Push(p, now, horizon)
    {
      hide Core.Turn, Core.Noted, Queue.Add, Counters, SatSub;
      NoteContinuity(p);
      if p.pcr.Some? {
        dropped := PushPcr(p, now, horizon);
      } else {
        AddNothing(QueueState(), placedBase, capacity, log);
        if open.None? {
          dropped := 1;
        } else {
          run := run + [p];
          dropped := 0;
        }
      }
    }

    /** Consume every base mark up to `slot`; whether the last of them is at it. */
    method PassMarks(slot: nat) returns (starts: bool)
      modifies this`bases, this`takenBase
      ensures Popped(bases, takenBase, starts) == PopBases(old(bases), slot, old(takenBase), false)
    {
      starts := false;
      while bases != [] && bases[0].from <= slot
        invariant PopBases(bases, slot, takenBase, starts) == PopBases(old(bases), slot, old(takenBase), false)
        decreases |bases|
      {
        starts := bases[0].from == slot;
        takenBase := bases[0].offset;
        bases := bases[1..];
      }
    }

    /** The packet due at `slot`, with the time base it is on, discarding any whose slot
        has already passed. */
    method Take(slot: nat) returns (content: Option<Queued>, late: nat)
      requires Valid()
      modifies this`placed, this`bases, this`takenBase, this`passed, this`gone
      ensures Valid()
      ensures Taken(QueueState(), content, late) == old(QueueState()).Take(slot)
    {
      late := 0;
      while placed != [] && placed[0].slot <= slot
        invariant Valid()
        invariant LateBy(QueueState().Take(slot), late) == old(QueueState()).Take(slot)
        decreases |placed|
      {
        var placedSlot := placed[0].slot;
        var starts := PassMarks(placedSlot);
        var packet := placed[0].packet;
        placed := placed[1..];
        gone := gone + 1;
        passed := gone;
        hide PopBases;
        if placedSlot < slot {
          late := late + 1;
        } else {
          return Some(Queued(packet, Base(takenBase, starts))), late;
        }
      }
      content := None;
    }
  }

  lemma JoinedSuffix<T>(x: seq<T>, y: seq<T>)
    ensures |x| <= |x + y| && (x + y)[|x|..] == y
  {
  }

  /** A take's outcome with `late` more drops counted before it. */
  ghost function LateBy(taken: Taken, late: nat): Taken {
    taken.(late := taken.late + late)
  }

  lemma AddNothing(q: Queue, base: int, capacity: nat, log: seq<Placement>)
    requires |q.placed| <= capacity
    ensures log[|log|..] == [] && q.Add([], base, capacity) == Added(q, 0)
  {
    assert q.placed + Slots([]) == q.placed;
  }

  lemma NothingToClose(c: Core, openSlot: nat, nextSlot: nat)
    requires c.run == []
    ensures c.CloseRun(openSlot, nextSlot) == c
  {
  }

  /** The clock may be moved before or after the run is ended: only the open slot counts. */
  lemma EndRunMindsOnlyTheOpenSlot(noted: Core, aim: Aim, moved: Clock)
    requires moved.open == noted.clock.open
    ensures noted.(clock := moved).EndRun(Aim(moved, aim.slot, aim.afterSilence)) == noted.EndRun(aim).(clock := moved)
  {
  }

  /** What ending a run leaves alone. */
  lemma EndRunKeeps(c: Core, aim: Aim)
    ensures
      var c' := c.EndRun(aim);
      && c'.rateMap == c.rateMap && c'.continuity == c.continuity && c'.runBroken == c.runBroken
      && c'.clock == c.clock && c'.openBase == c.openBase && c'.openWraps == c.openWraps
  {
  }

  lemma CloseRunKeeps(c: Core, openSlot: nat, nextSlot: nat)
    ensures
      var c' := c.CloseRun(openSlot, nextSlot);
      c'.cut == c.cut && c'.knownFrom == c.knownFrom
  {
  }

  lemma QueuesIsAdd(q: Queue, added: seq<Placement>, base: int, capacity: nat, placed: seq<Slotted>, dropped: nat)
    requires Queues(q.placed, added, capacity, placed, dropped)
    ensures q.Add(added, base, capacity)
         == Added(q.(placed := placed, bases := q.bases + Mark(added, base), gone := q.gone + dropped), dropped)
  {
  }

  lemma SpreadStart(whole: seq<Placement>, placed: seq<Slotted>, capacity: nat, base: int, free: nat)
    requires |placed| <= capacity
    ensures whole[0..] == whole && FreeAfter(whole[..0], free) == free && Mark(whole[..0], base) == []
    ensures Queues(placed, whole[..0], capacity, placed, 0)
  {
  }

  /** The next placement of a spread under way, and what is left of it after. */
  lemma SpreadStep(run: seq<Packet>, index: nat, open: nat, span: nat, free: nat, base: int, wraps: nat,
                   whole: seq<Placement>, baseBefore: int, freeBefore: nat)
    requires index < |run| == |whole|
    requires Spread(run, index, open, span, free, base, wraps) == whole[index..]
    ensures
      var slot := Max(open + index * span / |run|, free);
      && whole[index].slot == slot && whole[index].packet == run[index] && whole[index].base == base
      && Spread(run, index + 1, open, span, slot + 1, base, wraps) == whole[index + 1..]
      && FreeAfter(whole[..index + 1], freeBefore) == slot + 1
      && Mark(whole[..index + 1], baseBefore)
           == (if index > 0 then Mark(whole[..index], baseBefore)
               else if base != baseBefore then [BaseMark(slot, base)] else [])
    ensures whole[..index + 1] == whole[..index] + [whole[index]]
  {
    assert whole[index..][0] == whole[index];
    assert whole[index..][1..] == whole[index + 1..];
  }

  /** `queue` is `before` with `added` behind it, less `dropped` from the front to stay
      within `capacity`. */
  ghost predicate Queues(before: seq<Slotted>, added: seq<Placement>, capacity: nat, queue: seq<Slotted>,
      dropped: nat) {
    && dropped == SatSub(|before| + |added|, capacity)
    && queue == (before + Slots(added))[dropped..]
  }

  lemma QueueOne(before: seq<Slotted>, added: seq<Placement>, next: Placement, capacity: Positive,
      queue: seq<Slotted>, dropped: nat)
    requires |before| <= capacity && Queues(before, added, capacity, queue, dropped)
    ensures
      var longer := queue + [Slotted(next.slot, next.packet)];
      if |longer| > capacity then Queues(before, added + [next], capacity, longer[1..], dropped + 1)
      else Queues(before, added + [next], capacity, longer, dropped)
  {
    assert before + Slots(added + [next]) == before + Slots(added) + [Slotted(next.slot, next.packet)];
  }
}
