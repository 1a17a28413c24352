/** The queue of placed packets against the placement log (src/scheduler.rs, `push`,
    `close_run`, `take`, `determined`): the side queue of time-base marks does what a
    tag on every packet would, and what a determined slot holds is final. */
module GridQueue {
  import opened Prelude
  import opened Packets
  import opened SlotMaps
  import opened GridSpec
  import opened Displacement

  // ---- The log ----

  /** The base of the placement before `k`, zero before the first. */
  function BaseAt(log: seq<Placement>, k: nat): int
    requires k <= |log|
  {
    if k == 0 then 0 else log[k - 1].base
  }

  /** A placement with the tag it would carry: its own base, and whether the packet
      placed before it was on another. */
  function Tagged(log: seq<Placement>, i: nat): Queued
    requires i < |log|
  {
    Queued(log[i].packet, Base(log[i].base, log[i].base != BaseAt(log, i)))
  }

  /** What the log puts in `slot`. */
  function Lookup(log: seq<Placement>, slot: nat): Option<Queued> {
    if log == [] then None
    else if log[|log| - 1].slot == slot then Some(Tagged(log, |log| - 1))
    else Lookup(log[..|log| - 1], slot)
  }

  /** Slots strictly increase over the whole run, and stay below the next free one. */
  ghost predicate Ordered(c: Core) {
    && Increasing(c.log)
    && (c.log != [] ==> c.log[|c.log| - 1].slot < c.nextFree)
    && c.placedBase == BaseAt(c.log, |c.log|)
  }

  /** One base for a whole run of added placements, in slots from `floor` up. */
  ghost predicate AddedRun(added: seq<Placement>, base: int, floor: nat) {
    && Increasing(added)
    && (forall k | 0 <= k < |added| :: added[k].base == base && added[k].slot >= floor)
  }

  /** The first slot a leg with an open run could still place something in. */
  function Frontier(c: Core): nat {
    if c.clock.open.Some? then Max(c.clock.open.value.slot, c.nextFree) else c.nextFree
  }

  lemma CloseAdds(c: Core, open: nat, next: nat)
    requires c.run != []
    ensures
      var c' := c.CloseRun(open, next);
      && c'.log == c.log + c'.log[|c.log|..] && |c'.log| > |c.log|
      && AddedRun(c'.log[|c.log|..], c.openBase, Max(open, c.nextFree))
      && c'.placedBase == c.openBase
      && c'.nextFree == c'.log[|c'.log| - 1].slot + 1
  {
    SpreadShape(c.run, 0, open, SatSub(next, open), c.nextFree, c.openBase, c.openWraps);
    assert c.CloseRun(open, next).log[|c.log|..]
        == Spread(c.run, 0, open, SatSub(next, open), c.nextFree, c.openBase, c.openWraps);
  }

  /** What a push does to the log: it adds nothing, or one run on one base at or past
      the frontier, which then moves past it. */
  ghost predicate Extends(c: Core, c': Core) {
    && |c.log| <= |c'.log| && c'.log[..|c.log|] == c.log
    && AddedRun(c'.log[|c.log|..], c.openBase, Frontier(c))
    && Frontier(c') >= Frontier(c)
    && (c'.log == c.log ==> c'.placedBase == c.placedBase && c'.nextFree == c.nextFree)
    && (|c'.log| > |c.log| ==> c'.placedBase == c.openBase && c'.nextFree == c'.log[|c'.log| - 1].slot + 1)
  }

  lemma EndRunExtends(c: Core, aim: Aim)
    requires c.clock.open.Some? && c.run != []
    requires aim.afterSilence || c.Misses(aim) ==> aim.slot >= c.clock.open.value.slot
    ensures
      var c' := c.EndRun(aim);
      && |c.log| <= |c'.log| && c'.log[..|c.log|] == c.log
      && AddedRun(c'.log[|c.log|..], c.openBase, Frontier(c))
      && Max(aim.slot, c'.nextFree) >= Frontier(c)
      && (c'.log == c.log ==> c'.placedBase == c.placedBase && c'.nextFree == c.nextFree)
      && (|c'.log| > |c.log| ==> c'.placedBase == c.openBase && c'.nextFree == c'.log[|c'.log| - 1].slot + 1)
  {
    if !(aim.afterSilence || c.Misses(aim)) {
      CloseAdds(c, c.clock.open.value.slot, aim.slot);
      hide Core.CloseRun;
    }
  }

  lemma PushExtends(c: Core, p: Packet, at: Arrival)
    requires Flows(c)
    ensures Extends(c, c.Push(p, at))
  {
    if p.pcr.Some? && c.clock.open.Some? {
      var noted := c.Noted(p);
      var aim := noted.Aims(p, at);
      hide Core.CloseRun, Core.CutRun, Judge, Applied;
      if aim.afterSilence || noted.Misses(aim) {
        CutGoesForward(noted, p, at);
      }
      EndRunExtends(noted, aim);
      hide Core.EndRun;
    }
  }

  lemma JoinIncreases(x: seq<Placement>, y: seq<Placement>, floor: nat)
    requires Increasing(x) && Increasing(y) && (x != [] ==> x[|x| - 1].slot < floor)
    requires forall k | 0 <= k < |y| :: y[k].slot >= floor
    ensures Increasing(x + y)
  {
    forall j, k | 0 <= j < k < |x + y|
      ensures (x + y)[j].slot < (x + y)[k].slot
    {
      if j < |x| <= k {
        assert x[j].slot <= x[|x| - 1].slot && (x + y)[k] == y[k - |x|];
      }
    }
  }

  lemma ExtendsKeepsOrder(c: Core, c': Core)
    requires Ordered(c) && Extends(c, c')
    ensures Ordered(c')
  {
    hide Increasing;
    var added := c'.log[|c.log|..];
    assert c'.log == c.log + added;
    JoinIncreases(c.log, added, c.nextFree);
    if added == [] {
      assert c'.log == c.log;
    }
  }

  lemma {:induction false} LookupPrefix(log: seq<Placement>, more: seq<Placement>, slot: nat)
    requires forall k | 0 <= k < |more| :: more[k].slot != slot
    ensures Lookup(log + more, slot) == Lookup(log, slot)
    decreases |more|
  {
    if more == [] {
      assert log + more == log;
    } else {
      assert (log + more)[..|log + more| - 1] == log + more[..|more| - 1];
      LookupPrefix(log, more[..|more| - 1], slot);
    }
  }

  lemma {:induction false} LookupAt(log: seq<Placement>, i: nat)
    requires Increasing(log) && i < |log|
    ensures Lookup(log, log[i].slot) == Some(Tagged(log, i))
    decreases |log|
  {
    if i == |log| - 1 {
    } else {
      LookupAt(log[..|log| - 1], i);
    }
  }

  lemma {:induction false} LookupNothing(log: seq<Placement>, slot: nat)
    requires forall k | 0 <= k < |log| :: log[k].slot != slot
    ensures Lookup(log, slot) == None
  {
    if log == [] {
    } else {
      LookupNothing(log[..|log| - 1], slot);
    }
  }

  // ---- Finality ----

  /** Whatever is pushed, taken or grown from here on, no placement is ever made below
      the frontier, so what the log holds there is settled. */
  lemma {:induction false} BelowFrontierIsFinal(g: Grid, events: seq<Event>, slot: nat)
    requires Flows(g.core) && slot < Frontier(g.core)
    ensures Flows(Run(g, events).core) && slot < Frontier(Run(g, events).core)
    ensures Lookup(Run(g, events).core.log, slot) == Lookup(g.core.log, slot)
    ensures |g.core.log| <= |Run(g, events).core.log|
    ensures Run(g, events).core.log[..|g.core.log|] == g.core.log
    decreases |events|
  {
    if events == [] {
    } else {
      var e := events[0];
      var g' := Step(g, e);
      assert Flows(g'.core) && slot < Frontier(g'.core)
          && Lookup(g'.core.log, slot) == Lookup(g.core.log, slot)
          && |g.core.log| <= |g'.core.log| && g'.core.log[..|g.core.log|] == g.core.log
      by {
        match e {
          case Push(p, now, horizon) => PushIsFinalBelow(g.core, p, g.ArrivalAt(now, horizon), slot);
          case Take(_) =>
          case GrowTo(_) =>
        }
      }
      BelowFrontierIsFinal(g', events[1..], slot);
    }
  }

  lemma PushIsFinalBelow(c: Core, p: Packet, at: Arrival, slot: nat)
    requires Flows(c) && slot < Frontier(c)
    ensures
      var c' := c.Push(p, at);
      && Flows(c') && slot < Frontier(c')
      && Lookup(c'.log, slot) == Lookup(c.log, slot)
      && |c.log| <= |c'.log| && c'.log[..|c.log|] == c.log
  {
    hide Core.Push, Flows;
    var c' := c.Push(p, at);
    PushFlows(c, p, at);
    PushExtends(c, p, at);
    assert c'.log == c.log + c'.log[|c.log|..];
    LookupPrefix(c.log, c'.log[|c.log|..], slot);
  }

  /** Once a leg says it knows `from..to`, it does: over every later run, each of those
      slots keeps exactly what the log holds for it now. */
  lemma DeterminedIsFinal(g: Grid, events: seq<Event>, from: nat, to: nat, slot: nat)
    requires Flows(g.core) && g.core.Determined(from, to) && from <= slot < to
    ensures Lookup(Run(g, events).core.log, slot) == Lookup(g.core.log, slot)
  {
    BelowFrontierIsFinal(g, events, slot);
  }

  // ---- Time-base marks ----

  /** The mark placement `k` starts a base with, if it does. */
  function MarkAt(log: seq<Placement>, k: nat): seq<BaseMark>
    requires k < |log|
  {
    if log[k].base != BaseAt(log, k) then [BaseMark(log[k].slot, log[k].base)] else []
  }

  /** The marks a queue from `k` on needs: one where the base changes. */
  function Marks(log: seq<Placement>, k: nat): seq<BaseMark>
    requires k <= |log|
    decreases |log| - k
  {
    if k == |log| then []
    else MarkAt(log, k) + Marks(log, k + 1)
  }

  lemma {:induction false} MarksAppend(x: seq<Placement>, y: seq<Placement>, k: nat)
    requires k <= |x|
    ensures Marks(x + y, k) == Marks(x, k) + Marks(x + y, |x|)
    decreases |x| - k
  {
    hide MarkAt;
    if k == |x| {
      assert [] + Marks(x + y, |x|) == Marks(x + y, |x|);
    } else {
      MarksAppend(x, y, k + 1);
      MarkAgrees(x, y, k);
      MarksAssociate(MarkAt(x, k), Marks(x, k + 1), Marks(x + y, |x|));
    }
  }

  lemma MarksAssociate(x: seq<BaseMark>, y: seq<BaseMark>, z: seq<BaseMark>)
    ensures x + y + z == x + (y + z)
  {
  }

  lemma MarkAgrees(x: seq<Placement>, y: seq<Placement>, k: nat)
    requires k < |x|
    ensures MarkAt(x + y, k) == MarkAt(x, k)
  {
    assert (x + y)[k] == x[k] && (k > 0 ==> (x + y)[k - 1] == x[k - 1]);
  }

  lemma {:induction false} MarksWithinRun(log: seq<Placement>, k: nat)
    requires 0 < k <= |log|
    requires forall i | k <= i < |log| :: log[i].base == log[k - 1].base
    ensures Marks(log, k) == []
    decreases |log| - k
  {
    if k == |log| {
    } else {
      MarksWithinRun(log, k + 1);
    }
  }

  lemma {:induction false} MarksComeLater(log: seq<Placement>, k: nat, slot: nat)
    requires k <= |log|
    requires forall i | k <= i < |log| :: log[i].slot > slot
    ensures Marks(log, k) != [] ==> Marks(log, k)[0].from > slot
    decreases |log| - k
  {
    if k == |log| {
    } else {
      MarksComeLater(log, k + 1, slot);
    }
  }

  lemma PopOne(log: seq<Placement>, k: nat, i: nat, starts: bool)
    requires Increasing(log) && k <= i < |log|
    ensures PopBases(Marks(log, k), log[i].slot, BaseAt(log, k), starts)
         == PopBases(Marks(log, k + 1), log[i].slot, BaseAt(log, k + 1),
                     if log[k].base != BaseAt(log, k) then k == i else starts)
  {
    if log[k].base != BaseAt(log, k) {
      assert Marks(log, k)[1..] == Marks(log, k + 1);
      assert log[k].slot == log[i].slot <==> k == i;
    } else {
      assert Marks(log, k) == Marks(log, k + 1);
    }
  }

  lemma PopNothing(log: seq<Placement>, i: nat, starts: bool)
    requires Increasing(log) && i < |log|
    ensures PopBases(Marks(log, i + 1), log[i].slot, BaseAt(log, i + 1), starts)
         == Popped(Marks(log, i + 1), log[i].base, starts)
  {
    hide Marks;
    MarksComeLater(log, i + 1, log[i].slot);
  }

  /** Consuming marks up to a placement leaves that placement's own base in force, and
      says the base starts there exactly when the placement before it had another. */
  lemma {:induction false} PoppingTags(log: seq<Placement>, k: nat, i: nat, starts: bool)
    requires Increasing(log) && k <= i + 1 <= |log|
    requires k <= i ==> !starts
    ensures PopBases(Marks(log, k), log[i].slot, BaseAt(log, k), starts)
         == Popped(Marks(log, i + 1), log[i].base, if k == i + 1 then starts else Tagged(log, i).base.starts)
    decreases i + 1 - k
  {
    hide Marks, PopBases;
    if k == i + 1 {
      PopNothing(log, i, starts);
    } else {
      PopOne(log, k, i, starts);
      var starts' := if log[k].base != BaseAt(log, k) then k == i else starts;
      PoppingTags(log, k + 1, i, starts');
    }
  }

  // ---- The queue refines a tag on every packet ----

  /** The queue holds the log from `gone` on, and its marks are those of the log from
      `passed` on. */
  ghost predicate Refines(q: Queue, log: seq<Placement>) {
    && q.gone + |q.placed| == |log|
    && q.placed == Slots(log[q.gone..])
    && q.passed <= q.gone
    && q.bases == Marks(log, q.passed)
    && q.takenBase == BaseAt(log, q.passed)
  }

  /** The queue with a tag on every packet, reduced to what it is: a place in the log.
      `Reach` is the first placement still queued at or past `slot`. */
  function Reach(log: seq<Placement>, gone: nat, slot: nat): (i: nat)
    requires gone <= |log|
    ensures gone <= i <= |log|
    decreases |log| - gone
  {
    if gone < |log| && log[gone].slot < slot then Reach(log, gone + 1, slot) else gone
  }

  lemma {:induction false} ReachBounds(log: seq<Placement>, gone: nat, slot: nat)
    requires Increasing(log) && gone <= |log|
    ensures
      var i := Reach(log, gone, slot);
      && (forall k | gone <= k < i :: log[k].slot < slot)
      && (forall k | i <= k < |log| :: log[k].slot >= slot)
    decreases |log| - gone
  {
    if gone == |log| || log[gone].slot >= slot {
    } else {
      ReachBounds(log, gone + 1, slot);
    }
  }

  lemma SlotsTail(log: seq<Placement>, k: nat)
    requires k < |log|
    ensures Slots(log[k..])[0] == Slotted(log[k].slot, log[k].packet)
    ensures Slots(log[k..])[1..] == Slots(log[k + 1..])
  {
  }

  lemma BeheadRefines(q: Queue, log: seq<Placement>)
    requires Refines(q, log) && Increasing(log) && q.placed != []
    ensures Refines(q.Behead(), log)
    ensures q.placed[0] == Slotted(log[q.gone].slot, log[q.gone].packet)
    ensures
      var popped := PopBases(q.bases, q.placed[0].slot, q.takenBase, false);
      Queued(q.placed[0].packet, Base(popped.offset, popped.starts)) == Tagged(log, q.gone)
  {
    SlotsTail(log, q.gone);
    PoppingTags(log, q.passed, q.gone, false);
    hide Marks, PopBases, Slots;
  }

  /** What a take answers in terms of the log alone. */
  ghost predicate Answers(q: Queue, log: seq<Placement>, slot: nat, taken: Taken)
    requires q.gone <= |log|
  {
    var i := Reach(log, q.gone, slot);
    var due := i < |log| && log[i].slot == slot;
    && taken.late == i - q.gone
    && taken.content == (if due then Some(Tagged(log, i)) else None)
    && taken.queue.gone == if due then i + 1 else i
  }

  lemma LateAnswers(q: Queue, log: seq<Placement>, slot: nat, rest: Taken)
    requires q.gone < |log| && log[q.gone].slot < slot && q.placed != []
    requires Answers(q.Behead(), log, slot, rest)
    ensures Answers(q, log, slot, rest.(late := rest.late + 1))
  {
    hide Tagged, PopBases;
  }

  /** A take with the side queue returns, counts and leaves what a take with a tag on
      every packet would, whatever late drops and evictions went before. */
  lemma {:induction false} TakeRefines(q: Queue, log: seq<Placement>, slot: nat)
    requires Refines(q, log) && Increasing(log)
    ensures Refines(q.Take(slot).queue, log) && Answers(q, log, slot, q.Take(slot))
    decreases |q.placed|
  {
    if q.placed == [] {
    } else {
      BeheadRefines(q, log);
      assert q.gone < |log|;
      if q.placed[0].slot < slot {
        hide Refines, PopBases, Answers, Queue.Behead;
        TakeRefines(q.Behead(), log, slot);
        LateAnswers(q, log, slot, q.Behead().Take(slot));
      } else {
        hide Refines, PopBases, Tagged;
      }
    }
  }

  lemma MarksOfAddedRun(log: seq<Placement>, added: seq<Placement>, base: int, floor: nat)
    requires AddedRun(added, base, floor) && added != []
    ensures Marks(log + added, |log|)
         == if base != BaseAt(log, |log|) then [BaseMark(added[0].slot, base)] else []
  {
    MarksWithinRun(log + added, |log| + 1);
  }

  lemma SlotsJoin(x: seq<Placement>, y: seq<Placement>)
    ensures Slots(x + y) == Slots(x) + Slots(y)
  {
  }

  lemma SlotsFrom(x: seq<Placement>, k: nat)
    requires k <= |x|
    ensures Slots(x)[k..] == Slots(x[k..])
  {
  }

  lemma QueuedSuffix(log: seq<Placement>, log': seq<Placement>, gone: nat, over: nat)
    requires gone <= |log| <= |log'| && log'[..|log|] == log && gone + over <= |log'|
    ensures (Slots(log[gone..]) + Slots(log'[|log|..]))[over..] == Slots(log'[gone + over..])
  {
    assert log[gone..] + log'[|log|..] == log'[gone..];
    SlotsJoin(log[gone..], log'[|log|..]);
    SlotsFrom(log'[gone..], over);
    assert log'[gone..][over..] == log'[gone + over..];
  }

  lemma BaseAtPrefix(x: seq<Placement>, y: seq<Placement>, k: nat)
    requires k <= |x| <= |y| && y[..|x|] == x
    ensures BaseAt(y, k) == BaseAt(x, k)
  {
  }

  lemma AddedMarks(q: Queue, log: seq<Placement>, log': seq<Placement>, base: int, floor: nat)
    requires Refines(q, log) && |log| <= |log'| && log'[..|log|] == log
    requires AddedRun(log'[|log|..], base, floor)
    ensures q.bases + Mark(log'[|log|..], BaseAt(log, |log|)) == Marks(log', q.passed)
  {
    var added := log'[|log|..];
    assert log' == log + added;
    MarksAppend(log, added, q.passed);
    if added != [] {
      MarksOfAddedRun(log, added, base, floor);
    } else {
      assert Marks(log + added, |log|) == [];
    }
  }

  lemma AddRefines(q: Queue, log: seq<Placement>, log': seq<Placement>, base: int, floor: nat, capacity: nat)
    requires Refines(q, log) && |log| <= |log'| && log'[..|log|] == log
    requires AddedRun(log'[|log|..], base, floor)
    ensures Refines(q.Add(log'[|log|..], BaseAt(log, |log|), capacity).queue, log')
    ensures |q.Add(log'[|log|..], BaseAt(log, |log|), capacity).queue.placed| <= capacity
  {
    hide Slots, Marks, BaseAt, Mark, AddedRun;
    AddedMarks(q, log, log', base, floor);
    QueuedSuffix(log, log', q.gone, SatSub(|log'| - q.gone, capacity));
    BaseAtPrefix(log, log', q.passed);
  }

  /** What every grid reachable from a new one keeps. */
  ghost predicate Reachable(g: Grid) {
    && Flows(g.core) && Ordered(g.core) && Refines(g.queue, g.core.log)
    && |g.queue.placed| <= g.capacity && g.evicted <= g.queue.gone
  }

  lemma NewGridReachable(m: SlotMap, capacity: nat)
    ensures Reachable(NewGrid(m, capacity))
  {
  }

  lemma PushReachable(g: Grid, p: Packet, now: nat, horizon: Option<nat>)
    requires Reachable(g)
    ensures
      var pushed := g.Push(p, now, horizon);
      && Reachable(pushed.grid)
      && Extends(g.core, pushed.grid.core)
      && pushed.grid.evicted - g.evicted == pushed.grid.queue.gone - g.queue.gone
  {
    var at := g.ArrivalAt(now, horizon);
    var c' := g.core.Push(p, at);
    CorePushReachable(g.core, p, at);
    AddRefines(g.queue, g.core.log, c'.log, g.core.openBase, Frontier(g.core), g.capacity);
    hide Core.Push, Flows, Increasing, Ordered, Extends, Refines, AddedRun, Frontier;
  }

  lemma CorePushReachable(c: Core, p: Packet, at: Arrival)
    requires Flows(c) && Ordered(c)
    ensures
      var c' := c.Push(p, at);
      && Flows(c') && Ordered(c') && Extends(c, c')
      && |c.log| <= |c'.log| && c'.log[..|c.log|] == c.log && c.placedBase == BaseAt(c.log, |c.log|)
      && AddedRun(c'.log[|c.log|..], c.openBase, Frontier(c))
  {
    hide Core.Push, Flows;
    PushFlows(c, p, at);
    PushExtends(c, p, at);
    ExtendsKeepsOrder(c, c.Push(p, at));
  }

  lemma TakeReachable(g: Grid, slot: nat)
    requires Reachable(g)
    ensures Reachable(g.Take(slot)) && Answers(g.queue, g.core.log, slot, g.queue.Take(slot))
  {
    TakeRefines(g.queue, g.core.log, slot);
    ReachBounds(g.core.log, g.queue.gone, slot);
    hide Queue.Take, Flows, Reach;
  }

  lemma {:induction false} RunReachable(g: Grid, events: seq<Event>)
    requires Reachable(g)
    ensures Reachable(Run(g, events))
    decreases |events|
  {
    if events == [] {
    } else {
      assert Reachable(Step(g, events[0])) by {
        match events[0] {
          case Push(p, now, horizon) => PushReachable(g, p, now, horizon);
          case Take(slot) => TakeReachable(g, slot);
          case GrowTo(_) =>
        }
      }
      RunReachable(Step(g, events[0]), events[1..]);
    }
  }

  /** In any run, whatever was taken late, evicted or cut: placed slots strictly
      increase, and a take hands over a packet exactly as the log tagged it when it was
      placed, on the base in force when its run's PCR arrived and marked as starting
      that base exactly when the packet placed before it was on another. */
  lemma TakenPacketsCarryTheirTag(m: SlotMap, capacity: nat, events: seq<Event>, slot: nat)
    ensures
      var g := Run(NewGrid(m, capacity), events);
      var content := g.queue.Take(slot).content;
      && Increasing(g.core.log)
      && (content.Some? ==>
            exists i | 0 <= i < |g.core.log| :: g.core.log[i].slot == slot && content.value == Tagged(g.core.log, i))
  {
    var g := Run(NewGrid(m, capacity), events);
    NewGridReachable(m, capacity);
    RunReachable(NewGrid(m, capacity), events);
    TakeReachable(g, slot);
    hide Queue.Take, Tagged, Refines, Flows, Increasing;
  }

  // ---- Completeness ----

  /** Nothing at or past `asked`, the next slot to be asked for, has left the queue. */
  ghost predicate Complete(q: Queue, log: seq<Placement>, asked: nat) {
    q.gone <= |log| && forall i | 0 <= i < q.gone :: log[i].slot < asked
  }

  lemma ReachIsLookup(log: seq<Placement>, gone: nat, slot: nat)
    requires Increasing(log) && gone <= |log|
    requires forall i | 0 <= i < gone :: log[i].slot < slot
    ensures
      var i := Reach(log, gone, slot);
      var due := i < |log| && log[i].slot == slot;
      && Lookup(log, slot) == (if due then Some(Tagged(log, i)) else None)
      && (forall j | 0 <= j < (if due then i + 1 else i) :: log[j].slot <= slot)
  {
    var i := Reach(log, gone, slot);
    ReachBounds(log, gone, slot);
    if i < |log| && log[i].slot == slot {
      LookupAt(log, i);
    } else {
      LookupNothing(log, slot);
    }
  }

  /** With nothing evicted and slots asked for in order, a slot yields exactly what the
      log holds for it, and only placements made after their slot had been asked for are
      ever late. */
  lemma TakeIsLookup(q: Queue, log: seq<Placement>, slot: nat)
    requires Refines(q, log) && Increasing(log) && Complete(q, log, slot)
    ensures q.Take(slot).content == Lookup(log, slot)
    ensures Complete(q.Take(slot).queue, log, slot + 1)
  {
    TakeRefines(q, log, slot);
    ReachIsLookup(log, q.gone, slot);
    hide Refines, Queue.Take, Lookup, Tagged, Reach;
  }

  /** Nothing still queued, or still to be placed, lies before `asked`. */
  ghost predicate Swept(gone: nat, log: seq<Placement>, asked: nat) {
    forall i | gone <= i < |log| :: log[i].slot >= asked
  }

  lemma TakeSweeps(q: Queue, log: seq<Placement>, slot: nat)
    requires Refines(q, log) && Increasing(log)
    ensures Swept(q.Take(slot).queue.gone, log, slot + 1)
  {
    TakeRefines(q, log, slot);
    ReachBounds(log, q.gone, slot);
    hide Refines, Queue.Take, Tagged;
  }

  /** Once the slots before `asked` have been asked for and the leg knows them (as when
      it has sent them), no packet of theirs leaves the queue again: whatever is taken,
      dropped as late or evicted over any later run lies at or past `asked`. */
  lemma {:induction false} NoLateDropFromSentSlots(g: Grid, events: seq<Event>, gone: nat, asked: nat)
    requires Reachable(g) && asked <= Frontier(g.core)
    requires gone <= g.queue.gone && Swept(gone, g.core.log, asked)
    ensures
      var g' := Run(g, events);
      gone <= g'.queue.gone && Swept(gone, g'.core.log, asked)
    decreases |events|
  {
    if events == [] {
    } else {
      var e := events[0];
      match e {
        case Push(p, now, horizon) => PushSweeps(g, p, now, horizon, gone, asked);
        case Take(slot) => TakeReachable(g, slot);
        case GrowTo(_) =>
      }
      NoLateDropFromSentSlots(Step(g, e), events[1..], gone, asked);
    }
  }

  lemma PushSweeps(g: Grid, p: Packet, now: nat, horizon: Option<nat>, gone: nat, asked: nat)
    requires Reachable(g) && asked <= Frontier(g.core)
    requires gone <= g.queue.gone && Swept(gone, g.core.log, asked)
    ensures
      var g' := g.Push(p, now, horizon).grid;
      && Reachable(g') && asked <= Frontier(g'.core)
      && gone <= g'.queue.gone && Swept(gone, g'.core.log, asked)
  {
    hide Reachable, Core.Push, Frontier;
    PushReachable(g, p, now, horizon);
    var c, c' := g.core, g.Push(p, now, horizon).grid.core;
    var added := c'.log[|c.log|..];
    assert c'.log == c.log + added;
  }
}
