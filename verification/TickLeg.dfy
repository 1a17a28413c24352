/** Schedulers from new on a stream of a packet a slot (src/scheduler.rs, `Scheduler`): fed
    all of it and then asked for datagrams, where each stands and what it sends. */
module TickLegs {
  import opened Prelude
  import opened Packets
  import opened GridSpec
  import opened SchedulerSpec
  import opened TwoLegs
  import opened Pair
  import opened TickStreams
  import Conservation
  import GridQueue
  import Paths

  // ---- Calls ----

  /** Packets enqueued one after another at `at`. */
  function Feed(packets: seq<Packet>, at: nat): seq<Call> {
    if packets == [] then [] else Feed(packets[..|packets| - 1], at) + [Enqueue(packets[|packets| - 1], at)]
  }

  /** `n` datagrams asked for at `now`. */
  function Emits(n: nat, now: nat, due: nat): seq<Call> {
    if n == 0 then [] else Emits(n - 1, now, due) + [Emit(now, due)]
  }

  lemma {:induction false} AcceptedJoin(a: seq<Call>, b: seq<Call>)
    ensures Conservation.PacketsIn(a + b) == Conservation.PacketsIn(a) + Conservation.PacketsIn(b)
    decreases |a|
  {
    if a == [] {
      assert a + b == b;
    } else {
      assert (a + b)[1..] == a[1..] + b;
      AcceptedJoin(a[1..], b);
    }
  }

  lemma AcceptedOne(call: Call)
    ensures Conservation.PacketsIn([call]) == if call.Enqueue? && call.packet.pid != NULL_PID then [call.packet] else []
  {
    assert [call][1..] == [];
  }

  lemma {:induction false} FeedIsAccepted(packets: seq<Packet>, at: nat)
    requires forall p <- packets :: p.pid != NULL_PID
    ensures Conservation.PacketsIn(Feed(packets, at)) == packets
  {
    if packets == [] {
    } else {
      var front, last := packets[..|packets| - 1], packets[|packets| - 1];
      FeedIsAccepted(front, at);
      AcceptedJoin(Feed(front, at), [Enqueue(last, at)]);
      AcceptedOne(Enqueue(last, at));
    }
  }

  lemma {:induction false} EmitsAcceptNothing(n: nat, now: nat, due: nat)
    ensures Conservation.PacketsIn(Emits(n, now, due)) == []
  {
    if n == 0 {
    } else {
      EmitsAcceptNothing(n - 1, now, due);
      AcceptedJoin(Emits(n - 1, now, due), [Emit(now, due)]);
      AcceptedOne(Emit(now, due));
    }
  }

  // ---- Fed, and nothing else yet ----

  function Fresh(): Emission {
    Emission([], None, 0, 0, false)
  }

  /** A leg that has only been fed: nothing emitted, nothing gone from its queue. */
  ghost predicate OnlyFed(s: Sched) {
    Leg(s) && !s.Started() && s.em == Fresh() && s.store.grid.queue.gone == 0 && EvictedBy(s) == 0
  }

  lemma NewIsOnlyFed(cfg: Config)
    requires cfg.streamed
    ensures OnlyFed(NewSched(cfg))
  {
    NewLeg(cfg);
    hide GridQueue.Reachable;
  }

  lemma OnlyFedEnqueue(s: Sched, p: Packet, at: nat)
    requires OnlyFed(s) && p.pid == STREAM_PID
    requires |LogOf(s.Enqueue(p, at))| <= s.store.grid.capacity
    ensures
      var s' := s.Enqueue(p, at);
      && OnlyFed(s') && s'.store.grid.capacity == s.store.grid.capacity && s'.cfg == s.cfg
      && (s.pid == Some(STREAM_PID) || (p.pcr.Some? && s.pid.None?) ==> s'.pid == Some(STREAM_PID))
  {
    hide GridQueue.Reachable, Sched.Boundary, Core.Push;
    EnqueueGrows(s, p, at);
    FedGrid(s, p, at);
    RoomEnough(s.store.grid, p, at);
  }

  lemma FedGrid(s: Sched, p: Packet, at: nat)
    requires s.store.Gridded? && !s.Started() && p.pid != NULL_PID
    ensures
      var s' := s.Enqueue(p, at);
      && s'.store == Gridded(s.store.grid.Push(p, at, None).grid) && s'.em == s.em && s'.cfg == s.cfg
      && s'.pid == (if s.pid.None? && p.pcr.Some? then Some(p.pid) else s.pid)
  {
    hide Grid.Push, Sched.Boundary;
    var a := s.Resumed().Accepted(p, at);
    assert !a.Started() && a.store == s.store;
  }

  lemma RoomEnough(g: Grid, p: Packet, at: nat)
    requires GridQueue.Reachable(g) && g.queue.gone == 0 && g.evicted == 0
    requires |g.Push(p, at, None).grid.core.log| <= g.capacity
    ensures
      var g' := g.Push(p, at, None).grid;
      g'.queue.gone == 0 && g'.evicted == 0 && g'.capacity == g.capacity
  {
    hide Core.Push;
    PushExtendsLog(g.core, p, g.ArrivalAt(at, None));
  }

  lemma {:induction false} FeedGrows(s: Sched, packets: seq<Packet>, at: nat)
    requires Leg(s)
    ensures Leg(RunCalls(s, Feed(packets, at)))
    ensures |LogOf(s)| <= |LogOf(RunCalls(s, Feed(packets, at)))|
  {
    hide Leg, Sched.Enqueue, RunCalls;
    if packets == [] {
      NothingRun(s);
      LegIsGridded(s);
    } else {
      var front, last := packets[..|packets| - 1], packets[|packets| - 1];
      FeedGrows(s, front, at);
      FeedOne(s, front, last, at);
      EnqueueGrows(RunCalls(s, Feed(front, at)), last, at);
    }
  }

  lemma NothingRun(s: Sched)
    ensures RunCalls(s, []) == s
  {
  }

  lemma FeedOne(s: Sched, front: seq<Packet>, last: Packet, at: nat)
    ensures RunCalls(s, Feed(front + [last], at)) == RunCalls(s, Feed(front, at)).Enqueue(last, at)
  {
    hide RunCalls, Sched.Enqueue;
    assert (front + [last])[..|front|] == front;
    RunJoins(s, Feed(front, at), [Enqueue(last, at)]);
    RunOne(RunCalls(s, Feed(front, at)), Enqueue(last, at));
  }

  lemma RunOne(s: Sched, call: Call)
    ensures RunCalls(s, [call]) == Do(s, call)
  {
    hide Do;
    assert [call][1..] == [];
    NothingRun(Do(s, call));
  }

  /** Fed packets on the clock's PID, the first with a PCR, never more than it has room for. */
  lemma {:induction false} FedLeg(cfg: Config, packets: seq<Packet>, at: nat)
    requires cfg.streamed && forall p <- packets :: p.pid == STREAM_PID
    requires packets != [] ==> packets[0].pcr.Some?
    requires
      var s := RunCalls(NewSched(cfg), Feed(packets, at));
      s.store.Gridded? && |LogOf(s)| <= cfg.maxLatency
    ensures
      var s := RunCalls(NewSched(cfg), Feed(packets, at));
      && OnlyFed(s) && s.store.grid.capacity == cfg.maxLatency && s.cfg == cfg
      && s.pid == if packets == [] then None else Some(STREAM_PID)
  {
    hide RunCalls, OnlyFed, Sched.Enqueue;
    NewIsOnlyFed(cfg);
    if packets == [] {
      NothingRun(NewSched(cfg));
    } else {
      var front, last := packets[..|packets| - 1], packets[|packets| - 1];
      var before := RunCalls(NewSched(cfg), Feed(front, at));
      assert packets == front + [last];
      FeedOne(NewSched(cfg), front, last, at);
      NewLeg(cfg);
      WholeIsLeg(NewSched(cfg));
      FeedGrows(NewSched(cfg), front, at);
      EnqueueGrows(before, last, at);
      FedLeg(cfg, front, at);
      OnlyFedEnqueue(before, last, at);
      if front != [] {
        assert packets[0] == front[0];
      }
    }
  }

  lemma FedPositions(s: Sched, p: Packet, at: nat)
    requires s.store.Gridded? && !s.Started() && p.pid != NULL_PID
    ensures
      var s' := s.Enqueue(p, at);
      && s'.store.Gridded? && s'.cfg == s.cfg
      && (s'.store.grid.HasContent() ==>
            var placed := s'.store.grid.queue.placed;
            s'.slot == s.Boundary(Max(SatSub(placed[|placed| - 1].slot, s.cfg.latency), placed[0].slot)))
  {
    hide Grid.Push;
    var a := s.Resumed().Accepted(p, at);
    assert !a.Started() && a.store == s.store;
  }

  lemma QueueIsLog(s: Sched)
    requires OnlyFed(s)
    ensures
      var placed := s.store.grid.queue.placed;
      |placed| == |LogOf(s)| && forall i | 0 <= i < |placed| :: placed[i].slot == LogOf(s)[i].slot
    ensures Whole(s)
  {
    hide GridQueue.Marks;
    assert LogOf(s)[0..] == LogOf(s);
  }

  /** A configuration the streams suit: a packet a datagram, and a slot a tick. */
  predicate Suits(c: Config) {
    c.streamed && c.regenerate && c.m == TickRate() && c.perDatagram == 1
  }

  /** A stream of a packet a slot that ends in a PCR, so that all before it is placed. */
  predicate Closed(packets: seq<Packet>, start: nat) {
    OnTheTick(packets, start) && |packets| > 1 && packets[|packets| - 1].pcr.Some?
  }

  /** What a grid fed such a stream holds. */
  function PlacedOf(packets: seq<Packet>, start: nat): seq<Placement>
    requires packets != []
  {
    InOrder(packets[..|packets| - 1], start)
  }

  lemma ClosedIsPlaced(packets: seq<Packet>, start: nat)
    requires Closed(packets, start)
    ensures
      var c := Paths.Fed(NewCore(TickRate()), packets);
      && Ticking(c, start, start + |packets| - 1, start + |packets|)
      && c.log == PlacedOf(packets, start) && c.run == [packets[|packets| - 1]]
  {
    hide Paths.Fed, NewCore, Ticking, InOrder;
    FedTicks(packets, start);
  }

  lemma TicksAreOnTheClock(packets: seq<Packet>, start: nat)
    requires OnTheTick(packets, start)
    ensures forall p <- packets :: p.pid == STREAM_PID
  {
    forall p | p in packets
      ensures p.pid == STREAM_PID
    {
      var i :| 0 <= i < |packets| && packets[i] == p;
      assert Ticks(packets[i], start + i);
    }
  }

  /** Where a leg stands that has been fed a stream of `n` packets from `start`. */
  function StartOf(c: Config, n: nat, start: nat): nat {
    Max(SatSub(start + SatSub(n, 2), c.latency), start)
  }

  /** A leg with the stream's placements on its grid, the last PCR's run open. */
  ghost predicate Holds(s: Sched, packets: seq<Packet>, start: nat)
    requires packets != []
  {
    && Suits(s.cfg) && s.pid == Some(STREAM_PID) && Whole(s)
    && LogOf(s) == PlacedOf(packets, start) && s.store.grid.core.run == [packets[|packets| - 1]]
    && Ticking(s.store.grid.core, start, start + |packets| - 1, start + |packets|)
  }

  lemma StreamIsFed(c: Config, packets: seq<Packet>, start: nat, at: nat)
    requires Suits(c) && Closed(packets, start) && c.maxLatency >= |packets| - 1
    ensures
      var s := RunCalls(NewSched(c), Feed(packets, at));
      && OnlyFed(s) && Holds(s, packets, start) && s.cfg == c
      && s.store.grid.queue.placed != []
      && s.store.grid.queue.placed[0].slot == start
      && s.store.grid.queue.placed[|s.store.grid.queue.placed| - 1].slot == start + |packets| - 2
  {
    hide RunCalls, OnlyFed, Leg, Sched.Enqueue, Ticking, Paths.Fed, Paths.QuietStream, Conservation.PacketsIn, Feed;
    var s := RunCalls(NewSched(c), Feed(packets, at));
    NewLeg(c);
    WholeIsLeg(NewSched(c));
    TicksAreQuiet(None, packets, start);
    TicksAreOnTheClock(packets, start);
    FeedIsAccepted(packets, at);
    CallsFeedTheGrid(NewSched(c), Feed(packets, at));
    LegIsGridded(s);
    ClosedIsPlaced(packets, start);
    FedLeg(c, packets, at);
    QueueIsLog(s);
  }

  lemma FrontIsFed(c: Config, front: seq<Packet>, last: Packet, at: nat)
    requires c.streamed
    requires OnlyFed(RunCalls(NewSched(c), Feed(front + [last], at)))
    ensures
      var s := RunCalls(NewSched(c), Feed(front, at));
      s.store.Gridded? && !s.Started() && s.cfg == c
  {
    hide RunCalls, Leg, Sched.Enqueue, Feed;
    NewLeg(c);
    WholeIsLeg(NewSched(c));
    FeedGrows(NewSched(c), front, at);
    var s := RunCalls(NewSched(c), Feed(front, at));
    LegIsGridded(s);
    FeedOne(NewSched(c), front, last, at);
    EnqueueGrows(s, last, at);
    Conservation.RunKeepsConfig(NewSched(c), Feed(front, at));
  }

  /** Fed a whole stream, a leg stands a release latency back from its live edge. */
  lemma FedStands(c: Config, packets: seq<Packet>, start: nat, at: nat)
    requires Suits(c) && Closed(packets, start) && c.maxLatency >= |packets| - 1
    ensures
      var s := RunCalls(NewSched(c), Feed(packets, at));
      && Holds(s, packets, start) && s.cfg == c && s.em == Fresh() && s.store.Gridded? && EvictedBy(s) == 0
      && s.slot == StartOf(c, |packets|, start)
  {
    hide RunCalls, Leg, Whole, Sched.Enqueue, Feed, Holds, OnTheTick;
    var front, last := packets[..|packets| - 1], packets[|packets| - 1];
    StreamIsFed(c, packets, start, at);
    assert packets == front + [last];
    FeedOne(NewSched(c), front, last, at);
    FrontIsFed(c, front, last, at);
    TicksAreOnTheClock(packets, start);
    FedPositions(RunCalls(NewSched(c), Feed(front, at)), last, at);
    HoldsGrid(RunCalls(NewSched(c), Feed(packets, at)), packets, start);
  }

  lemma HoldsGrid(s: Sched, packets: seq<Packet>, start: nat)
    requires packets != [] && Holds(s, packets, start)
    ensures s.store.Gridded? && Leg(s) && s.pid == Some(STREAM_PID) && Suits(s.cfg)
  {
  }

  // ---- Asked for datagrams ----

  /** The leg knows what the stream puts in its next slot. */
  ghost predicate Knows(s: Sched, packets: seq<Packet>, start: nat)
    requires packets != []
  {
    Holds(s, packets, start) && s.cfg.maxLatency >= |packets| - 1 && start <= s.slot < start + |packets| - 1
  }

  lemma KnowsHasContent(s: Sched, packets: seq<Packet>, start: nat)
    requires packets != [] && Knows(s, packets, start)
    ensures
      && s.store.Gridded?
      && var placed := s.store.grid.queue.placed;
         placed != [] && placed[|placed| - 1].slot == start + |packets| - 2
  {
    hide GridQueue.Marks, Ticking;
    var q, log := s.store.grid.queue, LogOf(s);
    assert log[|log| - 1].slot == start + |packets| - 2;
    assert q.gone < |log|;
    assert Slots(log[q.gone..])[|log| - q.gone - 1].slot == log[|log| - 1].slot;
  }

  lemma KnowsOpens(s: Sched, packets: seq<Packet>, start: nat, now: nat, due: nat)
    requires packets != [] && Knows(s, packets, start)
    ensures s.CatchUp(now) == s && Opens(s, now, due).determined && Opens(s, now, due).send == s.em.phased
  {
    hide Whole, InOrder;
    KnowsHasContent(s, packets, start);
  }

  /** What the slot does, sent or withheld. */
  lemma KnowsEmits(s: Sched, packets: seq<Packet>, start: nat, now: nat, due: nat)
    requires packets != [] && Knows(s, packets, start)
    ensures
      var e := EmitDatagram(s, now, due);
      var slot := PureSlot(s.cfg, s.pid, s.em, s.slot, PlacedOf(packets, start));
      && e.s.em == slot.em && e.s.slot == s.slot + 1 && e.s.cfg == s.cfg
      && Holds(e.s, packets, start) && e.s.Started()
      && (s.em.phased ==> e.cells == [slot.cell])
      && e.s.store.Gridded? && s.store.Gridded? && EvictedBy(e.s) == EvictedBy(s)
  {
    hide EmitDatagram, Opens, PureSlot, PlacedOf, Sched.CatchUp, Leg, Whole, Ticking;
    KnowsOpens(s, packets, start, now, due);
    WholeIsLeg(s);
    KnownDatagramIsPure(s, now, due);
    EmitKeepsLeg(s, now, due);
    PureOne(s.cfg, s.pid, s.em, s.slot, PlacedOf(packets, start));
    if s.em.phased {
      SentIsPure(s, now, due);
    }
  }

  lemma {:induction false} KnowsEmitsAll(s: Sched, packets: seq<Packet>, start: nat, n: nat, now: nat, due: nat)
    requires packets != [] && Knows(s, packets, start) && s.slot + n < start + |packets|
    ensures
      var s' := RunCalls(s, Emits(n, now, due));
      && Holds(s', packets, start) && s'.slot == s.slot + n && s'.cfg == s.cfg
      && (n > 0 ==> s'.Started())
      && s'.store.Gridded? && s.store.Gridded? && EvictedBy(s') == EvictedBy(s)
      && s'.em == PureSlots(s.cfg, s.pid, s.em, s.slot, n, PlacedOf(packets, start)).em
  {
    hide Holds, EmitDatagram, PureSlot, PlacedOf, RunCalls;
    HoldsGrid(s, packets, start);
    if n == 0 {
      NothingRun(s);
    } else {
      var b := RunCalls(s, Emits(n - 1, now, due));
      KnowsEmitsAll(s, packets, start, n - 1, now, due);
      HoldsGrid(b, packets, start);
      KnowsEmits(b, packets, start, now, due);
      RunJoins(s, Emits(n - 1, now, due), [Emit(now, due)]);
      RunOne(b, Emit(now, due));
    }
  }

  /** Fed a stream and then asked for `n` datagrams, a leg has filled `n` slots from it. */
  lemma FedThenAsked(c: Config, packets: seq<Packet>, start: nat, n: nat, at: nat, now: nat, due: nat)
    requires Suits(c) && Closed(packets, start) && c.maxLatency >= |packets| - 1
    requires StartOf(c, |packets|, start) + n < start + |packets|
    ensures
      var s := RunCalls(NewSched(c), Feed(packets, at) + Emits(n, now, due));
      var from := StartOf(c, |packets|, start);
      && Holds(s, packets, start) && s.cfg == c && s.slot == from + n && (n > 0 ==> s.Started())
      && s.store.Gridded? && EvictedBy(s) == 0
      && s.em == PureSlots(c, Some(STREAM_PID), Fresh(), from, n, PlacedOf(packets, start)).em
  {
    hide RunCalls, PureSlots, PlacedOf, Holds, Feed, Emits, OnTheTick;
    FedStands(c, packets, start, at);
    var fed := RunCalls(NewSched(c), Feed(packets, at));
    RunJoins(NewSched(c), Feed(packets, at), Emits(n, now, due));
    HoldsGrid(fed, packets, start);
    KnowsEmitsAll(fed, packets, start, n, now, due);
  }

  /** And has been given the stream and nothing else. */
  lemma FedThenAskedAccepts(packets: seq<Packet>, start: nat, n: nat, at: nat, now: nat, due: nat)
    requires OnTheTick(packets, start)
    ensures Conservation.PacketsIn(Feed(packets, at) + Emits(n, now, due)) == packets
  {
    hide Feed, Emits, Conservation.PacketsIn;
    TicksAreOnTheClock(packets, start);
    FeedIsAccepted(packets, at);
    EmitsAcceptNothing(n, now, due);
    AcceptedJoin(Feed(packets, at), Emits(n, now, due));
  }

  lemma PureOne(c: Config, pid: Option<Pid>, e: Emission, index: nat, log: seq<Placement>)
    ensures
      var slot := PureSlot(c, pid, e, index, log);
      PureSlots(c, pid, e, index, 1, log) == PureCells(slot.em, [slot.cell])
  {
    hide PureSlot;
    assert PureSlots(c, pid, e, index, 0, log) == PureCells(e, []);
  }

  lemma OneDatagram(s: Sched, now: nat, due: nat)
    ensures SentBy(s, [Emit(now, due)]) == [Datagram(FramingOf(s), EmitDatagram(s, now, due).cells)]
    ensures StaysInPhase(s, [Emit(now, due)]) <==> Opens(s.CatchUp(now), now, due).send
  {
    hide EmitDatagram, Opens, Sched.CatchUp;
    assert [Emit(now, due)][1..] == [];
  }
}
