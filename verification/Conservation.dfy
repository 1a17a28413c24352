/** Nothing is lost unaccounted for, nothing is reordered (src/scheduler.rs, `enqueue`,
    `emit_datagram`, `admit`, `catch_up`). */
module Conservation {
  import opened Prelude
  import opened Packets
  import opened GridSpec
  import opened SchedulerSpec
  import Displacement

  function SlottedPackets(placed: seq<Slotted>): (p: seq<Packet>)
    ensures |p| == |placed|
    ensures forall i | 0 <= i < |p| :: p[i] == placed[i].packet
  {
    seq(|placed|, i requires 0 <= i < |placed| => placed[i].packet)
  }

  function QueuedPackets(deferred: seq<Queued>): (p: seq<Packet>)
    ensures |p| == |deferred|
    ensures forall i | 0 <= i < |p| :: p[i] == deferred[i].packet
  {
    seq(|deferred|, i requires 0 <= i < |deferred| => deferred[i].packet)
  }

  /** Every packet on the grid: placed, then the run still being gathered. */
  function OnGrid(g: Grid): seq<Packet> {
    SlottedPackets(g.queue.placed) + g.core.run
  }

  function InStore(store: Store): seq<Packet> {
    match store
    case Gridded(grid) => OnGrid(grid)
    case Buffered(buffer) => buffer.queue
  }

  /** Every packet still in the scheduler or already put in a slot, oldest first. */
  function Pipeline(s: Sched): seq<Packet> {
    s.out + QueuedPackets(s.em.deferred) + InStore(s.store)
  }

  function CutOf(store: Store): nat {
    match store
    case Gridded(grid) => grid.core.cut
    case Buffered(_) => 0
  }

  /** Packets lost, by cause: for want of room or of a grid, behind their slot, or with a
      run that had no closing PCR. */
  function Lost(s: Sched): nat {
    s.stats.dropped + s.stats.late + CutOf(s.store)
  }

  // ---- The grid ----

  /** One thing becomes another by losing `lost` elements, order kept. */
  ghost predicate Sheds<T(!new)>(before: seq<T>, after: seq<T>, lost: int) {
    && |before| == |after| + lost
    && forall front: seq<T>, whole: seq<T> :: Subsequence(front + before, whole) ==> Subsequence(front + after, whole)
  }

  lemma ShedNothing<T(!new)>(x: seq<T>)
    ensures Sheds(x, x, 0)
  {
  }

  lemma ShedMiddle<T(!new)>(x: seq<T>, gone: seq<T>, y: seq<T>)
    ensures Sheds(x + gone + y, x + y, |gone|)
  {
    forall front: seq<T>, whole: seq<T> | Subsequence(front + (x + gone + y), whole)
      ensures Subsequence(front + (x + y), whole)
    {
      assert front + (x + gone + y) == front + x + gone + y;
      assert front + (x + y) == front + x + y;
      SubsequenceCut(front + x, gone, y, whole);
    }
  }

  lemma ShedTwice<T(!new)>(x: seq<T>, y: seq<T>, z: seq<T>, a: int, b: int)
    requires Sheds(x, y, a) && Sheds(y, z, b)
    ensures Sheds(x, z, a + b)
  {
  }

  lemma SpreadPackets(c: Core, open: nat, next: nat)
    requires c.run != []
    ensures
      var log := c.CloseRun(open, next).log;
      && |log| == |c.log| + |c.run|
      && SlottedPackets(Slots(log[|c.log|..])) == c.run
  {
    Displacement.SpreadShape(c.run, 0, open, SatSub(next, open), c.nextFree, c.openBase, c.openWraps);
    var placed := Spread(c.run, 0, open, SatSub(next, open), c.nextFree, c.openBase, c.openWraps);
    assert c.CloseRun(open, next).log[|c.log|..] == placed;
    hide Spread;
    forall k | 0 <= k < |placed|
      ensures placed[k].packet == c.run[k]
    {
      assert Displacement.PlacedFrom(placed[k], c.run[0 + k], c.openBase, c.openWraps, open);
    }
  }

  lemma AddKeepsOrder(q: Queue, added: seq<Placement>, base: int, capacity: nat, run: seq<Packet>)
    requires SlottedPackets(Slots(added)) == run
    ensures
      var a := q.Add(added, base, capacity);
      && a.dropped <= |q.placed| + |run|
      && SlottedPackets(a.queue.placed) == (SlottedPackets(q.placed) + run)[a.dropped..]
  {
    var all := q.placed + Slots(added);
    assert SlottedPackets(all) == SlottedPackets(q.placed) + run;
    var over := q.Add(added, base, capacity).dropped;
    assert SlottedPackets(all[over..]) == SlottedPackets(all)[over..];
  }

  ghost predicate RunOnlyWhenOpen(c: Core) {
    c.clock.open.None? ==> c.run == []
  }

  lemma GridPushPlain(g: Grid, p: Packet, now: nat, horizon: Option<nat>)
    requires p.pcr.None? && |g.queue.placed| <= g.capacity && RunOnlyWhenOpen(g.core)
    ensures
      var pushed := g.Push(p, now, horizon);
      && Sheds(OnGrid(g) + [p], OnGrid(pushed.grid), pushed.dropped + pushed.grid.core.cut - g.core.cut)
      && RunOnlyWhenOpen(pushed.grid.core) && |pushed.grid.queue.placed| <= pushed.grid.capacity
      && pushed.grid.core.cut >= g.core.cut
  {
    var g' := g.Push(p, now, horizon).grid;
    assert g.queue.placed + Slots([]) == g.queue.placed;
    if g.core.clock.open.Some? {
      assert OnGrid(g) + [p] == OnGrid(g');
      ShedNothing(OnGrid(g'));
    } else {
      assert OnGrid(g) + [p] + [] == OnGrid(g) + [p];
      ShedMiddle(OnGrid(g), [p], []);
      assert OnGrid(g) + [] == OnGrid(g');
    }
  }

  /** A run that ends is placed whole and in order, or cut whole. */
  lemma EndRunPackets(c: Core, aim: Aim)
    requires RunOnlyWhenOpen(c)
    ensures
      var c' := c.EndRun(aim);
      var placed := if |c.log| <= |c'.log| then SlottedPackets(Slots(c'.log[|c.log|..])) else [];
      && |c.log| <= |c'.log|
      && ((placed == c.run && c'.cut == c.cut) || (placed == [] && c'.cut == c.cut + |c.run|))
  {
    if c.clock.open.Some? && !(aim.afterSilence || c.Misses(aim)) && c.run != [] {
      SpreadPackets(c, c.clock.open.value.slot, aim.slot);
    }
  }

  lemma TurnPackets(g: Grid, p: Packet, now: nat, horizon: Option<nat>)
    requires p.pcr.Some? && RunOnlyWhenOpen(g.core)
    ensures
      var pushed := g.Push(p, now, horizon);
      var added := pushed.grid.core.log[|g.core.log|..];
      var placed := SlottedPackets(Slots(added));
      && pushed == g.Push(p, now, horizon)
      && pushed.grid.core.run == [p] && pushed.grid.core.clock.open.Some? && pushed.grid.capacity == g.capacity
      && Added(pushed.grid.queue, pushed.dropped) == g.queue.Add(added, g.core.placedBase, g.capacity)
      && ((placed == g.core.run && pushed.grid.core.cut == g.core.cut)
          || (placed == [] && pushed.grid.core.cut == g.core.cut + |g.core.run|))
  {
    hide Core.EndRun, SlotFor, Queue.Add;
    EndRunPackets(g.core.Noted(p), g.core.Noted(p).Aims(p, g.ArrivalAt(now, horizon)));
  }

  lemma GridPushPcr(g: Grid, p: Packet, now: nat, horizon: Option<nat>)
    requires p.pcr.Some? && |g.queue.placed| <= g.capacity && RunOnlyWhenOpen(g.core)
    ensures
      var pushed := g.Push(p, now, horizon);
      && Sheds(OnGrid(g) + [p], OnGrid(pushed.grid), pushed.dropped + pushed.grid.core.cut - g.core.cut)
      && RunOnlyWhenOpen(pushed.grid.core) && |pushed.grid.queue.placed| <= pushed.grid.capacity
      && pushed.grid.core.cut >= g.core.cut
  {
    var pushed := g.Push(p, now, horizon);
    TurnPackets(g, p, now, horizon);
    hide Grid.Push;
    var added := pushed.grid.core.log[|g.core.log|..];
    var placed := SlottedPackets(Slots(added));
    var before := SlottedPackets(g.queue.placed);
    AddKeepsOrder(g.queue, added, g.core.placedBase, g.capacity, placed);
    assert OnGrid(pushed.grid) == (before + placed)[pushed.dropped..] + [p];
    if placed == g.core.run && pushed.grid.core.cut == g.core.cut {
      ShedOldest(before, g.core.run, p, pushed.dropped);
    } else {
      ShedRun(before, g.core.run, p, pushed.dropped);
    }
  }

  /** A run placed whole behind what was queued, the oldest making way. */
  lemma ShedOldest(before: seq<Packet>, run: seq<Packet>, p: Packet, over: nat)
    requires over <= |before + run|
    ensures Sheds(before + run + [p], (before + run)[over..] + [p], over)
  {
    hide Sheds;
    var all := before + run;
    assert all + [p] == [] + all[..over] + (all[over..] + [p]);
    ShedMiddle([], all[..over], all[over..] + [p]);
    assert [] + (all[over..] + [p]) == all[over..] + [p];
  }

  /** A run cut whole, and the oldest of what was queued making way. */
  lemma ShedRun(before: seq<Packet>, run: seq<Packet>, p: Packet, over: nat)
    requires over <= |before|
    ensures Sheds(before + run + [p], (before + [])[over..] + [p], over + |run|)
  {
    hide Sheds;
    ShedMiddle(before, run, [p]);
    ShedOldest(before, [], p, over);
    assert before + [] == before;
    ShedTwice(before + run + [p], before + [p], before[over..] + [p], |run|, over);
  }

  /** A take removes from the front what it drops as late and what it hands over. */
  lemma {:induction false} TakeRemoves(q: Queue, slot: nat)
    ensures
      var taken := q.Take(slot);
      var out := if taken.content.Some? then 1 else 0;
      && taken.late + out <= |q.placed|
      && taken.queue.placed == q.placed[taken.late + out..]
      && (taken.content.Some? ==> taken.content.value.packet == q.placed[taken.late].packet)
    decreases |q.placed|
  {
    hide PopBases;
    if q.placed == [] || q.placed[0].slot >= slot {
    } else {
      TakeRemoves(q.Behead(), slot);
      var later := q.Behead().Take(slot);
      assert forall n | 0 <= n < |q.placed| :: q.placed[1..][n..] == q.placed[n + 1..];
    }
  }

  // ---- The scheduler ----

  ghost predicate StoreSound(s: Sched) {
    match s.store
    case Gridded(grid) => s.cfg.streamed && RunOnlyWhenOpen(grid.core) && |grid.queue.placed| <= grid.capacity
    case Buffered(buffer) => !s.cfg.streamed && |buffer.queue| <= buffer.capacity
  }

  /** Every accepted packet is in an output slot, waiting, or lost to a counted cause; and
      those put out and those waiting are in the order they came. */
  ghost predicate Conserves(s: Sched) {
    && StoreSound(s)
    && Subsequence(Pipeline(s), s.input)
    && |s.input| == |Pipeline(s)| + Lost(s)
  }

  /** The sent packets by kind, and under arrival clocking every slot. */
  ghost predicate Accounts(s: Sched) {
    && s.stats.output == s.stats.content + s.stats.nulls + s.stats.inserted
    && s.stats.content <= |s.out|
    && (!s.cfg.streamed ==>
          s.slot == s.stats.output + s.stats.muted && s.stats.content == |s.out| && s.stats.withheld == 0)
  }

  lemma ConservedBy(s: Sched, s': Sched, lost: int)
    requires Conserves(s) && StoreSound(s') && s'.input == s.input
    requires Sheds(Pipeline(s), Pipeline(s'), lost) && Lost(s') == Lost(s) + lost
    ensures Conserves(s')
  {
    hide Pipeline, Lost, StoreSound;
    assert [] + Pipeline(s) == Pipeline(s) && [] + Pipeline(s') == Pipeline(s');
  }

  lemma AcceptedBy(s: Sched, s': Sched, p: Packet, lost: int)
    requires Conserves(s) && StoreSound(s') && s'.input == s.input + [p]
    requires Sheds(Pipeline(s) + [p], Pipeline(s'), lost) && Lost(s') == Lost(s) + lost
    ensures Conserves(s')
  {
    hide Pipeline, Lost, StoreSound;
    SubsequenceGrows(Pipeline(s), s.input, p);
    assert [] + (Pipeline(s) + [p]) == Pipeline(s) + [p] && [] + Pipeline(s') == Pipeline(s');
  }

  /** Losing something behind a prefix is losing it. */
  lemma ShedBehind<T(!new)>(front: seq<T>, x: seq<T>, y: seq<T>, lost: int)
    requires Sheds(x, y, lost)
    ensures Sheds(front + x, front + y, lost)
  {
    forall f: seq<T>, whole: seq<T> | Subsequence(f + (front + x), whole)
      ensures Subsequence(f + (front + y), whole)
    {
      assert f + (front + x) == f + front + x && f + (front + y) == f + front + y;
    }
  }

  lemma StoreTakesPacket(s: Sched, p: Packet, now: nat)
    requires StoreSound(s)
    ensures
      var s' := s.Stored(p, now);
      && StoreSound(s') && s'.out == s.out && s'.em == s.em && s'.input == s.input && s'.cfg == s.cfg
      && Lost(s') >= Lost(s)
      && Sheds(InStore(s.store) + [p], InStore(s'.store), Lost(s') - Lost(s))
  {
    hide Grid.Push, OnGrid, RunOnlyWhenOpen;
    var s' := s.Stored(p, now);
    match s.store {
      case Gridded(grid) =>
        var horizon := if s.Started() then Some(s.slot + s.cfg.maxLatency) else None;
        if p.pcr.Some? {
          GridPushPcr(grid, p, now, horizon);
        } else {
          GridPushPlain(grid, p, now, horizon);
        }
      case Buffered(buffer) =>
        var q := buffer.queue;
        if |q| >= buffer.capacity {
          assert [] + q[..1] + (q[1..] + [p]) == q + [p];
          ShedMiddle([], q[..1], q[1..] + [p]);
          assert [] + (q[1..] + [p]) == q[1..] + [p];
        } else {
          ShedNothing(q + [p]);
        }
    }
  }

  lemma EnqueueConserves(s: Sched, p: Packet, now: nat)
    requires Conserves(s)
    ensures Conserves(s.Enqueue(p, now))
  {
    if p.pid == NULL_PID {
      ShedNothing(Pipeline(s));
      ConservedBy(s, s.Enqueue(p, now), 0);
    } else {
      var a := s.Resumed().Accepted(p, now);
      var s' := s.Enqueue(p, now);
      StoreTakesPacket(a, p, now);
      hide Sched.Stored, Subsequence;
      var front := s.out + QueuedPackets(s.em.deferred);
      ShedBehind(front, InStore(s.store) + [p], InStore(s'.store), Lost(s') - Lost(s));
      assert front + (InStore(s.store) + [p]) == Pipeline(s) + [p];
      AcceptedBy(s, s', p, Lost(s') - Lost(s));
    }
  }

  lemma FlushConserves(s: Sched)
    requires Conserves(s)
    ensures Conserves(s.Flush())
  {
    if s.store.Gridded? {
      var g := s.store.grid;
      var front := s.out + QueuedPackets(s.em.deferred) + SlottedPackets(g.queue.placed);
      ShedMiddle(front, g.core.run, []);
      assert front + g.core.run + [] == Pipeline(s) && front + [] == Pipeline(s.Flush());
      ConservedBy(s, s.Flush(), |g.core.run|);
    }
  }

  lemma DeferOne(deferred: seq<Queued>, q: Queued)
    ensures QueuedPackets(deferred + [q]) == QueuedPackets(deferred) + [q.packet]
  {
  }

  /** Late packets go from the front of the queue; the one due moves up behind those
      already let out. */
  lemma TakeShifts(done: seq<Packet>, deferred: seq<Queued>, q: Queue, run: seq<Packet>, slot: nat)
    ensures
      var taken := q.Take(slot);
      var deferred' := if taken.content.Some? then deferred + [taken.content.value] else deferred;
      Sheds(done + QueuedPackets(deferred) + (SlottedPackets(q.placed) + run),
            done + QueuedPackets(deferred') + (SlottedPackets(taken.queue.placed) + run), taken.late)
  {
    hide Queue.Take, Sheds;
    TakeRemoves(q, slot);
    var taken := q.Take(slot);
    var placed, late := SlottedPackets(q.placed), taken.late;
    var front, rest := done + QueuedPackets(deferred), placed[late..] + run;
    assert placed == placed[..late] + placed[late..];
    assert front + placed[..late] + rest == front + (placed + run);
    if taken.content.Some? {
      DeferOne(deferred, taken.content.value);
      assert rest == [placed[late]] + (placed[late + 1..] + run);
      assert SlottedPackets(taken.queue.placed) == placed[late + 1..];
      assert front + rest == done + (QueuedPackets(deferred) + [placed[late]]) + (placed[late + 1..] + run);
    } else {
      assert SlottedPackets(taken.queue.placed) == placed[late..];
    }
    ShedMiddle(front, placed[..late], rest);
  }

  lemma AdmitConserves(s: Sched, want: bool)
    requires Conserves(s)
    ensures Conserves(s.Admit(want))
  {
    hide Queue.Take, Subsequence, Sheds, SlottedPackets;
    var s' := s.Admit(want);
    match s.store {
      case Gridded(grid) =>
        TakeShifts(s.out, s.em.deferred, grid.queue, grid.core.run, s.slot);
        TakeRemoves(grid.queue, s.slot);
        ConservedBy(s, s', grid.queue.Take(s.slot).late);
      case Buffered(buffer) =>
        if want && buffer.queue != [] {
          DeferOne(s.em.deferred, Queued(buffer.queue[0], Base(0, false)));
          assert Pipeline(s') == Pipeline(s);
        }
    }
  }

  lemma PutConserves(s: Sched, x: Ctx, want: bool, admitted: bool)
    requires Conserves(s)
    ensures Conserves(PutSlot(s, x, want, admitted).s)
  {
    hide FillSlot, Reinserts, Subsequence;
    var s' := PutSlot(s, x, want, admitted).s;
    assert Pipeline(s') == Pipeline(s);
  }

  lemma {:induction false} SlotsConserve(s: Sched, n: nat, x: Ctx)
    requires Conserves(s)
    ensures Conserves(EmitSlots(s, n, x).s)
  {
    if n == 0 {
    } else {
      SlotsConserve(s, n - 1, x);
      var b := EmitSlots(s, n - 1, x).s;
      hide Conserves, PutSlot, Sched.Admit;
      var want := b.released < x.due;
      AdmitConserves(b, want);
      PutConserves(b.Admit(want), x, want, |b.Admit(want).em.deferred| > |b.em.deferred|);
    }
  }

  lemma CatchUpConserves(s: Sched, now: nat)
    requires Conserves(s)
    ensures Conserves(s.CatchUp(now))
  {
    var s' := s.CatchUp(now);
    if s' != s {
      hide Subsequence;
      ShedMiddle(s.out, QueuedPackets(s.em.deferred), InStore(s.store));
      assert Pipeline(s') == s.out + InStore(s.store);
      ConservedBy(s, s', |s.em.deferred|);
    }
  }

  lemma SameConserves(s: Sched, s': Sched)
    requires Conserves(s)
    requires s'.out == s.out && s'.em.deferred == s.em.deferred && s'.store == s.store && s'.input == s.input
    requires s'.cfg == s.cfg && s'.stats.late == s.stats.late && s'.stats.dropped == s.stats.dropped
    ensures Conserves(s')
  {
  }

  lemma EmitConserves(s: Sched, now: nat, due: nat)
    requires Conserves(s)
    ensures Conserves(EmitDatagram(s, now, due).s)
  {
    hide Conserves, EmitSlots, Sched.CatchUp, Opens;
    var caught := s.CatchUp(now);
    var x := Opens(caught, now, due);
    CatchUpConserves(s, now);
    SameConserves(caught, Opening(caught, x));
    SlotsConserve(Opening(caught, x), s.cfg.perDatagram, x);
    SlotsConserve(Opening(caught, x), caught.cfg.perDatagram, x);
    var e := EmitSlots(Opening(caught, x), caught.cfg.perDatagram, x).s;
    CatchUpKeepsConfig(s, now);
    SameConserves(e, e.(stats := e.stats.(withheld := e.stats.withheld + s.cfg.perDatagram)));
  }

  lemma CatchUpKeepsConfig(s: Sched, now: nat)
    ensures s.CatchUp(now).cfg == s.cfg
  {
  }

  /** In every state reached by any calls at any times: the accepted packets are those in
      output slots, waiting, or lost to a counted cause, and what was put out, then what
      waits, is an in-order part of the input. */
  lemma {:induction false} RunConserves(s: Sched, calls: seq<Call>)
    requires Conserves(s)
    ensures Conserves(RunCalls(s, calls))
    decreases |calls|
  {
    hide Conserves, EmitDatagram, Sched.Enqueue;
    if calls == [] {
    } else {
      match calls[0] {
        case Enqueue(p, now) => EnqueueConserves(s, p, now);
        case Emit(now, due) => EmitConserves(s, now, due);
        case Mute(now) => SameConserves(s, AdvanceMuted(s, now));
      }
      RunConserves(Do(s, calls[0]), calls[1..]);
    }
  }

  lemma NewConserves(cfg: Config)
    ensures Conserves(NewSched(cfg)) && Accounts(NewSched(cfg))
  {
    assert Pipeline(NewSched(cfg)) == [];
  }

  // ---- What was sent ----

  lemma AdmitTouches(s: Sched, want: bool)
    ensures
      var a := s.Admit(want);
      && a.cfg == s.cfg && a.slot == s.slot && a.out == s.out && a.pid == s.pid && a.regen == s.regen
      && a.input == s.input && a.store.Gridded? == s.store.Gridded?
      && a.stats == s.stats.(late := a.stats.late)
      && a.em == s.em.(deferred := a.em.deferred)
  {
  }

  lemma SlotAccounts(s: Sched, x: Ctx)
    requires Accounts(s) && (!s.cfg.streamed ==> x.send)
    ensures Accounts(EmitSlot(s, x).s) && EmitSlot(s, x).s.cfg == s.cfg
  {
    hide Sched.Admit, FillSlot, Reinserts;
    AdmitTouches(s, s.released < x.due);
  }

  lemma {:induction false} SlotsAccount(s: Sched, n: nat, x: Ctx)
    requires Accounts(s) && (!s.cfg.streamed ==> x.send)
    ensures Accounts(EmitSlots(s, n, x).s) && EmitSlots(s, n, x).s.cfg == s.cfg
  {
    hide Accounts, EmitSlot;
    if n == 0 {
    } else {
      SlotsAccount(s, n - 1, x);
      SlotAccounts(EmitSlots(s, n - 1, x).s, x);
    }
  }

  lemma EmitAccounts(s: Sched, now: nat, due: nat)
    requires Accounts(s) && s.cfg.streamed == s.store.Gridded?
    ensures Accounts(EmitDatagram(s, now, due).s)
  {
    hide EmitSlots;
    var caught := s.CatchUp(now);
    var x := Opens(caught, now, due);
    SlotsAccount(Opening(caught, x), s.cfg.perDatagram, x);
  }

  lemma EnqueueAccounts(s: Sched, p: Packet, now: nat)
    requires Accounts(s) && s.cfg.streamed == s.store.Gridded?
    ensures Accounts(s.Enqueue(p, now))
  {
    hide Grid.Push, Grid.HasContent, Sched.Boundary;
  }

  /** In every state reached by any calls at any times: packets sent are content,
      stuffing and re-inserted PCRs; and under arrival clocking every slot was sent or
      muted, none was withheld, and every content packet put out was sent. */
  lemma {:induction false} RunAccounts(s: Sched, calls: seq<Call>)
    requires Conserves(s) && Accounts(s)
    ensures Conserves(RunCalls(s, calls)) && Accounts(RunCalls(s, calls))
    decreases |calls|
  {
    RunConserves(s, calls);
    if calls == [] {
    } else {
      RunConserves(s, [calls[0]]);
      assert RunCalls(Do(s, calls[0]), [calls[0]][1..]) == Do(s, calls[0]);
      assert s.cfg.streamed == s.store.Gridded?;
      hide Conserves, EmitDatagram, Sched.Enqueue;
      match calls[0] {
        case Enqueue(p, now) => EnqueueAccounts(s, p, now);
        case Emit(now, due) => EmitAccounts(s, now, due);
        case Mute(now) =>
      }
      RunAccounts(Do(s, calls[0]), calls[1..]);
    }
  }

  /** The same, from a new scheduler, and once more after its source has ended. */
  lemma EverythingIsAccountedFor(cfg: Config, calls: seq<Call>)
    ensures
      var s := RunCalls(NewSched(cfg), calls);
      && Conserves(s) && Accounts(s) && Conserves(s.Flush())
      && |s.input| == |s.out| + |s.em.deferred| + |InStore(s.store)| + Lost(s)
      && s.stats.output == s.stats.content + s.stats.nulls + s.stats.inserted
      && (!cfg.streamed ==> s.slot == s.stats.output + s.stats.muted)
  {
    NewConserves(cfg);
    RunAccounts(NewSched(cfg), calls);
    RunKeepsConfig(NewSched(cfg), calls);
    FlushConserves(RunCalls(NewSched(cfg), calls));
    hide RunCalls, Subsequence, InStore, Lost;
  }

  lemma {:induction false} RunKeepsConfig(s: Sched, calls: seq<Call>)
    ensures RunCalls(s, calls).cfg == s.cfg
    decreases |calls|
  {
    hide EmitDatagram, Grid.Push, Grid.HasContent;
    if calls == [] {
    } else {
      if calls[0].Emit? {
        EmitKeepsConfig(s, calls[0].now, calls[0].due);
      }
      RunKeepsConfig(Do(s, calls[0]), calls[1..]);
    }
  }

  lemma EmitKeepsConfig(s: Sched, now: nat, due: nat)
    ensures EmitDatagram(s, now, due).s.cfg == s.cfg
  {
    hide EmitSlots;
    var caught := s.CatchUp(now);
    SlotsKeepConfig(Opening(caught, Opens(caught, now, due)), s.cfg.perDatagram, Opens(caught, now, due));
  }

  lemma {:induction false} SlotsKeepConfig(s: Sched, n: nat, x: Ctx)
    ensures EmitSlots(s, n, x).s.cfg == s.cfg
  {
    hide Sched.Admit, FillSlot, Reinserts;
    if n == 0 {
    } else {
      SlotsKeepConfig(s, n - 1, x);
      var b := EmitSlots(s, n - 1, x).s;
      AdmitTouches(b, b.released < x.due);
    }
  }

  // ---- What was accepted ----

  /** The packets a run takes in: stuffing is stripped. */
  function PacketsIn(calls: seq<Call>): seq<Packet>
    decreases |calls|
  {
    if calls == [] then []
    else
      var rest := PacketsIn(calls[1..]);
      if calls[0].Enqueue? && calls[0].packet.pid != NULL_PID then [calls[0].packet] + rest else rest
  }

  lemma {:induction false} InputIsPacketsIn(s: Sched, calls: seq<Call>)
    ensures RunCalls(s, calls).input == s.input + PacketsIn(calls)
    decreases |calls|
  {
    hide Do;
    if calls == [] {
      assert s.input + [] == s.input;
    } else {
      CallInput(s, calls[0]);
      InputIsPacketsIn(Do(s, calls[0]), calls[1..]);
      var first := if calls[0].Enqueue? && calls[0].packet.pid != NULL_PID then [calls[0].packet] else [];
      assert s.input + first + PacketsIn(calls[1..]) == s.input + (first + PacketsIn(calls[1..]));
      assert PacketsIn(calls) == first + PacketsIn(calls[1..]);
    }
  }

  lemma CallInput(s: Sched, call: Call)
    ensures Do(s, call).input
         == s.input + if call.Enqueue? && call.packet.pid != NULL_PID then [call.packet] else []
  {
    hide EmitSlots, Grid.Push, Grid.HasContent, Sched.Boundary;
    if call.Emit? {
      var caught := s.CatchUp(call.now);
      var x := Opens(caught, call.now, call.due);
      SlotsKeepInput(Opening(caught, x), s.cfg.perDatagram, x);
    }
  }

  lemma {:induction false} SlotsKeepInput(s: Sched, n: nat, x: Ctx)
    ensures EmitSlots(s, n, x).s.input == s.input
  {
    hide Sched.Admit, FillSlot, Transmit;
    if n == 0 {
    } else {
      SlotsKeepInput(s, n - 1, x);
      var b := EmitSlots(s, n - 1, x).s;
      AdmitTouches(b, b.released < x.due);
    }
  }
}
