/** Which packets a stream-clocked leg counts late (src/scheduler.rs, `take`, `catch_up`,
    `emit_datagram`): those the queue discards behind their slot, and, when the clock jumps
    to the live edge, those let out but not yet sent. Each is followed by its place in the
    placement log, so that the counter can be read packet by packet. */
module Lateness {
  import opened Prelude
  import opened Packets
  import opened GridSpec
  import opened SchedulerSpec
  import opened TwoLegs
  import opened Departures
  import GridQueue
  import Pair

  /** Places in the log: of the packets let out but not yet sent, oldest first, and of every
      packet counted late so far. */
  datatype Tally = Tally(owed: seq<nat>, late: seq<nat>)

  function Newest(x: seq<nat>, n: nat): seq<nat> {
    if n <= |x| then x[|x| - n..] else x
  }

  function Places(from: nat, n: nat): (r: seq<nat>)
    ensures |r| == n && forall k | 0 <= k < n :: r[k] == from + k
  {
    seq(n, k => from + k)
  }

  /** A slot discards from the queue what lies behind it, and lets out what is due. */
  function AdmitTally(s: Sched, t: Tally): Tally
    requires s.store.Gridded?
  {
    var taken := s.store.grid.queue.Take(s.slot);
    Tally(t.owed + Places(Gone(s) + taken.late, if taken.content.Some? then 1 else 0),
          t.late + Places(Gone(s), taken.late))
  }

  function SlotTally(s: Sched, x: Ctx, t: Tally): Tally
    requires s.store.Gridded?
  {
    var admitted := AdmitTally(s, t);
    admitted.(owed := Newest(admitted.owed, |EmitSlot(s, x).s.em.deferred|))
  }

  function SlotsTally(s: Sched, n: nat, x: Ctx, t: Tally): Tally {
    if n == 0 then t
    else
      var before := EmitSlots(s, n - 1, x).s;
      var told := SlotsTally(s, n - 1, x, t);
      if before.store.Gridded? then SlotTally(before, x, told) else told
  }

  /** The clock jumps: the leg holds more stream than its buffer may be deep, and a release
      latency back from the live edge is past where it stands. */
  predicate Jumps(s: Sched, now: nat) {
    && s.store.Gridded? && s.store.grid.HasContent()
    && var placed := s.store.grid.queue.placed;
       var edge := placed[|placed| - 1].slot;
       SatSub(edge, s.slot) > s.cfg.maxLatency && s.Boundary(SatSub(edge, s.cfg.latency)) > s.slot
  }

  function CaughtTally(s: Sched, now: nat, t: Tally): Tally {
    if Jumps(s, now) then Tally([], t.late + t.owed) else t
  }

  function CallTally(s: Sched, call: Call, t: Tally): Tally {
    match call
    case Enqueue(_, _) => t
    case Mute(_) => t
    case Emit(now, due) =>
      var caught := s.CatchUp(now);
      var x := Opens(caught, now, due);
      SlotsTally(Opening(caught, x), s.cfg.perDatagram, x, CaughtTally(s, now, t))
  }

  function RunTally(s: Sched, calls: seq<Call>, t: Tally): Tally
    decreases |calls|
  {
    if calls == [] then t else RunTally(Do(s, calls[0]), calls[1..], CallTally(s, calls[0], t))
  }

  function TallyOf(cfg: Config, calls: seq<Call>): Tally {
    RunTally(NewSched(cfg), calls, Tally([], []))
  }

  /** The tally is the scheduler's: one entry for every packet its counter has counted, and
      one for every packet it has waiting, tagged as the log has it there. */
  ghost predicate Tallies(s: Sched, t: Tally) {
    && Leg(s) && |t.late| == s.stats.late && |t.owed| == |s.em.deferred|
    && Gone(s) <= |LogOf(s)| && (forall i <- t.late :: i < Gone(s))
    && forall k | 0 <= k < |t.owed| ::
         t.owed[k] < Gone(s) && s.em.deferred[k] == GridQueue.Tagged(LogOf(s), t.owed[k])
  }

  /** From `t` to `t'` only packets the queue held were counted late. */
  ghost predicate LateFromQueue(s: Sched, t: Tally, t': Tally)
    requires s.store.Gridded?
  {
    t.late <= t'.late && forall k | |t.late| <= k < |t'.late| :: Gone(s) <= t'.late[k] < |LogOf(s)|
  }

  /** What a slot discards and lets out are the next places in the log. */
  lemma TakeIsNext(s: Sched)
    requires Leg(s)
    ensures
      var q, log := s.store.grid.queue, LogOf(s);
      var taken := q.Take(s.slot);
      var let := if taken.content.Some? then 1 else 0;
      && taken.queue.gone == q.gone + taken.late + let && taken.queue.gone <= |log|
      && (taken.content.Some? ==>
            taken.content.value == GridQueue.Tagged(log, q.gone + taken.late)
            && log[q.gone + taken.late].slot == s.slot)
  {
    hide GridQueue.Reachable, Queue.Take, GridQueue.Tagged;
    ReachableParts(s.store.grid);
    GridQueue.TakeReachable(s.store.grid, s.slot);
  }

  lemma AdmitTallies(s: Sched, want: bool, t: Tally)
    requires Tallies(s, t)
    ensures
      var a := s.Admit(want);
      && Tallies(a, AdmitTally(s, t)) && LateFromQueue(s, t, AdmitTally(s, t)) && Gone(a) >= Gone(s)
  {
    hide GridQueue.Reachable, Queue.Take, GridQueue.Tagged;
    TakeIsNext(s);
    AdmitKeepsLeg(s, want);
  }

  lemma PutTallies(s: Sched, x: Ctx, want: bool, admitted: bool, t: Tally)
    requires Tallies(s, t) && Leg(PutSlot(s, x, want, admitted).s)
    ensures
      var s' := PutSlot(s, x, want, admitted).s;
      && Tallies(s', t.(owed := Newest(t.owed, |s'.em.deferred|))) && Gone(s') == Gone(s) && LogOf(s') == LogOf(s)
  {
    hide Leg, GridQueue.Tagged, FillSlot, Counted;
    PutLeavesStore(s, x, want, admitted);
    LateIsKept(s, x, want, admitted);
  }

  lemma LateIsKept(s: Sched, x: Ctx, want: bool, admitted: bool)
    ensures PutSlot(s, x, want, admitted).s.stats.late == s.stats.late
  {
    hide FillSlot, Transmit;
  }

  lemma SlotTallies(s: Sched, x: Ctx, t: Tally)
    requires Tallies(s, t)
    ensures
      var s' := EmitSlot(s, x).s;
      && Tallies(s', SlotTally(s, x, t)) && LateFromQueue(s, t, SlotTally(s, x, t)) && SameStream(s, s')
      && Gone(s') >= Gone(s)
  {
    hide Leg, Sched.Admit, PutSlot, AdmitTally, GridQueue.Tagged;
    var want := s.released < x.due;
    var a := s.Admit(want);
    SlotKeepsLeg(s, x);
    AdmitTallies(s, want, t);
    PutTallies(a, x, want, |a.em.deferred| > |s.em.deferred|, AdmitTally(s, t));
  }

  lemma {:induction false} SlotsTallies(s: Sched, n: nat, x: Ctx, t: Tally)
    requires Tallies(s, t)
    ensures
      var s' := EmitSlots(s, n, x).s;
      && Tallies(s', SlotsTally(s, n, x, t)) && LateFromQueue(s, t, SlotsTally(s, n, x, t)) && SameStream(s, s')
      && Gone(s') >= Gone(s)
  {
    hide Leg, EmitSlot, SlotTally, GridQueue.Tagged;
    LegGridded(s);
    if n == 0 {
      SameAsItself(s);
    } else {
      SlotsTallies(s, n - 1, x, t);
      SlotTallies(EmitSlots(s, n - 1, x).s, x, SlotsTally(s, n - 1, x, t));
    }
  }

  lemma CaughtTallies(s: Sched, now: nat, due: nat, t: Tally)
    requires Tallies(s, t)
    ensures
      var caught := s.CatchUp(now);
      && Tallies(Opening(caught, Opens(caught, now, due)), CaughtTally(s, now, t))
      && s.store.Gridded? && caught.store == s.store
  {
    hide GridQueue.Reachable, GridQueue.Tagged, Opens, Sched.Boundary;
    var t' := CaughtTally(s, now, t);
    if Jumps(s, now) {
      forall i | i in t'.late
        ensures i < Gone(s)
      {
        assert i in t.late || i in t.owed;
      }
    }
  }

  /** A datagram's slots, and the jump that may come before them. */
  lemma EmitTallies(s: Sched, now: nat, due: nat, t: Tally)
    requires Tallies(s, t)
    ensures Tallies(EmitDatagram(s, now, due).s, CallTally(s, Emit(now, due), t))
    ensures s.store.Gridded? && LateFromQueue(s, CaughtTally(s, now, t), CallTally(s, Emit(now, due), t))
  {
    hide Leg, EmitSlots, SlotsTally, Opens, CaughtTally, Sched.CatchUp, GridQueue.Tagged;
    var caught := s.CatchUp(now);
    var x := Opens(caught, now, due);
    CaughtTallies(s, now, due, t);
    SlotsTallies(Opening(caught, x), s.cfg.perDatagram, x, CaughtTally(s, now, t));
    EmitKeepsLeg(s, now, due);
    CatchUpKeepsConfig(s, now);
  }

  lemma CatchUpKeepsConfig(s: Sched, now: nat)
    ensures s.CatchUp(now).cfg == s.cfg
  {
  }

  lemma TagStands(log: seq<Placement>, log': seq<Placement>, i: nat)
    requires i < |log| <= |log'| && log'[..|log|] == log
    ensures GridQueue.Tagged(log', i) == GridQueue.Tagged(log, i)
  {
    assert log'[i] == log'[..|log|][i] && (i > 0 ==> log'[i - 1] == log'[..|log|][i - 1]);
  }

  lemma EnqueueTallies(s: Sched, p: Packet, now: nat, t: Tally)
    requires Tallies(s, t)
    ensures Tallies(s.Enqueue(p, now), t)
  {
    hide Leg, GridQueue.Tagged, Sched.Enqueue;
    var s' := s.Enqueue(p, now);
    EnqueueGrows(s, p, now);
    LegGridded(s);
    LegGridded(s');
    GoneIsPlaced(s');
    EnqueueDefersNothing(s, p, now);
    forall k | 0 <= k < |t.owed|
      ensures s'.em.deferred[k] == GridQueue.Tagged(LogOf(s'), t.owed[k])
    {
      TagStands(LogOf(s), LogOf(s'), t.owed[k]);
    }
  }

  lemma EnqueueDefersNothing(s: Sched, p: Packet, now: nat)
    ensures s.Enqueue(p, now).em == s.em && s.Enqueue(p, now).stats.late == s.stats.late
  {
    hide Grid.Push, Sched.Boundary;
  }

  lemma MuteTallies(s: Sched, now: nat, t: Tally)
    requires Tallies(s, t)
    ensures Tallies(AdvanceMuted(s, now), t)
  {
    hide GridQueue.Reachable, GridQueue.Tagged, Sched.State;
  }

  lemma CallTallies(s: Sched, call: Call, t: Tally)
    requires Tallies(s, t)
    ensures Tallies(Do(s, call), CallTally(s, call, t))
  {
    hide Tallies, EmitDatagram, Sched.Enqueue, AdvanceMuted;
    match call {
      case Enqueue(p, now) => EnqueueTallies(s, p, now, t);
      case Emit(now, due) => EmitTallies(s, now, due, t);
      case Mute(now) => MuteTallies(s, now, t);
    }
  }

  lemma {:induction false} RunTallies(s: Sched, calls: seq<Call>, t: Tally)
    requires Tallies(s, t)
    ensures Tallies(RunCalls(s, calls), RunTally(s, calls, t))
    decreases |calls|
  {
    hide Tallies, Do, CallTally;
    if calls == [] {
    } else {
      CallTallies(s, calls[0], t);
      RunTallies(Do(s, calls[0]), calls[1..], CallTally(s, calls[0], t));
    }
  }

  lemma NewTallies(cfg: Config)
    requires cfg.streamed
    ensures Tallies(NewSched(cfg), Tally([], []))
  {
    NewLeg(cfg);
    hide GridQueue.Reachable;
  }

  /** The packets a call counts late. */
  function NewlyLate(s: Sched, call: Call, t: Tally): seq<nat> {
    var after := CallTally(s, call, t).late;
    if |t.late| <= |after| then after[|t.late|..] else []
  }

  lemma TailSplits(x: seq<nat>, y: seq<nat>, z: seq<nat>)
    requires x + y <= z
    ensures |x| <= |z| && z[|x|..] == y + z[|x + y|..]
  {
    assert z == x + y + z[|x + y|..];
  }

  /** A datagram counts late what waits, if the clock jumps, and then what the queue drops. */
  lemma EmitsLate(s: Sched, now: nat, due: nat, t: Tally)
    requires Tallies(s, t)
    ensures
      var caught, t' := CaughtTally(s, now, t), CallTally(s, Emit(now, due), t);
      && s.store.Gridded? && LateFromQueue(s, caught, t')
      && NewlyLate(s, Emit(now, due), t) == (if Jumps(s, now) then t.owed else []) + t'.late[|caught.late|..]
  {
    hide Tallies, CallTally, Jumps;
    EmitTallies(s, now, due, t);
    var waiting := if Jumps(s, now) then t.owed else [];
    assert t.late + waiting == CaughtTally(s, now, t).late;
    TailSplits(t.late, waiting, CallTally(s, Emit(now, due), t).late);
  }

  /** Past a finished slot only a jump counts a packet late, and then all that wait. */
  lemma LateExactlyWhenOvertaken(s: Sched, call: Call, t: Tally, gone: nat, asked: nat, i: nat)
    requires Tallies(s, t) && Finished(s, gone, asked)
    requires s.store.Gridded? && i < |LogOf(s)| && LogOf(s)[i].slot < asked
    ensures i in NewlyLate(s, call, t) <==> call.Emit? && Jumps(s, call.now) && i in t.owed
  {
    hide Leg, Tallies, GridQueue.Frontier, Jumps, SlotsTally, CaughtTally;
    match call {
      case Enqueue(_, _) =>
      case Mute(_) =>
      case Emit(now, due) =>
        EmitsLate(s, now, due, t);
        NotQueued(s, CaughtTally(s, now, t), CallTally(s, call, t), gone, asked, i);
    }
  }

  /** A jump counts all that wait at once. */
  lemma JumpCountsAll(s: Sched, now: nat, due: nat, t: Tally)
    requires Tallies(s, t) && Jumps(s, now)
    ensures EmitDatagram(s, now, due).s.stats.late >= s.stats.late + |s.em.deferred|
  {
    hide Leg, EmitDatagram, GridQueue.Tagged, Jumps, CallTally;
    EmitTallies(s, now, due, t);
  }

  lemma NotQueued(s: Sched, t: Tally, t': Tally, gone: nat, asked: nat, i: nat)
    requires s.store.Gridded? && LateFromQueue(s, t, t') && gone <= Gone(s)
    requires GridQueue.Swept(gone, LogOf(s), asked) && i < |LogOf(s)| && LogOf(s)[i].slot < asked
    ensures i !in t'.late[|t.late|..]
  {
  }

  /** A leg goes through a datagram whose slots it knows, sent or withheld, and then through
      any calls. Of the packets it placed in those slots or before, the next call counts
      late exactly those that wait to be sent still, behind a re-inserted PCR, when that
      call's clock jumps; and the tally this is read from is the scheduler's own count, and
      its own queue of packets that wait. */
  lemma SentSlotsLateExactlyWhenOvertaken(
    cfg: Config, before: seq<Call>, now: nat, due: nat, after: seq<Call>, call: Call, i: nat)
    requires cfg.streamed
    requires
      var s := RunCalls(NewSched(cfg), before);
      Opens(s.CatchUp(now), now, due).determined
    requires
      var sent := EmitDatagram(RunCalls(NewSched(cfg), before), now, due).s;
      var s := RunCalls(sent, after);
      s.store.Gridded? && i < |LogOf(s)| && LogOf(s)[i].slot < sent.slot
    ensures
      var s := RunCalls(EmitDatagram(RunCalls(NewSched(cfg), before), now, due).s, after);
      var t := TallyOf(cfg, before + [Emit(now, due)] + after);
      && Tallies(s, t) && Tallies(Do(s, call), CallTally(s, call, t))
      && (i in NewlyLate(s, call, t) <==> call.Emit? && Jumps(s, call.now) && i in t.owed)
  {
    hide RunCalls, RunTally, EmitDatagram, Opens, Sched.CatchUp, Do, CallTally, Tallies, Jumps, NewlyLate;
    var calls, s0 := before + [Emit(now, due)], RunCalls(NewSched(cfg), before);
    var sent := EmitDatagram(s0, now, due).s;
    var s := RunCalls(sent, after);
    SentStaysFinished(cfg, before, now, due, after);
    Pair.RunJoins(NewSched(cfg), calls, after);
    Pair.RunJoins(NewSched(cfg), before, [Emit(now, due)]);
    OneEmit(s0, now, due);
    NewTallies(cfg);
    RunTallies(NewSched(cfg), calls + after, Tally([], []));
    var t := TallyOf(cfg, calls + after);
    CallTallies(s, call, t);
    LateExactlyWhenOvertaken(s, call, t, Gone(sent), sent.slot, i);
  }

  lemma OneEmit(s: Sched, now: nat, due: nat)
    ensures RunCalls(s, [Emit(now, due)]) == EmitDatagram(s, now, due).s
  {
    hide EmitDatagram;
    assert [Emit(now, due)][1..] == [];
  }
}
