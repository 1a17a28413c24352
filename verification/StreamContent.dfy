/** What a stream-clocked leg puts in its slots (src/scheduler.rs, `emit_datagram`): the
    packets it placed, each once, with the clock and the mark of its own place in the log. */
module StreamContents {
  import opened Prelude
  import opened Packets
  import opened GridSpec
  import opened SchedulerSpec
  import opened TwoLegs
  import opened Departures
  import opened Lateness
  import opened Insertions
  import GridQueue
  import PcrRegens
  import StreamClocks

  /** What is put in a slot, `place` being where in the log its packet is. Content is a packet
      placed there or before, whose clock is the slot's own on the time base it was placed
      on, marked where that base starts. An inserted PCR is on `base`. */
  predicate Streamed(c: Config, put: Put, place: Option<nat>, base: int, log: seq<Placement>) {
    match put.cell
    case Content(p, clock, mark) =>
      && place.Some? && place.value < |log| && p == log[place.value].packet
      && log[place.value].base <= log[place.value].slot <= put.slot
      && (if c.regenerate && p.pcr.Some?
          then
            && clock == Some(c.m.PcrOfSlot(put.slot - log[place.value].base))
            && (mark <==> log[place.value].base != GridQueue.BaseAt(log, place.value))
          else clock == None && !mark)
    case PcrOnly(_, _, pcr) => place.None? && base <= put.slot && pcr == c.m.PcrOfSlot(put.slot - base)
    case Null => place.None?
  }

  /** The time base of the last content PCR. */
  function BaseNow(cell: Cell, place: Option<nat>, base: int, log: seq<Placement>): int {
    if cell.Content? && cell.packet.pcr.Some? && place.Some? && place.value < |log| then log[place.value].base else base
  }

  function Next(place: Option<nat>, next: nat): nat {
    if place.Some? then place.value + 1 else next
  }

  /** Where the packets in a row of slots are in the log. */
  type Places = seq<Option<nat>>

  /** Every slot of a row is filled so, no place before `next` or twice, `base` being that of
      the last content PCR before. */
  predicate Streams(c: Config, puts: seq<Put>, places: Places, next: nat, base: int, log: seq<Placement>)
    decreases |puts|
  {
    if puts == [] then places == []
    else
      && places != [] && Streamed(c, puts[0], places[0], base, log)
      && (places[0].Some? ==> places[0].value >= next)
      && Streams(c, puts[1..], places[1..], Next(places[0], next), BaseNow(puts[0].cell, places[0], base, log), log)
  }

  function BaseAfter(puts: seq<Put>, places: Places, base: int, log: seq<Placement>): int
    decreases |puts|
  {
    if puts == [] || places == [] then base
    else BaseAfter(puts[1..], places[1..], BaseNow(puts[0].cell, places[0], base, log), log)
  }

  function NextAfter(places: Places, next: nat): nat
    decreases |places|
  {
    if places == [] then next else NextAfter(places[1..], Next(places[0], next))
  }

  lemma {:induction false} StreamsJoin(c: Config, a: seq<Put>, b: seq<Put>, x: Places, y: Places, next: nat, base: int,
      log: seq<Placement>)
    requires Streams(c, a, x, next, base, log)
    requires Streams(c, b, y, NextAfter(x, next), BaseAfter(a, x, base, log), log)
    ensures Streams(c, a + b, x + y, next, base, log)
    ensures NextAfter(x + y, next) == NextAfter(y, NextAfter(x, next))
    ensures BaseAfter(a + b, x + y, base, log) == BaseAfter(b, y, BaseAfter(a, x, base, log), log)
    decreases |a|
  {
    hide Streamed, BaseNow, Next;
    if a == [] {
      assert a + b == b && x + y == y;
    } else {
      assert (a + b)[1..] == a[1..] + b && (x + y)[1..] == x[1..] + y;
      StreamsJoin(c, a[1..], b, x[1..], y, Next(x[0], next), BaseNow(a[0].cell, x[0], base, log), log);
    }
  }

  lemma OneStreams(c: Config, put: Put, place: Option<nat>, next: nat, base: int, log: seq<Placement>)
    requires Streamed(c, put, place, base, log) && (place.Some? ==> place.value >= next)
    ensures Streams(c, [put], [place], next, base, log) && NextAfter([place], next) == Next(place, next)
    ensures BaseAfter([put], [place], base, log) == BaseNow(put.cell, place, base, log)
  {
    hide Streamed, BaseNow, Next;
    assert [put][1..] == [] && [place][1..] == [];
    assert NextAfter([], Next(place, next)) == Next(place, next);
  }

  // ---- What waits ----

  ghost predicate BasesBehind(log: seq<Placement>) {
    forall k | 0 <= k < |log| :: log[k].base <= log[k].slot
  }

  /** What waits is in its order in the log, nothing of it put out before, and placed where
      the leg has got to; an inserted PCR would be on `base`. */
  ghost predicate Owes(s: Sched, t: Tally, next: nat, base: int, log: seq<Placement>) {
    && Tallies(s, t) && s.store.Gridded? && LogOf(s) <= log && next <= Gone(s) && base <= s.slot
    && (forall k | 0 <= k < |t.owed| :: next <= t.owed[k] < |log| && log[t.owed[k]].slot <= s.slot)
    && (forall j, k | 0 <= j < k < |t.owed| :: t.owed[j] < t.owed[k])
    && (s.cfg.regenerate ==> s.em.base == base)
  }

  lemma AdmitOwes(s: Sched, want: bool, t: Tally, next: nat, base: int, log: seq<Placement>)
    requires Owes(s, t, next, base, log)
    ensures
      var a := s.Admit(want);
      && Owes(a, AdmitTally(s, t), next, base, log) && a.slot == s.slot && a.cfg == s.cfg && a.regen == s.regen
      && a.store.Gridded?
  {
    hide Leg, Queue.Take, GridQueue.Tagged;
    AdmitTallies(s, want, t);
    TakeIsNext(s);
    AdmitKeepsLeg(s, want);
  }

  lemma TagIs(log: seq<Placement>, log': seq<Placement>, i: nat)
    requires i < |log| && log <= log'
    ensures GridQueue.Tagged(log, i)
         == Queued(log'[i].packet, Base(log'[i].base, log'[i].base != GridQueue.BaseAt(log', i)))
  {
    assert i > 0 ==> log'[i - 1] == log[i - 1];
  }

  lemma ClockOn(c: Config, slot: nat, base: int)
    requires base <= slot
    ensures GridClock(c, slot, base) == c.m.PcrOfSlot(slot - base)
  {
  }

  /** What filling a slot does with what waits. */
  lemma PutTakes(s: Sched, x: Ctx, want: bool, admitted: bool)
    requires s.cfg.streamed && s.regen == PcrRegens.NewRegen(s.cfg.m)
    ensures
      var f, d := PutSlot(s, x, want, admitted), s.em.deferred;
      && f.s.slot == s.slot + 1 && f.s.cfg == s.cfg && f.s.store == s.store
      && match f.cell
         case Content(p, clock, mark) =>
           && d != [] && f.s.em.deferred == d[1..] && p == d[0].packet
           && (if s.cfg.regenerate && p.pcr.Some?
               then clock == Some(GridClock(s.cfg, s.slot, d[0].base.offset)) && (mark <==> d[0].base.starts)
               else clock == None && !mark)
           && f.s.em.base == (if s.cfg.regenerate && p.pcr.Some? then d[0].base.offset else s.em.base)
         case PcrOnly(_, _, pcr) =>
           && s.cfg.regenerate && pcr == GridClock(s.cfg, s.slot, s.em.base)
           && f.s.em.deferred == d && f.s.em.base == s.em.base
         case Null => d == [] && f.s.em.deferred == d && f.s.em.base == s.em.base
  {
    hide Counted, GridClock;
  }

  lemma PutStreamed(s: Sched, cell: Cell, t: Tally, next: nat, base: int, log: seq<Placement>)
    returns (place: Option<nat>)
    requires Owes(s, t, next, base, log) && BasesBehind(log)
    requires
      match cell
      case Content(p, clock, mark) =>
        && s.em.deferred != [] && p == s.em.deferred[0].packet
        && var tag := s.em.deferred[0].base;
           if s.cfg.regenerate && p.pcr.Some?
           then clock == Some(GridClock(s.cfg, s.slot, tag.offset)) && (mark <==> tag.starts)
           else clock == None && !mark
      case PcrOnly(_, _, pcr) => s.cfg.regenerate && pcr == GridClock(s.cfg, s.slot, s.em.base)
      case Null => true
    ensures Streamed(s.cfg, Put(s.slot, cell), place, base, log)
    ensures if cell.Content? then t.owed != [] && place == Some(t.owed[0]) else place == None
  {
    hide Leg, GridQueue.Tagged, GridClock, GridQueue.BaseAt;
    place := if cell.Content? then Some(t.owed[0]) else None;
    ClockOn(s.cfg, s.slot, base);
    if cell.Content? {
      var i := t.owed[0];
      TagIs(LogOf(s), log, i);
      ClockOn(s.cfg, s.slot, log[i].base);
    }
  }

  lemma PutOwes(s: Sched, s': Sched, cell: Cell, place: Option<nat>, t: Tally, next: nat, base: int,
      log: seq<Placement>)
    requires Owes(s, t, next, base, log) && BasesBehind(log)
    requires if cell.Content? then t.owed != [] && place == Some(t.owed[0]) else place == None
    requires Tallies(s', t.(owed := Newest(t.owed, |s'.em.deferred|)))
    requires s'.slot == s.slot + 1 && s'.cfg == s.cfg && s'.store == s.store
    requires |s'.em.deferred| == |s.em.deferred| - if cell.Content? then 1 else 0
    requires
      s'.em.base == if s.cfg.regenerate && cell.Content? && cell.packet.pcr.Some?
                    then s.em.deferred[0].base.offset else s.em.base
    ensures
      Owes(s', t.(owed := Newest(t.owed, |s'.em.deferred|)), Next(place, next), BaseNow(cell, place, base, log), log)
  {
    hide Leg, GridQueue.Tagged;
    if cell.Content? {
      TagIs(LogOf(s), log, t.owed[0]);
    }
  }

  /** One slot filled from what waits. */
  lemma PutStreams(s: Sched, x: Ctx, want: bool, admitted: bool, t: Tally, next: nat, base: int,
      log: seq<Placement>) returns (place: Option<nat>)
    requires Owes(s, t, next, base, log) && BasesBehind(log) && s.regen == PcrRegens.NewRegen(s.cfg.m)
    requires s.cfg.streamed && Leg(PutSlot(s, x, want, admitted).s)
    ensures
      var f := PutSlot(s, x, want, admitted);
      && Streamed(s.cfg, Put(s.slot, f.cell), place, base, log) && (place.Some? ==> place.value >= next)
      && Owes(f.s, t.(owed := Newest(t.owed, |f.s.em.deferred|)), Next(place, next),
              BaseNow(f.cell, place, base, log), log)
  {
    hide Leg, GridQueue.Tagged, PutSlot, GridClock, Streamed, BaseNow, BasesBehind;
    var f := PutSlot(s, x, want, admitted);
    PutTallies(s, x, want, admitted, t);
    PutTakes(s, x, want, admitted);
    place := PutStreamed(s, f.cell, t, next, base, log);
    PutOwes(s, f.s, f.cell, place, t, next, base, log);
  }

  lemma SlotStreams(s: Sched, x: Ctx, t: Tally, next: nat, base: int, log: seq<Placement>)
    returns (place: Option<nat>)
    requires Owes(s, t, next, base, log) && BasesBehind(log)
    ensures
      var f := EmitSlot(s, x);
      && Streamed(s.cfg, Put(s.slot, f.cell), place, base, log) && (place.Some? ==> place.value >= next)
      && s.store.Gridded? && f.s.cfg == s.cfg && f.s.store.Gridded? && LogOf(f.s) == LogOf(s)
      && Owes(f.s, SlotTally(s, x, t), Next(place, next), BaseNow(f.cell, place, base, log), log)
  {
    hide Sched.Admit, PutSlot, AdmitTally, Streamed, BaseNow, BasesBehind, GridQueue.Reachable, GridQueue.Tagged;
    var want := s.released < x.due;
    var a := s.Admit(want);
    SlotKeepsLeg(s, x);
    AdmitOwes(s, want, t, next, base, log);
    place := PutStreams(a, x, want, |a.em.deferred| > |s.em.deferred|, AdmitTally(s, t), next, base, log);
  }

  /** A row of slots filled so from `s`, which then owes the rest. */
  ghost predicate Filled(s: Sched, puts: seq<Put>, places: Places, t: Tally, s': Sched, t': Tally, next: nat, base: int,
      log: seq<Placement>)
  {
    && |places| == |puts| && Streams(s.cfg, puts, places, next, base, log)
    && Owes(s', t', NextAfter(places, next), BaseAfter(puts, places, base, log), log)
    && s'.cfg == s.cfg && s.store.Gridded? && s'.store.Gridded?
  }

  lemma FilledTwice(s: Sched, a: seq<Put>, x: Places, t: Tally, s1: Sched, t1: Tally,
      b: seq<Put>, y: Places, s2: Sched, t2: Tally, next: nat, base: int, log: seq<Placement>)
    requires Filled(s, a, x, t, s1, t1, next, base, log)
    requires Filled(s1, b, y, t1, s2, t2, NextAfter(x, next), BaseAfter(a, x, base, log), log)
    ensures Filled(s, a + b, x + y, t, s2, t2, next, base, log)
  {
    hide Owes, Streams, BaseAfter, NextAfter;
    StreamsJoin(s.cfg, a, b, x, y, next, base, log);
  }

  lemma NothingFilled(s: Sched, t: Tally, next: nat, base: int, log: seq<Placement>)
    requires Owes(s, t, next, base, log)
    ensures Filled(s, [], [], t, s, t, next, base, log)
  {
  }

  lemma {:induction false} SlotsStream(s: Sched, n: nat, x: Ctx, t: Tally, next: nat, base: int, log: seq<Placement>)
    returns (places: Places)
    requires Owes(s, t, next, base, log) && BasesBehind(log)
    ensures Filled(s, SlotsPut(s, n, x), places, t, EmitSlots(s, n, x).s, SlotsTally(s, n, x, t), next, base, log)
  {
    hide EmitSlot, SlotTally, Owes, BasesBehind, Streamed, BaseNow;
    if n == 0 {
      places := [];
      NothingFilled(s, t, next, base, log);
    } else {
      places := SlotsStream(s, n - 1, x, t, next, base, log);
      var b, told := EmitSlots(s, n - 1, x).s, SlotsTally(s, n - 1, x, t);
      var next', base' := NextAfter(places, next), BaseAfter(SlotsPut(s, n - 1, x), places, base, log);
      var put := Put(b.slot, EmitSlot(b, x).cell);
      var place := SlotStreams(b, x, told, next', base', log);
      OneStreams(s.cfg, put, place, next', base', log);
      FilledTwice(s, SlotsPut(s, n - 1, x), places, t, b, told,
                  [put], [place], EmitSlot(b, x).s, SlotTally(b, x, told), next, base, log);
      places := places + [place];
    }
  }

  // ---- Over whole runs ----

  /** Until the first datagram nothing waits and no PCR has gone out. */
  ghost predicate Ready(s: Sched, t: Tally, next: nat, base: int, log: seq<Placement>) {
    Owes(s, t, next, base, log) && (!s.Started() ==> t.owed == [] && base == 0)
  }

  lemma OpeningOwes(s: Sched, now: nat, due: nat, t: Tally, next: nat, base: int, log: seq<Placement>)
    requires Owes(s, t, next, base, log)
    ensures
      var caught := s.CatchUp(now);
      Owes(Opening(caught, Opens(caught, now, due)), CaughtTally(s, now, t), next, base, log)
  {
    hide Leg, Opens, GridQueue.Tagged, Tallies;
    CaughtTallies(s, now, due, t);
    CaughtOn(s, now, due);
  }

  lemma CaughtOn(s: Sched, now: nat, due: nat)
    requires s.store.Gridded?
    ensures
      var caught := s.CatchUp(now);
      var ready := Opening(caught, Opens(caught, now, due));
      && ready.store == s.store && ready.slot >= s.slot && ready.em.base == s.em.base && ready.cfg == s.cfg
      && caught.cfg == s.cfg
  {
    hide Opens, Sched.Boundary;
  }

  lemma EmitStreams(s: Sched, now: nat, due: nat, t: Tally, next: nat, base: int, log: seq<Placement>)
    returns (places: Places)
    requires Ready(s, t, next, base, log) && BasesBehind(log)
    ensures
      var call, s' := Emit(now, due), EmitDatagram(s, now, due).s;
      && Filled(s, CallPuts(s, call), places, t, s', CallTally(s, call, t), next, base, log) && s'.Started()
  {
    hide EmitSlots, SlotsPut, SlotsTally, Opens, Sched.CatchUp, CaughtTally, BasesBehind, Leg, Streams, NextAfter;
    hide BaseAfter;
    var caught := s.CatchUp(now);
    var x := Opens(caught, now, due);
    var ready := Opening(caught, x);
    OpeningOwes(s, now, due, t, next, base, log);
    CaughtOn(s, now, due);
    places := SlotsStream(ready, s.cfg.perDatagram, x, CaughtTally(s, now, t), next, base, log);
    EmitTallies(s, now, due, t);
    EmitKeepsLeg(s, now, due);
  }

  lemma EnqueueReady(s: Sched, p: Packet, now: nat, t: Tally, next: nat, base: int, log: seq<Placement>)
    requires Ready(s, t, next, base, log) && Leg(s.Enqueue(p, now)) && LogOf(s.Enqueue(p, now)) <= log
    ensures Ready(s.Enqueue(p, now), t, next, base, log) && s.Enqueue(p, now).cfg == s.cfg
  {
    hide Leg, Sched.Enqueue, Tallies;
    TalliesGone(s, t);
    EnqueueTallies(s, p, now, t);
    EnqueueGrows(s, p, now);
    EnqueueDefersNothing(s, p, now);
    GoneGrows(s, p, now);
  }

  lemma TalliesGone(s: Sched, t: Tally)
    requires Tallies(s, t)
    ensures Leg(s) && s.store.Gridded?
  {
  }

  lemma GoneGrows(s: Sched, p: Packet, now: nat)
    requires Leg(s)
    ensures
      var s' := s.Enqueue(p, now);
      s.store.Gridded? && s'.store.Gridded? && Gone(s) <= Gone(s')
  {
    hide Sched.Enqueue, GridQueue.Reachable;
    EnqueueGrows(s, p, now);
  }

  lemma MuteReady(s: Sched, now: nat, t: Tally, next: nat, base: int, log: seq<Placement>)
    requires Ready(s, t, next, base, log)
    ensures Ready(AdvanceMuted(s, now), t, next, base, log) && AdvanceMuted(s, now).cfg == s.cfg
  {
    hide Leg, Tallies, Sched.State;
    MuteTallies(s, now, t);
  }

  lemma CallStreams(s: Sched, call: Call, t: Tally, next: nat, base: int, log: seq<Placement>) returns (places: Places)
    requires Ready(s, t, next, base, log) && BasesBehind(log)
    requires Leg(Do(s, call)) && LogOf(Do(s, call)) <= log
    ensures
      var s', t' := Do(s, call), CallTally(s, call, t);
      && Filled(s, CallPuts(s, call), places, t, s', t', next, base, log)
      && Ready(s', t', NextAfter(places, next), BaseAfter(CallPuts(s, call), places, base, log), log)
  {
    hide EmitDatagram, AdvanceMuted, Sched.Enqueue, Owes, BasesBehind, Leg, Streams;
    if call.Emit? {
      hide CallPuts, CallTally;
      places := EmitStreams(s, call.now, call.due, t, next, base, log);
    } else {
      places := [];
      NothingPut(s, call);
      if call.Enqueue? {
        EnqueueReady(s, call.packet, call.now, t, next, base, log);
      } else {
        MuteReady(s, call.now, t, next, base, log);
      }
      NothingFilled(Do(s, call), t, next, base, log);
      ReadyGridded(s, t, next, base, log);
    }
  }

  lemma ReadyGridded(s: Sched, t: Tally, next: nat, base: int, log: seq<Placement>)
    requires Ready(s, t, next, base, log)
    ensures s.store.Gridded? && Leg(s)
  {
  }

  lemma CallGrows(s: Sched, call: Call)
    requires Leg(s)
    ensures Leg(Do(s, call)) && s.store.Gridded? && Do(s, call).store.Gridded? && LogOf(s) <= LogOf(Do(s, call))
    ensures StreamClocks.Behind(s.store.grid.core) ==> StreamClocks.Behind(Do(s, call).store.grid.core)
  {
    hide EmitDatagram, AdvanceMuted, Sched.Enqueue, GridQueue.Reachable, StreamClocks.Behind;
    match call {
      case Enqueue(p, now) =>
        EnqueueGrows(s, p, now);
        if StreamClocks.Behind(s.store.grid.core) {
          StreamClocks.EnqueueIsBehind(s, p, now);
        }
      case Emit(now, due) => EmitKeepsLeg(s, now, due);
      case Mute(now) =>
        MuteLeg(s, now);
        MuteKeepsStore(s, now);
    }
  }

  lemma MuteKeepsStore(s: Sched, now: nat)
    ensures AdvanceMuted(s, now).store == s.store
  {
  }

  lemma {:induction false} RunGrows(s: Sched, calls: seq<Call>)
    requires Leg(s)
    ensures
      var s' := RunCalls(s, calls);
      && Leg(s') && s.store.Gridded? && s'.store.Gridded? && LogOf(s) <= LogOf(s')
      && (StreamClocks.Behind(s.store.grid.core) ==> StreamClocks.Behind(s'.store.grid.core))
    decreases |calls|
  {
    hide Do, GridQueue.Reachable, StreamClocks.Behind;
    if calls == [] {
    } else {
      CallGrows(s, calls[0]);
      RunGrows(Do(s, calls[0]), calls[1..]);
    }
  }

  lemma {:induction false} RunStreams(s: Sched, calls: seq<Call>, t: Tally, next: nat, base: int, log: seq<Placement>)
    returns (places: Places)
    requires Ready(s, t, next, base, log) && BasesBehind(log)
    requires
      var s' := RunCalls(s, calls);
      s'.store.Gridded? && LogOf(s') <= log
    ensures |places| == |RunPuts(s, calls)| && Streams(s.cfg, RunPuts(s, calls), places, next, base, log)
    decreases |calls|
  {
    hide Do, CallPuts, CallTally, Ready, BasesBehind, Streams, Owes;
    ReadyGridded(s, t, next, base, log);
    if calls == [] {
      places := [];
      NoneStream(s.cfg, next, base, log);
    } else {
      var s', rest := Do(s, calls[0]), calls[1..];
      CallGrows(s, calls[0]);
      RunGrows(s', rest);
      var first := CallStreams(s, calls[0], t, next, base, log);
      var next', base' := NextAfter(first, next), BaseAfter(CallPuts(s, calls[0]), first, base, log);
      places := RunStreams(s', rest, CallTally(s, calls[0], t), next', base', log);
      StreamsJoin(s.cfg, CallPuts(s, calls[0]), RunPuts(s', rest), first, places, next, base, log);
      places := first + places;
    }
  }

  lemma NoneStream(c: Config, next: nat, base: int, log: seq<Placement>)
    ensures Streams(c, [], [], next, base, log)
  {
  }

  lemma NewReady(cfg: Config, log: seq<Placement>)
    requires cfg.streamed
    ensures Ready(NewSched(cfg), Tally([], []), 0, 0, log) && Leg(NewSched(cfg))
    ensures NewSched(cfg).store.Gridded? && StreamClocks.Behind(NewSched(cfg).store.grid.core)
  {
    NewTallies(cfg);
    hide GridQueue.Reachable;
  }

  /** Under stream clocking, over every run from new, in every slot put out, its datagram
      sent or not: content is a packet placed there or before, each in its order and once; its
      clock is the slot's own on the time base it was placed on, and it is marked exactly if
      the packet placed before it is on another. An inserted PCR is the slot's own clock on
      the base of the last content PCR put out. */
  lemma SlotsCarryThePlaced(cfg: Config, calls: seq<Call>) returns (places: Places)
    requires cfg.streamed
    ensures
      var s, puts := RunCalls(NewSched(cfg), calls), RunPuts(NewSched(cfg), calls);
      s.store.Gridded? && |places| == |puts| && Streams(cfg, puts, places, 0, 0, LogOf(s))
  {
    hide RunCalls, RunPuts, Ready, Streams;
    var s := RunCalls(NewSched(cfg), calls);
    NewReady(cfg, []);
    RunGrows(NewSched(cfg), calls);
    NewReady(cfg, LogOf(s));
    places := RunStreams(NewSched(cfg), calls, Tally([], []), 0, 0, LogOf(s));
  }
}
