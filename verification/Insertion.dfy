/** What a re-inserted PCR is (src/scheduler.rs, `emit_datagram`, `reinsert_pcr`): on the PID
    the output's clock is on, with a counter that breaks nothing, and not before it is due. */
module Insertions {
  import opened Prelude
  import opened Packets
  import opened PcrField
  import opened SchedulerSpec
  import opened Wire
  import opened Delivery
  import Conservation
  import Continuity
  import GridSpec
  import PcrRegens
  import Repetition

  // ---- Every slot a run fills ----

  /** What was put in an output slot, its datagram sent or withheld. */
  datatype Put = Put(slot: nat, cell: Cell)

  function Cells(puts: seq<Put>): (cells: seq<Cell>)
    ensures |cells| == |puts| && forall k | 0 <= k < |cells| :: cells[k] == puts[k].cell
  {
    seq(|puts|, k requires 0 <= k < |puts| => puts[k].cell)
  }

  function SlotsPut(s: Sched, n: nat, x: Ctx): (puts: seq<Put>)
    ensures |puts| == n
  {
    if n == 0 then []
    else
      var before := EmitSlots(s, n - 1, x).s;
      SlotsPut(s, n - 1, x) + [Put(before.slot, EmitSlot(before, x).cell)]
  }

  function CallPuts(s: Sched, call: Call): seq<Put> {
    if !call.Emit? then []
    else
      var caught := s.CatchUp(call.now);
      var x := Opens(caught, call.now, call.due);
      SlotsPut(Opening(caught, x), s.cfg.perDatagram, x)
  }

  function RunPuts(s: Sched, calls: seq<Call>): seq<Put>
    decreases |calls|
  {
    if calls == [] then [] else CallPuts(s, calls[0]) + RunPuts(Do(s, calls[0]), calls[1..])
  }

  lemma CellsJoin(a: seq<Put>, b: seq<Put>)
    ensures Cells(a + b) == Cells(a) + Cells(b)
  {
  }

  lemma {:induction false} SlotsPutTheirCells(s: Sched, n: nat, x: Ctx)
    ensures Cells(SlotsPut(s, n, x)) == EmitSlots(s, n, x).cells
  {
    hide EmitSlot;
    if n == 0 {
    } else {
      SlotsPutTheirCells(s, n - 1, x);
      var before := EmitSlots(s, n - 1, x).s;
      CellsJoin(SlotsPut(s, n - 1, x), [Put(before.slot, EmitSlot(before, x).cell)]);
    }
  }

  lemma CatchUpKeepsConfig(s: Sched, now: nat)
    ensures s.CatchUp(now).cfg == s.cfg
  {
  }

  lemma SentIsPut(s: Sched, now: nat, due: nat)
    requires Opens(s.CatchUp(now), now, due).send
    ensures Cells(CallPuts(s, Emit(now, due))) == EmitDatagram(s, now, due).cells
  {
    hide EmitSlots, SlotsPut, Opens, Sched.CatchUp;
    var caught := s.CatchUp(now);
    var x := Opens(caught, now, due);
    CatchUpKeepsConfig(s, now);
    SlotsPutTheirCells(Opening(caught, x), s.cfg.perDatagram, x);
  }

  /** Every datagram of the run is sent: under arrival clocking they all are. */
  predicate AllSent(s: Sched, calls: seq<Call>)
    decreases |calls|
  {
    calls == [] ||
    ((calls[0].Emit? ==> Opens(s.CatchUp(calls[0].now), calls[0].now, calls[0].due).send)
     && AllSent(Do(s, calls[0]), calls[1..]))
  }

  lemma {:induction false} ArrivalSendsAll(s: Sched, calls: seq<Call>)
    requires s.store.Buffered?
    ensures AllSent(s, calls)
    decreases |calls|
  {
    hide EmitDatagram, Opens, Sched.Enqueue;
    if calls == [] {
    } else {
      if calls[0].Emit? {
        StoreKind(s, calls[0].now, calls[0].due);
      }
      CallDelivers(s, calls[0]);
      ArrivalSendsAll(Do(s, calls[0]), calls[1..]);
    }
  }

  /** Then the wire is what was put. */
  lemma {:induction false} WireIsPut(s: Sched, calls: seq<Call>)
    requires AllSent(s, calls)
    ensures Repetition.OnWire(s, calls) == Cells(RunPuts(s, calls))
    decreases |calls|
  {
    hide EmitDatagram, Opens, Sched.CatchUp, CallPuts, Sched.Enqueue, AdvanceMuted;
    if calls == [] {
    } else {
      var rest := RunPuts(Do(s, calls[0]), calls[1..]);
      WireIsPut(Do(s, calls[0]), calls[1..]);
      CellsJoin(CallPuts(s, calls[0]), rest);
      if calls[0].Emit? {
        SentIsPut(s, calls[0].now, calls[0].due);
      } else {
        NothingPut(s, calls[0]);
        assert [] + Cells(rest) == Cells(rest);
      }
    }
  }

  lemma NothingPut(s: Sched, call: Call)
    requires !call.Emit?
    ensures CallPuts(s, call) == []
  {
  }

  // ---- On whose PID, with which counter ----

  /** The PID of the first packet with a PCR. */
  function ClockPid(packets: seq<Packet>): Option<Pid> {
    if packets == [] then None
    else if packets[0].pcr.Some? then Some(packets[0].pid)
    else ClockPid(packets[1..])
  }

  /** The counter of the last packet on `pid`, zero if there is none. */
  function LastCounter(packets: seq<Packet>, pid: Pid): Counter {
    if packets == [] then 0
    else if packets[|packets| - 1].pid == pid then packets[|packets| - 1].cc
    else LastCounter(packets[..|packets| - 1], pid)
  }

  /** Every inserted PCR is on `pid`, with the counter of the last content packet on it,
      `past` being the content before. */
  ghost predicate Continues(cells: seq<Cell>, pid: Pid, past: seq<Packet>) {
    forall i | 0 <= i < |cells| && cells[i].PcrOnly? ::
      cells[i].pid == pid && cells[i].cc == LastCounter(past + ContentOf(cells[..i]), pid)
  }

  lemma ContinuesJoin(a: seq<Cell>, b: seq<Cell>, pid: Pid, past: seq<Packet>)
    requires Continues(a, pid, past) && Continues(b, pid, past + ContentOf(a))
    ensures Continues(a + b, pid, past) && past + ContentOf(a + b) == past + ContentOf(a) + ContentOf(b)
  {
    hide ContentOf, LastCounter;
    ContentJoin(a, b);
    forall i | 0 <= i < |a + b| && (a + b)[i].PcrOnly?
      ensures (a + b)[i].pid == pid && (a + b)[i].cc == LastCounter(past + ContentOf((a + b)[..i]), pid)
    {
      if i < |a| {
        assert (a + b)[..i] == a[..i];
      } else {
        assert (a + b)[..i] == a + b[..i - |a|];
        ContentJoin(a, b[..i - |a|]);
        assert past + ContentOf(a) + ContentOf(b[..i - |a|]) == past + (ContentOf(a) + ContentOf(b[..i - |a|]));
      }
    }
  }

  /** The leg has learned `pid`, and would insert with the counter of the last of `past`. */
  predicate Continuing(s: Sched, pid: Pid, past: seq<Packet>) {
    s.pid == Some(pid) && s.em.cc == LastCounter(past, pid)
  }

  lemma LastOneMore(past: seq<Packet>, p: Packet, pid: Pid)
    ensures LastCounter(past + [p], pid) == if p.pid == pid then p.cc else LastCounter(past, pid)
  {
    assert (past + [p])[..|past|] == past;
  }

  lemma PutContinues(s: Sched, x: Ctx, want: bool, admitted: bool, pid: Pid, past: seq<Packet>)
    requires Continuing(s, pid, past)
    ensures
      var f := PutSlot(s, x, want, admitted);
      && f.s.pid == Some(pid) && f.s.slot == s.slot + 1 && f.s.cfg == s.cfg
      && (match f.cell
          case PcrOnly(on, cc, _) => on == pid && cc == s.em.cc && f.s.em.cc == s.em.cc
          case Content(p, _, _) => f.s.em.cc == if p.pid == pid then p.cc else s.em.cc
          case Null => f.s.em.cc == s.em.cc)
  {
    hide InsertedClock, GridClock, Counted, PcrRegens.Regen.Observe, PcrRegens.Regen.Locked, PcrRegens.Regen.Flags;
    hide LastCounter;
  }

  lemma SlotContinues(s: Sched, x: Ctx, pid: Pid, past: seq<Packet>)
    requires Continuing(s, pid, past)
    ensures
      var f := EmitSlot(s, x);
      Continuing(f.s, pid, past + ContentOf([f.cell])) && Continues([f.cell], pid, past)
  {
    hide Sched.Admit, PutSlot, LastCounter, ContentOf;
    var want := s.released < x.due;
    var a := s.Admit(want);
    Conservation.AdmitTouches(s, want);
    PutContinues(a, x, want, |a.em.deferred| > |s.em.deferred|, pid, past);
    var cell := EmitSlot(s, x).cell;
    OneCell(cell);
    assert [cell][..0] == [];
    NoContent();
    assert past + [] == past;
    if cell.Content? {
      LastOneMore(past, cell.packet, pid);
    }
  }

  lemma {:induction false} SlotsContinue(s: Sched, n: nat, x: Ctx, pid: Pid, past: seq<Packet>)
    requires Continuing(s, pid, past)
    ensures
      var e := EmitSlots(s, n, x);
      Continuing(e.s, pid, past + ContentOf(e.cells)) && Continues(e.cells, pid, past)
  {
    hide EmitSlot, LastCounter, ContentOf, Continuing, Continues;
    if n == 0 {
      NothingContinues(pid, past);
    } else {
      SlotsContinue(s, n - 1, x, pid, past);
      var b := EmitSlots(s, n - 1, x);
      SlotContinues(b.s, x, pid, past + ContentOf(b.cells));
      ContinuesJoin(b.cells, [EmitSlot(b.s, x).cell], pid, past);
    }
  }

  lemma NothingContinues(pid: Pid, past: seq<Packet>)
    ensures Continues([], pid, past) && past + ContentOf([]) == past
  {
    NoContent();
  }

  lemma OpeningContinues(s: Sched, now: nat, x: Ctx, pid: Pid, past: seq<Packet>)
    requires Continuing(s, pid, past)
    ensures Continuing(Opening(s.CatchUp(now), x), pid, past)
  {
    hide Sched.Boundary, LastCounter;
  }

  lemma CallContinues(s: Sched, call: Call, pid: Pid, past: seq<Packet>)
    requires Continuing(s, pid, past)
    ensures
      var cells := Cells(CallPuts(s, call));
      Continuing(Do(s, call), pid, past + ContentOf(cells)) && Continues(cells, pid, past)
  {
    hide EmitSlots, SlotsPut, Opens, Sched.CatchUp, LastCounter, ContentOf, Continues, GridSpec.Grid.Push;
    hide Sched.State, Sched.Boundary;
    NothingContinues(pid, past);
    if call.Emit? {
      var caught := s.CatchUp(call.now);
      var x := Opens(caught, call.now, call.due);
      OpeningContinues(s, call.now, x, pid, past);
      CatchUpKeepsConfig(s, call.now);
      SlotsContinue(Opening(caught, x), s.cfg.perDatagram, x, pid, past);
      SlotsPutTheirCells(Opening(caught, x), s.cfg.perDatagram, x);
    } else {
      NothingPut(s, call);
    }
  }

  lemma {:induction false} RunContinues(s: Sched, calls: seq<Call>, pid: Pid, past: seq<Packet>)
    requires Continuing(s, pid, past)
    ensures
      var cells := Cells(RunPuts(s, calls));
      Continuing(RunCalls(s, calls), pid, past + ContentOf(cells)) && Continues(cells, pid, past)
    decreases |calls|
  {
    hide Do, CallPuts, LastCounter, ContentOf, Continuing, Continues;
    if calls == [] {
      NothingContinues(pid, past);
    } else {
      var s', first, rest := Do(s, calls[0]), CallPuts(s, calls[0]), RunPuts(Do(s, calls[0]), calls[1..]);
      CallContinues(s, calls[0], pid, past);
      RunContinues(s', calls[1..], pid, past + ContentOf(Cells(first)));
      CellsJoin(first, rest);
      ContinuesJoin(Cells(first), Cells(rest), pid, past);
    }
  }

  // ---- Before the PID is known ----

  /** The leg has accepted no PCR yet. */
  predicate Unclocked(s: Sched) {
    s.pid.None? && s.em.cc == 0
  }

  predicate NothingInserted(cells: seq<Cell>) {
    forall cell <- cells :: !cell.PcrOnly?
  }

  lemma SlotUnclocked(s: Sched, x: Ctx)
    requires Unclocked(s)
    ensures Unclocked(EmitSlot(s, x).s) && !EmitSlot(s, x).cell.PcrOnly?
  {
    hide GridClock, Counted, PcrRegens.Regen.Observe, PcrRegens.Regen.Locked, PcrRegens.Regen.Flags;
    Conservation.AdmitTouches(s, s.released < x.due);
  }

  lemma {:induction false} SlotsUnclocked(s: Sched, n: nat, x: Ctx)
    requires Unclocked(s)
    ensures Unclocked(EmitSlots(s, n, x).s) && NothingInserted(EmitSlots(s, n, x).cells)
  {
    hide EmitSlot, Unclocked;
    if n == 0 {
    } else {
      SlotsUnclocked(s, n - 1, x);
      SlotUnclocked(EmitSlots(s, n - 1, x).s, x);
    }
  }

  lemma CallUnclocked(s: Sched, call: Call)
    requires Unclocked(s)
    ensures NothingInserted(Cells(CallPuts(s, call)))
    ensures
      var s' := Do(s, call);
      match ClockPid(Conservation.PacketsIn([call]))
      case None => Unclocked(s')
      case Some(pid) => Continuing(s', pid, [])
  {
    hide EmitSlots, SlotsPut, Opens, Sched.CatchUp, GridSpec.Grid.Push, Sched.Boundary, Sched.State;
    assert [call][1..] == [] && Conservation.PacketsIn([]) == [];
    match call {
      case Emit(now, due) =>
        var caught := s.CatchUp(now);
        var x := Opens(caught, now, due);
        CaughtUnclocked(s, now, x);
        SlotsUnclocked(Opening(caught, x), s.cfg.perDatagram, x);
        CatchUpKeepsConfig(s, now);
        SlotsPutTheirCells(Opening(caught, x), s.cfg.perDatagram, x);
      case Enqueue(p, now) =>
        if p.pid != NULL_PID {
          assert [p][1..] == [];
        }
      case Mute(now) =>
    }
  }

  lemma CaughtUnclocked(s: Sched, now: nat, x: Ctx)
    requires Unclocked(s)
    ensures Unclocked(Opening(s.CatchUp(now), x))
  {
    hide Sched.Boundary;
  }

  lemma {:induction false} ClockPidJoins(a: seq<Packet>, b: seq<Packet>)
    ensures ClockPid(a + b) == if ClockPid(a).Some? then ClockPid(a) else ClockPid(b)
  {
    if a == [] {
      assert a + b == b;
    } else {
      assert (a + b)[1..] == a[1..] + b;
      ClockPidJoins(a[1..], b);
    }
  }

  lemma AcceptedFirst(call: Call, rest: seq<Call>)
    ensures Conservation.PacketsIn([call] + rest) == Conservation.PacketsIn([call]) + Conservation.PacketsIn(rest)
  {
    assert ([call] + rest)[1..] == rest && [call][1..] == [];
    assert Conservation.PacketsIn([]) == [];
  }

  /** The calls up to the one that brings the first PCR, or all of them. */
  function Unheard(calls: seq<Call>): (n: nat)
    ensures n <= |calls|
  {
    if calls == [] then 0
    else if ClockPid(Conservation.PacketsIn([calls[0]])).Some? then 1
    else 1 + Unheard(calls[1..])
  }

  lemma {:induction false} RunUnclocked(s: Sched, calls: seq<Call>)
    requires Unclocked(s)
    ensures
      var n := Unheard(calls);
      && NothingInserted(Cells(RunPuts(s, calls[..n])))
      && ClockPid(Conservation.PacketsIn(calls[..n])) == ClockPid(Conservation.PacketsIn(calls))
      && match ClockPid(Conservation.PacketsIn(calls))
         case None => n == |calls|
         case Some(pid) => Continuing(RunCalls(s, calls[..n]), pid, [])
    decreases |calls|
  {
    hide Do, CallPuts, ClockPid, Continuing, Unclocked, Conservation.PacketsIn;
    if calls == [] {
      NoClock();
    } else {
      var call, rest := calls[0], calls[1..];
      var n := Unheard(calls);
      assert [call] + rest == calls;
      CallUnclocked(s, call);
      AcceptedFirst(call, rest);
      ClockPidJoins(Conservation.PacketsIn([call]), Conservation.PacketsIn(rest));
      if ClockPid(Conservation.PacketsIn([call])).Some? {
        assert calls[..1] == [call] && [call][1..] == [];
        assert CallPuts(s, call) + [] == CallPuts(s, call);
      } else {
        RunUnclocked(Do(s, call), rest);
        var m := Unheard(rest);
        assert calls[..n] == [call] + rest[..m] && calls[..n][1..] == rest[..m];
        AcceptedFirst(call, rest[..m]);
        ClockPidJoins(Conservation.PacketsIn([call]), Conservation.PacketsIn(rest[..m]));
        CellsJoin(CallPuts(s, call), RunPuts(Do(s, call), rest[..m]));
        NothingInsertedJoins(Cells(CallPuts(s, call)), Cells(RunPuts(Do(s, call), rest[..m])));
      }
    }
  }

  lemma NoClock()
    ensures Conservation.PacketsIn([]) == [] && ClockPid([]) == None
  {
  }

  lemma NothingInsertedJoins(a: seq<Cell>, b: seq<Cell>)
    requires NothingInserted(a) && NothingInserted(b)
    ensures NothingInserted(a + b)
  {
  }

  lemma {:induction false} PutsJoin(s: Sched, a: seq<Call>, b: seq<Call>)
    ensures RunPuts(s, a + b) == RunPuts(s, a) + RunPuts(RunCalls(s, a), b)
    decreases |a|
  {
    hide Do, CallPuts;
    if a == [] {
      assert a + b == b;
    } else {
      assert (a + b)[1..] == a[1..] + b;
      PutsJoin(Do(s, a[0]), a[1..], b);
    }
  }

  /** Over every run from new, in either mode, in every slot put out, its datagram sent or
      not: no PCR is inserted before the leg has accepted one, and from there on every
      inserted PCR is on the PID of the first accepted, with the counter of the last
      content packet of that PID put out since, or zero if none has been. */
  lemma InsertedContinues(cfg: Config, calls: seq<Call>)
    ensures
      var n := Unheard(calls);
      var early := Cells(RunPuts(NewSched(cfg), calls[..n]));
      var late := Cells(RunPuts(RunCalls(NewSched(cfg), calls[..n]), calls[n..]));
      && Cells(RunPuts(NewSched(cfg), calls)) == early + late && NothingInserted(early)
      && match ClockPid(Conservation.PacketsIn(calls))
         case None => late == []
         case Some(pid) => Continues(late, pid, [])
  {
    hide RunCalls, RunPuts, Conservation.PacketsIn, ClockPid, Continues, Continuing, Unclocked, Unheard, LastCounter;
    var n := Unheard(calls);
    NewUnclocked(cfg);
    RunUnclocked(NewSched(cfg), calls);
    assert calls == calls[..n] + calls[n..];
    PutsJoin(NewSched(cfg), calls[..n], calls[n..]);
    var s := RunCalls(NewSched(cfg), calls[..n]);
    CellsJoin(RunPuts(NewSched(cfg), calls[..n]), RunPuts(s, calls[n..]));
    match ClockPid(Conservation.PacketsIn(calls)) {
      case None =>
        NothingPutOut(s);
        assert calls[n..] == [];
      case Some(pid) =>
        RunContinues(s, calls[n..], pid, []);
    }
  }

  lemma NewUnclocked(cfg: Config)
    ensures Unclocked(NewSched(cfg))
  {
  }

  lemma NothingPutOut(s: Sched)
    ensures RunPuts(s, []) == []
  {
  }

  /** A leg with room for one packet between datagrams of one slot, nothing let out. */
  predicate Small(s: Sched, c: Config, queue: seq<Packet>, released: nat) {
    && s.cfg == c && !c.streamed && c.regenerate && c.pcrMax == 1 && c.perDatagram == 1 && c.stallTimeout.None?
    && s.store.Buffered? && s.store.buffer.queue == queue && s.store.buffer.capacity == 1
    && s.released == released && !s.stalled && s.em.deferred == [] && s.em.cc == 0
  }

  lemma SmallAccepts(s: Sched, c: Config, queue: seq<Packet>, released: nat, p: Packet)
    requires Small(s, c, queue, released) && |queue| <= 1 && p.pid != NULL_PID
    ensures
      var s' := s.Enqueue(p, 0);
      && Small(s', c, [p], released) && s'.slot == s.slot && s'.em == s.em && s'.regen == s.regen
      && s'.pid == if s.pid.None? && p.pcr.Some? then Some(p.pid) else s.pid
  {
    if queue != [] {
      assert queue[1..] + [p] == [p];
    }
  }

  /** One slot of such a leg, unstalled. */
  lemma SmallEmits(s: Sched, c: Config, queue: seq<Packet>, released: nat, due: nat)
    requires Small(s, c, queue, released)
    ensures
      var x := Ctx(false, false, true, due);
      var f := EmitSlot(s, x);
      CallPuts(s, Emit(0, due)) == [Put(s.slot, f.cell)] && EmitDatagram(s, 0, due).s == f.s
  {
    hide EmitSlot;
    var x := Ctx(false, false, true, due);
    assert s.CatchUp(0) == s && Opens(s, 0, due) == x && Opening(s, x) == s;
    assert EmitSlots(s, 0, x) == Emitted(s, []) && SlotsPut(s, 0, x) == [];
    assert EmitSlots(s, 1, x).s == EmitSlot(s, x).s;
    assert SlotsPut(s, 1, x) == [Put(s.slot, EmitSlot(s, x).cell)];
  }

  lemma SmallSends(s: Sched, c: Config, p: Packet, released: nat, x: Ctx)
    requires Small(s, c, [p], released) && x == Ctx(false, false, true, released + 1)
    requires (p.pcr.Some? || s.em.lastPcr.None?) && s.pid != Some(p.pid)
    ensures
      var f := EmitSlot(s, x);
      && Small(f.s, c, [], released + 1) && f.s.slot == s.slot + 1 && f.s.pid == s.pid
      && f.cell.Content? && f.cell.packet == p
      && f.s.em.lastPcr == (if p.pcr.Some? then Some(s.slot) else s.em.lastPcr)
      && (p.pcr.Some? ==> f.s.regen.anchor.Some?)
  {
    hide PcrRegens.Regen.Locked, PcrRegens.Regen.Flags, PcrRegens.Regen.Breaks;
    assert [p][1..] == [] && [GridSpec.Queued(p, GridSpec.Base(0, false))][1..] == [];
  }

  lemma SmallInserts(s: Sched, c: Config, released: nat, x: Ctx)
    requires Small(s, c, [], released) && x == Ctx(false, false, true, released)
    requires s.pid.Some? && s.em.lastPcr.Some? && s.slot == s.em.lastPcr.value + 1 && s.regen.anchor.Some?
    ensures
      var f := EmitSlot(s, x);
      f.cell.PcrOnly? && f.cell.pid == s.pid.value && f.cell.cc == 0
  {
    hide PcrRegens.Regen.Locked;
  }

  /** The content put out before the leg has accepted a PCR does not count: if its first PCR
      packet is lost for want of room, the PCR inserted for its PID starts from zero, however
      much of that PID has gone out. Here its last counter was not zero. */
  lemma CounterCanStartOver(c: Config, plain: Packet, lost: Packet, other: Packet)
    requires !c.streamed && c.regenerate && c.pcrMax == 1 && c.maxLatency == 1 && c.perDatagram == 1
    requires c.stallTimeout.None?
    requires plain.pcr.None? && lost.pcr.Some? && other.pcr.Some?
    requires plain.pid == lost.pid != other.pid && lost.pid != NULL_PID && other.pid != NULL_PID && plain.cc != 0
    ensures
      var calls := [Enqueue(plain, 0), Emit(0, 1), Enqueue(lost, 0), Enqueue(other, 0), Emit(0, 2), Emit(0, 2)];
      var cells := Cells(RunPuts(NewSched(c), calls));
      && |cells| == 3 && cells[2].PcrOnly? && cells[2].pid == lost.pid
      && cells[2].cc == 0 != LastCounter(ContentOf(cells[..2]), lost.pid)
  {
    hide EmitSlot, EmitDatagram, CallPuts, Sched.Enqueue, Small, LastCounter, ContentOf;
    var s0 := NewSched(c);
    NewIsSmall(c);
    var s1 := s0.Enqueue(plain, 0);
    SmallAccepts(s0, c, [], 0, plain);
    SmallEmits(s1, c, [plain], 0, 1);
    SmallSends(s1, c, plain, 0, Ctx(false, false, true, 1));
    var s2 := EmitDatagram(s1, 0, 1).s;
    var s3 := s2.Enqueue(lost, 0);
    SmallAccepts(s2, c, [], 1, lost);
    var s4 := s3.Enqueue(other, 0);
    SmallAccepts(s3, c, [lost], 1, other);
    SmallEmits(s4, c, [other], 1, 2);
    SmallSends(s4, c, other, 1, Ctx(false, false, true, 2));
    var s5 := EmitDatagram(s4, 0, 2).s;
    SmallEmits(s5, c, [], 2, 2);
    SmallInserts(s5, c, 2, Ctx(false, false, true, 2));
    SixCalls(s0, Enqueue(plain, 0), Emit(0, 1), Enqueue(lost, 0), Enqueue(other, 0), Emit(0, 2), Emit(0, 2));
    var calls := [Enqueue(plain, 0), Emit(0, 1), Enqueue(lost, 0), Enqueue(other, 0), Emit(0, 2), Emit(0, 2)];
    NothingPut(s0, calls[0]);
    NothingPut(s2, calls[2]);
    NothingPut(s3, calls[3]);
    var cells := Cells(RunPuts(s0, calls));
    assert RunPuts(s0, calls) == CallPuts(s1, calls[1]) + CallPuts(s4, calls[4]) + CallPuts(s5, calls[5]);
    assert cells[..2] == [cells[0]] + [cells[1]];
    ContentJoin([cells[0]], [cells[1]]);
    OneCell(cells[0]);
    OneCell(cells[1]);
    LastOneMore([plain], other, lost.pid);
    LastOneMore([], plain, lost.pid);
    assert [] + [plain] == [plain];
  }

  lemma NewIsSmall(c: Config)
    requires !c.streamed && c.regenerate && c.pcrMax == 1 && c.maxLatency == 1 && c.perDatagram == 1
    requires c.stallTimeout.None?
    ensures
      var s := NewSched(c);
      Small(s, c, [], 0) && s.pid.None? && s.em.lastPcr.None? && s.slot == 0
  {
  }

  lemma SixCalls(s: Sched, a: Call, b: Call, c: Call, d: Call, e: Call, f: Call)
    ensures
      var s1 := Do(s, a);
      var s2 := Do(s1, b);
      var s3 := Do(s2, c);
      var s4 := Do(s3, d);
      var s5 := Do(s4, e);
      RunPuts(s, [a, b, c, d, e, f])
        == CallPuts(s, a) + CallPuts(s1, b) + CallPuts(s2, c) + CallPuts(s3, d) + CallPuts(s4, e) + CallPuts(s5, f)
  {
    hide Do, CallPuts, RunPuts;
    var s5 := Do(Do(Do(Do(Do(s, a), b), c), d), e);
    NothingPutOut(Do(s5, f));
    FirstPuts(s5, f, []);
    FirstPuts(Do(Do(Do(Do(s, a), b), c), d), e, [f]);
    FirstPuts(Do(Do(Do(s, a), b), c), d, [e, f]);
    FirstPuts(Do(Do(s, a), b), c, [d, e, f]);
    FirstPuts(Do(s, a), b, [c, d, e, f]);
    FirstPuts(s, a, [b, c, d, e, f]);
    assert [a] + [b, c, d, e, f] == [a, b, c, d, e, f] && [b] + [c, d, e, f] == [b, c, d, e, f];
    assert [c] + [d, e, f] == [c, d, e, f] && [d] + [e, f] == [d, e, f] && [e] + [f] == [e, f] && [f] + [] == [f];
  }

  lemma FirstPuts(s: Sched, call: Call, rest: seq<Call>)
    ensures RunPuts(s, [call] + rest) == CallPuts(s, call) + RunPuts(Do(s, call), rest)
  {
    hide Do, CallPuts;
    assert ([call] + rest)[1..] == rest;
  }

  // ---- To a receiver ----

  /** A receiver that has heard other packets notes a packet off the wire; stuffing has no
      counter. */
  function NoteWire(table: Continuity.Table, b: seq<Byte>): (Continuity.Table, bool)
    requires IsPacket(b)
  {
    if Parse(b).pid == NULL_PID then (table, false) else Continuity.NotePacket(table, Parse(b))
  }

  ghost predicate AllPackets(wire: seq<seq<Byte>>) {
    forall b <- wire :: IsPacket(b)
  }

  /** It reads some counter as broken. */
  predicate ReadsBroken(table: Continuity.Table, wire: seq<seq<Byte>>)
    requires AllPackets(wire)
    decreases |wire|
  {
    wire != [] && (NoteWire(table, wire[0]).1 || ReadsBroken(NoteWire(table, wire[0]).0, wire[1..]))
  }

  /** Cells as runs of parsed packets put them on the wire. */
  ghost predicate Wired(cells: seq<Cell>) {
    forall cell <- cells ::
      Renderable(cell) && Genuine(cell)
      && (cell.Content? ==> Parsed(cell.packet) && cell.packet.pid != NULL_PID)
  }

  lemma WiredArePackets(cells: seq<Cell>)
    requires Wired(cells)
    ensures (forall cell <- cells :: Renderable(cell)) && AllPackets(Octets(cells))
  {
    forall cell <- cells
      ensures IsPacket(Render(cell))
    {
      CellIsPacket(cell);
    }
  }

  lemma CellIsPacket(cell: Cell)
    requires Renderable(cell) && Genuine(cell) && (cell.Content? ==> Parsed(cell.packet))
    ensures IsPacket(Render(cell))
  {
    hide ReadPcr, EncodePcr, PcrRegens.Stamped;
    if cell.Content? {
      ContentIsTransparent(cell);
      ParsedIsPacket(cell.packet);
    }
  }

  /** A content cell is read as its packet is, but for what it may declare. */
  lemma ContentReads(cell: Cell)
    requires cell.Content? && Renderable(cell) && Genuine(cell) && Parsed(cell.packet)
    ensures IsPacket(Render(cell))
    ensures
      var p := Parse(Render(cell));
      p.pid == cell.packet.pid && p.cc == cell.packet.cc && p.hasPayload == cell.packet.hasPayload
  {
    hide ReadPcr, Render, DeclaresDiscontinuity;
    ContentIsTransparent(cell);
    CellIsPacket(cell);
  }

  /** What noting a packet leaves, if it reads unbroken. */
  lemma NotedUnbroken(table: Continuity.Table, p: Packet, pid: Pid)
    ensures
      var (next, broken) := Continuity.NotePacket(table, p);
      && (p.pid == pid && !broken ==> next[pid].Seen? && next[pid].cc == p.cc)
      && (p.pid != pid ==> next[pid] == table[pid])
  {
  }

  /** An inserted PCR in step with what the receiver last heard of its PID says nothing new. */
  lemma InsertedReads(table: Continuity.Table, cell: Cell)
    requires cell.PcrOnly? && cell.pid != NULL_PID && table[cell.pid].Seen? && table[cell.pid].cc == cell.cc
    ensures IsPacket(Render(cell)) && NoteWire(table, Render(cell)) == (table, false)
  {
    hide Parse;
    MadePackets(cell.pid, cell.cc, cell.pcr);
    var last := table[cell.pid];
    assert table[cell.pid := last] == table;
  }

  lemma NullReads(table: Continuity.Table)
    ensures IsPacket(Render(Null)) && NoteWire(table, Render(Null)) == (table, false)
  {
    hide Parse;
    MadePackets(0, 0, 0);
  }

  lemma ContinuesTail(cells: seq<Cell>, pid: Pid, past: seq<Packet>)
    requires Continues(cells, pid, past) && cells != []
    ensures Continues(cells[1..], pid, past + ContentOf([cells[0]]))
    ensures cells[0].PcrOnly? ==> cells[0].pid == pid && cells[0].cc == LastCounter(past, pid)
  {
    hide ContentOf, LastCounter;
    assert cells[..0] == [];
    NoContent();
    assert past + [] == past;
    forall i | 0 <= i < |cells[1..]| && cells[1..][i].PcrOnly?
      ensures cells[1..][i].pid == pid
      ensures cells[1..][i].cc == LastCounter(past + ContentOf([cells[0]]) + ContentOf(cells[1..][..i]), pid)
    {
      assert cells[..i + 1] == [cells[0]] + cells[1..][..i];
      ContentJoin([cells[0]], cells[1..][..i]);
      assert past + (ContentOf([cells[0]]) + ContentOf(cells[1..][..i]))
          == past + ContentOf([cells[0]]) + ContentOf(cells[1..][..i]);
    }
  }

  lemma OctetsTail(cells: seq<Cell>)
    requires cells != [] && forall cell <- cells :: Renderable(cell)
    ensures forall cell <- cells[1..] :: Renderable(cell)
    ensures Octets(cells)[1..] == Octets(cells[1..]) && Octets(cells)[0] == Render(cells[0])
  {
    hide Render;
  }

  lemma WiredTail(cells: seq<Cell>)
    requires Wired(cells) && cells != []
    ensures Wired(cells[1..]) && Wired(ContentCells(cells)) && Wired(ContentCells(cells[1..]))
  {
    hide Renderable, Genuine, Parsed;
    assert forall cell <- cells[1..] :: cell in cells;
  }

  /** The packets' own reading of a stretch, and that with the inserted PCRs in it. */
  ghost predicate ReadAlike(table: Continuity.Table, cells: seq<Cell>)
    requires Wired(cells)
  {
    WiredArePackets(cells);
    ContentIsWired(cells);
    WiredArePackets(ContentCells(cells));
    ReadsBroken(table, Octets(cells)) <==> ReadsBroken(table, Octets(ContentCells(cells)))
  }

  lemma ContentIsWired(cells: seq<Cell>)
    requires Wired(cells)
    ensures Wired(ContentCells(cells))
  {
  }

  lemma SkippedAlike(table: Continuity.Table, cells: seq<Cell>)
    requires Wired(cells) && cells != [] && !cells[0].Content? && Wired(cells[1..])
    requires IsPacket(Render(cells[0])) && NoteWire(table, Render(cells[0])) == (table, false)
    requires ReadAlike(table, cells[1..])
    ensures ReadAlike(table, cells)
  {
    hide Wired, Render, NoteWire, Octets, AllPackets;
    WiredArePackets(cells);
    WiredArePackets(cells[1..]);
    OctetsTail(cells);
    assert ContentCells(cells) == ContentCells(cells[1..]);
  }

  lemma ContentAlike(table: Continuity.Table, cells: seq<Cell>)
    requires Wired(cells) && cells != [] && cells[0].Content? && Wired(cells[1..])
    requires IsPacket(Render(cells[0]))
    requires
      var (next, broken) := NoteWire(table, Render(cells[0]));
      broken || ReadAlike(next, cells[1..])
    ensures ReadAlike(table, cells)
  {
    hide Wired, Render, NoteWire, Octets, AllPackets;
    WiredArePackets(cells);
    WiredArePackets(cells[1..]);
    ContentIsWired(cells);
    ContentIsWired(cells[1..]);
    WiredArePackets(ContentCells(cells));
    WiredArePackets(ContentCells(cells[1..]));
    OctetsTail(cells);
    assert ContentCells(cells)[0] == cells[0] && ContentCells(cells)[1..] == ContentCells(cells[1..]);
    OctetsTail(ContentCells(cells));
  }

  lemma WiredHead(cells: seq<Cell>)
    requires Wired(cells) && cells != []
    ensures Renderable(cells[0]) && Genuine(cells[0])
    ensures cells[0].Content? ==> Parsed(cells[0].packet) && cells[0].packet.pid != NULL_PID
  {
    hide Genuine, Parsed;
    assert cells[0] in cells;
  }

  lemma {:induction false} InStepReadsAlike(table: Continuity.Table, cells: seq<Cell>, pid: Pid, past: seq<Packet>)
    requires Wired(cells) && Continues(cells, pid, past) && pid != NULL_PID
    requires table[pid].Seen? && table[pid].cc == LastCounter(past, pid)
    ensures ReadAlike(table, cells)
    decreases |cells|
  {
    hide Wired, Continues, ContentOf, LastCounter, Render, NoteWire, ReadAlike, Continuity.NotePacket;
    if cells == [] {
      NothingReads(table);
    } else {
      var cell, rest := cells[0], cells[1..];
      WiredTail(cells);
      WiredHead(cells);
      ContinuesTail(cells, pid, past);
      OneCell(cell);
      match cell {
        case Content(p, _, _) => FromContent(table, cells, pid, past);
        case PcrOnly(_, _, _) =>
          InsertedReads(table, cell);
          assert past + [] == past;
          InStepReadsAlike(table, rest, pid, past);
          SkippedAlike(table, cells);
        case Null =>
          NullReads(table);
          assert past + [] == past;
          InStepReadsAlike(table, rest, pid, past);
          SkippedAlike(table, cells);
      }
    }
  }

  lemma NothingReads(table: Continuity.Table)
    ensures Wired([]) && ReadAlike(table, [])
  {
  }

  /** From a content packet on: the receiver then knows, or has read it as broken. */
  lemma {:induction false} FromContent(table: Continuity.Table, cells: seq<Cell>, pid: Pid, past: seq<Packet>)
    requires Wired(cells) && Continues(cells, pid, past) && pid != NULL_PID
    requires cells != [] && cells[0].Content?
    requires cells[0].packet.pid == pid || (table[pid].Seen? && table[pid].cc == LastCounter(past, pid))
    ensures ReadAlike(table, cells)
    decreases |cells|, 0
  {
    hide Wired, Continues, ContentOf, LastCounter, Render, ReadAlike, Continuity.NotePacket, Parse;
    var cell, rest := cells[0], cells[1..];
    WiredTail(cells);
    WiredHead(cells);
    ContinuesTail(cells, pid, past);
    OneCell(cell);
    ContentReads(cell);
    LastOneMore(past, cell.packet, pid);
    var (next, broken) := NoteWire(table, Render(cell));
    NotedUnbroken(table, Parse(Render(cell)), pid);
    if !broken {
      InStepReadsAlike(next, rest, pid, past + [cell.packet]);
    }
    ContentAlike(table, cells);
  }

  // ---- Over whole runs ----

  lemma {:induction false} AcceptedIsContent(calls: seq<Call>, p: Packet)
    requires p in Conservation.PacketsIn(calls)
    ensures p.pid != NULL_PID
    decreases |calls|
  {
    if calls[0].Enqueue? && calls[0].packet.pid != NULL_PID && p == calls[0].packet {
    } else {
      AcceptedIsContent(calls[1..], p);
    }
  }

  lemma WireIsWired(cfg: Config, calls: seq<Call>, cells: seq<Cell>)
    requires AllParsed(calls) && forall cell <- cells :: cell in Repetition.OnWire(NewSched(cfg), calls)
    ensures Wired(cells)
  {
    hide Repetition.OnWire, AllParsed, Renderable, Genuine, Parsed, ContentOf, ContentCells, Conservation.PacketsIn;
    WireIsInput(cfg, calls);
    forall cell <- cells
      ensures Renderable(cell) && Genuine(cell)
      ensures cell.Content? ==> Parsed(cell.packet) && cell.packet.pid != NULL_PID
    {
      WireIsParsed(cfg, calls, cell);
      if cell.Content? {
        ContentIsThere(Repetition.OnWire(NewSched(cfg), calls), cell);
        SubsequenceMember(ContentOf(Repetition.OnWire(NewSched(cfg), calls)), Conservation.PacketsIn(calls),
                          cell.packet);
        AcceptedIsContent(calls, cell.packet);
      }
    }
  }

  /** A leg that has accepted a PCR goes on from some content. */
  lemma Clocked(cfg: Config, before: seq<Call>, pid: Pid) returns (past: seq<Packet>)
    requires ClockPid(Conservation.PacketsIn(before)) == Some(pid)
    ensures Continuing(RunCalls(NewSched(cfg), before), pid, past)
  {
    hide RunCalls, RunPuts, Conservation.PacketsIn, ClockPid, Continues, Continuing, Unclocked, Unheard, ContentOf;
    var n := Unheard(before);
    NewUnclocked(cfg);
    RunUnclocked(NewSched(cfg), before);
    var s := RunCalls(NewSched(cfg), before[..n]);
    RunContinues(s, before[n..], pid, []);
    RunsJoin(NewSched(cfg), before[..n], before[n..]);
    assert before == before[..n] + before[n..];
    past := [] + ContentOf(Cells(RunPuts(s, before[n..])));
  }

  lemma {:induction false} RunsJoin(s: Sched, a: seq<Call>, b: seq<Call>)
    ensures RunCalls(s, a + b) == RunCalls(RunCalls(s, a), b)
    decreases |a|
  {
    hide Do;
    if a == [] {
      assert a + b == b;
    } else {
      assert (a + b)[1..] == a[1..] + b;
      RunsJoin(Do(s, a[0]), a[1..], b);
    }
  }

  /** Over every run of parsed packets, and every stretch after it whose datagrams are all
      sent, as they all are under arrival clocking: a receiver that has heard anything
      before, from the first content packet of the clock's PID in the stretch on, reads a
      counter as broken in what is on the wire if and only if it would in the content
      alone. The PCRs put in between break nothing, and mend nothing. */
  lemma InsertedPcrsBreakNothing(cfg: Config, before: seq<Call>, calls: seq<Call>, table: Continuity.Table, k: nat)
    requires AllParsed(before + calls)
    requires cfg.streamed ==> AllSent(RunCalls(NewSched(cfg), before), calls)
    requires
      var cells := Repetition.OnWire(RunCalls(NewSched(cfg), before), calls);
      && k < |cells| && cells[k].Content?
      && ClockPid(Conservation.PacketsIn(before)) == Some(cells[k].packet.pid)
    ensures
      var cells := Repetition.OnWire(RunCalls(NewSched(cfg), before), calls);
      Wired(cells[k..]) && ReadAlike(table, cells[k..])
  {
    hide RunCalls, Repetition.OnWire, Conservation.PacketsIn, AllParsed, Wired, ReadAlike, ClockPid, RunPuts;
    hide Continues, ContentOf, AllSent, Continuing;
    var s := RunCalls(NewSched(cfg), before);
    var cells := Repetition.OnWire(s, calls);
    var pid := cells[k].packet.pid;
    OnWireJoins(NewSched(cfg), before, calls);
    assert forall cell <- cells[k..] :: cell in Repetition.OnWire(NewSched(cfg), before + calls);
    WireIsWired(cfg, before + calls, cells[k..]);
    WiredHead(cells[k..]);
    if !cfg.streamed {
      RunDelivers(NewSched(cfg), before);
      BufferedStays(NewSched(cfg), before);
      ArrivalSendsAll(s, calls);
    }
    WireIsPut(s, calls);
    var past := Clocked(cfg, before, pid);
    RunContinues(s, calls, pid, past);
    ContinuesFrom(cells, pid, past, k);
    FromContent(table, cells[k..], pid, past + ContentOf(cells[..k]));
  }

  lemma {:induction false} BufferedStays(s: Sched, calls: seq<Call>)
    requires s.store.Buffered?
    ensures RunCalls(s, calls).store.Buffered?
    decreases |calls|
  {
    hide Do, EmitDatagram, ContentOf;
    if calls == [] {
    } else {
      CallDelivers(s, calls[0]);
      BufferedStays(Do(s, calls[0]), calls[1..]);
    }
  }

  lemma CutTwice(cells: seq<Cell>, k: nat, i: nat)
    requires k + i < |cells|
    ensures cells[..k + i] == cells[..k] + cells[k..][..i] && cells[k..][i] == cells[k + i]
  {
  }

  lemma ContinuesFrom(cells: seq<Cell>, pid: Pid, past: seq<Packet>, k: nat)
    requires Continues(cells, pid, past) && k <= |cells|
    ensures Continues(cells[k..], pid, past + ContentOf(cells[..k]))
  {
    hide ContentOf, LastCounter;
    forall i | 0 <= i < |cells[k..]| && cells[k..][i].PcrOnly?
      ensures cells[k..][i].pid == pid
      ensures cells[k..][i].cc == LastCounter(past + ContentOf(cells[..k]) + ContentOf(cells[k..][..i]), pid)
    {
      CutTwice(cells, k, i);
      ContentJoin(cells[..k], cells[k..][..i]);
      assert past + (ContentOf(cells[..k]) + ContentOf(cells[k..][..i]))
          == past + ContentOf(cells[..k]) + ContentOf(cells[k..][..i]);
    }
  }

  // ---- Not before it is due ----

  /** Every inserted PCR is at least `max` slots after the PCR before it, `last` being the
      slot of the one before them all. */
  predicate NoneEarly(puts: seq<Put>, last: Option<nat>, max: nat)
    decreases |puts|
  {
    puts == [] ||
    ((puts[0].cell.PcrOnly? ==> last.Some? && puts[0].slot >= last.value + max)
     && NoneEarly(puts[1..], if CarriesPcr(puts[0].cell) then Some(puts[0].slot) else last, max))
  }

  function LastPut(puts: seq<Put>, last: Option<nat>): Option<nat> {
    if puts == [] then last
    else if CarriesPcr(puts[|puts| - 1].cell) then Some(puts[|puts| - 1].slot)
    else LastPut(puts[..|puts| - 1], last)
  }

  lemma {:induction false} NoneEarlyJoin(a: seq<Put>, b: seq<Put>, last: Option<nat>, max: nat)
    requires NoneEarly(a, last, max) && NoneEarly(b, LastPut(a, last), max)
    ensures NoneEarly(a + b, last, max)
    decreases |a|
  {
    if a == [] {
      assert a + b == b;
    } else {
      var last' := if CarriesPcr(a[0].cell) then Some(a[0].slot) else last;
      LastPutTail(a, last);
      assert (a + b)[1..] == a[1..] + b;
      NoneEarlyJoin(a[1..], b, last', max);
    }
  }

  lemma {:induction false} LastPutTail(a: seq<Put>, last: Option<nat>)
    requires a != []
    ensures LastPut(a, last) == LastPut(a[1..], if CarriesPcr(a[0].cell) then Some(a[0].slot) else last)
  {
    if |a| == 1 {
    } else {
      var front := a[..|a| - 1];
      assert a[1..][..|a[1..]| - 1] == front[1..];
      LastPutTail(front, last);
    }
  }

  lemma {:induction false} LastPutJoin(a: seq<Put>, b: seq<Put>, last: Option<nat>)
    ensures LastPut(a + b, last) == LastPut(b, LastPut(a, last))
    decreases |b|
  {
    if b == [] {
      assert a + b == a;
    } else {
      assert (a + b)[..|a + b| - 1] == a + b[..|b| - 1];
      LastPutJoin(a, b[..|b| - 1], last);
    }
  }

  lemma SlotIsDue(s: Sched, x: Ctx)
    ensures
      var f := EmitSlot(s, x);
      && f.s.cfg == s.cfg && f.s.slot == s.slot + 1
      && NoneEarly([Put(s.slot, f.cell)], s.em.lastPcr, s.cfg.pcrMax)
      && f.s.em.lastPcr == LastPut([Put(s.slot, f.cell)], s.em.lastPcr)
  {
    hide GridClock, InsertedClock, Counted, PcrRegens.Regen.Observe, PcrRegens.Regen.Locked, PcrRegens.Regen.Flags;
    hide Sched.Admit;
    Conservation.AdmitTouches(s, s.released < x.due);
    var put := Put(s.slot, EmitSlot(s, x).cell);
    assert [put][1..] == [] && [put][..0] == [];
    assert LastPut([], s.em.lastPcr) == s.em.lastPcr;
  }

  lemma {:induction false} SlotsAreDue(s: Sched, n: nat, x: Ctx)
    ensures
      var e, puts := EmitSlots(s, n, x).s, SlotsPut(s, n, x);
      && e.cfg == s.cfg && NoneEarly(puts, s.em.lastPcr, s.cfg.pcrMax) && e.em.lastPcr == LastPut(puts, s.em.lastPcr)
  {
    hide EmitSlot;
    if n == 0 {
    } else {
      SlotsAreDue(s, n - 1, x);
      var b, before := EmitSlots(s, n - 1, x).s, SlotsPut(s, n - 1, x);
      var next := [Put(b.slot, EmitSlot(b, x).cell)];
      SlotIsDue(b, x);
      NoneEarlyJoin(before, next, s.em.lastPcr, s.cfg.pcrMax);
      LastPutJoin(before, next, s.em.lastPcr);
    }
  }

  lemma CallIsDue(s: Sched, call: Call)
    ensures
      var s', puts := Do(s, call), CallPuts(s, call);
      && s'.cfg == s.cfg && NoneEarly(puts, s.em.lastPcr, s.cfg.pcrMax) && s'.em.lastPcr == LastPut(puts, s.em.lastPcr)
  {
    hide EmitSlots, SlotsPut, Opens, Sched.CatchUp, GridSpec.Grid.Push, Sched.Boundary, Sched.State, NoneEarly;
    assert NoneEarly([], s.em.lastPcr, s.cfg.pcrMax) by {
      NothingEarly(s.em.lastPcr, s.cfg.pcrMax);
    }
    if call.Emit? {
      var caught := s.CatchUp(call.now);
      var x := Opens(caught, call.now, call.due);
      CaughtKeepsLast(s, call.now, x);
      SlotsAreDue(Opening(caught, x), s.cfg.perDatagram, x);
    }
  }

  lemma NothingEarly(last: Option<nat>, max: nat)
    ensures NoneEarly([], last, max)
  {
  }

  lemma CaughtKeepsLast(s: Sched, now: nat, x: Ctx)
    ensures
      var ready := Opening(s.CatchUp(now), x);
      ready.em.lastPcr == s.em.lastPcr && ready.cfg == s.cfg
  {
    hide Sched.Boundary;
  }

  lemma {:induction false} RunIsDue(s: Sched, calls: seq<Call>)
    ensures NoneEarly(RunPuts(s, calls), s.em.lastPcr, s.cfg.pcrMax)
    decreases |calls|
  {
    hide Do, CallPuts;
    if calls == [] {
    } else {
      CallIsDue(s, calls[0]);
      RunIsDue(Do(s, calls[0]), calls[1..]);
      NoneEarlyJoin(CallPuts(s, calls[0]), RunPuts(Do(s, calls[0]), calls[1..]), s.em.lastPcr, s.cfg.pcrMax);
    }
  }

  /** Over every run from new, in either mode: an inserted PCR never goes out before
      `pcrMax` slots have passed since the PCR before it, and there is one before it. With
      `Repetition.RepetitionBound` that says exactly when one is put in. */
  lemma InsertedOnlyWhenDue(cfg: Config, calls: seq<Call>)
    ensures NoneEarly(RunPuts(NewSched(cfg), calls), None, cfg.pcrMax)
  {
    RunIsDue(NewSched(cfg), calls);
  }
}
