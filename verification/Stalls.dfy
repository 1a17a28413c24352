/** What a dead source does to the output, and what its return does (src/scheduler.rs,
    `state`, `emit_datagram`, `reinsert_pcr`, `resume`). */
module Stalls {
  import opened Packets
  import opened SchedulerSpec
  import PcrRegens
  import Drain
  import Repetition

  // ---- While it is dead ----

  predicate Empty(s: Sched) {
    !s.HasPending()
  }

  lemma SlotIsBare(s: Sched, x: Ctx)
    requires Empty(s) && x.stalled
    ensures
      var f := EmitSlot(s, x);
      && f.cell == Null && Empty(f.s) && f.s.em == s.em && f.s.regen == s.regen
      && f.s.stats.inserted == s.stats.inserted && f.s.stats.underruns == s.stats.underruns && f.s.out == s.out
  {
  }

  lemma {:induction false} SlotsAreBare(s: Sched, n: nat, x: Ctx)
    requires Empty(s) && x.stalled
    ensures
      var e := EmitSlots(s, n, x);
      && (forall cell <- e.cells :: cell == Null)
      && e.s.em == s.em && e.s.stats.inserted == s.stats.inserted && e.s.stats.underruns == s.stats.underruns
      && Empty(e.s) && e.s.out == s.out
  {
    hide EmitSlot, Empty;
    if n == 0 {
    } else {
      SlotsAreBare(s, n - 1, x);
      SlotIsBare(EmitSlots(s, n - 1, x).s, x);
    }
  }

  /** A stalled input leaves a bare carrier: no content, no re-inserted PCR to make a dead
      feed look conformant, and no underrun for the stall to hide in. Under stream
      clocking nothing goes out at all, and the leg is out of phase. */
  lemma StalledCarrierIsBare(s: Sched, now: nat, due: nat)
    requires s.State(now).Stalled?
    ensures
      var e := EmitDatagram(s, now, due);
      && (if s.store.Gridded? then e.cells == [] && !e.s.em.phased
          else |e.cells| == s.cfg.perDatagram && forall cell <- e.cells :: cell == Null)
      && e.s.stats.inserted == s.stats.inserted && e.s.stats.underruns == s.stats.underruns && e.s.out == s.out
      && e.s.stalled
  {
    hide EmitSlots;
    assert s.CatchUp(now) == s;
    var x := Opens(s, now, due);
    SlotsAreBare(Opening(s, x), s.cfg.perDatagram, x);
    StaysStalled(Opening(s, x), s.cfg.perDatagram, x);
  }

  lemma {:induction false} StaysStalled(s: Sched, n: nat, x: Ctx)
    ensures EmitSlots(s, n, x).s.stalled == s.stalled && EmitSlots(s, n, x).s.cfg == s.cfg
  {
    hide Sched.Admit, FillSlot, Transmit;
    if n == 0 {
    } else {
      StaysStalled(s, n - 1, x);
      var b, want := EmitSlots(s, n - 1, x).s, EmitSlots(s, n - 1, x).s.released < x.due;
      AdmitStaysStalled(b, want);
    }
  }

  lemma AdmitStaysStalled(s: Sched, want: bool)
    ensures s.Admit(want).stalled == s.stalled && s.Admit(want).cfg == s.cfg
  {
  }

  // ---- When it returns ----

  predicate IsContentPcr(cell: Cell) {
    cell.Content? && cell.packet.pcr.Some?
  }

  /** The first content PCR among `cells`, if there is one, carries the discontinuity
      indicator. */
  predicate FirstIsMarked(cells: seq<Cell>) {
    cells == [] || if IsContentPcr(cells[0]) then cells[0].mark else FirstIsMarked(cells[1..])
  }

  predicate NoContentPcr(cells: seq<Cell>) {
    forall cell <- cells :: !IsContentPcr(cell)
  }

  lemma {:induction false} MarkedJoin(a: seq<Cell>, b: seq<Cell>)
    requires FirstIsMarked(a) && (NoContentPcr(a) ==> FirstIsMarked(b))
    ensures FirstIsMarked(a + b)
  {
    if a == [] {
      assert a + b == b;
    } else if !IsContentPcr(a[0]) {
      assert (a + b)[1..] == a[1..] + b;
      MarkedJoin(a[1..], b);
    }
  }

  /** The regenerator still owes a mark, under arrival clocking. */
  predicate Owes(s: Sched) {
    s.store.Buffered? && !s.cfg.streamed && s.cfg.regenerate && s.regen.flagNext
  }

  predicate Marks(s: Sched, cells: seq<Cell>) {
    FirstIsMarked(cells) && (NoContentPcr(cells) ==> Owes(s))
  }

  lemma SlotMarks(s: Sched, x: Ctx)
    requires Owes(s)
    ensures Marks(EmitSlot(s, x).s, [EmitSlot(s, x).cell])
  {
    hide EmitSlot, Owes;
    var f := EmitSlot(s, x);
    SlotPays(s, x);
    OneIsMarked(f.cell);
  }

  lemma OneIsMarked(cell: Cell)
    ensures FirstIsMarked([cell]) <==> (IsContentPcr(cell) ==> cell.mark)
    ensures NoContentPcr([cell]) <==> !IsContentPcr(cell)
  {
    assert [cell][1..] == [] && cell in [cell];
  }

  /** A slot pays the mark owed with a content PCR, or goes on owing it. */
  lemma SlotPays(s: Sched, x: Ctx)
    requires Owes(s)
    ensures
      var f := EmitSlot(s, x);
      if IsContentPcr(f.cell) then f.cell.mark else Owes(f.s)
  {
    hide Reinserts, Counted, PcrRegens.Regen.Locked;
  }

  lemma {:induction false} SlotsMark(s: Sched, n: nat, x: Ctx)
    requires Owes(s)
    ensures Marks(EmitSlots(s, n, x).s, EmitSlots(s, n, x).cells)
  {
    hide EmitSlot, Owes;
    if n == 0 {
    } else {
      SlotsMark(s, n - 1, x);
      var b := EmitSlots(s, n - 1, x);
      if NoContentPcr(b.cells) {
        SlotMarks(b.s, x);
        MarkedJoin(b.cells, [EmitSlot(b.s, x).cell]);
      } else {
        MarkedJoin(b.cells, [EmitSlot(b.s, x).cell]);
      }
    }
  }

  lemma EmitMarks(s: Sched, now: nat, due: nat)
    requires Owes(s)
    ensures Marks(EmitDatagram(s, now, due).s, EmitDatagram(s, now, due).cells)
  {
    hide EmitSlots, Opens;
    Repetition.CatchUpIsForGrids(s, now);
    var x := Opens(s, now, due);
    Drain.SendsOffGrid(s, now, due);
    SlotsMark(Opening(s, x), s.cfg.perDatagram, x);
  }

  lemma {:induction false} OwedIsPaid(s: Sched, calls: seq<Call>)
    requires Owes(s)
    ensures FirstIsMarked(Repetition.OnWire(s, calls))
    decreases |calls|
  {
    hide EmitDatagram, FirstIsMarked, NoContentPcr;
    if calls == [] {
      NothingIsMarked();
    } else if calls[0].Emit? {
      var e := EmitDatagram(s, calls[0].now, calls[0].due);
      EmitMarks(s, calls[0].now, calls[0].due);
      if NoContentPcr(e.cells) {
        OwedIsPaid(e.s, calls[1..]);
      }
      MarkedJoin(e.cells, Repetition.OnWire(e.s, calls[1..]));
    } else {
      OwedIsPaid(Do(s, calls[0]), calls[1..]);
      assert [] + Repetition.OnWire(Do(s, calls[0]), calls[1..]) == Repetition.OnWire(Do(s, calls[0]), calls[1..]);
    }
  }

  lemma NothingIsMarked()
    ensures FirstIsMarked([])
  {
  }

  /** The packet that ends a stall under arrival clocking restarts the media timeline, and
      whatever happens then, the first content PCR to go out is marked as a discontinuity:
      there is a hole in the timeline before it. */
  lemma ReturnIsMarked(s: Sched, p: Packet, now: nat, calls: seq<Call>)
    requires s.stalled && s.store.Buffered? && !s.cfg.streamed && s.cfg.regenerate && p.pid != NULL_PID
    ensures s.Enqueue(p, now).released == 0 && !s.Enqueue(p, now).stalled
    ensures FirstIsMarked(Repetition.OnWire(s.Enqueue(p, now), calls))
  {
    OwedIsPaid(s.Enqueue(p, now), calls);
  }
}
