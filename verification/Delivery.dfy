/** What whole runs put on the wire, octet by octet (src/scheduler.rs, `enqueue`,
    `emit_datagram`): the input's packets, in order, with their clocks rewritten and
    nothing else touched. */
module Delivery {
  import opened Prelude
  import opened Packets
  import opened PcrField
  import opened SchedulerSpec
  import opened Wire
  import Conservation
  import GridSpec
  import PcrRegens
  import Repetition

  // ---- The content among the cells ----

  function ContentCells(cells: seq<Cell>): (content: seq<Cell>)
    ensures forall cell <- content :: cell.Content? && cell in cells
  {
    if cells == [] then []
    else (if cells[0].Content? then [cells[0]] else []) + ContentCells(cells[1..])
  }

  /** The input packets those cells carry. */
  function ContentOf(cells: seq<Cell>): (p: seq<Packet>)
    ensures |p| == |ContentCells(cells)|
    ensures forall k | 0 <= k < |p| :: p[k] == ContentCells(cells)[k].packet
  {
    var content := ContentCells(cells);
    seq(|content|, k requires 0 <= k < |content| => content[k].packet)
  }

  lemma {:induction false} ContentCellsJoin(a: seq<Cell>, b: seq<Cell>)
    ensures ContentCells(a + b) == ContentCells(a) + ContentCells(b)
  {
    if a == [] {
      assert a + b == b;
    } else {
      assert (a + b)[1..] == a[1..] + b;
      ContentCellsJoin(a[1..], b);
    }
  }

  lemma ContentJoin(a: seq<Cell>, b: seq<Cell>)
    ensures ContentOf(a + b) == ContentOf(a) + ContentOf(b)
  {
    ContentCellsJoin(a, b);
  }

  lemma {:induction false} ContentIsThere(cells: seq<Cell>, cell: Cell)
    requires cell in cells && cell.Content?
    ensures cell in ContentCells(cells) && cell.packet in ContentOf(cells)
  {
    if cell == cells[0] {
      assert ContentCells(cells)[0] == cell;
      assert ContentOf(cells)[0] == cell.packet;
    } else {
      var first := if cells[0].Content? then [cells[0]] else [];
      ContentIsThere(cells[1..], cell);
      assert cell in first + ContentCells(cells[1..]);
      assert ContentCells(cells) == first + ContentCells(cells[1..]);
      var k :| 0 <= k < |ContentCells(cells)| && ContentCells(cells)[k] == cell;
      assert ContentOf(cells)[k] == cell.packet;
    }
  }

  /** A clock is given only to a packet that has one to rewrite. */
  predicate Genuine(cell: Cell) {
    cell.Content? && cell.clock.Some? ==> cell.packet.pcr.Some?
  }

  // ---- What calls deliver ----

  lemma OneCell(cell: Cell)
    ensures ContentOf([cell]) == if cell.Content? then [cell.packet] else []
  {
    assert [cell][1..] == [];
    assert ContentCells([cell]) == if cell.Content? then [cell] else [];
  }

  lemma SlotDelivers(s: Sched, x: Ctx)
    ensures
      var f := EmitSlot(s, x);
      f.s.out == s.out + ContentOf([f.cell]) && Genuine(f.cell)
  {
    hide Sched.Admit, Reinserts, Counted, ContentOf, GridClock, PcrRegens.Regen.Locked;
    Conservation.AdmitTouches(s, s.released < x.due);
    OneCell(EmitSlot(s, x).cell);
  }

  lemma {:induction false} SlotsDeliver(s: Sched, n: nat, x: Ctx)
    ensures
      var e := EmitSlots(s, n, x);
      e.s.out == s.out + ContentOf(e.cells) && forall cell <- e.cells :: Genuine(cell)
  {
    hide EmitSlot, Genuine, ContentOf;
    if n == 0 {
      NoContent();
    } else {
      SlotsDeliver(s, n - 1, x);
      var b := EmitSlots(s, n - 1, x);
      SlotDelivers(b.s, x);
      ContentJoin(b.cells, [EmitSlot(b.s, x).cell]);
    }
  }

  lemma NoContent()
    ensures ContentOf([]) == []
  {
  }

  /** What a call adds to the output slots, and what of it goes to the network: all of it,
      or none when the datagram is withheld. */
  lemma CallDelivers(s: Sched, call: Call)
    ensures
      var s' := Do(s, call);
      var cells := if call.Emit? then EmitDatagram(s, call.now, call.due).cells else [];
      && |s.out| <= |s'.out| && s'.out[..|s.out|] == s.out && s'.store.Buffered? == s.store.Buffered?
      && (ContentOf(cells) == s'.out[|s.out|..] || (s.store.Gridded? && cells == []))
      && forall cell <- cells :: Genuine(cell)
  {
    hide EmitSlots, Opens, GridSpec.Grid.Push, Sched.Boundary, ContentOf, Genuine, Sched.State;
    NoContent();
    if call.Emit? {
      var caught := s.CatchUp(call.now);
      var x := Opens(caught, call.now, call.due);
      SlotsDeliver(Opening(caught, x), s.cfg.perDatagram, x);
      StoreKind(s, call.now, call.due);
    }
  }

  lemma StoreKind(s: Sched, now: nat, due: nat)
    ensures EmitDatagram(s, now, due).s.store.Buffered? == s.store.Buffered?
    ensures s.store.Buffered? ==> Opens(s.CatchUp(now), now, due).send
  {
    hide EmitSlots, Sched.State;
    var caught := s.CatchUp(now);
    var x := Opens(caught, now, due);
    SlotsKeepKind(Opening(caught, x), s.cfg.perDatagram, x);
  }

  lemma {:induction false} SlotsKeepKind(s: Sched, n: nat, x: Ctx)
    ensures EmitSlots(s, n, x).s.store.Buffered? == s.store.Buffered?
  {
    hide Sched.Admit, FillSlot, Transmit;
    if n == 0 {
    } else {
      SlotsKeepKind(s, n - 1, x);
      var b := EmitSlots(s, n - 1, x).s;
      Conservation.AdmitTouches(b, b.released < x.due);
    }
  }

  /** Over a run, the content on the wire is an in-order part of what was put in output
      slots, and all of it under arrival clocking. */
  lemma {:induction false} RunDelivers(s: Sched, calls: seq<Call>)
    ensures
      var s' := RunCalls(s, calls);
      var cells := Repetition.OnWire(s, calls);
      && |s.out| <= |s'.out| && s'.out[..|s.out|] == s.out
      && Subsequence(ContentOf(cells), s'.out[|s.out|..])
      && (s.store.Buffered? ==> ContentOf(cells) == s'.out[|s.out|..])
      && forall cell <- cells :: Genuine(cell)
    decreases |calls|
  {
    hide Do, EmitDatagram, Genuine, ContentOf, Subsequence;
    if calls == [] {
      NoContent();
      SubsequenceSelf<Packet>([]);
      assert s.out[|s.out|..] == [];
    } else {
      var s', rest := Do(s, calls[0]), calls[1..];
      var cells := if calls[0].Emit? then EmitDatagram(s, calls[0].now, calls[0].due).cells else [];
      CallDelivers(s, calls[0]);
      RunDelivers(s', rest);
      ContentJoin(cells, Repetition.OnWire(s', rest));
      var end, added := RunCalls(s', rest).out, s'.out[|s.out|..];
      assert end[|s.out|..] == added + end[|s'.out|..];
      assert end[..|s.out|] == s.out by {
        assert end[..|s'.out|][..|s.out|] == end[..|s.out|];
      }
      PartOf(ContentOf(cells), added);
      SubsequenceJoin(ContentOf(cells), added, ContentOf(Repetition.OnWire(s', rest)), end[|s'.out|..]);
    }
  }

  lemma PartOf(part: seq<Packet>, whole: seq<Packet>)
    ensures part == whole || part == [] ==> Subsequence(part, whole)
  {
    SubsequenceSelf(whole);
  }

  // ---- In octets ----

  /** Every packet given to the scheduler is one the parser made. */
  ghost predicate AllParsed(calls: seq<Call>) {
    forall call <- calls :: call.Enqueue? ==> Parsed(call.packet)
  }

  /** The wire's packet is the input's, but for its clock and the bit before it. */
  ghost predicate Through(wire: seq<Byte>, input: seq<Byte>) {
    && |wire| == |input| == PACKET_SIZE
    && (forall k | 0 <= k < PACKET_SIZE && !(5 <= k < 12) :: wire[k] == input[k])
    && wire[5] % 128 == input[5] % 128
  }

  function Octets(cells: seq<Cell>): (wire: seq<seq<Byte>>)
    requires forall cell <- cells :: Renderable(cell)
    ensures |wire| == |cells| && forall k | 0 <= k < |wire| :: wire[k] == Render(cells[k])
  {
    seq(|cells|, k requires 0 <= k < |cells| => Render(cells[k]))
  }

  lemma {:induction false} AcceptedIsParsed(calls: seq<Call>, p: Packet)
    requires AllParsed(calls) && p in Conservation.PacketsIn(calls)
    ensures Parsed(p)
    decreases |calls|
  {
    assert calls[0] in calls;
    if calls[0].Enqueue? && calls[0].packet.pid != NULL_PID && p == calls[0].packet {
    } else {
      AcceptedIsParsed(calls[1..], p);
    }
  }

  lemma WireIsInput(cfg: Config, calls: seq<Call>)
    ensures
      var cells := Repetition.OnWire(NewSched(cfg), calls);
      && Subsequence(ContentOf(cells), Conservation.PacketsIn(calls))
      && (!cfg.streamed ==> ContentOf(cells) == RunCalls(NewSched(cfg), calls).out)
      && forall cell <- cells :: Genuine(cell)
  {
    hide RunCalls, Subsequence, ContentOf, Genuine, Conservation.PacketsIn;
    var s := RunCalls(NewSched(cfg), calls);
    RunDelivers(NewSched(cfg), calls);
    OutIsInput(cfg, calls);
    assert s.out[0..] == s.out;
    SubsequenceChain(ContentOf(Repetition.OnWire(NewSched(cfg), calls)), s.out, Conservation.PacketsIn(calls));
  }

  /** What has been put in output slots is an in-order part of what was taken in. */
  lemma OutIsInput(cfg: Config, calls: seq<Call>)
    ensures Subsequence(RunCalls(NewSched(cfg), calls).out, Conservation.PacketsIn(calls))
  {
    hide RunCalls, Subsequence, Conservation.PacketsIn, Conservation.InStore;
    var s := RunCalls(NewSched(cfg), calls);
    Conservation.NewConserves(cfg);
    Conservation.RunConserves(NewSched(cfg), calls);
    Conservation.InputIsPacketsIn(NewSched(cfg), calls);
    assert [] + Conservation.PacketsIn(calls) == Conservation.PacketsIn(calls);
    assert Conservation.Pipeline(s)
        == s.out + (Conservation.QueuedPackets(s.em.deferred) + Conservation.InStore(s.store));
    SubsequenceOfPrefix(s.out, Conservation.QueuedPackets(s.em.deferred) + Conservation.InStore(s.store), s.input);
  }

  /** What `Wire` asks of a cell, every cell of every run of parsed packets meets. */
  lemma WireIsParsed(cfg: Config, calls: seq<Call>, cell: Cell)
    requires AllParsed(calls) && cell in Repetition.OnWire(NewSched(cfg), calls)
    ensures Renderable(cell) && Genuine(cell) && (cell.Content? ==> Parsed(cell.packet))
  {
    hide RunCalls, Subsequence, ContentOf, ContentCells, Conservation.PacketsIn, Parsed, Repetition.OnWire;
    WireIsInput(cfg, calls);
    if cell.Content? {
      var cells := Repetition.OnWire(NewSched(cfg), calls);
      ContentIsThere(cells, cell);
      SubsequenceMember(ContentOf(cells), Conservation.PacketsIn(calls), cell.packet);
      AcceptedIsParsed(calls, cell.packet);
      ParsedIsPacket(cell.packet);
    }
  }

  lemma ParsedIsPacket(p: Packet)
    requires Parsed(p)
    ensures IsPacket(p.bytes)
  {
  }

  lemma CellGoesThrough(cell: Cell)
    requires cell.Content? && Parsed(cell.packet) && Genuine(cell)
    ensures Through(Render(cell), cell.packet.bytes)
    ensures cell.packet.pcr.None? ==> Render(cell) == cell.packet.bytes
  {
    hide ReadPcr, Render;
    ContentIsTransparent(cell);
    ParsedIsPacket(cell.packet);
  }

  /** Over every run of parsed packets, at any times, in either mode: the content packets
      on the wire, octet for octet and in the order they go out, are an in-order part of
      the packets taken in, and differ from them in the PCR field and the bit before it
      alone, where there is a PCR, and nowhere where there is none. */
  lemma InputGoesThrough(cfg: Config, calls: seq<Call>)
    requires AllParsed(calls)
    ensures
      var cells := Repetition.OnWire(NewSched(cfg), calls);
      && (forall cell <- cells :: Renderable(cell))
      && (forall cell <- ContentCells(cells) :: Renderable(cell))
      && var wire, carried := Octets(ContentCells(cells)), ContentOf(cells);
         && |wire| == |carried| && Subsequence(carried, Conservation.PacketsIn(calls))
         && (forall k | 0 <= k < |wire| :: Through(wire[k], carried[k].bytes))
         && (forall k | 0 <= k < |wire| && carried[k].pcr.None? :: wire[k] == carried[k].bytes)
         && (!cfg.streamed ==> carried == RunCalls(NewSched(cfg), calls).out)
  {
    hide RunCalls, Repetition.OnWire, Subsequence, Conservation.PacketsIn, Through, Render, Genuine, Parsed, AllParsed;
    var cells := Repetition.OnWire(NewSched(cfg), calls);
    WireIsInput(cfg, calls);
    forall cell | cell in cells
      ensures Renderable(cell) && Genuine(cell) && (cell.Content? ==> Parsed(cell.packet))
    {
      WireIsParsed(cfg, calls, cell);
    }
    var content := ContentCells(cells);
    forall k | 0 <= k < |content|
      ensures Through(Render(content[k]), content[k].packet.bytes)
      ensures content[k].packet.pcr.None? ==> Render(content[k]) == content[k].packet.bytes
    {
      assert content[k] in content;
      CellGoesThrough(content[k]);
    }
  }

  // ---- The repetition bound, in octets ----

  lemma CellPcrIsOnTheWire(cell: Cell)
    requires Renderable(cell) && Genuine(cell) && (cell.Content? ==> Parsed(cell.packet))
    ensures ReadPcr(Render(cell)).Some? <==> CarriesPcr(cell)
  {
    PcrIsOnTheWire(cell);
  }

  /** Over every run of parsed packets and every unstalled, unmuted stretch after it, in
      phase under stream clocking: once a PCR can be read from what has gone out, one can
      be read from every `pcrMax` consecutive packets. */
  lemma RepetitionInOctets(cfg: Config, before: seq<Call>, calls: seq<Call>, first: Cell, i: nat) returns (j: nat)
    requires cfg.regenerate && AllParsed(before + calls)
    requires Repetition.Steady(RunCalls(NewSched(cfg), before), calls)
    requires
      var cells := Repetition.OnWire(RunCalls(NewSched(cfg), before), calls);
      && i + cfg.pcrMax <= |cells|
      && first in Repetition.OnWire(NewSched(cfg), before) + cells[..i]
      && Renderable(first) && ReadPcr(Render(first)).Some?
    ensures
      var cells := Repetition.OnWire(RunCalls(NewSched(cfg), before), calls);
      i <= j < i + cfg.pcrMax && j < |cells| && Renderable(cells[j]) && ReadPcr(Render(cells[j])).Some?
  {
    hide RunCalls, Repetition.OnWire, Repetition.Steady, Render, ReadPcr, CarriesPcr, AllParsed, Genuine, Parsed;
    var s := RunCalls(NewSched(cfg), before);
    var sent, cells := Repetition.OnWire(NewSched(cfg), before), Repetition.OnWire(s, calls);
    OnWireJoins(NewSched(cfg), before, calls);
    assert first in sent + cells by {
      if first !in sent {
        assert first in cells[..i];
      }
    }
    WireIsParsed(cfg, before + calls, first);
    CellPcrIsOnTheWire(first);
    j := Repetition.LegHoldsTheBound(cfg, before, calls, i);
    assert cells[j] in sent + cells;
    WireIsParsed(cfg, before + calls, cells[j]);
    CellPcrIsOnTheWire(cells[j]);
  }

  lemma {:induction false} OnWireJoins(s: Sched, a: seq<Call>, b: seq<Call>)
    ensures Repetition.OnWire(s, a + b) == Repetition.OnWire(s, a) + Repetition.OnWire(RunCalls(s, a), b)
    decreases |a|
  {
    hide Do, EmitDatagram;
    if a == [] {
      assert a + b == b;
    } else {
      assert (a + b)[1..] == a[1..] + b;
      OnWireJoins(Do(s, a[0]), a[1..], b);
    }
  }
}
