/** The clock an arrival-clocked leg puts on the wire against the clock its source sent
    (src/pcr.rs, `PcrRegen::rewrite`; src/scheduler.rs, `emit_datagram`). */
module SourceClocks {
  import opened Prelude
  import opened Packets
  import opened SlotMaps
  import opened PcrField
  import opened SchedulerSpec
  import opened Wire
  import opened Delivery
  import opened Insertions
  import Conservation
  import OutputClock
  import PcrRegens
  import Repetition

  // ---- What the source sent ----

  predicate IsContentPcr(cell: Cell) {
    cell.Content? && cell.packet.pcr.Some?
  }

  predicate AllContentPcrs(puts: seq<Put>) {
    forall i | 0 <= i < |puts| :: IsContentPcr(puts[i].cell)
  }

  /** The content PCRs among what was put out. */
  function ContentPcrs(puts: seq<Put>): (pcrs: seq<Put>)
    ensures AllContentPcrs(pcrs)
  {
    if puts == [] then []
    else
      var last := puts[|puts| - 1];
      ContentPcrs(puts[..|puts| - 1]) + if IsContentPcr(last.cell) then [last] else []
  }

  /** A source clock that does not simply run on from one PCR to the next: the step is
      declared, nothing, or over five seconds. */
  predicate Splices(previous: Packet, next: Packet)
    requires previous.pcr.Some? && next.pcr.Some?
  {
    var delta := ForwardDelta(previous.pcr.value, next.pcr.value);
    next.declared || delta == 0 || TicksToNanos(delta) > DISCONTINUITY_GAP
  }

  /** Content PCR `i` is the first, or at a splice. */
  predicate Starts(pcrs: seq<Put>, i: nat)
    requires i < |pcrs| && AllContentPcrs(pcrs)
  {
    i == 0 || Splices(pcrs[i - 1].cell.packet, pcrs[i].cell.packet)
  }

  /** The last of them that is the first or at a splice. */
  function LastStart(pcrs: seq<Put>): (i: nat)
    requires pcrs != [] && AllContentPcrs(pcrs)
    ensures i < |pcrs|
  {
    if Starts(pcrs, |pcrs| - 1) then |pcrs| - 1 else LastStart(pcrs[..|pcrs| - 1])
  }

  /** The source's own value there, and the byte clock from its slot to `slot`. */
  function ClockAt(m: SlotMap, pcrs: seq<Put>, slot: nat): nat
    requires pcrs != [] && AllContentPcrs(pcrs)
  {
    var start := pcrs[LastStart(pcrs)];
    (start.cell.packet.pcr.value % WRAP + SatSub(slot, start.slot) * SLOT_COST / m.rate) % WRAP
  }

  /** Every PCR put out, content's or inserted, carries the value of the last start before
      it, its own if it is one, and the byte clock since; and every content PCR at a splice
      is marked. `past` is what was put out before. */
  ghost predicate OnSourceClock(c: Config, past: seq<Put>, puts: seq<Put>) {
    forall k | 0 <= k < |puts| && CarriesPcr(puts[k].cell) :: Kept(c, past + puts[..k], puts[k])
  }

  ghost predicate Kept(c: Config, past: seq<Put>, put: Put) {
    var pcrs := ContentPcrs(past + [put]);
    && pcrs != [] && OutputClock.ClockOf(put.cell) == Some(ClockAt(c.m, pcrs, put.slot))
    && (put.cell.Content? && |pcrs| > 1 && Starts(pcrs, |pcrs| - 1) ==> put.cell.mark)
    && (put.cell.Content? && put.cell.mark && c.stallTimeout.None? ==> |pcrs| > 1 && Starts(pcrs, |pcrs| - 1))
  }

  // ---- The regenerator keeps it so ----

  ghost predicate Tracks(r: PcrRegens.Regen, pcrs: seq<Put>)
    requires AllContentPcrs(pcrs)
  {
    if pcrs == [] then r.anchor.None? && r.lastSrc.None?
    else
      var start := pcrs[LastStart(pcrs)];
      && r.lastSrc == pcrs[|pcrs| - 1].cell.packet.pcr
      && r.anchor == Some(PcrRegens.Anchor(start.slot, start.cell.packet.pcr.value % WRAP))
  }

  ghost predicate Follows(s: Sched, past: seq<Put>) {
    && OutputClock.OffGrid(s) && s.cfg.regenerate && s.regen.m == s.cfg.m
    && Tracks(s.regen, ContentPcrs(past))
    && (s.cfg.stallTimeout.None? ==> !s.stalled && !s.regen.flagNext)
  }

  lemma PcrsOneMore(past: seq<Put>, put: Put)
    ensures ContentPcrs(past + [put]) == ContentPcrs(past) + if IsContentPcr(put.cell) then [put] else []
  {
    assert (past + [put])[..|past|] == past;
  }

  /** What observing a content PCR does to what is tracked. */
  lemma ObserveTracks(r: PcrRegens.Regen, pcrs: seq<Put>, put: Put)
    requires AllContentPcrs(pcrs) && IsContentPcr(put.cell) && Tracks(r, pcrs)
    ensures AllContentPcrs(pcrs + [put])
    ensures
      var p := put.cell.packet;
      Tracks(r.Observe(p.pcr.value, p.declared, put.slot), pcrs + [put])
    ensures
      var p := put.cell.packet;
      r.Rebases(p.pcr.value, p.declared) <==> Starts(pcrs + [put], |pcrs|) && pcrs != []
  {
    hide ForwardDelta, TicksToNanos;
    var all := pcrs + [put];
    assert all[..|pcrs|] == pcrs;
    if pcrs != [] {
      assert all[|pcrs| - 1] == pcrs[|pcrs| - 1];
      assert !Starts(all, |pcrs|) ==> LastStart(all) == LastStart(pcrs);
    }
  }

  lemma TrackedIsLocked(r: PcrRegens.Regen, pcrs: seq<Put>, slot: nat)
    requires AllContentPcrs(pcrs) && Tracks(r, pcrs)
    ensures r.Locked(slot) == if pcrs == [] then None else Some(ClockAt(r.m, pcrs, slot))
  {
  }

  lemma FlaggedTracks(r: PcrRegens.Regen, pcrs: seq<Put>)
    requires AllContentPcrs(pcrs) && Tracks(r, pcrs)
    ensures Tracks(r.Flagged(), pcrs)
  {
  }

  /** What filling a slot under arrival clocking does to the regenerator, and what it puts
      out of it. */
  lemma PutClocks(s: Sched, x: Ctx, want: bool, admitted: bool)
    requires OutputClock.OffGrid(s) && s.cfg.regenerate
    ensures
      var f := PutSlot(s, x, want, admitted);
      && OutputClock.OffGrid(f.s) && f.s.cfg == s.cfg && f.s.slot == s.slot + 1 && f.s.stalled == s.stalled
      && match f.cell
         case Content(p, clock, mark) =>
           if p.pcr.None? then f.s.regen == s.regen && clock.None?
           else
             && f.s.regen == s.regen.Observe(p.pcr.value, p.declared, s.slot)
             && clock == f.s.regen.Locked(s.slot) && mark == s.regen.Flags(p.pcr.value, p.declared)
         case PcrOnly(_, _, pcr) => f.s.regen == s.regen && s.regen.Locked(s.slot) == Some(pcr)
         case Null => f.s.regen == s.regen
  {
    hide PcrRegens.Regen.Observe, PcrRegens.Regen.Flags, Counted, SlotMap.TicksOfSlot;
  }

  lemma SlotClocks(s: Sched, x: Ctx, past: seq<Put>)
    requires Follows(s, past)
    ensures
      var f := EmitSlot(s, x);
      var put := Put(s.slot, f.cell);
      && Follows(f.s, past + [put]) && f.s.cfg == s.cfg && (CarriesPcr(f.cell) ==> Kept(s.cfg, past, put))
  {
    hide PutSlot, Tracks, ContentPcrs, ClockAt, PcrRegens.Regen.Locked, PcrRegens.Regen.Rebases, Starts;
    var want := s.released < x.due;
    var a := s.Admit(want);
    Conservation.AdmitTouches(s, want);
    PutClocks(a, x, want, |a.em.deferred| > |s.em.deferred|);
    var f := EmitSlot(s, x);
    var put, pcrs := Put(s.slot, f.cell), ContentPcrs(past);
    PcrsOneMore(past, put);
    if IsContentPcr(f.cell) {
      ObserveTracks(s.regen, pcrs, put);
      TrackedIsLocked(f.s.regen, pcrs + [put], s.slot);
    } else {
      assert pcrs + [] == pcrs;
      TrackedIsLocked(s.regen, pcrs, s.slot);
    }
  }

  lemma OnClockJoins(c: Config, past: seq<Put>, a: seq<Put>, b: seq<Put>)
    requires OnSourceClock(c, past, a) && OnSourceClock(c, past + a, b)
    ensures OnSourceClock(c, past, a + b) && past + (a + b) == past + a + b
  {
    hide Kept;
    forall k | 0 <= k < |a + b| && CarriesPcr((a + b)[k].cell)
      ensures Kept(c, past + (a + b)[..k], (a + b)[k])
    {
      if k < |a| {
        assert (a + b)[..k] == a[..k] && (a + b)[k] == a[k];
      } else {
        assert past + (a + b)[..k] == past + a + b[..k - |a|] && (a + b)[k] == b[k - |a|];
      }
    }
  }

  lemma OneOnClock(c: Config, past: seq<Put>, put: Put)
    requires CarriesPcr(put.cell) ==> Kept(c, past, put)
    ensures OnSourceClock(c, past, [put])
  {
    hide Kept;
    assert past + [put][..0] == past;
  }

  lemma NothingOnClock(c: Config, past: seq<Put>)
    ensures OnSourceClock(c, past, []) && past + [] == past
  {
  }

  lemma {:induction false} SlotsClock(s: Sched, n: nat, x: Ctx, past: seq<Put>)
    requires Follows(s, past)
    ensures
      var e, puts := EmitSlots(s, n, x).s, SlotsPut(s, n, x);
      Follows(e, past + puts) && e.cfg == s.cfg && OnSourceClock(s.cfg, past, puts)
  {
    hide EmitSlot, Follows, OnSourceClock, Kept;
    NothingOnClock(s.cfg, past);
    if n == 0 {
    } else {
      SlotsClock(s, n - 1, x, past);
      var b, puts := EmitSlots(s, n - 1, x).s, SlotsPut(s, n - 1, x);
      var put := Put(b.slot, EmitSlot(b, x).cell);
      SlotClocks(b, x, past + puts);
      OneOnClock(s.cfg, past + puts, put);
      OnClockJoins(s.cfg, past, puts, [put]);
    }
  }

  lemma NeverStalls(s: Sched, now: nat, due: nat)
    requires s.cfg.stallTimeout.None?
    ensures !Opens(s, now, due).stalled
  {
  }

  lemma CallClocks(s: Sched, call: Call, past: seq<Put>)
    requires Follows(s, past)
    ensures
      var s', puts := Do(s, call), CallPuts(s, call);
      Follows(s', past + puts) && s'.cfg == s.cfg && OnSourceClock(s.cfg, past, puts)
  {
    hide EmitSlots, SlotsPut, Opens, OnSourceClock, Tracks, ContentPcrs;
    NothingOnClock(s.cfg, past);
    FlaggedTracks(s.regen, ContentPcrs(past));
    if call.Emit? {
      Repetition.CatchUpIsForGrids(s, call.now);
      var x := Opens(s, call.now, call.due);
      if s.cfg.stallTimeout.None? {
        NeverStalls(s, call.now, call.due);
      }
      SlotsClock(Opening(s, x), s.cfg.perDatagram, x, past);
    }
  }

  lemma {:induction false} RunClocks(s: Sched, calls: seq<Call>, past: seq<Put>)
    requires Follows(s, past)
    ensures OnSourceClock(s.cfg, past, RunPuts(s, calls))
    decreases |calls|
  {
    hide Do, CallPuts, Follows, OnSourceClock;
    NothingOnClock(s.cfg, past);
    if calls == [] {
    } else {
      CallClocks(s, calls[0], past);
      RunClocks(Do(s, calls[0]), calls[1..], past + CallPuts(s, calls[0]));
      OnClockJoins(s.cfg, past, CallPuts(s, calls[0]), RunPuts(Do(s, calls[0]), calls[1..]));
    }
  }

  lemma NewFollows(cfg: Config)
    requires !cfg.streamed && cfg.regenerate
    ensures Follows(NewSched(cfg), [])
  {
  }

  // ---- In octets ----

  lemma ClockIsReduced(m: SlotMap, pcrs: seq<Put>, slot: nat)
    requires pcrs != [] && AllContentPcrs(pcrs)
    ensures ClockAt(m, pcrs, slot) % WRAP == ClockAt(m, pcrs, slot)
  {
  }

  /** What a receiver reads of a PCR put out. */
  lemma KeptOnTheWire(c: Config, past: seq<Put>, put: Put)
    requires CarriesPcr(put.cell) && Kept(c, past, put)
    requires Renderable(put.cell) && Genuine(put.cell) && (put.cell.Content? ==> Parsed(put.cell.packet))
    ensures
      var pcrs := ContentPcrs(past + [put]);
      && pcrs != [] && ReadPcr(Render(put.cell)) == Some(ClockAt(c.m, pcrs, put.slot))
      && (put.cell.Content? && |pcrs| > 1 && Starts(pcrs, |pcrs| - 1) ==> DeclaresDiscontinuity(Render(put.cell)))
  {
    hide ReadPcr, DeclaresDiscontinuity, ContentPcrs, PcrRegens.Stamped, Starts, ClockAt, Parsed, PcrOnlyBytes, Parse;
    ClockIsReduced(c.m, ContentPcrs(past + [put]), put.slot);
    PcrIsOnTheWire(put.cell);
    if put.cell.Content? {
      ContentIsTransparent(put.cell);
      ParsedPcr(put.cell.packet);
      MarkedDeclares(put.cell.packet.bytes, put.cell.clock.value);
    }
  }

  lemma MarkedDeclares(packet: seq<Byte>, ticks: nat)
    requires HasPcr(packet)
    ensures IsPacket(packet) && DeclaresDiscontinuity(PcrRegens.Stamped(packet, ticks, true))
  {
    hide ReadPcr, EncodePcr, HasPcr, DeclaresDiscontinuity;
    HasPcrIsPacketAgain(packet);
    RewrittenPacket(packet, ticks);
    FlaggedPacket(WithPcr(packet, ticks));
  }

  lemma HasPcrIsPacketAgain(packet: seq<Byte>)
    requires HasPcr(packet)
    ensures IsPacket(packet) && ReadPcr(packet).Some?
  {
  }

  /** Over every arrival-clocked run of parsed packets, through any stalls and muting, read
      from the octets: the first content PCR on the wire, and every one at a splice of the
      source clock (declared, repeated or over five seconds on from the one before), carries
      exactly its source value; each at a splice is marked as a discontinuity, and none else
      unless a stall may have ended; and every other PCR, content's or inserted, carries the
      value of the last of those and the byte clock from its slot, all modulo the wrap. */
  lemma WireFollowsTheSource(cfg: Config, calls: seq<Call>, k: nat)
    requires !cfg.streamed && cfg.regenerate && AllParsed(calls)
    requires k < |RunPuts(NewSched(cfg), calls)|
    ensures
      var puts := RunPuts(NewSched(cfg), calls);
      && Repetition.OnWire(NewSched(cfg), calls) == Cells(puts) && Renderable(puts[k].cell)
      && var octets, pcrs := Render(puts[k].cell), ContentPcrs(puts[..k + 1]);
         if !CarriesPcr(puts[k].cell) then ReadPcr(octets).None?
         else
           && pcrs != [] && ReadPcr(octets) == Some(ClockAt(cfg.m, pcrs, puts[k].slot))
           && (puts[k].cell.Content? ==>
                 && (|pcrs| > 1 && Starts(pcrs, |pcrs| - 1) ==> puts[k].cell.mark && DeclaresDiscontinuity(octets))
                 && (cfg.stallTimeout.None? && puts[k].cell.mark ==> |pcrs| > 1 && Starts(pcrs, |pcrs| - 1)))
  {
    hide RunPuts, Repetition.OnWire, ReadPcr, DeclaresDiscontinuity, ContentPcrs, LastStart, Starts, Render, ClockAt;
    hide Parsed, Genuine, CarriesPcr, AllParsed;
    var puts := RunPuts(NewSched(cfg), calls);
    ArrivalSendsAll(NewSched(cfg), calls);
    WireIsPut(NewSched(cfg), calls);
    assert Cells(puts)[k] == puts[k].cell;
    WireIsParsed(cfg, calls, puts[k].cell);
    CellPcrIsOnTheWire(puts[k].cell);
    NewFollows(cfg);
    RunClocks(NewSched(cfg), calls, []);
    assert [] + puts[..k] == puts[..k] && puts[..k] + [puts[k]] == puts[..k + 1];
    if CarriesPcr(puts[k].cell) {
      KeptOnTheWire(cfg, puts[..k], puts[k]);
    }
  }

  /** What it carries at a start is the source's own value. */
  lemma StartCarriesTheSource(m: SlotMap, pcrs: seq<Put>)
    requires pcrs != [] && AllContentPcrs(pcrs) && Starts(pcrs, |pcrs| - 1)
    ensures
      var last := pcrs[|pcrs| - 1];
      ClockAt(m, pcrs, last.slot) == last.cell.packet.pcr.value % WRAP
  {
    QuotientAtLeast(0, m.rate, 1);
  }
}
