/** Byte-locked PCR regeneration (src/pcr.rs, `PcrRegen`): the emitted clock is the
    anchor plus the exact byte clock, however long the run. */
module PcrRegens {
  import opened Prelude
  import opened Packets
  import opened SlotMaps
  import opened PcrField

  datatype Anchor = Anchor(index: nat, pcr: nat)

  datatype Regen = Regen(m: SlotMap, anchor: Option<Anchor>, lastSrc: Option<nat>, flagNext: bool)
  {
    /** The byte-locked value at an output position. */
    function Locked(index: nat): Option<nat> {
      if anchor.None? then None
      else Some((anchor.value.pcr + m.TicksOfSlot(SatSub(index, anchor.value.index))) % WRAP)
    }

    predicate Breaks(src: nat, declared: bool) {
      lastSrc.Some? &&
      var delta := ForwardDelta(lastSrc.value, src);
      declared || delta == 0 || TicksToNanos(delta) > DISCONTINUITY_GAP
    }

    predicate Rebases(src: nat, declared: bool) {
      anchor.Some? && Breaks(src, declared)
    }

    /** After a content PCR at `index`: re-anchored on the first and on every break. */
    function Observe(src: nat, declared: bool, index: nat): Regen {
      var anchored := if anchor.Some? && !Breaks(src, declared) then anchor else Some(Anchor(index, src % WRAP));
      Regen(m, anchored, Some(src), false)
    }

    /** Whether the rewritten packet carries the discontinuity indicator. */
    predicate Flags(src: nat, declared: bool) {
      Rebases(src, declared) || flagNext
    }

    function Flagged(): Regen {
      this.(flagNext := true)
    }
  }

  function NewRegen(m: SlotMap): Regen {
    Regen(m, None, None, false)
  }

  /** `packet` with its PCR set to `ticks` and, if asked, its indicator set. */
  function Stamped(packet: seq<Byte>, ticks: nat, flag: bool): (b: seq<Byte>)
    requires IsPacket(packet)
    ensures |b| == PACKET_SIZE
  {
    if flag then WithIndicator(WithPcr(packet, ticks)) else WithPcr(packet, ticks)
  }

  /** Everything a stamp may touch: octets 6 to 11, and the top bit of octet 5. What it
      writes is what is read back. */
  lemma StampIsTransparent(packet: seq<Byte>, ticks: nat, flag: bool)
    requires HasPcr(packet)
    ensures ReadPcr(Stamped(packet, ticks, flag)) == Some(ticks % WRAP)
    ensures forall k | 0 <= k < PACKET_SIZE && !(5 <= k < 12) :: Stamped(packet, ticks, flag)[k] == packet[k]
    ensures Stamped(packet, ticks, flag)[5] == if flag && packet[5] < 128 then packet[5] + 128 else packet[5]
  {
    RewrittenPacket(packet, ticks);
    FlaggedPacket(WithPcr(packet, ticks));
    hide ReadPcr, EncodePcr;
  }

  class PcrRegen {
    const m: SlotMap
    var anchor: Option<Anchor>
    var lastSrc: Option<nat>
    var flagNext: bool

    ghost function State(): Regen
      reads this
    {
      Regen(m, anchor, lastSrc, flagNext)
    }

    constructor (m: SlotMap)
      ensures State() == NewRegen(m)
    {
      this.m, anchor, lastSrc, flagNext := m, None, None, false;
    }

    method FlagDiscontinuity()
      modifies this`flagNext
      ensures State() == old(State()).Flagged()
    {
      flagNext := true;
    }

    function LockedForIndex(index: nat): (pcr: Option<nat>)
      reads this
      ensures pcr == State().Locked(index)
    {
      if anchor.None? then None
      else Some((anchor.value.pcr + m.TicksOfSlot(SatSub(index, anchor.value.index))) % WRAP)
    }

    /** Rewrite the PCR of the packet at output position `index` in place; whether that
        moved the anchor. Octets that are no packet, or carry no PCR, are left alone,
        and so is the state. */
    method Rewrite(packet: array<Byte>, index: nat) returns (rebased: bool)
      modifies this, packet
      ensures
        var b := old(packet[..]);
        var regen := old(State());
        if ReadPcr(b).None? then State() == regen && packet[..] == b && !rebased
        else
          var src, declared := ReadPcr(b).value, DeclaresDiscontinuity(b);
          && State() == regen.Observe(src, declared, index)
          && rebased == regen.Rebases(src, declared)
          && State().Locked(index).Some?
          && packet[..] == Stamped(b, State().Locked(index).value, regen.Flags(src, declared))
    {
      hide ForwardDelta, TicksToNanos, DecodePcr, EncodePcr, HasPcr, DeclaresDiscontinuity, WithIndicator,
           SlotMap.TicksOfSlot;
      var b := packet[..];
      var src := ReadPcr(b);
      rebased := false;
      if src.None? {
        return;
      }
      HasPcrIsPacket(packet[..]);
      var broken := false;
      if lastSrc.Some? {
        var delta := ForwardDelta(lastSrc.value, src.value);
        broken := DeclaresDiscontinuity(b) || delta == 0 || TicksToNanos(delta) > DISCONTINUITY_GAP;
      }
      lastSrc := src;
      if anchor.None? || broken {
        rebased := anchor.Some?;
        anchor := Some(Anchor(index, src.value % WRAP));
      }
      var ticks := m.TicksOfSlot(SatSub(index, anchor.value.index));
      WritePcr(packet, 6, (anchor.value.pcr + ticks) % WRAP);
      var flagged := flagNext;
      flagNext := false;
      if rebased || flagged {
        var _ := SetDiscontinuityIndicator(packet);
      }
    }

    /** Rewrite a packet's PCR to a given value in place; only the pending flag changes. */
    method RewriteAbsolute(packet: array<Byte>, pcr: nat)
      modifies this`flagNext, packet
      ensures
        var b := old(packet[..]);
        if ReadPcr(b).None? then flagNext == old(flagNext) && packet[..] == b
        else !flagNext && packet[..] == Stamped(b, pcr % WRAP, old(flagNext))
    {
      hide DecodePcr, EncodePcr, HasPcr, WithIndicator;
      var src := ReadPcr(packet[..]);
      if src.None? {
        return;
      }
      HasPcrIsPacket(packet[..]);
      WritePcr(packet, 6, pcr % WRAP);
      var flagged := flagNext;
      flagNext := false;
      if flagged {
        var _ := SetDiscontinuityIndicator(packet);
      }
    }
  }

  // ---- No drift ----

  /** A PCR the regenerator is asked for: on a content packet, or to insert one. */
  datatype Ask = OnContent(src: nat, declared: bool, index: nat) | ToInsert(index: nat)

  function After(r: Regen, ask: Ask): Regen {
    match ask
    case OnContent(src, declared, index) => r.Observe(src, declared, index)
    case ToInsert(_) => r
  }

  /** The value put out for one ask. */
  function Answer(r: Regen, ask: Ask): Option<nat> {
    After(r, ask).Locked(ask.index)
  }

  function Answers(r: Regen, asks: seq<Ask>): seq<Option<nat>>
    decreases |asks|
  {
    if asks == [] then [] else [Answer(r, asks[0])] + Answers(After(r, asks[0]), asks[1..])
  }

  /** No ask in the run is a source discontinuity. */
  predicate Unbroken(r: Regen, asks: seq<Ask>)
    decreases |asks|
  {
    asks == [] ||
    ((asks[0].OnContent? ==> !r.Breaks(asks[0].src, asks[0].declared)) && Unbroken(After(r, asks[0]), asks[1..]))
  }

  /** Between re-bases, however long, every value put out is the anchor's plus the exact
      byte clock since: each is computed afresh, and no error accumulates. */
  lemma {:induction false} LockedToTheAnchor(r: Regen, asks: seq<Ask>, k: nat)
    requires r.anchor.Some? && Unbroken(r, asks) && k < |asks|
    ensures |Answers(r, asks)| == |asks|
    ensures Answers(r, asks)[k]
         == Some((r.anchor.value.pcr + r.m.TicksOfSlot(SatSub(asks[k].index, r.anchor.value.index))) % WRAP)
    decreases |asks|
  {
    AnswerCount(r, asks);
    var r' := After(r, asks[0]);
    assert r'.anchor == r.anchor && r'.m == r.m;
    if k == 0 {
    } else {
      LockedToTheAnchor(r', asks[1..], k - 1);
    }
  }

  lemma {:induction false} AnswerCount(r: Regen, asks: seq<Ask>)
    ensures |Answers(r, asks)| == |asks|
    decreases |asks|
  {
    if asks == [] {
    } else {
      AnswerCount(After(r, asks[0]), asks[1..]);
    }
  }

  /** Two values of one anchor, at any two positions past it: their difference modulo the
      wrap is some `ticks` that is within one tick of the exact byte-clock interval,
      |ticks * rate - (j - i) * SLOT_COST| < rate. */
  lemma LockedDoesNotDrift(r: Regen, i: nat, j: nat) returns (ticks: nat)
    requires r.anchor.Some? && r.anchor.value.index <= i <= j
    ensures (r.Locked(i).value + ticks) % WRAP == r.Locked(j).value
    ensures -(r.m.rate as int) < ticks * r.m.rate - (j - i) * SLOT_COST < r.m.rate
  {
    hide SlotMap.TicksOfSlot;
    var a, b := i - r.anchor.value.index, j - r.anchor.value.index;
    TicksMonotone(r.m, a, b);
    ticks := r.m.TicksOfSlot(b) - r.m.TicksOfSlot(a);
    FloorDifference(r.m, a, b);
    AddModulo(r.anchor.value.pcr + r.m.TicksOfSlot(a), ticks);
  }

  /** The same of any two values put out between the same re-bases. */
  lemma NoDrift(r: Regen, asks: seq<Ask>, i: nat, j: nat) returns (ticks: nat)
    requires r.anchor.Some? && Unbroken(r, asks) && i < |asks| && j < |asks|
    requires r.anchor.value.index <= asks[i].index <= asks[j].index
    ensures |Answers(r, asks)| == |asks| && Answers(r, asks)[i].Some? && Answers(r, asks)[j].Some?
    ensures (Answers(r, asks)[i].value + ticks) % WRAP == Answers(r, asks)[j].value
    ensures -(r.m.rate as int) < ticks * r.m.rate - (asks[j].index - asks[i].index) * SLOT_COST < r.m.rate
  {
    hide Unbroken, Answers, SlotMap.TicksOfSlot;
    LockedToTheAnchor(r, asks, i);
    LockedToTheAnchor(r, asks, j);
    ticks := LockedDoesNotDrift(r, asks[i].index, asks[j].index);
  }

  lemma FloorDifference(m: SlotMap, a: nat, b: nat)
    ensures
      var ticks := m.TicksOfSlot(b) - m.TicksOfSlot(a);
      -(m.rate as int) < ticks * m.rate - (b - a) * SLOT_COST < m.rate
  {
    QuotientBounds(a * SLOT_COST, m.rate);
    QuotientBounds(b * SLOT_COST, m.rate);
    assert (m.TicksOfSlot(b) - m.TicksOfSlot(a)) * m.rate
        == m.TicksOfSlot(b) * m.rate - m.TicksOfSlot(a) * m.rate;
  }

  lemma AddModulo(x: nat, y: nat)
    ensures (x % WRAP + y) % WRAP == (x + y) % WRAP
  {
  }
}
