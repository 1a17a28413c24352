/** The PCR field of a transport packet (section 2.4.3.5 of ISO/IEC 13818-1), read and
    written octet by octet, and the packets the pacer makes itself (src/pcr.rs,
    src/null_insertion.rs, src/packet.rs). */
module PcrField {
  import opened Prelude
  import opened Packets
  import opened SlotMaps

  // ---- Reading ----

  predicate IsPacket(b: seq<Byte>) {
    |b| == PACKET_SIZE && b[0] == SYNC_BYTE
  }

  /** The 33-bit 90 kHz base of six PCR octets. */
  function BaseOf(o: seq<Byte>): (base: nat)
    requires |o| == 6
    ensures base < 0x2_0000_0000
  {
    o[0] as nat * 0x200_0000 + o[1] as nat * 0x2_0000 + o[2] as nat * 0x200 + o[3] as nat * 2 + o[4] as nat / 128
  }

  /** Their 9-bit extension, which nothing holds below 300. */
  function ExtensionOf(o: seq<Byte>): (ext: nat)
    requires |o| == 6
    ensures ext < 512
  {
    o[4] as nat % 2 * 256 + o[5] as nat
  }

  function DecodePcr(o: seq<Byte>): nat
    requires |o| == 6
  {
    BaseOf(o) * 300 + ExtensionOf(o)
  }

  predicate HasAdaptation(b: seq<Byte>)
    requires |b| == PACKET_SIZE
  {
    b[3] / 32 % 2 == 1
  }

  predicate HasPcr(b: seq<Byte>) {
    IsPacket(b) && HasAdaptation(b) && 7 <= b[4] <= PACKET_SIZE - 5 && b[5] / 16 % 2 == 1
  }

  function ReadPcr(b: seq<Byte>): Option<nat> {
    if HasPcr(b) then Some(DecodePcr(b[6..12])) else None
  }

  lemma HasPcrIsPacket(b: seq<Byte>)
    requires ReadPcr(b).Some?
    ensures IsPacket(b)
  {
  }

  predicate DeclaresDiscontinuity(b: seq<Byte>) {
    |b| == PACKET_SIZE && HasAdaptation(b) && b[4] > 0 && b[5] >= 128
  }

  function Parse(b: seq<Byte>): Packet
    requires IsPacket(b)
  {
    Packet(b, b[1] as nat % 32 * 256 + b[2] as nat, b[3] % 16, b[3] / 16 % 2 == 1, DeclaresDiscontinuity(b), ReadPcr(b))
  }

  ghost predicate Parsed(p: Packet) {
    IsPacket(p.bytes) && p == Parse(p.bytes)
  }

  // ---- Writing ----

  /** The six octets of a clock value, reserved bits set. */
  function EncodePcr(ticks: nat): (o: seq<Byte>)
    ensures |o| == 6
  {
    var base := ticks / 300 % 0x2_0000_0000;
    var ext := ticks % 300;
    [base / 0x200_0000, base / 0x2_0000 % 256, base / 0x200 % 256, base / 2 % 256,
     base % 2 * 128 + 0x7e + ext / 256, ext % 256]
  }

  /** `b` with its PCR octets replaced. */
  function WithPcr(b: seq<Byte>, ticks: nat): (w: seq<Byte>)
    requires |b| == PACKET_SIZE
    ensures |w| == PACKET_SIZE
  {
    b[..6] + EncodePcr(ticks) + b[12..]
  }

  /** `b` with its discontinuity indicator set, where it is a packet with an adaptation
      field. */
  function WithIndicator(b: seq<Byte>): (w: seq<Byte>)
    ensures |w| == |b|
  {
    if IsPacket(b) && HasAdaptation(b) && b[4] > 0 then b[5 := if b[5] >= 128 then b[5] else b[5] + 128] else b
  }

  lemma DigitsRejoin(base: nat)
    requires base < 0x2_0000_0000
    ensures base / 0x200_0000 * 0x200_0000 + base / 0x2_0000 % 256 * 0x2_0000 + base / 0x200 % 256 * 0x200
              + base / 2 % 256 * 2 + base % 2 == base
  {
    assert base / 0x2_0000 / 256 == base / 0x200_0000;
    assert base / 0x200 / 256 == base / 0x2_0000;
    assert base / 2 / 256 == base / 0x200;
  }

  lemma EncodedParts(ticks: nat)
    ensures BaseOf(EncodePcr(ticks)) == ticks / 300 % 0x2_0000_0000
    ensures ExtensionOf(EncodePcr(ticks)) == ticks % 300
  {
    DigitsRejoin(ticks / 300 % 0x2_0000_0000);
  }

  /** Whatever value is written, what is read back is that value on the wrapping clock. */
  lemma WriteThenRead(ticks: nat)
    ensures DecodePcr(EncodePcr(ticks)) == ticks % WRAP
  {
    EncodedParts(ticks);
    WrapSplits(ticks);
    hide BaseOf, ExtensionOf, EncodePcr;
  }

  lemma WrapSplits(ticks: nat)
    ensures ticks / 300 % 0x2_0000_0000 * 300 + ticks % 300 == ticks % WRAP
  {
    var q := ticks / 300;
    assert ticks == q / 0x2_0000_0000 * WRAP + (q % 0x2_0000_0000 * 300 + ticks % 300);
  }

  lemma Digit(high: nat, low: Byte)
    ensures (high * 256 + low as nat) / 256 == high && (high * 256 + low as nat) % 256 == low as nat
  {
  }

  lemma EncodeDigits(o: seq<Byte>)
    requires |o| == 6
    ensures
      var base := BaseOf(o);
      && base / 0x200_0000 == o[0] && base / 0x2_0000 % 256 == o[1] && base / 0x200 % 256 == o[2]
      && base / 2 % 256 == o[3] && base % 2 == o[4] / 128
  {
    var base := BaseOf(o);
    var two := o[0] as nat * 256 + o[1] as nat;
    var three := two * 256 + o[2] as nat;
    var four := three * 256 + o[3] as nat;
    assert base == four * 2 + o[4] as nat / 128;
    hide BaseOf;
    Digit(o[0], o[1]);
    Digit(two, o[2]);
    Digit(three, o[3]);
    assert base / 2 == four && base / 0x200 == three;
    assert base / 0x2_0000 == two && base / 0x200_0000 == o[0];
  }

  /** Reading and writing back restores the octets exactly when the extension is a proper
      remainder and the reserved bits are set as the standard requires. */
  lemma ReadThenWrite(o: seq<Byte>)
    requires |o| == 6
    ensures EncodePcr(DecodePcr(o)) == o <==> ExtensionOf(o) < 300 && o[4] / 2 % 64 == 63
  {
    EncodedParts(DecodePcr(o));
    if ExtensionOf(o) < 300 {
      EncodeDigits(o);
      SplitTicks(BaseOf(o), ExtensionOf(o));
      ReservedBits(o);
    }
  }

  lemma SplitTicks(base: nat, ext: nat)
    requires base < 0x2_0000_0000 && ext < 300
    ensures (base * 300 + ext) / 300 % 0x2_0000_0000 == base && (base * 300 + ext) % 300 == ext
  {
  }

  lemma ReservedBits(o: seq<Byte>)
    requires |o| == 6
    ensures o[4] as nat == o[4] as nat / 128 * 128 + o[4] as nat / 2 % 64 * 2 + o[4] as nat % 2
    ensures ExtensionOf(o) / 256 == o[4] as nat % 2 && ExtensionOf(o) % 256 == o[5] as nat
  {
  }

  /** A rewritten packet reads back as the value it was given, and differs from the
      original in the six PCR octets alone. */
  lemma RewrittenPacket(b: seq<Byte>, ticks: nat)
    requires HasPcr(b)
    ensures ReadPcr(WithPcr(b, ticks)) == Some(ticks % WRAP)
    ensures forall k | 0 <= k < PACKET_SIZE && !(6 <= k < 12) :: WithPcr(b, ticks)[k] == b[k]
  {
    WriteThenRead(ticks);
    assert WithPcr(b, ticks)[6..12] == EncodePcr(ticks);
  }

  /** Flagging a packet declares the discontinuity and touches the top bit of octet 5
      alone, so its PCR reads as before. */
  lemma FlaggedPacket(b: seq<Byte>)
    requires IsPacket(b)
    ensures ReadPcr(WithIndicator(b)) == ReadPcr(b)
    ensures ReadPcr(b).Some? ==> DeclaresDiscontinuity(WithIndicator(b))
    ensures forall k | 0 <= k < PACKET_SIZE && k != 5 :: WithIndicator(b)[k] == b[k]
    ensures WithIndicator(b)[5] % 128 == b[5] % 128
    ensures WithIndicator(WithIndicator(b)) == WithIndicator(b)
  {
    assert WithIndicator(b)[6..12] == b[6..12];
  }

  // ---- Packets the pacer makes ----

  /** An adaptation-only packet carrying a PCR and nothing else. */
  function PcrOnlyBytes(pid: Pid, cc: Counter, ticks: nat): (b: seq<Byte>)
    ensures IsPacket(b)
  {
    [SYNC_BYTE, pid / 256, pid % 256, 0x20 + cc, 183, 0x10] + EncodePcr(ticks) + seq(176, _ => 0xff)
  }

  function NullBytes(): (b: seq<Byte>)
    ensures IsPacket(b)
  {
    [SYNC_BYTE, 0x1f, 0xff, 0x10] + seq(184, _ => 0xff)
  }

  /** A re-inserted PCR parses as one, on its PID, with no payload and so no claim on the
      counter it repeats; stuffing parses as stuffing. */
  lemma MadePackets(pid: Pid, cc: Counter, ticks: nat)
    ensures
      var p := Parse(PcrOnlyBytes(pid, cc, ticks));
      p.pid == pid && p.cc == cc && !p.hasPayload && !p.declared && p.pcr == Some(ticks % WRAP)
    ensures
      var p := Parse(NullBytes());
      p.pid == NULL_PID && p.hasPayload && !p.declared && p.pcr == None
  {
    hide Parse;
    PcrOnlyParses(pid, cc, ticks);
    NullParses();
  }

  lemma PcrOnlyParses(pid: Pid, cc: Counter, ticks: nat)
    ensures
      var p := Parse(PcrOnlyBytes(pid, cc, ticks));
      p.pid == pid && p.cc == cc && !p.hasPayload && !p.declared && p.pcr == Some(ticks % WRAP)
  {
    hide DecodePcr, EncodePcr;
    WriteThenRead(ticks);
    var b := PcrOnlyBytes(pid, cc, ticks);
    assert b[6..12] == EncodePcr(ticks);
    assert ReadPcr(b) == Some(ticks % WRAP);
  }

  lemma NullParses()
    ensures
      var p := Parse(NullBytes());
      p.pid == NULL_PID && p.hasPayload && !p.declared && p.pcr == None
  {
  }

  /** `write_pcr`: six octets stored in place. */
  method WritePcr(target: array<Byte>, at: nat, ticks: nat)
    requires at + 6 <= target.Length
    modifies target
    ensures target[..] == old(target[..at]) + EncodePcr(ticks) + old(target[at + 6..])
  {
    var base := ticks / 300 % 0x2_0000_0000;
    var ext := ticks % 300;
    target[at] := base / 0x200_0000;
    target[at + 1] := base / 0x2_0000 % 256;
    target[at + 2] := base / 0x200 % 256;
    target[at + 3] := base / 2 % 256;
    target[at + 4] := base % 2 * 128 + 0x7e + ext / 256;
    target[at + 5] := ext % 256;
  }

  /** `set_discontinuity_indicator`: one bit set in place; whether there was one to set. */
  method SetDiscontinuityIndicator(packet: array<Byte>) returns (done: bool)
    modifies packet
    ensures packet[..] == WithIndicator(old(packet[..]))
    ensures
      var b := old(packet[..]);
      done <==> IsPacket(b) && HasAdaptation(b) && b[4] > 0
  {
    if packet.Length != PACKET_SIZE || packet[0] != SYNC_BYTE {
      return false;
    }
    if packet[3] / 32 % 2 == 0 || packet[4] == 0 {
      return false;
    }
    if packet[5] < 128 {
      packet[5] := packet[5] + 128;
    }
    return true;
  }

  /** `pcr_only_packet`: a fresh array filled with 0xff, then by index. */
  method PcrOnlyPacket(pid: Pid, cc: Counter, ticks: nat) returns (packet: array<Byte>)
    ensures fresh(packet) && packet[..] == PcrOnlyBytes(pid, cc, ticks)
  {
    packet := new Byte[PACKET_SIZE](_ => 0xff);
    packet[0] := SYNC_BYTE;
    packet[1] := pid / 256;
    packet[2] := pid % 256;
    packet[3] := 0x20 + cc;
    packet[4] := PACKET_SIZE - 5;
    packet[5] := 0x10;
    WritePcr(packet, 6, ticks);
  }

  /** `null_packet`: a fresh array filled with 0xff, then by index. */
  method NullPacket() returns (packet: array<Byte>)
    ensures fresh(packet) && packet[..] == NullBytes()
  {
    packet := new Byte[PACKET_SIZE](_ => 0xff);
    packet[0] := SYNC_BYTE;
    packet[1] := 0x1f;
    packet[2] := 0xff;
    packet[3] := 0x10;
  }
}
