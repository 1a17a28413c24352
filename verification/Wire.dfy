/** The octets of an output slot, and how little they differ from the input
    (src/scheduler.rs, `emit_datagram`). */
module Wire {
  import opened Prelude
  import opened Packets
  import opened SlotMaps
  import opened PcrField
  import opened SchedulerSpec
  import PcrRegens

  predicate Renderable(cell: Cell) {
    cell.Content? ==> IsPacket(cell.packet.bytes)
  }

  function Render(cell: Cell): (b: seq<Byte>)
    requires Renderable(cell)
    ensures |b| == PACKET_SIZE
  {
    match cell
    case Content(p, clock, mark) =>
      if clock.None? then p.bytes else PcrRegens.Stamped(p.bytes, clock.value, mark)
    case PcrOnly(pid, cc, pcr) => PcrOnlyBytes(pid, cc, pcr)
    case Null => NullBytes()
  }

  /** Content goes through opaquely: whatever cell carries an input packet, its octets are
      the packet's own except the six of the PCR and the top bit of the one before them,
      and those change only where the packet has a PCR to rewrite. */
  lemma ContentIsTransparent(cell: Cell)
    requires cell.Content? && Parsed(cell.packet)
    requires cell.clock.Some? ==> cell.packet.pcr.Some?
    ensures
      var b, wire := cell.packet.bytes, Render(cell);
      && (forall k | 0 <= k < PACKET_SIZE && !(5 <= k < 12) :: wire[k] == b[k])
      && wire[5] % 128 == b[5] % 128
      && (cell.packet.pcr.None? ==> wire == b)
      && (cell.clock.Some? ==> ReadPcr(wire) == Some(cell.clock.value % WRAP))
  {
    hide ReadPcr, PcrRegens.Stamped;
    if cell.clock.Some? {
      ParsedPcr(cell.packet);
      PcrRegens.StampIsTransparent(cell.packet.bytes, cell.clock.value, cell.mark);
    }
  }

  lemma ParsedPcr(p: Packet)
    requires Parsed(p) && p.pcr.Some?
    ensures HasPcr(p.bytes)
  {
  }

  /** Every cell that counts as carrying a PCR has one to be read on the wire, and no
      other cell has. */
  lemma PcrIsOnTheWire(cell: Cell)
    requires cell.Content? ==> Parsed(cell.packet) && (cell.clock.Some? ==> cell.packet.pcr.Some?)
    ensures ReadPcr(Render(cell)).Some? <==> CarriesPcr(cell)
    ensures cell.PcrOnly? ==> ReadPcr(Render(cell)) == Some(cell.pcr % WRAP)
  {
    match cell {
      case Content(p, clock, mark) => ContentIsTransparent(cell);
      case PcrOnly(pid, cc, pcr) => MadePackets(pid, cc, pcr);
      case Null => MadePackets(0, 0, 0);
    }
  }
}
