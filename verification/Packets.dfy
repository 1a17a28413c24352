/** What the pacer reads out of a transport packet. The fields are those of the
    packet's own bytes; `PcrField.Parse` says how they are read. */
module Packets {
  import opened Prelude

  const PACKET_SIZE: nat := 188
  const SYNC_BYTE: Byte := 0x47
  const NULL_PID: nat := 0x1fff

  type Pid = p: nat | p < 8192

  type Counter = c: nat | c < 16

  datatype Packet = Packet(
    bytes: seq<Byte>,
    pid: Pid,
    cc: Counter,
    hasPayload: bool,
    declared: bool,
    pcr: Option<nat>)
}
