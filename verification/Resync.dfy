/** Finding packets in a byte stream (src/pacer.rs, `split_packets`; src/source.rs,
    `ReadSource`): however the bytes are cut up, the packets are those of one scan. */
module Resync {
  import opened Prelude
  import opened Packets

  datatype Scanned = Scanned(packets: seq<seq<Byte>>, rest: seq<Byte>)

  /** One left-to-right scan: a whole packet where a sync byte stands, else one byte on. */
  function Scan(s: seq<Byte>): Scanned
    decreases |s|
  {
    if |s| < PACKET_SIZE then Scanned([], s)
    else if s[0] != SYNC_BYTE then Scan(s[1..])
    else
      var later := Scan(s[PACKET_SIZE..]);
      Scanned([s[..PACKET_SIZE]] + later.packets, later.rest)
  }

  function Concat(chunks: seq<seq<Byte>>): seq<Byte> {
    if chunks == [] then [] else Concat(chunks[..|chunks| - 1]) + chunks[|chunks| - 1]
  }

  /** What is scanned so far does not depend on what follows: scanning a stretch, then its
      leftover with more behind it, is scanning the whole. */
  lemma {:induction false} ScanResumes(a: seq<Byte>, b: seq<Byte>)
    ensures Scan(a + b).packets == Scan(a).packets + Scan(Scan(a).rest + b).packets
    ensures Scan(a + b).rest == Scan(Scan(a).rest + b).rest
    decreases |a|
  {
    if |a| < PACKET_SIZE {
    } else {
      hide Scan;
      ScanStep(a);
      ScanStep(a + b);
      if a[0] != SYNC_BYTE {
        assert (a + b)[1..] == a[1..] + b;
        ScanResumes(a[1..], b);
      } else {
        assert (a + b)[..PACKET_SIZE] == a[..PACKET_SIZE];
        assert (a + b)[PACKET_SIZE..] == a[PACKET_SIZE..] + b;
        ScanResumes(a[PACKET_SIZE..], b);
      }
    }
  }

  lemma ScanStep(s: seq<Byte>)
    requires |s| >= PACKET_SIZE
    ensures s[0] != SYNC_BYTE ==> Scan(s) == Scan(s[1..])
    ensures
      var later := Scan(s[PACKET_SIZE..]);
      s[0] == SYNC_BYTE ==> Scan(s) == Scanned([s[..PACKET_SIZE]] + later.packets, later.rest)
  {
  }

  /** A scan loses bytes only to find sync: it yields whole packets, each starting with
      the sync byte, and keeps less than one packet back, the tail of the input. */
  lemma {:induction false} ScanShape(s: seq<Byte>)
    ensures forall p <- Scan(s).packets :: |p| == PACKET_SIZE && p[0] == SYNC_BYTE
    ensures |Scan(s).rest| < PACKET_SIZE
    ensures |Scan(s).rest| <= |s| && s[|s| - |Scan(s).rest|..] == Scan(s).rest
    decreases |s|
  {
    if |s| < PACKET_SIZE {
    } else {
      var next := if s[0] != SYNC_BYTE then s[1..] else s[PACKET_SIZE..];
      ScanShape(next);
      var cut := |s| - |next|;
      assert s[cut..][|next| - |Scan(next).rest|..] == s[|s| - |Scan(next).rest|..];
    }
  }

  /** `packets` with what was passed over before each of them, in order. */
  function Woven(passed: seq<seq<Byte>>, packets: seq<seq<Byte>>): seq<Byte>
    requires |passed| == |packets|
  {
    if packets == [] then [] else passed[0] + packets[0] + Woven(passed[1..], packets[1..])
  }

  predicate NoSync(b: seq<Byte>) {
    SYNC_BYTE !in b
  }

  /** What is passed over on the way to each packet, and after the last, has no sync byte. */
  predicate Passes(s: seq<Byte>, scanned: Scanned, passed: seq<seq<Byte>>, last: seq<Byte>) {
    && |passed| == |scanned.packets| && s == Woven(passed, scanned.packets) + last + scanned.rest
    && NoSync(last) && forall k | 0 <= k < |passed| :: NoSync(passed[k])
  }

  /** And nothing is passed over in which a packet could have started: the input is the
      packets, what stood between them without a sync byte in it, more of that, and the part
      kept. */
  lemma {:induction false} ScanMissesNothing(s: seq<Byte>) returns (passed: seq<seq<Byte>>, last: seq<Byte>)
    ensures Passes(s, Scan(s), passed, last)
    decreases |s|
  {
    if |s| < PACKET_SIZE {
      passed, last := [], [];
      NothingWoven();
      assert [] + [] + s == s;
    } else {
      hide Passes, Scan;
      ScanStep(s);
      if s[0] != SYNC_BYTE {
        passed, last := ScanMissesNothing(s[1..]);
        passed, last := PassByte(s, Scan(s), passed, last);
      } else {
        passed, last := ScanMissesNothing(s[PACKET_SIZE..]);
        PassPacket(s, Scan(s[PACKET_SIZE..]), passed, last);
        passed := [[]] + passed;
      }
    }
  }

  lemma NothingWoven()
    ensures Woven([], []) == []
  {
  }

  lemma PassByte(s: seq<Byte>, scanned: Scanned, passed: seq<seq<Byte>>, last: seq<Byte>)
    returns (passed': seq<seq<Byte>>, last': seq<Byte>)
    requires s != [] && s[0] != SYNC_BYTE && Passes(s[1..], scanned, passed, last)
    ensures Passes(s, scanned, passed', last')
  {
    hide Woven;
    assert s == [s[0]] + s[1..];
    if passed == [] {
      NothingWoven();
      passed', last' := [], [s[0]] + last;
      assert s == [] + last' + scanned.rest;
    } else {
      passed', last' := [[s[0]] + passed[0]] + passed[1..], last;
      PassOneMore(s[0], passed, scanned.packets);
      assert s == Woven(passed', scanned.packets) + last + scanned.rest;
    }
  }

  lemma PassOneMore(b: Byte, passed: seq<seq<Byte>>, packets: seq<seq<Byte>>)
    requires |passed| == |packets| > 0
    ensures Woven([[b] + passed[0]] + passed[1..], packets) == [b] + Woven(passed, packets)
  {
    var more := [[b] + passed[0]] + passed[1..];
    assert more[1..] == passed[1..];
    assert [b] + passed[0] + packets[0] + Woven(passed[1..], packets[1..])
        == [b] + (passed[0] + packets[0] + Woven(passed[1..], packets[1..]));
  }

  lemma PassPacket(s: seq<Byte>, later: Scanned, passed: seq<seq<Byte>>, last: seq<Byte>)
    requires |s| >= PACKET_SIZE && Passes(s[PACKET_SIZE..], later, passed, last)
    ensures Passes(s, Scanned([s[..PACKET_SIZE]] + later.packets, later.rest), [[]] + passed, last)
  {
    var packet := s[..PACKET_SIZE];
    WeaveOneMore(packet, passed, later.packets);
    hide Woven;
    assert s == packet + s[PACKET_SIZE..];
  }

  lemma WeaveOneMore(packet: seq<Byte>, passed: seq<seq<Byte>>, packets: seq<seq<Byte>>)
    requires |passed| == |packets|
    ensures Woven([[]] + passed, [packet] + packets) == packet + Woven(passed, packets)
  {
    assert ([[]] + passed)[1..] == passed && ([packet] + packets)[1..] == packets && [] + packet == packet;
  }

  /** So a stream of whole packets is found whole. */
  lemma {:induction false} AlignedIsFound(packets: seq<seq<Byte>>)
    requires forall p <- packets :: |p| == PACKET_SIZE && p[0] == SYNC_BYTE
    ensures Scan(Concat(packets)) == Scanned(packets, [])
  {
    if packets == [] {
    } else {
      var front, last := packets[..|packets| - 1], packets[|packets| - 1];
      AlignedIsFound(front);
      ScanResumes(Concat(front), last);
      assert [] + last == last && last[PACKET_SIZE..] == [] && last[..PACKET_SIZE] == last;
      assert Scan(last) == Scanned([last], []) by {
        ScanStep(last);
        assert [last] + [] == [last];
      }
    }
  }

  /** The push-side splitter: a partial buffer, appended to and drained in place. */
  class Splitter {
    var partial: seq<Byte>

    constructor ()
      ensures partial == []
    {
      partial := [];
    }

    /** Append `data`, and drain the whole packets now in the buffer. */
    method SplitPackets(data: seq<Byte>) returns (packets: seq<seq<Byte>>)
      modifies this
      ensures Scanned(packets, partial) == Scan(old(partial) + data)
    {
      partial := partial + data;
      packets := [];
      var offset := 0;
      while offset + PACKET_SIZE <= |partial|
        invariant offset <= |partial| && partial == old(partial) + data
        invariant Scan(partial).packets == packets + Scan(partial[offset..]).packets
        invariant Scan(partial).rest == Scan(partial[offset..]).rest
        decreases |partial| - offset
      {
        var tail := partial[offset..];
        assert tail[1..] == partial[offset + 1..] && tail[PACKET_SIZE..] == partial[offset + PACKET_SIZE..];
        assert tail[..PACKET_SIZE] == partial[offset..offset + PACKET_SIZE];
        if partial[offset] != SYNC_BYTE {
          offset := offset + 1;
        } else {
          packets := packets + [partial[offset..offset + PACKET_SIZE]];
          offset := offset + PACKET_SIZE;
        }
      }
      partial := partial[offset..];
    }
  }

  /** The splitter over any sequence of pushes, as a value: what each push leaves. */
  function Split(partial: seq<Byte>, chunks: seq<seq<Byte>>): Scanned {
    if chunks == [] then Scanned([], partial)
    else
      var before := Split(partial, chunks[..|chunks| - 1]);
      var now := Scan(before.rest + chunks[|chunks| - 1]);
      Scanned(before.packets + now.packets, now.rest)
  }

  /** For every byte string and every way of cutting it into pushes, the packets are those
      of one scan of the whole, and so is what is left in the buffer. */
  lemma {:induction false} SplittingIsChunkIndependent(chunks: seq<seq<Byte>>)
    ensures Split([], chunks) == Scan(Concat(chunks))
  {
    if chunks == [] {
    } else {
      var init := chunks[..|chunks| - 1];
      SplittingIsChunkIndependent(init);
      ScanResumes(Concat(init), chunks[|chunks| - 1]);
    }
  }

  /** Any byte source: a read gives some of what is left, at least one byte of it while
      there is any and never more than there is room for. */
  class Reader {
    var remaining: seq<Byte>

    constructor (bytes: seq<Byte>)
      ensures remaining == bytes
    {
      remaining := bytes;
    }

    method Read(room: nat) returns (chunk: seq<Byte>)
      requires room > 0
      modifies this
      ensures old(remaining) == chunk + remaining
      ensures |chunk| <= room && (chunk == [] <==> old(remaining) == [])
    {
      if remaining == [] {
        return [];
      }
      var n :| 1 <= n <= room && n <= |remaining|;
      chunk := remaining[..n];
      remaining := remaining[n..];
    }
  }

  /** The pull-side source: one packet buffer, filled by reads and shifted in place. */
  class ReadSource {
    const reader: Reader
    const buf: array<Byte>
    var filled: nat

    ghost predicate Valid()
      reads this
    {
      buf.Length == PACKET_SIZE && filled <= PACKET_SIZE
    }

    /** Bytes taken from the reader and not yet given out, then those still in it. */
    ghost function Ahead(): seq<Byte>
      reads this, buf, reader
      requires Valid()
    {
      buf[..filled] + reader.remaining
    }

    constructor (reader: Reader)
      ensures Valid() && fresh(buf) && this.reader == reader && Ahead() == reader.remaining
    {
      this.reader := reader;
      buf := new Byte[PACKET_SIZE](_ => 0);
      filled := 0;
    }

    /** Read until the buffer is full, or the source ends. */
    method Fill() returns (full: bool)
      requires Valid()
      modifies this`filled, buf, reader
      ensures Valid() && Ahead() == old(Ahead())
      ensures full <==> filled == PACKET_SIZE
      ensures !full ==> reader.remaining == []
    {
      while filled < PACKET_SIZE
        invariant Valid() && Ahead() == old(Ahead())
        decreases PACKET_SIZE - filled
      {
        ghost var had := buf[..filled];
        var chunk := reader.Read(PACKET_SIZE - filled);
        if chunk == [] {
          return false;
        }
        forall k | 0 <= k < |chunk| {
          buf[filled + k] := chunk[k];
        }
        filled := filled + |chunk|;
        assert buf[..filled] == had + chunk;
      }
      return true;
    }

    /** The next packet, or none once the source has ended; a trailing partial packet is
        kept, and never given out. */
    method Recv() returns (packet: Option<seq<Byte>>)
      requires Valid()
      modifies this`filled, buf, reader
      ensures Valid()
      ensures
        var scanned := Scan(old(Ahead()));
        if packet.None? then scanned == Scanned([], Ahead())
        else scanned == Scanned([packet.value] + Scan(Ahead()).packets, Scan(Ahead()).rest)
    {
      while true
        invariant Valid() && Scan(Ahead()) == Scan(old(Ahead()))
        decreases |Ahead()|
      {
        var full := Fill();
        if !full {
          return None;
        }
        ghost var ahead := Ahead();
        assert ahead[..PACKET_SIZE] == buf[..];
        if buf[0] != SYNC_BYTE {
          forall k | 0 <= k < PACKET_SIZE - 1 {
            buf[k] := buf[k + 1];
          }
          filled := PACKET_SIZE - 1;
          assert Ahead() == ahead[1..];
          continue;
        }
        filled := 0;
        assert Ahead() == ahead[PACKET_SIZE..];
        return Some(buf[..]);
      }
    }
  }
}
