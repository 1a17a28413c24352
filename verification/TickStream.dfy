/** Concrete streams to exhibit runs on: a packet a slot, at a rate where a slot lasts one
    tick of the source clock, so that a PCR is its own slot (src/scheduler.rs, `StreamGrid`,
    `Scheduler`). What schedulers from new do with them is worked out once, for all of them. */
module TickStreams {
  import opened Prelude
  import opened Packets
  import opened SlotMaps
  import opened GridSpec
  import Continuity
  import GridQueue
  import Paths
  import PcrField

  const STREAM_PID: Pid := 0x100

  /** The payload packet of a slot, and the one of a slot with a PCR, octet by octet. */
  function PlainOctets(cc: Counter): seq<Byte> {
    [SYNC_BYTE, STREAM_PID / 256, STREAM_PID % 256, 0x10 + cc] + seq(184, _ => 0)
  }

  function ClockOctets(pcr: nat, cc: Counter): seq<Byte> {
    [SYNC_BYTE, STREAM_PID / 256, STREAM_PID % 256, 0x30 + cc, 7, 0x10] + PcrField.EncodePcr(pcr) + seq(176, _ => 0)
  }

  function Plain(slot: nat): Packet {
    Packet(PlainOctets(slot % 16), STREAM_PID, slot % 16, true, false, None)
  }

  /** A packet with PCR `pcr`, its counter that of slot `slot`. */
  function Clocked(pcr: nat, slot: nat): Packet {
    Packet(ClockOctets(pcr, slot % 16), STREAM_PID, slot % 16, true, false, Some(pcr))
  }

  function WithClock(slot: nat): Packet {
    Clocked(slot, slot)
  }

  lemma PlainParses(slot: nat)
    ensures PcrField.Parsed(Plain(slot))
  {
  }

  lemma ClockedParses(pcr: nat, slot: nat)
    requires pcr < WRAP
    ensures PcrField.Parsed(Clocked(pcr, slot))
  {
    hide PcrField.DecodePcr, PcrField.EncodePcr;
    PcrField.WriteThenRead(pcr);
    var b := ClockOctets(pcr, slot % 16);
    assert b[6..12] == PcrField.EncodePcr(pcr);
    assert PcrField.ReadPcr(b) == Some(pcr);
  }

  /** The rate at which a slot lasts one tick. */
  function TickRate(): SlotMap {
    SlotMap(SLOT_COST)
  }

  lemma TickSlot(pcr: nat)
    ensures TickRate().SlotOfPcr(pcr) == pcr
  {
    QuotientAtLeast(pcr * SLOT_COST, SLOT_COST, pcr);
    QuotientAtLeast(pcr * SLOT_COST, SLOT_COST, pcr + 1);
  }

  // ---- Streams of a packet a slot ----

  /** The packet of slot `slot`, with a PCR or without. */
  predicate Ticks(p: Packet, slot: nat) {
    && p.pid == STREAM_PID && p.cc == slot % 16 && p.hasPayload && !p.declared
    && (p.pcr.Some? ==> p.pcr.value == slot)
  }

  /** A short stream of a packet a slot from `start`, opened by a PCR. */
  predicate OnTheTick(packets: seq<Packet>, start: nat) {
    && packets != [] && |packets| < 100 && packets[0].pcr.Some?
    && forall i | 0 <= i < |packets| :: Ticks(packets[i], start + i)
  }

  lemma TickFields(slot: nat)
    ensures Ticks(Plain(slot), slot) && Plain(slot).pcr == None
    ensures Ticks(WithClock(slot), slot) && WithClock(slot).pcr == Some(slot)
  {
  }

  function At(slot: nat, p: Packet): Placement {
    Placement(slot, p, 0, slot, 0)
  }

  /** `run` placed a packet a slot from `slot`. */
  function InOrder(run: seq<Packet>, slot: nat): (log: seq<Placement>)
    ensures |log| == |run| && forall i | 0 <= i < |log| :: log[i] == At(slot + i, run[i])
  {
    seq(|run|, i requires 0 <= i < |run| => At(slot + i, run[i]))
  }

  lemma InOrderLookup(run: seq<Packet>, slot: nat, i: nat)
    requires i < |run|
    ensures GridQueue.Lookup(InOrder(run, slot), slot + i) == Some(Queued(run[i], Base(0, false)))
  {
    GridQueue.LookupAt(InOrder(run, slot), i);
  }

  lemma InOrderJoin(x: seq<Packet>, y: seq<Packet>, slot: nat)
    ensures InOrder(x + y, slot) == InOrder(x, slot) + InOrder(y, slot + |x|)
  {
  }

  /** A run as long as the slots it spreads over has each packet ask for the next. */
  lemma FullSpread(open: nat, count: Positive, index: nat)
    ensures Ideal(open, count, count, index) == open + index
  {
    QuotientAtLeast(index * count, count, index);
    QuotientAtLeast(index * count, count, index + 1);
    assert (index + 1) * count == index * count + count;
  }

  lemma {:induction false} FullRunInOrder(run: seq<Packet>, index: nat, open: nat, free: nat)
    requires index <= |run| && free <= open + index
    ensures Spread(run, index, open, |run|, free, 0, 0) == InOrder(run[index..], open + index)
    decreases |run| - index
  {
    hide Ideal;
    if index == |run| {
    } else {
      FullSpread(open, |run|, index);
      FullRunInOrder(run, index + 1, open, open + index + 1);
      assert run[index..] == [run[index]] + run[index + 1..];
      InOrderJoin([run[index]], run[index + 1..], open + index);
    }
  }

  // ---- On the grid ----

  /** A core fed such a stream up to slot `next`: the run from `pcr` open in its own slots,
      nothing placed that far yet, no counter broken. */
  ghost predicate Ticking(c: Core, known: nat, pcr: nat, next: nat) {
    && c.rateMap == TickRate() && c.clock == Clock(Some(Opened(pcr, pcr)), 0, 0, 0, 0)
    && c.openBase == 0 && c.openWraps == 0 && c.nextFree <= pcr && c.knownFrom == Some(known)
    && pcr < next < pcr + 100 && |c.run| == next - pcr
    && !c.runBroken && c.continuity[STREAM_PID] == Continuity.Seen((next - 1) % 16, false)
  }

  lemma NextCounter(c: Core, p: Packet, next: Positive)
    requires p.pid == STREAM_PID && p.cc == next % 16 && p.hasPayload && !p.declared
    requires !c.runBroken && c.continuity[STREAM_PID] == Continuity.Seen((next - 1) % 16, false)
    ensures
      var n := c.Noted(p);
      && !n.runBroken && n.continuity[STREAM_PID] == Continuity.Seen(next % 16, false)
      && n == c.(continuity := n.continuity)
  {
  }

  lemma PlainJoins(c: Core, known: nat, pcr: nat, next: nat, p: Packet)
    requires Ticking(c, known, pcr, next) && next + 1 < pcr + 100 && Ticks(p, next) && p.pcr.None?
    ensures
      var c' := c.Push(p, Arrival(0, None));
      Ticking(c', known, pcr, next + 1) && c'.run == c.run + [p] && c'.log == c.log
  {
    NextCounter(c, p, next);
    hide Core.Noted;
  }

  /** A run that fills its slots, ended by the PCR that follows on, is placed so. */
  lemma TurnInOrder(c: Core, known: nat, pcr: nat, next: nat, p: Packet)
    requires Ticking(c, known, pcr, next) && Ticks(p, next) && p.pcr.Some?
    ensures
      var c' := c.Push(p, Arrival(0, None));
      Ticking(c', known, next, next + 1) && c'.run == [p] && c'.log == c.log + InOrder(c.run, pcr)
  {
    hide SlotMap.SlotOfPcr, Spread, InOrder, MissedPcrs, Remember, Core.Noted;
    NextCounter(c, p, next);
    TickSlot(next);
    FullRunInOrder(c.run, 0, pcr, c.nextFree);
    assert c.run[0..] == c.run;
    InOrderEnds(c.run, pcr);
  }

  lemma InOrderEnds(run: seq<Packet>, slot: nat)
    requires run != []
    ensures InOrder(run, slot) != [] && InOrder(run, slot)[|InOrder(run, slot)| - 1].slot + 1 == slot + |run|
  {
  }

  lemma FirstTicks(p: Packet, start: nat)
    requires Ticks(p, start) && p.pcr.Some?
    ensures
      var c := NewCore(TickRate()).Push(p, Arrival(0, None));
      Ticking(c, start, start, start + 1) && c.run == [p] && c.log == []
  {
    hide SlotMap.SlotOfPcr;
    TickSlot(start);
  }

  /** Where the last PCR of a stream opened by one stands. */
  function LastPcr(packets: seq<Packet>): (q: nat)
    requires packets != [] && packets[0].pcr.Some?
    ensures q < |packets| && packets[q].pcr.Some?
  {
    if packets[|packets| - 1].pcr.Some? then |packets| - 1 else LastPcr(packets[..|packets| - 1])
  }

  /** A core fed `packets` from new has placed each before the last PCR in its slot, and
      holds the rest as its open run. */
  ghost predicate TickedThrough(c: Core, packets: seq<Packet>, start: nat)
    requires packets != [] && packets[0].pcr.Some?
  {
    var q := LastPcr(packets);
    Ticking(c, start, start + q, start + |packets|) && c.run == packets[q..] && c.log == InOrder(packets[..q], start)
  }

  lemma OneMorePlain(c: Core, front: seq<Packet>, last: Packet, start: nat)
    requires front != [] && front[0].pcr.Some? && TickedThrough(c, front, start)
    requires |front| < 99 && Ticks(last, start + |front|) && last.pcr.None?
    ensures TickedThrough(c.Push(last, Arrival(0, None)), front + [last], start)
  {
    hide Core.Push, Ticking, InOrder;
    var packets, q := front + [last], LastPcr(front);
    assert packets[..|packets| - 1] == front;
    PlainJoins(c, start, start + q, start + |front|, last);
    assert packets[..q] == front[..q] && packets[q..] == front[q..] + [last];
  }

  lemma OneMorePcr(c: Core, front: seq<Packet>, last: Packet, start: nat)
    requires front != [] && front[0].pcr.Some? && TickedThrough(c, front, start)
    requires Ticks(last, start + |front|) && last.pcr.Some?
    ensures TickedThrough(c.Push(last, Arrival(0, None)), front + [last], start)
  {
    hide Core.Push, Ticking, InOrder;
    var packets, q := front + [last], LastPcr(front);
    TurnInOrder(c, start, start + q, start + |front|, last);
    InOrderJoin(front[..q], front[q..], start);
    assert packets[..|front|] == front == front[..q] + front[q..] && packets[|front|..] == [last];
  }

  lemma {:induction false} FedTicks(packets: seq<Packet>, start: nat)
    requires OnTheTick(packets, start)
    ensures TickedThrough(Paths.Fed(NewCore(TickRate()), packets), packets, start)
  {
    hide Core.Push, TickedThrough, Ticks, Paths.Fed, NewCore;
    var n := |packets|;
    var front, last := packets[..n - 1], packets[n - 1];
    assert packets == front + [last] && Ticks(last, start + (n - 1));
    if n == 1 {
      FedOnly(NewCore(TickRate()), last);
      OnePacket(last, start);
    } else {
      TicksOfFront(packets, start);
      FedTicks(front, start);
      Paths.FedOn(NewCore(TickRate()), front, [last]);
      var c := Paths.Fed(NewCore(TickRate()), front);
      FedOnly(c, last);
      if last.pcr.Some? {
        OneMorePcr(c, front, last, start);
      } else {
        OneMorePlain(c, front, last, start);
      }
    }
  }

  lemma TicksOfFront(packets: seq<Packet>, start: nat)
    requires OnTheTick(packets, start) && |packets| > 1
    ensures OnTheTick(packets[..|packets| - 1], start)
  {
    hide Ticks;
  }

  lemma OnePacket(p: Packet, start: nat)
    requires Ticks(p, start) && p.pcr.Some?
    ensures TickedThrough(NewCore(TickRate()).Push(p, Arrival(0, None)), [p], start)
  {
    hide Core.Push, Ticking;
    FirstTicks(p, start);
  }

  lemma FedOnly(c: Core, p: Packet)
    ensures Paths.Fed(c, [p]) == c.Push(p, Arrival(0, None))
  {
    hide Core.Push;
    assert [p][1..] == [];
  }

  /** A core whose open run is a PCR alone, in its own slot, with nothing placed that far
      yet, and whose next counter on the clock's PID is that of slot `next`. */
  ghost predicate LonePcr(c: Core, pcr: nat, next: Positive) {
    && c.rateMap == TickRate() && c.clock == Clock(Some(Opened(pcr, pcr)), 0, 0, 0, 0)
    && c.openBase == 0 && c.openWraps == 0 && c.nextFree <= pcr && |c.run| == 1
    && !c.runBroken && c.continuity[STREAM_PID] == Continuity.Seen((next - 1) % 16, false)
  }

  /** A PCR some slots on, its counter following, has the lone one placed where it asked. */
  lemma TurnAfterGap(c: Core, pcr: nat, next: Positive, later: nat)
    requires LonePcr(c, pcr, next) && pcr < later < pcr + 1000
    ensures
      var c' := c.Push(Clocked(later, next), Arrival(0, None));
      && LonePcr(c', later, next + 1) && c'.run == [Clocked(later, next)] && c'.log == c.log + [At(pcr, c.run[0])]
  {
    hide SlotMap.SlotOfPcr, MissedPcrs, Remember, Core.Noted, ClockOctets;
    var p := Clocked(later, next);
    NextCounter(c, p, next);
    TickSlot(later);
    assert Spread(c.run, 0, pcr, later - pcr, c.nextFree, 0, 0) == [At(pcr, c.run[0])];
  }

  lemma {:induction false} TicksAreQuiet(previous: Option<nat>, packets: seq<Packet>, start: nat)
    requires |packets| < 100 && forall i | 0 <= i < |packets| :: Ticks(packets[i], start + i)
    requires previous.Some? ==> previous.value < start && start + |packets| < previous.value + 1000
    ensures Paths.QuietStream(previous, packets)
    decreases |packets|
  {
    if packets == [] {
    } else {
      var p := packets[0];
      assert Ticks(p, start + 0);
      if p.pcr.Some? && previous.Some? {
        CloseIsQuiet(previous.value, start);
      }
      forall i | 0 <= i < |packets[1..]|
        ensures Ticks(packets[1..][i], start + 1 + i)
      {
        assert Ticks(packets[i + 1], start + (i + 1));
      }
      TicksAreQuiet(if p.pcr.Some? then p.pcr else previous, packets[1..], start + 1);
    }
  }

  lemma CloseIsQuiet(previous: nat, pcr: nat)
    requires previous < pcr < previous + 1000
    ensures Paths.Quiet(previous, pcr, false)
  {
  }
}
