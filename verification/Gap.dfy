/** What a leg makes of a stretch of the stream it missed (src/scheduler.rs, `push`,
    `missed_pcrs`, `determined`): when it can tell, the slots are not its to fill. */
module Gaps {
  import opened Prelude
  import opened Packets
  import opened SlotMaps
  import opened Continuity
  import opened GridSpec
  import opened Spreading
  import Coalescence
  import Displacement
  import GridQueue
  import Meetings
  import Paths
  import Timebase

  // ---- What a leg can tell from ----

  function PacketsHeard(heard: seq<Paths.Heard>): (packets: seq<Packet>)
    ensures |packets| == |heard|
    ensures forall k | 0 <= k < |packets| :: packets[k] == heard[k].packet
  {
    seq(|heard|, k requires 0 <= k < |heard| => heard[k].packet)
  }

  /** The counters of a listener that has heard `packets` and nothing before. */
  function CountersAfter(packets: seq<Packet>): Table {
    if packets == [] then seq(8192, _ => Unseen)
    else NotePacket(CountersAfter(packets[..|packets| - 1]), packets[|packets| - 1]).0
  }

  /** Packet `k` does not follow on from what was heard before it. */
  predicate BreaksAt(packets: seq<Packet>, k: nat)
    requires k < |packets|
  {
    NotePacket(CountersAfter(packets[..k]), packets[k]).1
  }

  predicate BrokenSince(packets: seq<Packet>, from: nat) {
    exists k :: from <= k < |packets| && BreaksAt(packets, k)
  }

  /** The slots from each closed run's PCR to the next. */
  function Spans(runs: seq<Closed>): (spans: seq<nat>)
    ensures |spans| == |runs| && forall k | 0 <= k < |spans| :: spans[k] == SatSub(runs[k].to, runs[k].from)
  {
    seq(|runs|, k requires 0 <= k < |runs| => SatSub(runs[k].to, runs[k].from))
  }

  function Newest(spans: seq<nat>, n: nat): (newest: seq<nat>)
    ensures |newest| <= n
  {
    if |spans| <= n then spans else spans[|spans| - n..]
  }

  /** At least twice as long as every interval there is to go by, if there is any. */
  predicate TooLong(spans: seq<nat>, span: nat) {
    (exists s <- spans :: s > 0) && forall s <- spans :: span >= 2 * s
  }

  // ---- What it remembers is what it heard ----

  ghost predicate Remembers(c: Core, packets: seq<Packet>, runs: seq<Closed>) {
    && c.continuity == CountersAfter(packets) && c.recentSpans == Newest(Spans(runs), 8)
    && (c.clock.open.Some? ==>
          && |c.run| <= |packets| && c.run == packets[|packets| - |c.run|..]
          && (c.runBroken <==> BrokenSince(packets, |packets| - |c.run| + 1)))
  }

  lemma BrokenOneMore(packets: seq<Packet>, p: Packet, from: nat)
    requires from <= |packets|
    ensures BreaksAt(packets + [p], |packets|) == NotePacket(CountersAfter(packets), p).1
    ensures BrokenSince(packets + [p], from) <==> BrokenSince(packets, from) || BreaksAt(packets + [p], |packets|)
  {
    hide NotePacket, CountersAfter;
    assert (packets + [p])[..|packets|] == packets;
    forall k | 0 <= k < |packets|
      ensures BreaksAt(packets + [p], k) == BreaksAt(packets, k)
    {
      assert (packets + [p])[..k] == packets[..k];
    }
    if BrokenSince(packets, from) {
      var k :| from <= k < |packets| && BreaksAt(packets, k);
      assert BreaksAt(packets + [p], k);
    }
  }

  lemma CountersOneMore(packets: seq<Packet>, p: Packet)
    ensures CountersAfter(packets + [p]) == NotePacket(CountersAfter(packets), p).0
  {
    assert (packets + [p])[..|packets|] == packets;
  }

  lemma NothingBrokenYet(packets: seq<Packet>)
    ensures !BrokenSince(packets, |packets|)
  {
  }

  lemma SpansOneMore(runs: seq<Closed>, r: Closed)
    ensures Newest(Spans(runs + [r]), 8) == Remember(Newest(Spans(runs), 8), SatSub(r.to, r.from))
  {
    assert Spans(runs + [r]) == Spans(runs) + [SatSub(r.to, r.from)];
  }

  /** What ending the open run does to what is remembered. */
  lemma EndRemembers(c: Core, aim: Aim)
    requires Orderly(c)
    ensures
      var c' := c.EndRun(aim);
      && c'.continuity == c.continuity
      && (if |c'.log| > |c.log|
          then
            && c.clock.open.Some?
            && c'.recentSpans == Remember(c.recentSpans, SatSub(aim.slot, c.clock.open.value.slot))
          else c'.recentSpans == c.recentSpans)
  {
    hide Core.Misses, Remember, Spread;
  }

  lemma TurnRemembers(c: Core, p: Packet, at: Arrival, packets: seq<Packet>, runs: seq<Closed>)
    requires Remembers(c, packets, runs) && Orderly(c) && p.pcr.Some?
    ensures Remembers(c.Push(p, at), packets + [p], runs + ClosedBy(c, c.Push(p, at)))
  {
    hide Core.EndRun, SlotFor, Remember, Spans, Newest, BrokenSince, CountersAfter, NotePacket;
    var noted := c.Noted(p);
    EndRemembers(noted, noted.Aims(p, at));
    CountersOneMore(packets, p);
    NothingBrokenYet(packets + [p]);
    var closed := ClosedBy(c, c.Push(p, at));
    if closed != [] {
      SpansOneMore(runs, closed[0]);
      assert closed == [closed[0]];
    } else {
      assert runs + closed == runs;
    }
  }

  lemma PushRemembers(c: Core, p: Packet, at: Arrival, packets: seq<Packet>, runs: seq<Closed>)
    requires Remembers(c, packets, runs) && Orderly(c)
    ensures Remembers(c.Push(p, at), packets + [p], runs + ClosedBy(c, c.Push(p, at)))
  {
    hide Core.EndRun, SlotFor, Spans, Newest, BrokenSince, CountersAfter, BreaksAt;
    if p.pcr.Some? {
      TurnRemembers(c, p, at, packets, runs);
    } else {
      CountersOneMore(packets, p);
      assert runs + [] == runs;
      if c.clock.open.Some? {
        BrokenOneMore(packets, p, |packets| - |c.run| + 1);
      }
    }
  }

  lemma {:induction false} HearingRemembers(c: Core, packets: seq<Packet>, runs: seq<Closed>,
      heard: seq<Paths.Heard>)
    requires Remembers(c, packets, runs) && Orderly(c)
    ensures Remembers(Paths.Hear(c, heard), packets + PacketsHeard(heard), runs + RunsClosed(c, heard))
    ensures Orderly(Paths.Hear(c, heard))
    decreases |heard|
  {
    hide Core.Push, Remembers, Orderly, ClosedBy;
    if heard == [] {
      assert packets + PacketsHeard(heard) == packets && runs + [] == runs;
    } else {
      var p, at := heard[0].packet, heard[0].at;
      var c' := c.Push(p, at);
      PushRemembers(c, p, at, packets, runs);
      PushPlacesEvenly(c, p, at);
      HearingRemembers(c', packets + [p], runs + ClosedBy(c, c'), heard[1..]);
      assert packets + [p] + PacketsHeard(heard[1..]) == packets + PacketsHeard(heard);
      assert runs + ClosedBy(c, c') + RunsClosed(c', heard[1..]) == runs + RunsClosed(c, heard);
    }
  }

  lemma NewRemembers(m: SlotMap, heard: seq<Paths.Heard>)
    ensures Remembers(Paths.Hear(NewCore(m), heard), PacketsHeard(heard), RunsClosed(NewCore(m), heard))
    ensures Orderly(Paths.Hear(NewCore(m), heard))
  {
    hide Remembers, Orderly, Paths.Hear, RunsClosed;
    StartsRemembering(m);
    HearingRemembers(NewCore(m), [], [], heard);
    assert [] + PacketsHeard(heard) == PacketsHeard(heard);
    assert [] + RunsClosed(NewCore(m), heard) == RunsClosed(NewCore(m), heard);
  }

  lemma StartsRemembering(m: SlotMap)
    ensures Remembers(NewCore(m), [], []) && Orderly(NewCore(m))
  {
  }

  // ---- When a run is cut ----

  /** A step of over five seconds taken as the source's own, the clock kept. */
  predicate QuietSpell(c: Core, c': Core, pcr: nat)
    requires c.clock.open.Some?
  {
    && TicksToNanos(ForwardDelta(c.clock.open.value.pcr, pcr)) > DISCONTINUITY_GAP
    && c'.clock.rebases == c.clock.rebases && c'.clock.wraps == c.clock.wraps
  }

  lemma LongestBounds(spans: seq<nat>, bound: nat)
    ensures Longest(spans) <= bound <==> forall s <- spans :: s <= bound
  {
    if spans == [] {
    } else {
      LongestBounds(spans[1..], bound);
      assert spans[0] in spans && forall s <- spans[1..] :: s in spans;
      assert forall s <- spans :: s == spans[0] || s in spans[1..];
    }
  }

  lemma MissedIsTooLong(spans: seq<nat>, span: nat)
    ensures MissedPcrs(spans, span) <==> TooLong(spans, span)
  {
    hide Longest;
    LongestBounds(spans, 0);
    LongestBounds(spans, span / 2);
  }

  lemma SilenceIsASpell(c: Core, p: Packet, at: Arrival)
    requires c.clock.open.Some? && p.pcr.Some?
    ensures c.Aims(p, at).afterSilence <==> QuietSpell(c, c.Push(p, at), p.pcr.value)
  {
    hide Core.EndRun, SlotMap.SlotOfPcr, SlotMap.SlotsPerWrap, ForwardDelta;
    ZeroNanos();
  }

  lemma ZeroNanos()
    ensures TicksToNanos(0) == 0
  {
  }

  lemma EndCuts(c: Core, aim: Aim)
    requires c.clock.open.Some? && c.run != []
    ensures
      var c' := c.EndRun(aim);
      if aim.afterSilence || c.Misses(aim)
      then c'.cut == c.cut + |c.run| && c'.log == c.log && c'.knownFrom == Some(aim.slot)
      else c'.cut == c.cut && |c'.log| == |c.log| + |c.run| && c'.knownFrom == c.knownFrom
  {
    hide Core.Misses;
  }

  /** Over anything a leg can hear: a PCR ends the open run, which is the packets from the
      PCR before it on. It places them all, unless it can tell that it has missed some of
      the stream in between: after a quiet spell the clock ran on through, or when a counter
      has broken since that PCR, its own included, and the two PCRs lie at least twice as far
      apart as any of the last eight runs it placed were long. Then it cuts them all, and
      knows the stream from this PCR's slot on. */
  lemma CutsExactlyWhenBetrayed(m: SlotMap, heard: seq<Paths.Heard>, p: Packet, at: Arrival)
    requires p.pcr.Some? && Paths.Hear(NewCore(m), heard).clock.open.Some?
    ensures
      var c := Paths.Hear(NewCore(m), heard);
      var c' := c.Push(p, at);
      var packets := PacketsHeard(heard) + [p];
      && 0 < |c.run| <= |heard| && c.run == PacketsHeard(heard)[|heard| - |c.run|..] && IsRun(c.run)
      && c'.clock.open.Some?
      && (c'.cut > c.cut <==>
            QuietSpell(c, c', p.pcr.value)
            || (&& BrokenSince(packets, |heard| - |c.run| + 1)
                && TooLong(Newest(Spans(RunsClosed(NewCore(m), heard)), 8),
                           SatSub(c'.clock.open.value.slot, c.clock.open.value.slot))))
      && (if c'.cut > c.cut
          then c'.cut == c.cut + |c.run| && c'.log == c.log && c'.knownFrom == Some(c'.clock.open.value.slot)
          else c'.cut == c.cut && |c'.log| == |c.log| + |c.run| && c'.knownFrom == c.knownFrom)
  {
    hide Core.EndRun, SlotFor, Paths.Hear, RunsClosed, Spans, Newest, BrokenSince, CountersAfter, BreaksAt, TooLong;
    hide MissedPcrs, NewCore, QuietSpell;
    var c := Paths.Hear(NewCore(m), heard);
    var noted, packets := c.Noted(p), PacketsHeard(heard);
    NewRemembers(m, heard);
    BrokenOneMore(packets, p, |heard| - |c.run| + 1);
    var aim := noted.Aims(p, at);
    EndCuts(noted, aim);
    SilenceIsASpell(c, p, at);
    MissedIsTooLong(c.recentSpans, SatSub(aim.slot, c.clock.open.value.slot));
  }

  // ---- What is then not known ----

  predicate InRange(heard: seq<Paths.Heard>) {
    forall h <- heard :: h.packet.pcr.Some? ==> h.packet.pcr.value < WRAP
  }

  /** The leg knows nothing before `slot`, and is past it. */
  ghost predicate KnowsFrom(c: Core, slot: nat) {
    && Timebase.Sourced(c) && c.knownFrom.Some? && c.knownFrom.value >= slot
    && c.clock.open.Some? && c.clock.open.value.slot >= slot
  }

  lemma EndKnows(c: Core, aim: Aim)
    ensures c.EndRun(aim).knownFrom == c.knownFrom || c.EndRun(aim).knownFrom == Some(aim.slot)
  {
    hide Core.Misses, Spread;
  }

  lemma PushKnowsFrom(c: Core, p: Packet, at: Arrival, slot: nat)
    requires KnowsFrom(c, slot) && (p.pcr.Some? ==> p.pcr.value < WRAP)
    ensures KnowsFrom(c.Push(p, at), slot)
  {
    hide Timebase.AllFromSource, Core.EndRun, SlotFor, SlotMap.SlotOfPcr;
    Timebase.PushSourced(c, p, at);
    if p.pcr.Some? {
      EndKnows(c.Noted(p), c.Noted(p).Aims(p, at));
      Timebase.SlotNeverGoesBack(c.rateMap, c.clock, |c.run|, p.pcr.value, p.declared, at);
    }
  }

  lemma {:induction false} HearingKnowsFrom(c: Core, heard: seq<Paths.Heard>, slot: nat)
    requires KnowsFrom(c, slot) && InRange(heard)
    ensures KnowsFrom(Paths.Hear(c, heard), slot)
    decreases |heard|
  {
    hide Core.Push, KnowsFrom;
    if heard == [] {
    } else {
      assert heard[0] in heard && forall h <- heard[1..] :: h in heard;
      PushKnowsFrom(c, heard[0].packet, heard[0].at, slot);
      HearingKnowsFrom(c.Push(heard[0].packet, heard[0].at), heard[1..], slot);
    }
  }

  lemma {:induction false} HearingIsSourced(c: Core, heard: seq<Paths.Heard>)
    requires Timebase.Sourced(c) && InRange(heard)
    ensures Timebase.Sourced(Paths.Hear(c, heard))
    decreases |heard|
  {
    hide Core.Push, Timebase.Sourced;
    if heard == [] {
    } else {
      assert heard[0] in heard && forall h <- heard[1..] :: h in heard;
      Timebase.PushSourced(c, heard[0].packet, heard[0].at);
      HearingIsSourced(c.Push(heard[0].packet, heard[0].at), heard[1..]);
    }
  }

  /** The push of a PCR at which the leg starts, or gives up a run, is where it knows from. */
  lemma StartsKnowing(c: Core, p: Packet, at: Arrival)
    requires p.pcr.Some? && (c.clock.open.None? || c.Push(p, at).cut > c.cut)
    ensures
      var c' := c.Push(p, at);
      c'.clock.open.Some? && c'.knownFrom == Some(c'.clock.open.value.slot)
  {
    hide SlotFor, Core.Misses, Spread;
  }

  lemma {:induction false} HearJoins(c: Core, x: seq<Paths.Heard>, y: seq<Paths.Heard>)
    ensures Paths.Hear(c, x + y) == Paths.Hear(Paths.Hear(c, x), y)
    decreases |x|
  {
    hide Core.Push;
    if x == [] {
      assert x + y == y;
    } else {
      assert (x + y)[1..] == x[1..] + y;
      HearJoins(c.Push(x[0].packet, x[0].at), x[1..], y);
    }
  }

  /** Over anything a leg can hear, for clock values below the wrap: however much it hears
      later, it never claims to know a slot before that of the PCR it started at, or of any
      PCR at which it cut the run it had. */
  lemma CutSlotsStayUnknown(m: SlotMap, before: seq<Paths.Heard>, h: Paths.Heard, after: seq<Paths.Heard>,
      from: nat, to: nat)
    requires InRange(before + [h] + after) && h.packet.pcr.Some?
    requires
      var c := Paths.Hear(NewCore(m), before);
      c.clock.open.None? || c.Push(h.packet, h.at).cut > c.cut
    requires Paths.Hear(NewCore(m), before + [h] + after).Determined(from, to)
    ensures
      var c' := Paths.Hear(NewCore(m), before).Push(h.packet, h.at);
      c'.clock.open.Some? && from >= c'.clock.open.value.slot
  {
    hide Core.Push, Paths.Hear, Timebase.Sourced, NewCore;
    var c := Paths.Hear(NewCore(m), before);
    var c' := c.Push(h.packet, h.at);
    assert forall x <- before :: x in before + [h] + after;
    assert h in before + [h] + after && forall x <- after :: x in before + [h] + after;
    NewIsSourced(m);
    HearingIsSourced(NewCore(m), before);
    Timebase.PushSourced(c, h.packet, h.at);
    StartsKnowing(c, h.packet, h.at);
    HearingKnowsFrom(c', after, c'.clock.open.value.slot);
    HearJoins(NewCore(m), before + [h], after);
    HearJoins(NewCore(m), before, [h]);
    HearOne(c, h);
  }

  lemma HearOne(c: Core, h: Paths.Heard)
    ensures Paths.Hear(c, [h]) == c.Push(h.packet, h.at)
  {
    hide Core.Push;
    assert [h][1..] == [];
  }

  lemma NewIsSourced(m: SlotMap)
    ensures Timebase.Sourced(NewCore(m))
  {
  }

  /** The slot of the last PCR at which the leg started, or cut the run it had. */
  function ResumedFrom(m: SlotMap, heard: seq<Paths.Heard>): Option<nat> {
    if heard == [] then None
    else
      var front, h := heard[..|heard| - 1], heard[|heard| - 1];
      var c := Paths.Hear(NewCore(m), front);
      var c' := c.Push(h.packet, h.at);
      if h.packet.pcr.Some? && c'.clock.open.Some? && (c.clock.open.None? || c'.cut > c.cut)
      then Some(c'.clock.open.value.slot) else ResumedFrom(m, front)
  }

  /** Any other push leaves what the leg knows from. */
  lemma GoesOnKnowing(c: Core, p: Packet, at: Arrival)
    requires Orderly(c) && (p.pcr.Some? ==> c.clock.open.Some? && c.Push(p, at).cut <= c.cut)
    ensures c.Push(p, at).knownFrom == c.knownFrom
  {
    hide SlotFor, FreeIsNext;
    if p.pcr.Some? {
      RunHolds(c.run);
      EndCuts(c.Noted(p), c.Noted(p).Aims(p, at));
      hide Core.EndRun, IsRun;
    }
  }

  /** Over anything a leg can hear it knows exactly the slots from that of the last PCR at
      which it started, or cut, up to the last PCR heard. */
  lemma {:induction false} KnowsExactlySinceResuming(m: SlotMap, heard: seq<Paths.Heard>, from: nat, to: nat)
    ensures
      var c := Paths.Hear(NewCore(m), heard);
      && c.knownFrom == ResumedFrom(m, heard)
      && (c.Determined(from, to) <==>
            && ResumedFrom(m, heard).Some? && c.clock.open.Some?
            && ResumedFrom(m, heard).value <= from && to <= c.clock.open.value.slot)
  {
    hide Core.Push, Paths.Hear, Orderly;
    if heard == [] {
      HearNothing(m);
    } else {
      var front, h := heard[..|heard| - 1], heard[|heard| - 1];
      var c := Paths.Hear(NewCore(m), front);
      KnowsExactlySinceResuming(m, front, from, to);
      NewRemembers(m, front);
      assert heard == front + [h];
      HearJoins(NewCore(m), front, [h]);
      HearOne(c, h);
      if h.packet.pcr.Some? && (c.clock.open.None? || c.Push(h.packet, h.at).cut > c.cut) {
        StartsKnowing(c, h.packet, h.at);
      } else {
        GoesOnKnowing(c, h.packet, h.at);
      }
    }
  }

  lemma HearNothing(m: SlotMap)
    ensures Paths.Hear(NewCore(m), []) == NewCore(m)
  {
  }

  // ---- Two legs that missed different parts ----

  /** A packet stream heard at no instant in particular. */
  function Silent(packets: seq<Packet>): (heard: seq<Paths.Heard>)
    ensures |heard| == |packets|
    ensures forall k | 0 <= k < |heard| :: heard[k] == Paths.Heard(packets[k], 0, Arrival(0, None))
  {
    seq(|packets|, k requires 0 <= k < |packets| => Paths.Heard(packets[k], 0, Arrival(0, None)))
  }

  lemma {:induction false} FedIsHeard(c: Core, packets: seq<Packet>)
    ensures Paths.Fed(c, packets) == Paths.Hear(c, Silent(packets))
    decreases |packets|
  {
    hide Core.Push;
    if packets == [] {
    } else {
      assert Silent(packets)[1..] == Silent(packets[1..]);
      FedIsHeard(c.Push(packets[0], Arrival(0, None)), packets[1..]);
    }
  }

  /** The packet the log has in a slot, if it has one. */
  function PacketIn(log: seq<Placement>, slot: nat): Option<Packet> {
    match GridQueue.Lookup(log, slot)
    case Some(q) => Some(q.packet)
    case None => None
  }

  /** A leg that has heard some part of a source clock, as `Paths` has it, up to a PCR: what
      it heard, the PCR last. */
  ghost predicate HearsUpTo(m: SlotMap, heard: seq<Paths.Heard>) {
    && heard != [] && heard[|heard| - 1].packet.pcr.Some? && InRange(heard)
    && Paths.Joins(m, NewCore(m), heard[0], heard[1..])
  }

  /** The leg before that PCR, and after. */
  function Before(m: SlotMap, heard: seq<Paths.Heard>): Core
    requires heard != []
  {
    Paths.Hear(NewCore(m), heard[..|heard| - 1])
  }

  function Upon(m: SlotMap, heard: seq<Paths.Heard>): Core {
    Paths.Hear(NewCore(m), heard)
  }

  /** The leg starts at that PCR, or cuts at it the run it had. */
  predicate ResumesAt(m: SlotMap, heard: seq<Paths.Heard>)
    requires heard != []
  {
    Before(m, heard).clock.open.None? || Upon(m, heard).cut > Before(m, heard).cut
  }

  /** Two legs up to the same PCR at the same source time, having joined within one wrap. */
  ghost predicate SameTime(m: SlotMap, a: seq<Paths.Heard>, b: seq<Paths.Heard>) {
    && HearsUpTo(m, a) && HearsUpTo(m, b)
    && a[|a| - 1].packet == b[|b| - 1].packet && a[|a| - 1].time == b[|b| - 1].time
    && a[0].time / WRAP == b[0].time / WRAP
  }

  lemma {:induction false} LastTimeIsLast(from: nat, heard: seq<Paths.Heard>)
    requires heard != [] && heard[|heard| - 1].packet.pcr.Some?
    ensures Paths.LastTime(from, heard) == heard[|heard| - 1].time
    decreases |heard|
  {
    var next := if heard[0].packet.pcr.Some? then heard[0].time else from;
    if |heard| == 1 {
    } else {
      LastTimeIsLast(next, heard[1..]);
    }
  }

  lemma UponIsPush(m: SlotMap, heard: seq<Paths.Heard>)
    requires heard != []
    ensures
      var h := heard[|heard| - 1];
      Upon(m, heard) == Before(m, heard).Push(h.packet, h.at)
  {
    hide Core.Push, Paths.Hear;
    var n := |heard| - 1;
    assert heard == heard[..n] + [heard[n]];
    HearJoins(NewCore(m), heard[..n], [heard[n]]);
    HearOne(Before(m, heard), heard[n]);
  }

  lemma ClockUpon(m: SlotMap, heard: seq<Paths.Heard>)
    requires HearsUpTo(m, heard)
    ensures heard[0].time <= heard[|heard| - 1].time
    ensures Upon(m, heard).clock == Paths.ClockAt(m, heard[0].time, heard[|heard| - 1].time)
  {
    hide Paths.Hear, Paths.ClockAt, Paths.OfOneClock;
    Paths.JoinsClock(m, NewCore(m), heard[0], heard[1..]);
    assert [heard[0]] + heard[1..] == heard;
    if |heard| > 1 {
      LastTimeIsLast(heard[0].time, heard[1..]);
    }
  }

  lemma OpensWith(c: Core, p: Packet, at: Arrival)
    requires p.pcr.Some?
    ensures
      var c' := c.Push(p, at);
      && c'.run == [p] && c'.rateMap == c.rateMap && c'.clock.open.Some?
      && c'.openBase == c'.clock.rebased && c'.openWraps == c'.clock.wraps
  {
    hide SlotFor, Core.EndRun;
    EndKeepsMap(c.Noted(p), c.Noted(p).Aims(p, at));
  }

  lemma EndKeepsMap(c: Core, aim: Aim)
    ensures c.EndRun(aim).rateMap == c.rateMap
  {
    hide Core.Misses, Spread;
  }

  lemma {:induction false} HearKeepsMap(c: Core, heard: seq<Paths.Heard>)
    ensures Paths.Hear(c, heard).rateMap == c.rateMap
    decreases |heard|
  {
    hide Core.Push;
    if heard == [] {
    } else {
      PushKeepsMap(c, heard[0].packet, heard[0].at);
      HearKeepsMap(c.Push(heard[0].packet, heard[0].at), heard[1..]);
    }
  }

  lemma PushKeepsMap(c: Core, p: Packet, at: Arrival)
    ensures c.Push(p, at).rateMap == c.rateMap
  {
    hide SlotFor, Core.EndRun;
    if p.pcr.Some? {
      EndKeepsMap(c.Noted(p), c.Noted(p).Aims(p, at));
    }
  }

  /** Whatever each missed before it, from that PCR on the two share a run and a clock. */
  lemma SharedUpon(m: SlotMap, a: seq<Paths.Heard>, b: seq<Paths.Heard>)
    requires SameTime(m, a, b)
    ensures Coalescence.Shared(Upon(m, a), Upon(m, b))
  {
    hide Core.Push, Paths.Hear, Paths.ClockAt, Paths.Joins, NewCore;
    ClockUpon(m, a);
    ClockUpon(m, b);
    SameClockAt(m, a[0].time, b[0].time, a[|a| - 1].time);
    UponIsPush(m, a);
    UponIsPush(m, b);
    OpensWith(Before(m, a), a[|a| - 1].packet, a[|a| - 1].at);
    OpensWith(Before(m, b), b[|b| - 1].packet, b[|b| - 1].at);
    HearKeepsMap(NewCore(m), a);
    HearKeepsMap(NewCore(m), b);
  }

  lemma SameClockAt(m: SlotMap, a: nat, b: nat, time: nat)
    requires a <= time && b <= time && a / WRAP == b / WRAP
    ensures Paths.ClockAt(m, a, time) == Paths.ClockAt(m, b, time)
  {
    hide SlotMap.SlotOfPcr, Paths.Lapped;
  }

  lemma {:induction false} HearingFlows(c: Core, heard: seq<Paths.Heard>)
    requires Displacement.Flows(c) && GridQueue.Ordered(c)
    ensures Displacement.Flows(Paths.Hear(c, heard)) && GridQueue.Ordered(Paths.Hear(c, heard))
    decreases |heard|
  {
    hide Core.Push, Displacement.Flows, GridQueue.Ordered;
    if heard == [] {
    } else {
      GridQueue.CorePushReachable(c, heard[0].packet, heard[0].at);
      HearingFlows(c.Push(heard[0].packet, heard[0].at), heard[1..]);
    }
  }

  lemma UponIncreases(m: SlotMap, heard: seq<Paths.Heard>, rest: seq<Packet>)
    ensures Displacement.Increasing(Paths.Fed(Upon(m, heard), rest).log)
  {
    hide Core.Push, Paths.Hear, Paths.Fed, Displacement.Flows, Displacement.Increasing;
    NewFlows(m);
    HearingFlows(NewCore(m), heard);
    HearingFlows(Upon(m, heard), Silent(rest));
    FedIsHeard(Upon(m, heard), rest);
  }

  lemma NewFlows(m: SlotMap)
    ensures Displacement.Flows(NewCore(m)) && GridQueue.Ordered(NewCore(m))
  {
  }

  /** What a leg places of `rest`, from that PCR on. */
  function PlacedAfter(m: SlotMap, heard: seq<Paths.Heard>, rest: seq<Packet>): seq<Placement> {
    Coalescence.Added(Upon(m, heard), Paths.Fed(Upon(m, heard), rest))
  }

  /** Both have `rest` of the stream, no run of which either cuts, and place the `i`th packet
      of what they place from the PCR on alike. */
  ghost predicate CoalesceOn(m: SlotMap, a: seq<Paths.Heard>, b: seq<Paths.Heard>, rest: seq<Packet>, i: nat) {
    && Coalescence.Uncut(Upon(m, a), rest) && Coalescence.Uncut(Upon(m, b), rest)
    && i < |PlacedAfter(m, a, rest)| && i < |PlacedAfter(m, b, rest)|
    && PlacedAfter(m, a, rest)[i] == PlacedAfter(m, b, rest)[i]
  }

  lemma TailsAgree(m: SlotMap, a: seq<Paths.Heard>, b: seq<Paths.Heard>, rest: seq<Packet>, i: nat)
    requires SameTime(m, a, b) && CoalesceOn(m, a, b, rest, i)
    requires Paths.QuietStream(Paths.OpenPcr(Upon(m, a)), rest)
    ensures
      var placedA, placedB := PlacedAfter(m, a, rest), PlacedAfter(m, b, rest);
      && Paths.Fed(Upon(m, a), rest).log == Upon(m, a).log + placedA
      && Paths.Fed(Upon(m, b), rest).log == Upon(m, b).log + placedB
      && |placedA| == |placedB| && forall l | i <= l < |placedA| :: placedA[l] == placedB[l]
  {
    hide Core.Push, Paths.Hear, Paths.Fed, Coalescence.Shared, Coalescence.Uncut, Coalescence.Added, Coalescence.Met;
    hide Paths.QuietStream, SameTime, Upon, Coalescence.StepsTogether;
    SharedUpon(m, a, b);
    Coalescence.FedTogether(Upon(m, a), Upon(m, b), rest);
    Meetings.AddedOn(Upon(m, a), Upon(m, b), Paths.Fed(Upon(m, a), rest), Paths.Fed(Upon(m, b), rest));
    Coalescence.LateJoinerCoalesces(Upon(m, a), Upon(m, b), rest, i);
  }

  /** Past the packet they coalesce on they hold the same in every slot, and that packet in
      its own. */
  lemma ViewsAgree(beforeA: seq<Placement>, beforeB: seq<Placement>, a: seq<Placement>, b: seq<Placement>,
      i: nat, slot: nat)
    requires |a| == |b| && i < |a| && (forall l | i <= l < |a| :: a[l] == b[l]) && slot >= a[i].slot
    requires Displacement.Increasing(beforeA + a) && Displacement.Increasing(beforeB + b)
    ensures PacketIn(beforeA + a, slot) == PacketIn(beforeB + b, slot)
    ensures slot > a[i].slot ==> GridQueue.Lookup(beforeA + a, slot) == GridQueue.Lookup(beforeB + b, slot)
  {
    hide GridQueue.Lookup;
    if slot > a[i].slot {
      assert Displacement.Increasing(b) by {
        TailIncreases(beforeB, b);
      }
      Meetings.AlikeTails(beforeA, a, b, i, slot);
      Meetings.AlikeTails(beforeB, b, b, i, slot);
    } else {
      GridQueue.LookupAt(beforeA + a, |beforeA| + i);
      GridQueue.LookupAt(beforeB + b, |beforeB| + i);
    }
  }

  lemma TailIncreases(x: seq<Placement>, y: seq<Placement>)
    requires Displacement.Increasing(x + y)
    ensures Displacement.Increasing(y)
  {
    forall j, k | 0 <= j < k < |y|
      ensures y[j].slot < y[k].slot
    {
      assert (x + y)[|x| + j].slot < (x + y)[|x| + k].slot;
    }
  }

  /** A slot the leg claims to know, however much more it has had. */
  lemma KnownIsPastResuming(m: SlotMap, heard: seq<Paths.Heard>, rest: seq<Packet>, slot: nat)
    requires HearsUpTo(m, heard) && ResumesAt(m, heard) && InRange(Silent(rest))
    requires Paths.Fed(Upon(m, heard), rest).Determined(slot, slot + 1)
    ensures Upon(m, heard).clock.open.Some? && slot >= Upon(m, heard).clock.open.value.slot
  {
    hide Core.Push, Paths.Hear, Paths.Fed, NewCore, Paths.Joins;
    var n := |heard| - 1;
    assert heard == heard[..n] + [heard[n]];
    UponIsPush(m, heard);
    FedIsHeard(Upon(m, heard), rest);
    HearJoins(NewCore(m), heard, Silent(rest));
    assert heard + Silent(rest) == heard[..n] + [heard[n]] + Silent(rest);
    InRangeJoins(heard, Silent(rest));
    CutSlotsStayUnknown(m, heard[..n], heard[n], Silent(rest), slot, slot + 1);
  }

  lemma InRangeJoins(x: seq<Paths.Heard>, y: seq<Paths.Heard>)
    requires InRange(x) && InRange(y)
    ensures InRange(x + y)
  {
  }

  /** Two legs have heard whatever parts of one source clock, at whatever instants, up to a
      PCR at which one of them starts or gives up the run it had for missing some of it; and
      after that both have had the same quiet stream, neither giving up more. Then in every
      slot both claim to know they hold the same packet, or none, but for the slots from
      that PCR's to the one they first place alike: slots one of them missed are not among
      those it claims. */
  lemma KnownSlotsAgree(m: SlotMap, a: seq<Paths.Heard>, b: seq<Paths.Heard>, rest: seq<Packet>, i: nat, slot: nat)
    requires SameTime(m, a, b) && (ResumesAt(m, a) || ResumesAt(m, b)) && CoalesceOn(m, a, b, rest, i)
    requires Paths.QuietStream(a[|a| - 1].packet.pcr, rest) && InRange(Silent(rest))
    requires Paths.Fed(Upon(m, a), rest).Determined(slot, slot + 1)
    requires Paths.Fed(Upon(m, b), rest).Determined(slot, slot + 1)
    requires
      var c := Upon(m, a);
      c.clock.open.Some? ==> !(c.clock.open.value.slot <= slot < PlacedAfter(m, a, rest)[i].slot)
    ensures PacketIn(Paths.Fed(Upon(m, a), rest).log, slot) == PacketIn(Paths.Fed(Upon(m, b), rest).log, slot)
  {
    hide Core.Push, Paths.Hear, Paths.Fed, Coalescence.Uncut, Coalescence.Added, Paths.QuietStream, PacketIn, NewCore;
    hide Upon, Before, InRange, Paths.Joins;
    OpenUpon(m, a);
    SameOpenUpon(m, a, b);
    if ResumesAt(m, a) {
      KnownIsPastResuming(m, a, rest, slot);
    } else {
      KnownIsPastResuming(m, b, rest, slot);
    }
    TailsAgree(m, a, b, rest, i);
    UponIncreases(m, a, rest);
    UponIncreases(m, b, rest);
    ViewsAgree(Upon(m, a).log, Upon(m, b).log, PlacedAfter(m, a, rest), PlacedAfter(m, b, rest), i, slot);
  }

  lemma OpenUpon(m: SlotMap, heard: seq<Paths.Heard>)
    requires HearsUpTo(m, heard)
    ensures Paths.OpenPcr(Upon(m, heard)) == heard[|heard| - 1].packet.pcr
  {
    hide Paths.Hear, NewCore, Paths.Joins, SlotFor, Core.EndRun;
    UponIsPush(m, heard);
  }

  lemma SameOpenUpon(m: SlotMap, a: seq<Paths.Heard>, b: seq<Paths.Heard>)
    requires SameTime(m, a, b)
    ensures Upon(m, a).clock == Upon(m, b).clock && Upon(m, a).clock.open.Some?
  {
    hide Upon, SameTime;
    SharedUpon(m, a, b);
  }

  /** The first run a leg closes after its open one is the open one. */
  lemma {:induction false} FirstRunIsOpen(c: Core, packets: seq<Packet>)
    requires Orderly(c) && c.clock.open.Some? && Coalescence.Uncut(c, packets)
    ensures
      var runs := RunsClosed(c, Silent(packets));
      runs != [] ==> runs[0].from == c.clock.open.value.slot
    decreases |packets|
  {
    hide Orderly, PlacedEvenly, Paths.Fed, SlotFor, Core.CloseRun, Core.Misses, Coalescence.Uncut;
    if packets == [] {
    } else {
      var c' := c.Push(packets[0], Arrival(0, None));
      assert Silent(packets)[1..] == Silent(packets[1..]);
      PushPlacesEvenly(c, packets[0], Arrival(0, None));
      Coalescence.UncutNext(c, packets);
      if packets[0].pcr.None? {
        FirstRunIsOpen(c', packets[1..]);
        assert ClosedBy(c, c') + RunsClosed(c', Silent(packets[1..])) == RunsClosed(c', Silent(packets[1..]));
      } else {
        UncutGrows(c, packets[0]);
      }
    }
  }

  lemma UncutGrows(c: Core, p: Packet)
    requires Orderly(c) && c.clock.open.Some? && p.pcr.Some?
    requires c.Push(p, Arrival(0, None)).cut == c.cut
    ensures |c.Push(p, Arrival(0, None)).log| > |c.log|
  {
    hide SlotFor;
    EndCuts(c.Noted(p), c.Noted(p).Aims(p, Arrival(0, None)));
    hide Core.EndRun;
  }

  /** What a leg places first after a PCR asks for that PCR's slot. */
  lemma FirstAsksItsSlot(m: SlotMap, heard: seq<Paths.Heard>, rest: seq<Packet>)
    requires HearsUpTo(m, heard) && Coalescence.Uncut(Upon(m, heard), rest) && PlacedAfter(m, heard, rest) != []
    ensures Upon(m, heard).clock.open.Some?
    ensures PlacedAfter(m, heard, rest)[0].ideal == Upon(m, heard).clock.open.value.slot
  {
    hide Paths.Fed, Paths.Hear, PlacedEvenly, Core.Push, Coalescence.Uncut, Paths.Joins, NewCore, Orderly;
    var c := Upon(m, heard);
    OpenUpon(m, heard);
    NewRemembers(m, heard);
    FedIsHeard(c, rest);
    HearingPlacesEvenly(c, Silent(rest));
    FirstRunIsOpen(c, rest);
    var log, runs := Paths.Fed(c, rest).log, RunsClosed(c, Silent(rest));
    assert runs != [] && runs[0].first == |c.log|;
    FirstInRun(log, runs[0]);
  }

  lemma FirstInRun(log: seq<Placement>, r: Closed)
    requires PlacedEvenly(log, r)
    ensures r.first < |log| && log[r.first].ideal == r.from
  {
    hide TakesFirstFree;
    assert InItsShare(log, r, 0);
    if r.from <= r.to {
      FirstShare(|r.run|, r.to - r.from, log[r.first].ideal - r.from);
    }
  }

  /** Two legs neither of which has spilled past that PCR's slot place alike at once. */
  lemma UndisplacedCoalesceAtOnce(m: SlotMap, a: seq<Paths.Heard>, b: seq<Paths.Heard>, rest: seq<Packet>)
    requires SameTime(m, a, b) && Coalescence.Uncut(Upon(m, a), rest) && Coalescence.Uncut(Upon(m, b), rest)
    requires PlacedAfter(m, a, rest) != [] && Upon(m, a).clock.open.Some?
    requires Upon(m, a).nextFree <= Upon(m, a).clock.open.value.slot
    requires Upon(m, b).nextFree <= Upon(m, a).clock.open.value.slot
    ensures CoalesceOn(m, a, b, rest, 0)
    ensures PlacedAfter(m, a, rest)[0].slot == Upon(m, a).clock.open.value.slot
  {
    hide Core.Push, Paths.Hear, Paths.Fed, Coalescence.Uncut, Coalescence.Added, Upon, SameTime, HearsUpTo;
    SharedUpon(m, a, b);
    Coalescence.FedTogether(Upon(m, a), Upon(m, b), rest);
    SameIsUpTo(m, a, b);
    FirstAsksItsSlot(m, a, rest);
    var placedA, placedB := PlacedAfter(m, a, rest), PlacedAfter(m, b, rest);
    assert Coalescence.Meets(placedA, placedB, Upon(m, a).nextFree, Upon(m, b).nextFree, 0);
    Coalescence.AgreeExactlyOnceMet(placedA, placedB, Upon(m, a).nextFree, Upon(m, b).nextFree, 0);
  }

  lemma SameIsUpTo(m: SlotMap, a: seq<Paths.Heard>, b: seq<Paths.Heard>)
    requires SameTime(m, a, b)
    ensures HearsUpTo(m, a) && HearsUpTo(m, b)
  {
  }

  // ---- One that has had all of it, and one that missed a stretch ----

  /** The last PCR heard finds a counter broken since the PCR before it and lies at least
      twice as far from that as any of the last eight runs placed was long. */
  predicate BetrayedAt(m: SlotMap, heard: seq<Paths.Heard>)
    requires heard != []
  {
    var c := Before(m, heard);
    && c.clock.open.Some? && Upon(m, heard).clock.open.Some?
    && BrokenSince(PacketsHeard(heard), SatSub(|heard|, |c.run|))
    && TooLong(Newest(Spans(RunsClosed(NewCore(m), heard[..|heard| - 1])), 8),
               SatSub(Upon(m, heard).clock.open.value.slot, c.clock.open.value.slot))
  }

  lemma BetrayalResumes(m: SlotMap, heard: seq<Paths.Heard>)
    requires heard != [] && heard[|heard| - 1].packet.pcr.Some? && BetrayedAt(m, heard)
    ensures ResumesAt(m, heard)
  {
    hide Core.Push, Paths.Hear, NewCore, RunsClosed, BrokenSince, TooLong, Spans, Newest;
    var n := |heard| - 1;
    UponIsPush(m, heard);
    assert PacketsHeard(heard[..n]) + [heard[n].packet] == PacketsHeard(heard);
    CutsExactlyWhenBetrayed(m, heard[..n], heard[n].packet, heard[n].at);
  }

  /** One leg has heard a stream up to a PCR, and another the same but for a stretch, which
      its counters and the interval it left betray at that PCR; the rest of the stream both
      have. Then the second claims to know no slot before that PCR's, and from the slot both
      first place alike on they hold the same packet in every slot both claim. */
  lemma BetrayedStretchIsWithheld(m: SlotMap, x: seq<Paths.Heard>, lost: seq<Paths.Heard>, y: seq<Paths.Heard>,
      rest: seq<Packet>, i: nat, slot: nat)
    requires x != [] && y != [] && SameTime(m, x + lost + y, x + y) && BetrayedAt(m, x + y)
    requires CoalesceOn(m, x + lost + y, x + y, rest, i)
    requires Paths.QuietStream(y[|y| - 1].packet.pcr, rest) && InRange(Silent(rest))
    requires Paths.Fed(Upon(m, x + y), rest).Determined(slot, slot + 1)
    ensures Upon(m, x + y).clock.open.Some? && slot >= Upon(m, x + y).clock.open.value.slot
    ensures
      var whole := Paths.Fed(Upon(m, x + lost + y), rest);
      whole.Determined(slot, slot + 1) && slot >= PlacedAfter(m, x + y, rest)[i].slot ==>
        PacketIn(whole.log, slot) == PacketIn(Paths.Fed(Upon(m, x + y), rest).log, slot)
  {
    hide Core.Push, Paths.Hear, Paths.Fed, Coalescence.Uncut, Coalescence.Added, Paths.QuietStream, PacketIn, NewCore;
    hide Upon, Before, InRange, Paths.Joins, BetrayedAt, ResumesAt;
    var whole, part := x + lost + y, x + y;
    assert part[|part| - 1] == y[|y| - 1] == whole[|whole| - 1];
    BetrayalResumes(m, part);
    KnownIsPastResuming(m, part, rest, slot);
    if Paths.Fed(Upon(m, whole), rest).Determined(slot, slot + 1) && slot >= PlacedAfter(m, part, rest)[i].slot {
      KnownSlotsAgree(m, whole, part, rest, i, slot);
    }
  }
}
