/** Two legs that come to send alike (src/scheduler.rs, `emit_datagram`; README.md lines
    311-324): two that go through one datagram with the same PCR in it and nothing owed
    ahead of that PCR, whether they had the whole stream or one joined it late. */
module Meetings {
  import opened Prelude
  import opened Packets
  import opened GridSpec
  import opened SchedulerSpec
  import opened TwoLegs
  import opened Pair
  import Coalescence
  import Conservation
  import Displacement
  import GridQueue
  import Paths

  // ---- One leg's part ----

  /** What a leg was called with until it opened the datagram in question, the call that
      emitted that datagram, and the calls since. */
  datatype Meeting = Meeting(cfg: Config, before: seq<Call>, now: nat, due: nat, since: seq<Call>)

  function Opening(m: Meeting): Sched {
    RunCalls(NewSched(m.cfg), m.before)
  }

  function Passed(m: Meeting): Sched {
    EmitDatagram(Opening(m), m.now, m.due).s
  }

  function End(m: Meeting): Sched {
    RunCalls(Passed(m), m.since)
  }

  /** The placements the leg has made by the end. */
  function EndLog(m: Meeting): seq<Placement> {
    if End(m).store.Gridded? then LogOf(End(m)) else []
  }

  function CallsOf(m: Meeting): seq<Call> {
    m.before + [Emit(m.now, m.due)] + m.since
  }

  /** The leg knew the slots of the datagram, sent or not, and the `j`th held a PCR of the
      clock's PID with nothing waiting ahead of it. Since then it has stayed in phase; and
      it lost nothing for want of room but what lies behind the datagram. */
  ghost predicate PhasesOn(m: Meeting, j: nat) {
    var s := Opening(m);
    && m.cfg.streamed && m.cfg.regenerate && j < m.cfg.perDatagram
    && Whole(s) && s.pid.Some? && s.CatchUp(m.now) == s && Opens(s, m.now, m.due).determined
    && (var due := GridQueue.Lookup(LogOf(s), s.slot + j);
        due.Some? && due.value.packet.pcr.Some? && due.value.packet.pid == s.pid.value)
    && PureSlots(m.cfg, s.pid, s.em, s.slot, j, LogOf(s)).em.deferred == []
    && StaysInPhase(Passed(m), m.since)
    && End(m).store.Gridded? && EvictedBy(End(m)) == EvictedBy(s)
  }

  lemma OpeningRuns(m: Meeting)
    requires m.cfg.streamed
    ensures Leg(Opening(m)) && Opening(m).cfg == m.cfg
  {
    NewLeg(m.cfg);
    RunLeg(NewSched(m.cfg), m.before);
    Conservation.RunKeepsConfig(NewSched(m.cfg), m.before);
    hide RunCalls, Leg;
  }

  /** The datagram takes the leg where its log says; and its slots are settled for good. */
  lemma DatagramPasses(m: Meeting, j: nat)
    requires PhasesOn(m, j)
    ensures
      var s, p := Opening(m), Passed(m);
      var n := m.cfg.perDatagram;
      && Running(p) && Whole(p) && p.cfg == m.cfg && p.pid == s.pid && p.slot == s.slot + n
      && s.store.Gridded? && End(m).store.Gridded? && EvictedBy(p) == EvictedBy(s)
      && p.em == PureSlots(m.cfg, s.pid, s.em, s.slot, n, LogOf(s)).em
      && SameView(LogOf(s), EndLog(m), s.slot, s.slot + n)
  {
    hide RunCalls, EmitDatagram, Opens, Sched.CatchUp, PureSlots, StaysInPhase, GridQueue.Lookup, Leg, Whole,
         GridQueue.Frontier;
    OpeningRuns(m);
    var s, p := Opening(m), Passed(m);
    KnownDatagramIsPure(s, m.now, m.due);
    EmitKeepsLeg(s, m.now, m.due);
    KnownIsBelowFrontier(s, m.now, m.due);
    forall slot | s.slot <= slot < s.slot + m.cfg.perDatagram
      ensures GridQueue.Lookup(LogOf(s), slot) == GridQueue.Lookup(EndLog(m), slot)
    {
      InPhaseViewIsFinal(p, m.since, slot);
    }
  }

  lemma KnownIsBelowFrontier(s: Sched, now: nat, due: nat)
    requires s.store.Gridded? && Opens(s, now, due).determined
    ensures s.slot + s.cfg.perDatagram <= GridQueue.Frontier(s.store.grid.core)
  {
    hide Sched.State;
  }

  // ---- Two legs ----

  /** Two legs with the same line, that met at the same slot on the same clock PID. */
  ghost predicate MeetAt(a: Meeting, b: Meeting, j: nat) {
    && PhasesOn(a, j) && PhasesOn(b, j) && Line(a.cfg) == Line(b.cfg)
    && Opening(a).slot == Opening(b).slot && Opening(a).pid == Opening(b).pid
  }

  /** From the datagram they met in to the end of the `k`th after it, both placed alike. */
  ghost predicate PlacedAlikeSince(a: Meeting, b: Meeting, k: nat) {
    SameView(EndLog(a), EndLog(b), Opening(a).slot, Past(Opening(a).slot, k + 2, a.cfg.perDatagram))
  }

  lemma ViewsJoin(x: seq<Placement>, x': seq<Placement>, y: seq<Placement>, y': seq<Placement>, from: nat, to: nat,
      end: nat)
    requires SameView(x, x', from, to) && SameView(y, y', from, to) && SameView(x', y', from, end) && to <= end
    ensures SameView(x, y, from, to)
  {
    hide GridQueue.Lookup;
    forall slot | from <= slot < to
      ensures GridQueue.Lookup(x, slot) == GridQueue.Lookup(y, slot)
    {
      assert GridQueue.Lookup(x', slot) == GridQueue.Lookup(y', slot);
    }
  }

  /** Whatever each had been through and whatever state it was in, they leave the datagram
      in one state. */
  lemma MeetingEndsEqual(a: Meeting, b: Meeting, j: nat, k: nat)
    requires MeetAt(a, b, j) && PlacedAlikeSince(a, b, k)
    ensures Passed(a).em == Passed(b).em
  {
    hide RunCalls, PureSlots, StaysInPhase, SameView, Opens, Sched.CatchUp, Leg, Whole, EmitDatagram, GridQueue.Lookup;
    var sa, sb, n := Opening(a), Opening(b), a.cfg.perDatagram;
    DatagramPasses(a, j);
    DatagramPasses(b, j);
    assert (k + 2) * n >= n by {
      assert (k + 2) * n == k * n + 2 * n;
    }
    ViewsJoin(LogOf(sa), EndLog(a), LogOf(sb), EndLog(b), sa.slot, sa.slot + n, sa.slot + (k + 2) * n);
    LineDecides(a.cfg, b.cfg, sb.pid, sb.em, sb.slot, n, LogOf(sb));
    LineDecides(a.cfg, b.cfg, sb.pid, sb.em, sb.slot, j, LogOf(sb));
    PhasedTogetherEndEqual(a.cfg, sa.pid.value, sa.em, sb.em, sa.slot, j, n, LogOf(sa), LogOf(sb));
  }

  /** Two legs that meet on one PCR of one datagram with nothing waiting ahead of it send
      equal datagrams ever after, while they stay in phase and their placements agree. */
  lemma LegsThatMeetAgree(a: Meeting, b: Meeting, j: nat, k: nat)
    requires MeetAt(a, b, j) && PlacedAlikeSince(a, b, k)
    requires k < |SentBy(Passed(a), a.since)| && k < |SentBy(Passed(b), b.since)|
    ensures SentBy(Passed(a), a.since)[k] == SentBy(Passed(b), b.since)[k]
  {
    hide RunCalls, PureSlots, StaysInPhase, SentBy, Opens, Sched.CatchUp, Leg, Whole, Running, EmitDatagram,
         GridQueue.Lookup;
    var n := a.cfg.perDatagram;
    DatagramPasses(a, j);
    DatagramPasses(b, j);
    MeetingEndsEqual(a, b, j, k);
    assert (k + 2) * n == n + (k + 1) * n && (k + 1) * n >= 0;
    assert SameView(EndLog(a), EndLog(b), Passed(a).slot, Passed(a).slot + (k + 1) * n);
    TwoLegsAgree(Passed(a), Passed(b), a.since, b.since, k);
  }

  // ---- On one stream ----

  lemma EndIsFed(m: Meeting)
    requires m.cfg.streamed && Paths.QuietStream(None, Conservation.PacketsIn(CallsOf(m)))
    ensures End(m).store.Gridded? && Leg(End(m))
    ensures End(m).store.grid.core == Paths.Fed(NewCore(m.cfg.m), Conservation.PacketsIn(CallsOf(m)))
  {
    hide Leg, RunCalls, Paths.QuietStream, Paths.Fed, Conservation.PacketsIn, EmitDatagram, Whole;
    var s, emit := NewSched(m.cfg), [Emit(m.now, m.due)];
    NewLeg(m.cfg);
    WholeIsLeg(s);
    CallsFeedTheGrid(s, CallsOf(m));
    LegIsGridded(RunCalls(s, CallsOf(m)));
    RunJoins(s, m.before + emit, m.since);
    RunJoins(s, m.before, emit);
    OneCall(Opening(m), Emit(m.now, m.due));
  }

  lemma OneCall(s: Sched, call: Call)
    ensures RunCalls(s, [call]) == Do(s, call)
  {
    assert [call][1..] == [];
  }

  /** What the leg sends after the datagram lies below its frontier at the end. */
  lemma SentSinceBelowFrontier(m: Meeting, j: nat, k: nat)
    requires PhasesOn(m, j) && k < |SentBy(Passed(m), m.since)|
    ensures End(m).store.Gridded? && Displacement.Flows(End(m).store.grid.core)
    ensures Past(Opening(m).slot, k + 2, m.cfg.perDatagram) <= GridQueue.Frontier(End(m).store.grid.core)
  {
    hide RunCalls, StaysInPhase, SentBy, Running, Whole, Leg, GridQueue.Lookup, PureSlots, EmitDatagram, Opens,
         Sched.CatchUp;
    hide GridQueue.Frontier, Displacement.Flows, SameView;
    var n := m.cfg.perDatagram;
    DatagramPasses(m, j);
    SentBelowFrontier(Passed(m), m.since, k);
    assert (k + 2) * n == n + (k + 1) * n;
    EndIsLeg(m, j);
    LegFlows(End(m));
  }

  lemma EndIsLeg(m: Meeting, j: nat)
    requires PhasesOn(m, j)
    ensures Leg(End(m))
  {
    hide RunCalls, EmitDatagram, Leg, Whole, StaysInPhase, PureSlots, Opens, Sched.CatchUp, GridQueue.Lookup;
    OpeningRuns(m);
    EmitKeepsLeg(Opening(m), m.now, m.due);
    RunLeg(Passed(m), m.since);
  }

  lemma LegFlows(s: Sched)
    requires Leg(s)
    ensures s.store.Gridded? && Displacement.Flows(s.store.grid.core)
  {
    ReachableParts(s.store.grid);
  }

  /** Two pacers on one quiet stream, each given as much of it as has reached it, at any
      times, that meet on a PCR: from there on they send one transport. */
  lemma MeetingOnOneStream(a: Meeting, b: Meeting, j: nat, k: nat)
    requires MeetAt(a, b, j)
    requires OneStream(Conservation.PacketsIn(CallsOf(a)), Conservation.PacketsIn(CallsOf(b)))
    requires Paths.QuietStream(None, Conservation.PacketsIn(CallsOf(a)))
    requires Paths.QuietStream(None, Conservation.PacketsIn(CallsOf(b)))
    requires k < |SentBy(Passed(a), a.since)| && k < |SentBy(Passed(b), b.since)|
    ensures SentBy(Passed(a), a.since)[k] == SentBy(Passed(b), b.since)[k]
  {
    hide PhasesOn, Conservation.PacketsIn, Paths.QuietStream, Paths.Fed, NewCore, SentBy, RunCalls, GridQueue.Lookup;
    hide OneStream, SameView, GridQueue.Frontier, Displacement.Flows, Leg;
    MeetingIsStreamed(a, j);
    MeetingIsStreamed(b, j);
    EndIsFed(a);
    EndIsFed(b);
    SentSinceBelowFrontier(a, j, k);
    SentSinceBelowFrontier(b, j, k);
    OneStreamOneView(NewCore(a.cfg.m), Conservation.PacketsIn(CallsOf(a)), Conservation.PacketsIn(CallsOf(b)),
                     Opening(a).slot, Past(Opening(a).slot, k + 2, a.cfg.perDatagram));
    LegsThatMeetAgree(a, b, j, k);
  }

  lemma MeetingIsStreamed(m: Meeting, j: nat)
    requires PhasesOn(m, j)
    ensures m.cfg.streamed
  {
  }

  // ---- One that joined late ----

  /** Two placement logs that end alike from some placement on hold the same in every slot
      past it, tags and all. */
  lemma AlikeTails(before: seq<Placement>, a: seq<Placement>, b: seq<Placement>, i: nat, slot: nat)
    requires |a| == |b| && i < |a| && a[i].slot < slot && forall l | i <= l < |a| :: a[l] == b[l]
    requires Displacement.Increasing(before + a) && Displacement.Increasing(b)
    ensures GridQueue.Lookup(before + a, slot) == GridQueue.Lookup(b, slot)
  {
    var log := before + a;
    if l :| i < l < |a| && a[l].slot == slot {
      GridQueue.LookupAt(log, |before| + l);
      GridQueue.LookupAt(b, l);
      assert log[|before| + l] == a[l] && log[|before| + l - 1] == a[l - 1];
    } else {
      assert log[|before| + i] == a[i];
      forall m | 0 <= m < |log|
        ensures log[m].slot != slot
      {
        assert m > |before| + i ==> log[m] == a[m - |before|];
      }
      forall m | 0 <= m < |b|
        ensures b[m].slot != slot
      {
        assert m > i ==> b[m] == a[m];
      }
      GridQueue.LookupNothing(log, slot);
      GridQueue.LookupNothing(b, slot);
    }
  }

  /** A stream as a running leg has it: what came before a joining leg's first packet, that
      packet, and the rest. */
  datatype Stream = Stream(early: seq<Packet>, first: Packet, rest: seq<Packet>)

  function Late(t: Stream): seq<Packet> {
    [t.first] + t.rest
  }

  function All(t: Stream): seq<Packet> {
    t.early + Late(t)
  }

  /** Where the grids of the two stand when the first packet both had has opened its run. */
  function RunningFrom(c: Config, t: Stream): Core {
    Paths.Fed(NewCore(c.m), t.early).Push(t.first, Arrival(0, None))
  }

  function JoiningFrom(c: Config, t: Stream): Core {
    NewCore(c.m).Push(t.first, Arrival(0, None))
  }

  /** A quiet stream a leg may join at a PCR: from there on no run is cut for a leg that has
      had all of it or for one that joins; and by then the clock has, for a leg that has
      had all of it, neither wrapped nor been re-based, which a late leg could not know. */
  ghost predicate Joinable(c: Config, t: Stream) {
    && Paths.QuietStream(None, All(t))
    && t.first.pcr.Some? && Paths.Fed(NewCore(c.m), t.early).clock.open.Some?
    && RunningFrom(c, t).clock.(open := None) == NewCore(c.m).clock
    && Coalescence.Uncut(RunningFrom(c, t), t.rest) && Coalescence.Uncut(JoiningFrom(c, t), t.rest)
  }

  /** Leg `a` has had as much of the stream as has reached it, and leg `b` as much of its
      late part. */
  predicate JoinsLate(a: Meeting, b: Meeting, t: Stream) {
    Conservation.PacketsIn(CallsOf(a)) <= All(t) && Conservation.PacketsIn(CallsOf(b)) <= Late(t)
  }

  function PlacedBy(c: Core, packets: seq<Packet>): seq<Placement> {
    Coalescence.Added(c, Paths.Fed(c, packets))
  }

  /** The `i`th packet they both place they place alike, before `slot`. */
  ghost predicate CoalescedBefore(c: Config, t: Stream, i: nat, slot: nat) {
    var a, b := PlacedBy(RunningFrom(c, t), t.rest), PlacedBy(JoiningFrom(c, t), t.rest);
    i < |a| && i < |b| && a[i] == b[i] && a[i].slot < slot
  }

  lemma {:induction false} QuietTail(previous: Option<nat>, x: seq<Packet>, y: seq<Packet>, c: Core)
    requires Paths.QuietStream(previous, x + y) && Paths.OpenPcr(c) == previous
    ensures Paths.QuietStream(Paths.OpenPcr(Paths.Fed(c, x)), y)
    decreases |x|
  {
    hide Core.Push, Paths.Quiet;
    if x == [] {
      assert x + y == y;
    } else {
      var p := x[0];
      assert (x + y)[0] == p && (x + y)[1..] == x[1..] + y;
      Paths.QuietPush(c, p, Arrival(0, None));
      QuietTail(if p.pcr.Some? then p.pcr else previous, x[1..], y, c.Push(p, Arrival(0, None)));
    }
  }

  lemma FedFirst(c: Core, first: Packet, rest: seq<Packet>)
    ensures Paths.Fed(c, [first] + rest) == Paths.Fed(c.Push(first, Arrival(0, None)), rest)
  {
    assert ([first] + rest)[1..] == rest;
  }

  lemma JoiningPlacesNothing(c: Config, t: Stream)
    requires t.first.pcr.Some?
    ensures JoiningFrom(c, t).log == [] && Paths.OpenPcr(JoiningFrom(c, t)) == t.first.pcr
  {
    hide SlotFor;
  }

  lemma JoinersShare(c: Config, t: Stream)
    requires Joinable(c, t)
    ensures
      var ra, rb := RunningFrom(c, t), JoiningFrom(c, t);
      Coalescence.Shared(ra, rb) && Paths.QuietStream(Paths.OpenPcr(ra), t.rest)
  {
    hide Core.Push, Paths.QuietStream, Paths.Quiet, Coalescence.Uncut, Paths.Fed;
    var r0, at := Paths.Fed(NewCore(c.m), t.early), Arrival(0, None);
    QuietTail(None, t.early, Late(t), NewCore(c.m));
    QuietHead(Paths.OpenPcr(r0), t.first, t.rest);
    Paths.QuietPush(r0, t.first, at);
    FedKeepsMap(NewCore(c.m), t.early);
    Coalescence.JoiningIsSharing(r0, NewCore(c.m), t.first);
  }

  lemma QuietHead(previous: Option<nat>, first: Packet, rest: seq<Packet>)
    requires Paths.QuietStream(previous, [first] + rest) && first.pcr.Some?
    ensures previous.Some? ==> Paths.Quiet(previous.value, first.pcr.value, first.declared)
    ensures Paths.QuietStream(first.pcr, rest)
  {
    hide Paths.Quiet;
    assert ([first] + rest)[1..] == rest;
  }

  lemma {:induction false} FedKeepsMap(c: Core, packets: seq<Packet>)
    ensures Paths.Fed(c, packets).rateMap == c.rateMap
    decreases |packets|
  {
    if packets == [] {
    } else {
      hide Core.Push;
      PushKeepsMap(c, packets[0]);
      FedKeepsMap(c.Push(packets[0], Arrival(0, None)), packets[1..]);
    }
  }

  lemma PushKeepsMap(c: Core, p: Packet)
    ensures c.Push(p, Arrival(0, None)).rateMap == c.rateMap
  {
    hide SlotFor, Spread;
  }

  lemma {:induction false} FedIncreases(c: Core, packets: seq<Packet>)
    requires Displacement.Flows(c) && GridQueue.Ordered(c)
    ensures Displacement.Flows(Paths.Fed(c, packets)) && GridQueue.Ordered(Paths.Fed(c, packets))
    decreases |packets|
  {
    hide Core.Push, Displacement.Flows, GridQueue.Ordered;
    if packets == [] {
    } else {
      GridQueue.CorePushReachable(c, packets[0], Arrival(0, None));
      FedIncreases(c.Push(packets[0], Arrival(0, None)), packets[1..]);
    }
  }

  lemma LogsAre(c: Config, t: Stream)
    ensures
      var ra, rb := RunningFrom(c, t), JoiningFrom(c, t);
      && Paths.Fed(NewCore(c.m), All(t)).log == Paths.Fed(ra, t.rest).log
      && Paths.Fed(NewCore(c.m), Late(t)).log == Paths.Fed(rb, t.rest).log
      && Displacement.Increasing(Paths.Fed(ra, t.rest).log) && Displacement.Increasing(Paths.Fed(rb, t.rest).log)
  {
    hide Core.Push, Paths.Fed, Displacement.Increasing, Displacement.Flows;
    Paths.FedOn(NewCore(c.m), t.early, Late(t));
    FedFirst(Paths.Fed(NewCore(c.m), t.early), t.first, t.rest);
    FedFirst(NewCore(c.m), t.first, t.rest);
    NewIsOrdered(c);
    FedIncreases(NewCore(c.m), All(t));
    FedIncreases(NewCore(c.m), Late(t));
  }

  lemma NewIsOrdered(c: Config)
    ensures Displacement.Flows(NewCore(c.m)) && GridQueue.Ordered(NewCore(c.m))
  {
  }

  lemma JoinersPlace(c: Config, t: Stream, i: nat, from: nat)
    requires Joinable(c, t) && CoalescedBefore(c, t, i, from)
    ensures
      var ra, rb := RunningFrom(c, t), JoiningFrom(c, t);
      var placedA, placedB := PlacedBy(ra, t.rest), PlacedBy(rb, t.rest);
      && Paths.Fed(ra, t.rest).log == ra.log + placedA && Paths.Fed(rb, t.rest).log == placedB
      && |placedA| == |placedB| && i < |placedA| && placedA[i].slot < from
      && forall l | i <= l < |placedA| :: placedA[l] == placedB[l]
  {
    hide Core.Push, Paths.QuietStream, Paths.Fed, Coalescence.Uncut, NewCore;
    hide Coalescence.Shared, Coalescence.Met, Coalescence.Added, Coalescence.StepsTogether, RunningFrom, JoiningFrom;
    var ra, rb := RunningFrom(c, t), JoiningFrom(c, t);
    JoinersShare(c, t);
    Coalescence.FedTogether(ra, rb, t.rest);
    AddedOn(ra, rb, Paths.Fed(ra, t.rest), Paths.Fed(rb, t.rest));
    JoiningPlacesNothing(c, t);
    Coalescence.LateJoinerCoalesces(ra, rb, t.rest, i);
    assert [] + PlacedBy(rb, t.rest) == PlacedBy(rb, t.rest);
  }

  /** Past the packet they coalesce on, the late part alone is placed as the stream is. */
  lemma JoinedViews(c: Config, t: Stream, i: nat, from: nat, to: nat)
    requires Joinable(c, t) && CoalescedBefore(c, t, i, from)
    ensures SameView(Paths.Fed(NewCore(c.m), All(t)).log, Paths.Fed(NewCore(c.m), Late(t)).log, from, to)
  {
    hide Core.Push, GridQueue.Lookup, Displacement.Increasing, NewCore;
    hide Joinable, CoalescedBefore, RunningFrom, JoiningFrom, PlacedBy, Paths.Fed, All, Late;
    LogsAre(c, t);
    JoinersPlace(c, t, i, from);
    var ra, rb := RunningFrom(c, t), JoiningFrom(c, t);
    var logA, logB := Paths.Fed(NewCore(c.m), All(t)).log, Paths.Fed(NewCore(c.m), Late(t)).log;
    forall slot | from <= slot < to
      ensures GridQueue.Lookup(logA, slot) == GridQueue.Lookup(logB, slot)
    {
      AlikeTails(ra.log, PlacedBy(ra, t.rest), PlacedBy(rb, t.rest), i, slot);
    }
  }

  lemma LateQuiet(c: Config, t: Stream)
    requires Joinable(c, t)
    ensures Paths.QuietStream(None, Late(t))
  {
    hide Core.Push, Paths.Quiet, Coalescence.Uncut, Paths.Fed;
    QuietTail(None, t.early, Late(t), NewCore(c.m));
    assert Late(t)[1..] == t.rest && Late(t)[0] == t.first;
  }

  lemma {:induction false} QuietTake(previous: Option<nat>, x: seq<Packet>, y: seq<Packet>)
    requires Paths.QuietStream(previous, y) && x <= y
    ensures Paths.QuietStream(previous, x)
    decreases |x|
  {
    hide Paths.Quiet;
    if x == [] {
    } else {
      assert x[0] == y[0] && x[1..] <= y[1..];
      QuietTake(if x[0].pcr.Some? then x[0].pcr else previous, x[1..], y[1..]);
    }
  }

  lemma AddedOn(a: Core, b: Core, a': Core, b': Core)
    requires Coalescence.StepsTogether(a, b, a', b')
    ensures a'.log == a.log + Coalescence.Added(a, a') && b'.log == b.log + Coalescence.Added(b, b')
  {
  }

  /** A leg that has had as much of a quiet stream as reached it holds what the whole stream
      puts below its frontier. */
  lemma EndSees(m: Meeting, j: nat, k: nat, stream: seq<Packet>)
    requires PhasesOn(m, j) && k < |SentBy(Passed(m), m.since)|
    requires Paths.QuietStream(None, stream) && Conservation.PacketsIn(CallsOf(m)) <= stream
    ensures SameView(EndLog(m), Paths.Fed(NewCore(m.cfg.m), stream).log,
                     Opening(m).slot, Past(Opening(m).slot, k + 2, m.cfg.perDatagram))
  {
    hide PhasesOn, Conservation.PacketsIn, Paths.QuietStream, Paths.Fed, NewCore, SentBy, RunCalls, GridQueue.Lookup;
    hide SameView, GridQueue.Frontier, Displacement.Flows, Leg;
    MeetingIsStreamed(m, j);
    QuietTake(None, Conservation.PacketsIn(CallsOf(m)), stream);
    EndIsFed(m);
    SentSinceBelowFrontier(m, j, k);
    AheadSeesTheSame(NewCore(m.cfg.m), Conservation.PacketsIn(CallsOf(m)), stream,
                     Opening(m).slot, Past(Opening(m).slot, k + 2, m.cfg.perDatagram));
  }

  /** A pacer that joins a running stream late sends what the running one sends, each having
      had as much of the stream as reached it: once some packet of the stream would go to
      the same slot for both, from the first datagram past it that both know and in which
      both meet one PCR with nothing waiting ahead of it, every later datagram both send is
      the same. */
  lemma LateJoinerSendsTheSame(a: Meeting, b: Meeting, t: Stream, i: nat, j: nat, k: nat)
    requires MeetAt(a, b, j) && JoinsLate(a, b, t)
    requires Joinable(a.cfg, t) && CoalescedBefore(a.cfg, t, i, Opening(a).slot)
    requires k < |SentBy(Passed(a), a.since)| && k < |SentBy(Passed(b), b.since)|
    ensures SentBy(Passed(a), a.since)[k] == SentBy(Passed(b), b.since)[k]
  {
    hide PhasesOn, CoalescedBefore, SentBy, RunCalls, GridQueue.Lookup, Paths.Fed, NewCore, All, Late, SameView;
    hide Coalescence.Uncut, Paths.QuietStream, Conservation.PacketsIn, RunningFrom, JoiningFrom;
    var from, to := Opening(a).slot, Past(Opening(a).slot, k + 2, a.cfg.perDatagram);
    LateQuiet(a.cfg, t);
    EndSees(a, j, k, All(t));
    EndSees(b, j, k, Late(t));
    JoinedViews(a.cfg, t, i, from, to);
    ViewsJoin(EndLog(a), Paths.Fed(NewCore(a.cfg.m), All(t)).log, EndLog(b), Paths.Fed(NewCore(a.cfg.m), Late(t)).log,
              from, to, to);
    LegsThatMeetAgree(a, b, j, k);
  }
}
