/** What the counters of a scheduler say (src/scheduler.rs, `emit_datagram`, `enqueue`): what
    is on the wire, slot for slot. */
module Counters {
  import opened Packets
  import opened SchedulerSpec
  import Conservation
  import GridSpec
  import PcrRegens
  import Repetition

  datatype Kinds = Kinds(content: nat, inserted: nat, nulls: nat)

  function KindOf(cell: Cell): Kinds {
    match cell
    case Content(_, _, _) => Kinds(1, 0, 0)
    case PcrOnly(_, _, _) => Kinds(0, 1, 0)
    case Null => Kinds(0, 0, 1)
  }

  function Together(a: Kinds, b: Kinds): Kinds {
    Kinds(a.content + b.content, a.inserted + b.inserted, a.nulls + b.nulls)
  }

  /** How many cells there are of each kind. */
  function KindsOf(cells: seq<Cell>): (k: Kinds)
    ensures k.content + k.inserted + k.nulls == |cells|
  {
    if cells == [] then Kinds(0, 0, 0) else Together(KindsOf(cells[..|cells| - 1]), KindOf(cells[|cells| - 1]))
  }

  lemma KindsOneMore(cells: seq<Cell>, cell: Cell)
    ensures KindsOf(cells + [cell]) == Together(KindsOf(cells), KindOf(cell))
  {
    hide Together, KindOf;
    assert (cells + [cell])[..|cells|] == cells;
  }

  lemma {:induction false} KindsJoin(a: seq<Cell>, b: seq<Cell>)
    ensures KindsOf(a + b) == Together(KindsOf(a), KindsOf(b))
    decreases |b|
  {
    hide KindsOf, KindOf;
    if b == [] {
      assert a + b == a;
      NoKinds();
    } else {
      var front, last := b[..|b| - 1], b[|b| - 1];
      assert a + b == a + front + [last] && b == front + [last];
      KindsJoin(a, front);
      KindsOneMore(a + front, last);
      KindsOneMore(front, last);
    }
  }

  lemma NoKinds()
    ensures KindsOf([]) == Kinds(0, 0, 0)
  {
  }

  /** How many of the next `n` slots go out as stuffing though a packet is due and the input
      is not dead. */
  function Starving(s: Sched, n: nat, x: Ctx): nat {
    if n == 0 then 0
    else
      var b := EmitSlots(s, n - 1, x).s;
      Starving(s, n - 1, x) + if EmitSlot(b, x).cell.Null? && b.released < x.due && !x.stalled then 1 else 0
  }

  function CallStarving(s: Sched, call: Call): nat {
    if !call.Emit? then 0
    else
      var caught := s.CatchUp(call.now);
      var x := Opens(caught, call.now, call.due);
      if x.send then Starving(Opening(caught, x), s.cfg.perDatagram, x) else 0
  }

  function RunStarving(s: Sched, calls: seq<Call>): nat
    decreases |calls|
  {
    if calls == [] then 0 else CallStarving(s, calls[0]) + RunStarving(Do(s, calls[0]), calls[1..])
  }

  function StuffingIn(calls: seq<Call>): nat
    decreases |calls|
  {
    if calls == [] then 0
    else (if calls[0].Enqueue? && calls[0].packet.pid == NULL_PID then 1 else 0) + StuffingIn(calls[1..])
  }

  /** From `a` to `b` the counters have counted `kinds`, and `starving` of the stuffing as
      underruns. */
  predicate Counts(a: Stats, b: Stats, kinds: Kinds, starving: nat) {
    && b.output == a.output + kinds.content + kinds.inserted + kinds.nulls
    && b.content == a.content + kinds.content && b.inserted == a.inserted + kinds.inserted
    && b.nulls == a.nulls + kinds.nulls && b.underruns == a.underruns + starving
    && b.inputNulls == a.inputNulls
  }

  lemma CountsOn(a: Stats, b: Stats, c: Stats, k: Kinds, l: Kinds, n: nat, m: nat)
    requires Counts(a, b, k, n) && Counts(b, c, l, m)
    ensures Counts(a, c, Together(k, l), n + m)
  {
  }

  lemma CountsNothing(a: Stats)
    ensures Counts(a, a, Kinds(0, 0, 0), 0)
  {
  }

  lemma NothingTogether()
    ensures Together(Kinds(0, 0, 0), Kinds(0, 0, 0)) == Kinds(0, 0, 0)
  {
  }

  lemma SlotCounts(s: Sched, x: Ctx)
    ensures
      var f := EmitSlot(s, x);
      var starves := if f.cell.Null? && s.released < x.due && !x.stalled then 1 else 0;
      if x.send then Counts(s.stats, f.s.stats, KindOf(f.cell), starves)
      else Counts(s.stats, f.s.stats, Kinds(0, 0, 0), 0)
  {
    hide Sched.Admit, InsertedClock, Reinserts, GridClock, PcrRegens.Regen.Observe, PcrRegens.Regen.Locked;
    hide PcrRegens.Regen.Flags;
    Conservation.AdmitTouches(s, s.released < x.due);
  }

  lemma {:induction false} SlotsCount(s: Sched, n: nat, x: Ctx)
    ensures
      var e := EmitSlots(s, n, x);
      if x.send then Counts(s.stats, e.s.stats, KindsOf(e.cells), Starving(s, n, x))
      else Counts(s.stats, e.s.stats, Kinds(0, 0, 0), 0)
  {
    hide EmitSlot, KindsOf, KindOf, Counts, Together;
    CountsNothing(s.stats);
    if n == 0 {
      NoKinds();
    } else {
      SlotsCount(s, n - 1, x);
      var b := EmitSlots(s, n - 1, x);
      var f := EmitSlot(b.s, x);
      SlotCounts(b.s, x);
      KindsOneMore(b.cells, f.cell);
      if x.send {
        var starves := if f.cell.Null? && b.s.released < x.due && !x.stalled then 1 else 0;
        CountsOn(s.stats, b.s.stats, f.s.stats, KindsOf(b.cells), KindOf(f.cell), Starving(s, n - 1, x), starves);
      } else {
        CountsOn(s.stats, b.s.stats, f.s.stats, Kinds(0, 0, 0), Kinds(0, 0, 0), 0, 0);
        NothingTogether();
      }
    }
  }

  lemma CaughtCounts(s: Sched, now: nat, x: Ctx)
    ensures Counts(s.stats, Opening(s.CatchUp(now), x).stats, Kinds(0, 0, 0), 0) && s.CatchUp(now).cfg == s.cfg
  {
    hide Sched.Boundary;
  }

  lemma EmitCounts(s: Sched, now: nat, due: nat)
    ensures
      Counts(s.stats, EmitDatagram(s, now, due).s.stats, KindsOf(EmitDatagram(s, now, due).cells),
             CallStarving(s, Emit(now, due)))
  {
    hide EmitSlots, Opens, Sched.CatchUp, Starving, KindsOf;
    var caught := s.CatchUp(now);
    var x := Opens(caught, now, due);
    CaughtCounts(s, now, x);
    SlotsCount(Opening(caught, x), s.cfg.perDatagram, x);
    NoKinds();
  }

  lemma EnqueueCounts(s: Sched, p: Packet, now: nat)
    ensures
      var stats := s.Enqueue(p, now).stats;
      && Counts(s.stats, stats.(inputNulls := s.stats.inputNulls), Kinds(0, 0, 0), 0)
      && stats.inputNulls == s.stats.inputNulls + if p.pid == NULL_PID then 1 else 0
  {
    hide GridSpec.Grid.Push, Sched.Boundary;
  }

  /** The counters after a run: what went out, and the stuffing that came in. */
  predicate Tells(s: Sched, calls: seq<Call>, stats: Stats) {
    && Counts(s.stats, stats.(inputNulls := s.stats.inputNulls), KindsOf(Repetition.OnWire(s, calls)),
              RunStarving(s, calls))
    && stats.inputNulls == s.stats.inputNulls + StuffingIn(calls)
  }

  lemma {:induction false} RunTells(s: Sched, calls: seq<Call>)
    ensures Tells(s, calls, RunCalls(s, calls).stats)
    decreases |calls|
  {
    hide EmitDatagram, Sched.Enqueue, KindsOf, CallStarving;
    NoKinds();
    if calls == [] {
    } else {
      var call, rest := calls[0], calls[1..];
      RunTells(Do(s, call), rest);
      match call {
        case Enqueue(p, now) =>
          EnqueueCounts(s, p, now);
          assert [] + Repetition.OnWire(Do(s, call), rest) == Repetition.OnWire(Do(s, call), rest);
          NoStarving(s, call);
        case Emit(now, due) =>
          EmitCounts(s, now, due);
          KindsJoin(EmitDatagram(s, now, due).cells, Repetition.OnWire(Do(s, call), rest));
        case Mute(now) =>
          assert [] + Repetition.OnWire(Do(s, call), rest) == Repetition.OnWire(Do(s, call), rest);
          NoStarving(s, call);
      }
    }
  }

  lemma NoStarving(s: Sched, call: Call)
    requires !call.Emit?
    ensures CallStarving(s, call) == 0
  {
  }

  /** Over every run from new the counters are what is on the wire: as many packets, as many
      of content, of inserted PCRs and of stuffing; an underrun for each slot that was sent
      as stuffing though a packet was due and the input not dead; and as much stuffing
      stripped as came in. */
  lemma CountersAreTheWires(cfg: Config, calls: seq<Call>)
    ensures
      var stats, wire := RunCalls(NewSched(cfg), calls).stats, Repetition.OnWire(NewSched(cfg), calls);
      && stats.output == |wire| && Kinds(stats.content, stats.inserted, stats.nulls) == KindsOf(wire)
      && stats.underruns == RunStarving(NewSched(cfg), calls) && stats.inputNulls == StuffingIn(calls)
  {
    hide RunCalls, Repetition.OnWire, RunStarving, KindsOf;
    RunTells(NewSched(cfg), calls);
  }
}
