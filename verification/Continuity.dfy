/** Continuity-counter checking (src/scheduler.rs, `note_continuity`), proved exact
    against a model of a sender that follows the counter rules. */
module Continuity {
  import opened Packets

  /** What is remembered of one PID: nothing yet, or its last counter and whether a
      payload packet has already repeated it. */
  datatype CcState = Unseen | Seen(cc: Counter, repeated: bool)

  datatype Note = Note(next: CcState, broken: bool)

  function NoteCounter(last: CcState, cc: Counter, hasPayload: bool, declared: bool): Note {
    if last.Unseen? || declared then Note(Seen(cc, false), false)
    else if !hasPayload then Note(last, cc != last.cc)
    else if cc == (last.cc + 1) % 16 then Note(Seen(cc, false), false)
    else if cc == last.cc && !last.repeated then Note(Seen(cc, true), false)
    else Note(Seen(cc, false), true)
  }

  type Table = t: seq<CcState> | |t| == 8192 witness seq(8192, _ => Unseen)

  function NotePacket(table: Table, p: Packet): (Table, bool) {
    var note := NoteCounter(table[p.pid], p.cc, p.hasPayload, p.declared);
    (table[p.pid := note.next], note.broken)
  }

  // ---- The sender: how a conforming stream is produced, one PID at a time ----

  /** What a sender may do next on a PID. */
  datatype Send =
    | Fresh                                    // a payload packet, counter advanced
    | Repeat                                   // the last payload packet once more
    | Bare                                     // no payload, counter held
    | Declare(cc: Counter, hasPayload: bool)   // a declared discontinuity

  /** The sender's own state: its counter, unreduced, and whether the packet a
      `Repeat` would duplicate has been duplicated already. */
  datatype Sender = Sender(count: nat, repeated: bool)

  /** One duplicate is allowed, so a second `Repeat` in a row is not. */
  predicate MaySend(s: Sender, op: Send) {
    op.Repeat? ==> !s.repeated
  }

  function Sent(s: Sender, op: Send): Sender {
    match op
    case Fresh => Sender(s.count + 1, false)
    case Repeat => Sender(s.count, true)
    case Bare => s
    case Declare(cc, _) => Sender(cc, false)
  }

  /** The header fields `op` puts on the wire from state `s`. */
  predicate OnWire(s: Sender, op: Send, p: Packet) {
    && p.cc == Sent(s, op).count % 16
    && p.hasPayload == (op.Fresh? || op.Repeat? || (op.Declare? && op.hasPayload))
    && p.declared == op.Declare?
  }

  datatype Transmission = Transmission(op: Send, packet: Packet)

  type Senders = t: seq<Sender> | |t| == 8192 witness seq(8192, _ => Sender(0, false))

  function AfterSend(senders: Senders, e: Transmission): Senders {
    senders[e.packet.pid := Sent(senders[e.packet.pid], e.op)]
  }

  /** `stream` is what a bank of conforming senders, one a PID, put out in some
      interleaving from the given states. */
  predicate Conforms(senders: Senders, stream: seq<Transmission>)
    decreases |stream|
  {
    stream == [] ||
    (var s := senders[stream[0].packet.pid];
     && MaySend(s, stream[0].op)
     && OnWire(s, stream[0].op, stream[0].packet)
     && Conforms(AfterSend(senders, stream[0]), stream[1..]))
  }

  /** Folding the checker over a stream: whether any packet broke a counter. */
  function Check(table: Table, stream: seq<Transmission>): (Table, bool)
    decreases |stream|
  {
    if stream == [] then (table, false)
    else
      var (t1, b1) := NotePacket(table, stream[0].packet);
      var (t2, b2) := Check(t1, stream[1..]);
      (t2, b1 || b2)
  }

  /** What the checker remembers is the sender's state, as far as it has seen it. */
  predicate Tracks(last: CcState, s: Sender) {
    last.Seen? ==> last.cc == s.count % 16 && (last.repeated ==> s.repeated)
  }

  ghost predicate TracksAll(table: Table, senders: Senders) {
    forall pid | 0 <= pid < 8192 :: Tracks(table[pid], senders[pid])
  }

  /** The sender refuses a second repeat, the checker a second repeat it has seen;
      so the checker only ever needs to be the more forgiving of the two. */
  lemma StepTracks(last: CcState, s: Sender, op: Send, p: Packet)
    requires Tracks(last, s) && MaySend(s, op) && OnWire(s, op, p)
    ensures
      var note := NoteCounter(last, p.cc, p.hasPayload, p.declared);
      !note.broken && Tracks(note.next, Sent(s, op))
  {
  }

  /** No conforming stream, however its PIDs interleave and wherever the listener
      joined it, is ever read as broken. */
  lemma {:induction false} ConformingStreamNeverBreaks(table: Table, senders: Senders, stream: seq<Transmission>)
    requires TracksAll(table, senders)
    requires Conforms(senders, stream)
    ensures !Check(table, stream).1
    ensures TracksAll(Check(table, stream).0, AfterAll(senders, stream))
    decreases |stream|
  {
    if stream == [] {
    } else {
      var e := stream[0];
      StepTracks(table[e.packet.pid], senders[e.packet.pid], e.op, e.packet);
      ConformingStreamNeverBreaks(NotePacket(table, e.packet).0, AfterSend(senders, e), stream[1..]);
    }
  }

  function AfterAll(senders: Senders, stream: seq<Transmission>): Senders
    decreases |stream|
  {
    if stream == [] then senders else AfterAll(AfterSend(senders, stream[0]), stream[1..])
  }

  /** How many times a stretch advances one PID's counter. */
  function FreshOn(pid: Pid, stream: seq<Transmission>): nat {
    if stream == [] then 0
    else (if stream[0].packet.pid == pid && stream[0].op.Fresh? then 1 else 0) + FreshOn(pid, stream[1..])
  }

  predicate NothingDeclaredOn(pid: Pid, stream: seq<Transmission>) {
    forall e <- stream :: e.packet.pid == pid ==> !e.op.Declare?
  }

  lemma {:induction false} CountAfter(senders: Senders, stream: seq<Transmission>, pid: Pid)
    requires NothingDeclaredOn(pid, stream)
    ensures AfterAll(senders, stream)[pid].count == senders[pid].count + FreshOn(pid, stream)
    decreases |stream|
  {
    if stream == [] {
    } else {
      CountAfter(AfterSend(senders, stream[0]), stream[1..], pid);
    }
  }

  /** Exactly what a loss looks like. A checker that has heard a PID misses a whole
      stretch of a conforming stream in which that PID's counter advanced `k` times,
      and next hears from it without a declared discontinuity. A fresh payload packet
      is read as a break unless `k` is a multiple of sixteen, or is one short of one
      and the last packet heard was not itself a repeat (it then passes for that
      packet's duplicate); a repeat, likewise one further on; and a packet without a
      payload unless `k` is a multiple of sixteen. */
  lemma LossIsSeenExactly(table: Table, senders: Senders, lost: seq<Transmission>, next: Transmission)
    requires TracksAll(table, senders)
    requires Conforms(senders, lost + [next])
    requires table[next.packet.pid].Seen?
    requires NothingDeclaredOn(next.packet.pid, lost) && !next.op.Declare?
    ensures
      var k := FreshOn(next.packet.pid, lost);
      var repeated := table[next.packet.pid].repeated;
      NotePacket(table, next.packet).1 <==>
        match next.op
        case Bare => k % 16 != 0
        case Repeat => k % 16 != 1 && (k % 16 != 0 || repeated)
        case _ => k % 16 != 0 && (k % 16 != 15 || repeated)
  {
    hide Conforms, AfterAll, FreshOn, NoteCounter, OnWire, NothingDeclaredOn;
    var pid := next.packet.pid;
    CountAfter(senders, lost, pid);
    ConformsSplit(senders, lost, next);
    NoteAfterLoss(table[pid], senders[pid].count, FreshOn(pid, lost), AfterAll(senders, lost)[pid], next.op,
        next.packet);
  }

  /** What the checker makes of a packet whose sender has advanced `k` times unheard. */
  lemma NoteAfterLoss(last: CcState, count: nat, k: nat, s: Sender, op: Send, p: Packet)
    requires last.Seen? && last.cc == count % 16 && s.count == count + k
    requires OnWire(s, op, p) && !op.Declare?
    ensures NoteCounter(last, p.cc, p.hasPayload, p.declared).broken <==>
      match op
      case Bare => k % 16 != 0
      case Repeat => k % 16 != 1 && (k % 16 != 0 || last.repeated)
      case _ => k % 16 != 0 && (k % 16 != 15 || last.repeated)
  {
  }

  lemma {:induction false} ConformsSplit(senders: Senders, lost: seq<Transmission>, next: Transmission)
    requires Conforms(senders, lost + [next])
    ensures OnWire(AfterAll(senders, lost)[next.packet.pid], next.op, next.packet)
    decreases |lost|
  {
    if lost == [] {
      assert lost + [next] == [next];
    } else {
      assert (lost + [next])[0] == lost[0] && (lost + [next])[1..] == lost[1..] + [next];
      ConformsSplit(AfterSend(senders, lost[0]), lost[1..], next);
    }
  }
}
