# Verification model of the MPEG-TS pacer

The pacer takes bursts of 188-byte transport packets and puts out a constant-rate
transport: a slot every packet time, each filled with content, a re-inserted PCR or
stuffing. Its hard part is stream clocking, where the slot of every packet is computed
from the source's own PCR values, so that two pacers on unrelated paths send the same
bytes under the same sequence numbers. This project models that path, the arrival-clocked
path beside it, and the arithmetic and smaller state machines both stand on, and proves
what the source's comments and README promise of them.

The model has two layers. Functions on values say what each operation does
(`GridSpec`, `SchedulerSpec`, and a small record type beside each class). Classes keep the
program's own mutable fields and loops and are proved to follow those functions. The
theorems are about the functions, over every run: any packets, any instants, any
interleaving of input, output, stalls and muting.

| file | what it is about |
|---|---|
| `SlotMaps`, `PcrField`, `PcrRegen` | the slot grid, the PCR field on octets, byte-locked regeneration |
| `Continuity`, `GridSpec`, `StreamGrid` | the grid: counters, slots for PCRs, spreading, the placed queue |
| `Displacement`, `Spreading`, `Paths`, `Coalescence`, `Gap`, `GridQueue`, `Timebase` | theorems about the grid |
| `SchedulerSpec`, `Scheduler`, `Wire` | the scheduler, and the octets of what it sends |
| `Conservation`, `Counters`, `Delivery`, `Departures`, `Lateness`, `Repetition`, `Insertion`, `Stalls`, `Phase`, `Timing` | theorems about one scheduler: what it does with its packets, and when |
| `OutputClock`, `SourceClock`, `StreamClock`, `StreamContent` | and what its clock says, against the slots and against the source |
| `Drain`, `Pacing`, `Cushion` | how one empties when its source ends, and what its own media clock releases: from when, at what rate, towards what depth |
| `TwoLegs`, `Pair`, `Meeting` | theorems about two of them |
| `TickStream`, `TickLeg`, `Apart`, `Overtaken`, `Joining`, `Missing` | concrete streams, and what schedulers and grids from new do with them |
| `MediaClock`, `RateSample`, `ArrivalProfile`, `JitterBuffer`, `Resync` | rate recovery, burst measurement, the FIFO, packet resynchronisation |

Instants are whole nanoseconds, `f64` quantities are reals, counters are unbounded, and
the decay factor of a rate sample is any number in (0, 1]. Fields marked as history
(`log`, `loads`, `wraps`, `openWraps`, `gone`, `passed`, `evicted`, `samples`, `input`,
`out`) are read by no operation; they are what the theorems speak about.

## Where the code and what is said of it differ

- The comment on the `phased` field (src/scheduler.rs, lines 817-828) says that a content
  PCR going out in its own slot with nothing queued ahead of it leaves both legs in the same
  state. That is not so in general: in `Apart.LegsInPhaseCanDisagree` two schedulers given
  one stream, each phased so, send different packets in one slot.
  `TwoLegs.PartnersMeetExactlyWhenNothingWaits` gives the exact condition, that the partner
  too has nothing deferred ahead of the PCR the late leg phases on, and
  `Meetings.LegsThatMeetAgree` what follows where it holds.
- The grid never steps back across a 33-bit wrap for PCR values below the wrap, rounding
  included (`Timebase.SlotNeverGoesBack`). A raw extension above 299 can put the open value
  past the wrap, and then a small value behind it, read as a wrap, steps back where the open
  value has reached one slot more than the wrap has: `Timebase.GoesBackExactlyPastTheWrap`
  is the exact condition, and `Timebase.CanGoBackPastTheWrap` such a step.
- Under stream clocking the closing drain ends for every re-insertion threshold, because
  phase is lost past the last placed slot and re-insertion with it
  (`Drain.EveryStreamLegDrains`). Under arrival clocking it ends exactly when the threshold
  is more than one slot, or PCRs are preserved, or no packet without a PCR waits behind one
  (`Drain.DrainsExactlyWhenClear`, and on the leg's own media clock
  `Pacing.DrainsOnItsOwnClock`); two packets are enough for it not to, and then the closing
  exit of `pace_with` is never reached (`Drain.TwoPacketsNeverDrain`).
- A packet of a sent slot can still be counted late (`Overtaken.SentSlotsCanBeLate`): a
  re-inserted PCR displaced it, and the clock jumped before it went out. Nothing of a sent
  slot is dropped by `take` (`Departures.NothingOfASentSlotLeaves`), so that is the only
  way: `Lateness.SentSlotsLateExactlyWhenOvertaken` says, packet by packet, that it happens
  exactly when a later datagram finds the packet still waiting and the guard of `catch_up`
  holding.
- A re-inserted PCR continues the counter of its PID from when the leg learned that PID,
  which is when its first PCR was accepted, and not from what has gone out of it
  (`Insertions.InsertedContinues` is the exact statement). If that first PCR packet is then
  lost for want of room, the PCR inserted for it starts from zero after packets of the same
  PID that did not: `Insertions.CounterCanStartOver` is such a run. From the first content
  packet of the PID that follows, what is inserted breaks no counter
  (`Insertions.InsertedPcrsBreakNothing`).
- `slot_of_pcr` and `pcr_of_slot` are inverse only on slots whose ticks are whole
  (`SlotMaps.RoundTripExactlyOnWholeTicks`).

## Model

| member | source | states |
|---|---|---|
| SlotMaps.RoundTripExactlyOnWholeTicks | src/slot.rs:46-55 | slot to clock and back never gains, and gives the slot again if and only if the slot's ticks are a whole number |
| SlotMaps.QuantisationLag | src/slot.rs:46-61 | a clock value w wraps on, quantised to the grid, never runs ahead of the true clock and trails it by less than w + 1 slots' ticks plus one |
| PcrField.WriteThenRead | src/pcr.rs:41-63 | what is read back from a written PCR field is the value modulo the wrap, for every value |
| PcrField.ReadThenWrite | src/pcr.rs:41-63 | writing back what was read restores the six octets if and only if the reserved bits were set and the extension is below 300 |
| PcrField.RewrittenPacket | src/pcr.rs:24-63 | rewriting a packet's PCR changes those six octets only, keeps it a PCR packet, and reads back the new value |
| PcrField.FlaggedPacket | src/pcr.rs:68-85 | setting the discontinuity indicator touches one bit, leaves the PCR readable as before, declares the discontinuity, and is idempotent |
| PcrField.MadePackets | src/null_insertion.rs:18-39 | the PCR-only and null packets parse as what they are made to be: PID, counter, no payload, PCR modulo the wrap; stuffing on the null PID |
| PcrField.WritePcr | src/pcr.rs:53-63 | in place: exactly six octets of the target become the encoding, the rest stands |
| PcrField.SetDiscontinuityIndicator | src/pcr.rs:68-78 | in place, on octets of any length: a packet with an adaptation field gets the bit, anything else is left alone, and the answer says which |
| PcrField.PcrOnlyPacket | src/null_insertion.rs:18-28 | the array filled octet by octet is the specified adaptation-only packet |
| PcrField.NullPacket | src/null_insertion.rs:32-39 | the array filled octet by octet is the specified null packet |
| PcrRegens.StampIsTransparent | src/pcr.rs:153-204 | regenerating a packet's PCR can change octets 6 to 11 and the top bit of octet 5 and nothing else, and the value written is the value read back |
| PcrRegens.PcrRegen.constructor | src/pcr.rs:124-131 | no anchor, no source PCR seen, no flag pending |
| PcrRegens.PcrRegen.Rewrite | src/pcr.rs:153-187 | in place, on octets of any length: a PCR packet becomes the stamped packet at its byte-locked value, flagged on a re-base or a pending flag; the anchor moves on the first PCR and on a source discontinuity only; anything without a PCR changes nothing |
| PcrRegens.PcrRegen.RewriteAbsolute | src/pcr.rs:197-204 | in place, on octets of any length: a PCR packet carries the value given, modulo the wrap, the pending flag is consumed and no anchor moves; anything else changes nothing |
| PcrRegens.PcrRegen.FlagDiscontinuity | src/pcr.rs:143-145 | the next rewritten PCR will be flagged, the clock untouched |
| PcrRegens.PcrRegen.LockedForIndex | src/pcr.rs:209-214 | the inserted value is the anchor plus the exact byte clock, without disturbing the state |
| PcrRegens.LockedToTheAnchor | src/pcr.rs:153-214 | between re-bases every value put out, on content or inserted, however far along, is the anchor's plus floor(slots * cost / rate), modulo the wrap |
| PcrRegens.LockedDoesNotDrift | src/pcr.rs:153-214 | any two values of one anchor, at any two positions past it, differ modulo the wrap from the exact byte-clock interval by less than one tick |
| PcrRegens.NoDrift | src/pcr.rs:153-214 | the same of any two values put out for any run of content and inserted PCRs without a source discontinuity |
| Continuity.ConformingStreamNeverBreaks | src/scheduler.rs:639-662 | no interleaving of PIDs whose senders obey the counter rules of section 2.4.3.3 of ISO/IEC 13818-1 is ever read as broken, wherever the listener joins |
| Continuity.LossIsSeenExactly | src/scheduler.rs:639-662 | after k payload packets of a PID are lost, its next undeclared packet is read as a break exactly when k modulo 16 is neither 0 nor, for a packet that could pass as a duplicate, 15 (with the corresponding exact sets for repeats and payload-less packets) |
| Displacement.SpreadShape | src/scheduler.rs:603-625 | a run is placed whole and in order on its own time base, never before its own slot nor in one already taken, in strictly increasing slots |
| Displacement.ClosingIsLindley | src/scheduler.rs:595-632 | closing a run of c packets over a span S takes displacement D to max(0, D + c - S), the even floor-spread notwithstanding |
| Displacement.RunFlows | src/scheduler.rs:522-632 | over every run the displacement and its high-water mark are those of the Lindley queue fed the loads of its runs |
| Displacement.HighWaterIsWorstWindow | src/scheduler.rs:626-631 | over every run, the displacement high-water mark is the largest windowed sum of packets less slots; it stays within a bound if and only if no window exceeds the bound |
| Spreading.RunsAreSpreadEvenly | src/scheduler.rs:522-632 | over anything a leg can hear, at any instants, with any losses, splices and wraps: its placements are those of the runs it closed, one after another; of c packets between PCRs of slots a and b packet i asks for the slot e with 0 <= i(b - a) - (e - a)c < c, and gets the first free slot at or past it |
| Spreading.GridSpreadsEvenly | src/scheduler.rs:522-632 | the same of every run of the grid, with any takes and bounds in it |
| Spreading.UndisplacedRunLeavesNoGap | src/scheduler.rs:603-625 | a run that has its first slot and no more packets than slots has every packet where it asks to be, and no gap in it, or up to the next PCR, is longer than an even share rounded up |
| Spreading.RebaseIsSeamless | src/scheduler.rs:474-516 | where the source clock is taken to have moved the next PCR goes as many slots on as the open run has packets, so that an undisplaced run fills every slot up to it |
| Spreading.RepeatedClockRebases | src/scheduler.rs:474-516 | a clock value that repeats the one before it is always taken as a clock that has moved |
| Spreading.OverrunsAreCrowdedRuns | src/scheduler.rs:603-610 | over anything a leg can hear an overrun is counted for each run placed with more packets than slots, and for nothing else |
| Paths.ArrivalIsIrrelevantExactlyWhenQuiet | src/scheduler.rs:474-516 | arrival time and horizon cannot change a PCR's slot if and only if its step is undeclared and at most five seconds, or no step at all |
| Paths.PlacementIsPathIndependent | src/scheduler.rs:474-632 | two grids given the same packets at unrelated instants, with unrelated horizons, bounds and takes, hold the same placements and the same state, if every PCR step is quiet |
| Paths.FollowsExactlyWhenAccounted | src/scheduler.rs:474-516 | across a step of one source clock under half a wrap a leg keeps the source's slot and epoch if and only if the step is short, explained by its silence or within its horizon without a wrap; otherwise it re-bases |
| Paths.FollowsDeclaredExactlyWhenSilent | src/scheduler.rs:474-516 | across a declared step it does so if and only if its own silence is at least four fifths of the step, whatever its horizon |
| Paths.OneClockOneNumbering | src/scheduler.rs:474-516 | two legs that heard different parts of one source clock, having joined within one wrap, stand on the same slot and epoch at the same source time, with no re-base |
| Coalescence.AgreeExactlyOnceMet | src/scheduler.rs:612-620 | two legs placing the same packets agree on packet k if and only if their free slots agreed to begin with or some packet up to k wanted a slot at or past both |
| Coalescence.LateJoinerCoalesces | src/scheduler.rs:522-632 | the same through whole grids fed one quiet stream no run of which either cuts, and once they agree they never diverge again |
| Coalescence.JoiningIsSharing | src/scheduler.rs:522-564 | a leg that hears its first PCR shares the running leg's run and clock from that packet, if that clock has neither wrapped nor re-based |
| Coalescence.ZeroDisplacementMeets | src/scheduler.rs:595-632 | two legs with no displacement place the whole next run identically |
| Gaps.CutsExactlyWhenBetrayed | src/scheduler.rs:522-564 | over anything a leg can hear, a PCR cuts the open run, which is the packets from the PCR before it on, if and only if a quiet spell lies between that the clock ran on through, or a counter has broken since and the two PCRs lie at least twice as far apart as any of the last eight runs placed was long; then all of it is cut and the stream is known from the new PCR on, and otherwise all of it is placed |
| Gaps.KnowsExactlySinceResuming | src/scheduler.rs:684-689 | over anything a leg can hear it knows exactly the slots from that of the last PCR at which it started or cut a run, up to the last PCR heard |
| Gaps.CutSlotsStayUnknown | src/scheduler.rs:684-689 | however much it hears later it never claims to know a slot before the PCR it started at or any PCR at which it cut a run |
| Gaps.KnownSlotsAgree | src/scheduler.rs:522-689 | two legs that have heard whatever parts of one source clock up to a PCR at which either starts or cuts, and then the same quiet stream, hold the same packet or none in every slot both claim to know, but for those from that PCR to the one they first place alike |
| Gaps.BetrayedStretchIsWithheld | src/scheduler.rs:522-689 | a leg that has heard a stream less a stretch its counters and its interval betray claims no slot before the PCR that betrays it, and from the slot both first place alike holds what the leg that has heard all of it holds, in every slot both claim |
| Gaps.UndisplacedCoalesceAtOnce | src/scheduler.rs:595-632 | two such legs neither of which has spilled past that PCR place alike from its own slot on |
| Missing.MissedSlotIsWithheld | src/scheduler.rs:522-689 | two grids from new that meet all of those terms: one has a PCR in each of the slots 10 to 15, the other all but that of slot 12, which the PCR of slot 13 betrays; the second claims no slot before 13, and both hold the same in 13 and 14 |
| GridQueue.BelowFrontierIsFinal | src/scheduler.rs:522-632 | no later push, take or growth ever places anything below the open slot and first free slot, so the log there is settled |
| GridQueue.DeterminedIsFinal | src/scheduler.rs:684-689 | once a leg says a range is determined, every slot of it keeps what the log holds now over every later run |
| GridQueue.PoppingTags | src/scheduler.rs:725-733 | consuming marks up to a placement leaves that placement's own time base, and says it starts there exactly when the placement before it had another |
| GridQueue.TakeRefines | src/scheduler.rs:719-746 | a take with the side queue of time bases returns, counts and leaves what a take with a tag on every packet would |
| GridQueue.RunReachable | src/scheduler.rs:415-746 | every grid any run can reach keeps placements increasing below its frontier and its queue a faithful suffix of the log with the marks that suffix needs |
| GridQueue.TakenPacketsCarryTheirTag | src/scheduler.rs:595-746 | in every run, with any late drops, evictions and cut runs, placed slots strictly increase and a packet taken carries the re-base total in force when its run's PCR arrived, marked as starting it exactly when its predecessor in the log had another |
| GridQueue.TakeIsLookup | src/scheduler.rs:719-746 | with nothing evicted and slots asked for in order, a slot yields exactly the packet the log has for it, or none |
| GridQueue.TakeSweeps | src/scheduler.rs:719-746 | a take leaves nothing queued, and nothing in the log still to leave, at or before its slot |
| GridQueue.NoLateDropFromSentSlots | src/scheduler.rs:684-746 | on the grid: while nothing queued lies before a slot below the frontier, no packet from before it leaves the queue over any later run |
| Departures.NothingOfASentSlotLeaves | src/scheduler.rs:684-746 | for every scheduler from new: once a datagram whose slots were determined has gone by, sent or withheld, no packet of those slots or any before leaves the queue over any later calls, late, evicted or otherwise; of those let out of it before, `Lateness` speaks |
| Lateness.SentSlotsLateExactlyWhenOvertaken | src/scheduler.rs:1517-1539 | after such a datagram and any later calls, the next call counts a packet of those slots late if and only if it is a datagram whose clock jumps (more than the maximum depth behind the live edge, and the rounded target ahead) while the packet waits let out but unsent; the tally it is read from has an entry for every count of `late` and every waiting packet |
| Overtaken.SentSlotsCanBeLate | src/scheduler.rs:1517-1539 | a scheduler from new that has sent slots 11 to 14 and has two packets of slots 13 and 14 waiting counts both late at the next datagram, after two more PCRs of its stream |
| Timebase.SlotNeverGoesBack | src/scheduler.rs:474-516 | for in-range PCR values, across splices and wraps with all their rounding, the next slot is at or past the open one and is the source's own once re-bases and wraps are counted |
| Timebase.GoesBackExactlyPastTheWrap | src/scheduler.rs:474-516 | for any values, in range or not, the next slot is behind the open one if and only if the step is read as a wrap and the open value had reached more slots than the new value and a whole wrap together |
| Timebase.CanGoBackPastTheWrap | src/scheduler.rs:474-516 | at 10,000,007 bit/s an open value 211 past the wrap, which an extension of 511 can give, followed by 1000 takes the grid a slot back |
| Timebase.EmittedClockFollowsSource | src/scheduler.rs:750-753 | a PCR packet's emitted clock is its source value, less a lag under (w + 1) slots' ticks plus one after w wraps and any re-bases, plus exactly the byte clock from the slot it asked for to the slot it got |
| StreamGrids.StreamGrid.constructor | src/scheduler.rs:416-440 | an empty grid, its capacity at least one |
| StreamGrids.StreamGrid.GrowTo | src/scheduler.rs:444-446 | the placement bound rises and never falls |
| StreamGrids.StreamGrid.SlotFor | src/scheduler.rs:474-516 | the in-place slot, epoch, re-base total and counts are the specified reading of the step: re-base, wrap or carry |
| StreamGrids.StreamGrid.NoteContinuity | src/scheduler.rs:639-662 | one entry of the counter array and the broken flag change, as `Continuity.NotePacket` specifies |
| StreamGrids.StreamGrid.MissedPcrs | src/scheduler.rs:671-676 | an interval is missed when at least twice the longest recent one, and never before one has been seen |
| StreamGrids.StreamGrid.CloseRun | src/scheduler.rs:595-632 | the grid after closing a run is the specified one: placements, spans, overruns, displacement; with no PCR open or nothing gathered it is left alone |
| StreamGrids.StreamGrid.Push | src/scheduler.rs:522-564 | the whole new state, and what was dropped for want of room or of a grid, are as specified |
| StreamGrids.StreamGrid.Take | src/scheduler.rs:719-746 | the loop returns the specified packet, base and late count, and leaves the specified queue |
| StreamGrids.StreamGrid.Flush | src/scheduler.rs:711-714 | the open run is discarded and counted, and nothing else changes |
| Conservation.RunConserves | src/scheduler.rs:918-1562 | every call of a run keeps it: accepted packets are those in output slots, deferred, buffered or lost to a counted cause, and output then queue is an in-order part of the input |
| Conservation.RunAccounts | src/scheduler.rs:1380-1480 | every call keeps it: packets sent are content, stuffing and inserted PCRs; under arrival clocking every slot was sent or muted and every content packet put out was sent |
| Conservation.InputIsPacketsIn | src/scheduler.rs:918-926 | what a run accepts is exactly the packets enqueued, in order, less the stuffing |
| Conservation.EverythingIsAccountedFor | src/scheduler.rs:918-1480 | both, for every scheduler from new over every run, and again once its source has ended and the open run is flushed |
| Counters.CountersAreTheWires | src/scheduler.rs:1405-1480 | over every run from new the counters are what is on the wire: packets, content, inserted PCRs and stuffing; an underrun is counted for each slot sent as stuffing though a packet was due and the input not dead; and the stuffing stripped is what came in |
| Wire.ContentIsTransparent | src/scheduler.rs:1426-1450 | a content cell of a parsed packet is that packet's own octets except the PCR field and the top bit before it, changed only where it has a PCR, and the PCR is the one given |
| Wire.PcrIsOnTheWire | src/scheduler.rs:1409-1458 | such a cell carries a PCR in the model if and only if one can be read from its octets; `Delivery.WireIsParsed` shows it of every cell of every run |
| Delivery.RunDelivers | src/scheduler.rs:1405-1480 | over every run the content among the cells sent is an in-order part of what was put in output slots, and all of it under arrival clocking |
| Delivery.WireIsParsed | src/scheduler.rs:1405-1480 | every cell any run of parsed packets sends holds a parsed packet if it holds one, and a clock only where that packet has one |
| Delivery.InputGoesThrough | src/scheduler.rs:918-1480 | over every run, octet for octet and in order, the content packets on the wire are an in-order part of the packets taken in, differing in the PCR field and the bit before it alone, and nowhere in a packet without a PCR |
| Delivery.RepetitionInOctets | src/scheduler.rs:1579-1598 | the repetition bound read from the octets: once a PCR can be read from what has gone out, one can be read from every `pcrMax` consecutive packets of every steady stretch |
| Repetition.RepetitionBound | src/scheduler.rs:1579-1598 | over every unstalled, unmuted, in-phase stretch, once a PCR has gone out, in it or however long before it, every `pcrMax` consecutive slots hold a PCR however much content waits (the repetition check in section 5.2.2 of ETSI TR 101 290) |
| Repetition.LegHoldsTheBound | src/scheduler.rs:1405-1598 | the same for every scheduler from new, in either mode, after any run with any stalls and muting in it, from the first PCR to go out, its own datagram included |
| Repetition.InPhaseLegHoldsTheBound | src/scheduler.rs:1405-1480 | in every reachable stream-clocked state being in phase implies a PCR no further back than the threshold, so the bound holds at once for as long as phase does |
| Repetition.BoundInTime | src/scheduler.rs:890 | the threshold in slots lasts at most three quarters of the configured interval plus one packet time |
| Repetition.SendingLegDoesNotJump | src/scheduler.rs:1517-1539 | a leg that sends a datagram did not jump its clock to do so, so the framing offered before it numbers the slots it holds |
| Insertions.InsertedContinues | src/scheduler.rs:1405-1474 | over every run from new, in either mode, in every slot put out: no PCR is inserted before one is accepted, and from there on each is on the PID of the first accepted, with the counter of the last content packet of that PID put out since, or zero if there is none |
| Insertions.CounterCanStartOver | src/scheduler.rs:1405-1474 | a run in which the first PCR packet is lost for want of room, and the PCR inserted for its PID has counter zero where the last content packet of that PID had another |
| Insertions.InsertedPcrsBreakNothing | src/scheduler.rs:1405-1474 | over every run of parsed packets and every stretch after it whose datagrams are all sent, a receiver that has heard anything before reads a counter as broken, from the first content packet of the clock's PID on, if and only if it would in the content alone |
| Insertions.InsertedOnlyWhenDue | src/scheduler.rs:1579-1598 | over every run from new an inserted PCR goes out no sooner than the threshold after the PCR before it, and there is one before it |
| OutputClock.LegsNumberTheStream | src/scheduler.rs:1296-1306 | whatever two legs have been through they stand on datagram boundaries of one stream, offer one sequence number exactly when a whole number of 65536 datagrams apart, and one framing exactly at one slot |
| OutputClock.SequenceIdentifies | src/scheduler.rs:1296-1306 | a sequence number identifies its datagram among 65536, and the next datagram carries the next number |
| OutputClock.WireClockRunsOn | src/scheduler.rs:1249-1287 | under arrival clocking, through any stalls, muting and late polls, the next datagram is due exactly as many datagrams after the anchor as have been asked for |
| OutputClock.DueTimesDoNotDrift | src/scheduler.rs:1601-1604 | two due times under one anchor, at any distance, differ from the exact send time by less than a nanosecond |
| OutputClock.ReleasesOnlyWhatIsDue | src/scheduler.rs:1405-1408 | a datagram under arrival clocking never releases past what the media clock said was due |
| OutputClock.LagIsBounded | src/scheduler.rs:1517-1539 | a stream-clocked leg opens no datagram further behind its live edge than the buffer may be deep or its release latency and one datagram; the clock only jumps forwards, and only from further back than that depth |
| OutputClock.StreamClockDoesNotDrift | src/scheduler.rs:750-753 | the clocks of two slots on one time base, at any distance, are apart by the exact time of the slots between, modulo the wrap, to within a tick |
| StreamClocks.WireClocksAreTheGrids | src/scheduler.rs:1405-1474 | over every stream-clocked run, through any stalls, muting, jumps, losses and re-bases, the clocks on the wire, content's and inserted, are in increasing slots, each its own slot's on the time base of a packet placed there or before, which lies at or behind that slot |
| StreamClocks.StreamClockIsLocked | src/scheduler.rs:1405-1474 | so any two of them on one time base, anywhere in a run, are apart by the exact time of the slots between, modulo the wrap, to within a tick |
| StreamContents.SlotsCarryThePlaced | src/scheduler.rs:1405-1474 | over every stream-clocked run from new, in every slot put out: content is a packet placed there or before, each in its order and once, with the clock of the slot on the time base it was placed on, marked exactly if the packet placed before it is on another; an inserted PCR is the slot's clock on the base of the last content PCR; all else is stuffing |
| OutputClock.ArrivalClockIsLocked | src/pcr.rs:153-214 | over every arrival-clocked run, through any stalls and muting, every clock sent since the last re-base, on content or inserted, is that anchor's value and the exact byte clock to its slot |
| SourceClocks.WireFollowsTheSource | src/pcr.rs:153-187 | over every arrival-clocked run of parsed packets, read from the octets: a content PCR that is the first, or whose source clock is declared, repeated or over five seconds on, starts the clock afresh, marked unless it is the first; every PCR carries the source value of the last such start and the byte clock from its slot, modulo the wrap; without a stall timeout nothing else is marked |
| SourceClocks.StartCarriesTheSource | src/pcr.rs:171-184 | and at a start that is exactly the source value modulo the wrap |
| Stalls.StalledCarrierIsBare | src/scheduler.rs:1392-1480 | a stalled input leaves a bare carrier: no content, no inserted PCR, no underrun counted; under stream clocking nothing is sent and the leg is out of phase |
| Stalls.ReturnIsMarked | src/scheduler.rs:1164-1193 | after a stall under arrival clocking, whatever happens next, the first content PCR to go out carries the discontinuity indicator |
| Phases.SendsExactlyInPhase | src/scheduler.rs:1380-1480 | over every stream-clocked run from new a datagram is sent if and only if the leg knows all its slots, has not just jumped and is in phase: since some datagram it knew, in which a content PCR went out with nothing having waited ahead of it, there has been no jump, no muting and no datagram it did not know |
| Timing.StallsExactlyWhenSilent | src/scheduler.rs:1196-1222 | over every run from new, in either mode, a datagram finds the input dead if and only if the output has started, nothing is waiting and content was last accepted at least the timeout before |
| Timing.StateIsExact | src/scheduler.rs:1196-1222 | over every run the state reported is priming until content has been accepted and the start has passed, starved when nothing waits and a target has passed since, stalled when the timeout has, and live otherwise |
| Timing.LegFollowsExactlyWhenAccounted | src/scheduler.rs:474-564 | over every stream-clocked run from new, a leg on its source's clock keeps to it across an undeclared step under half a wrap if and only if the step is short, or at most twice the time since it last accepted a PCR, or once its output has started leads to a slot ahead that its buffer may hold, without a wrap; otherwise it re-bases |
| Timing.StartsALatencyBack | src/scheduler.rs:918-997 | until its first datagram each packet accepted moves the start of a stream-clocked leg to the datagram boundary a release latency back from the live edge, or that of the oldest packet held if later, due a target after its first placed content was accepted |
| Timing.JumpsALatencyBack | src/scheduler.rs:1517-1539 | the clock jumps if and only if the leg is further behind its live edge than its buffer may be deep and a release latency back lies a whole datagram or more ahead; it lands on the boundary there, due at once, with what waited counted late and nothing else of the emission state lost but phase |
| Timing.DueTimesCountFromTheFirstContent | src/scheduler.rs:1284-1287 | over every arrival-clocked run from new, the next datagram is due a target after the first content was accepted and the send time of all the datagrams asked for, before it or since |
| Timing.DatagramIsFramedByItsSlots | src/scheduler.rs:1296-1306 | a datagram sent is framed by the slot its first cell is put in, the others following in the slots after, and slot zero has the seed |
| Timing.TimestampsKeepTime | src/scheduler.rs:1296-1306 | two timestamps, at any distance, are apart by the time of the slots between on a 90 kHz clock, modulo 32 bits, to within a tick |
| TwoLegs.SlotsArePure | src/scheduler.rs:1405-1474 | slots a leg knows are filled from the placement log and its emission state alone, whatever the times, depths, queue history and earlier losses |
| TwoLegs.LegIsPure | src/scheduler.rs:1380-1480 | the k-th datagram of a leg that stays in phase is a function of the log and of the emission state it started from |
| TwoLegs.TwoLegsAgree | src/scheduler.rs:1380-1480 | from equal emission states on one boundary, two legs that hold all they placed from there on and then lose nothing send equal k-th datagrams (slot, sequence, timestamp, cells) for as long as they stay in phase and their logs agree on the slots sent, for all timings, depths and losses before the boundary |
| TwoLegs.PhasingForgetsHistory | src/scheduler.rs:1418-1425 | a leg comes into phase in a slot if and only if a PCR goes out in its own slot with nothing queued ahead, and is then in a state that is the packet's and not its own |
| TwoLegs.PartnersMeetExactlyWhenNothingWaits | src/scheduler.rs:1418-1425 | a leg phasing on a PCR takes its partner's emission state if and only if the partner has nothing deferred ahead of that PCR |
| TwoLegs.PhasedTogetherEndEqual | src/scheduler.rs:1405-1474 | two legs phasing on the same PCR of a datagram end it in equal emission states, whatever each had done before |
| TwoLegs.KnownDatagramIsPure | src/scheduler.rs:1380-1480 | a determined datagram moves the emission state of a leg that holds its slots as the log says, sent or withheld |
| TwoLegs.RunLeg | src/scheduler.rs:918-1480 | every reachable stream-clocked scheduler has a grid a run can reach and a regenerator without history |
| TwoLegs.WholeExactlyPastLosses | src/scheduler.rs:612-625 | in every reachable state the queue holds all that was placed at or past the next slot if and only if that slot is past the last one a packet was lost of for want of room |
| Apart.LegsInPhaseCanDisagree | src/scheduler.rs:817-829 | two schedulers from new, given the same parsed packets of one quiet stream and differing in their latency alone, are both in phase and in service at one slot and send different packets in it |
| Pair.InServiceLegsAgree | README.md:311-324 | the agreement for any two reachable legs standing in service on one boundary in one state, whatever they lost before it |
| Pair.PlacementsAreTheStreams | README.md:311-314 | the placements of a leg fed a quiet stream are those of the packets alone, whatever calls came between them |
| Pair.OneStreamOneTransport | README.md:311-324 | two pacers on one quiet stream, each given as much of it as has reached it, at any times and depths, send equal datagrams from any boundary where they stand in the same phase |
| Meetings.MeetingEndsEqual | src/scheduler.rs:1405-1474 | two reachable legs that know one datagram and meet in it one PCR with nothing waiting ahead of it leave it in one emission state, whatever state each was in |
| Meetings.LegsThatMeetAgree | src/scheduler.rs:1380-1480 | and send equal datagrams ever after, while they stay in phase and their placements agree |
| Meetings.MeetingOnOneStream | README.md:311-324 | two pacers on one quiet stream, each given as much of it as has reached it, that meet so send one transport from there on |
| Meetings.LateJoinerSendsTheSame | README.md:311-324 | a pacer that has a stream only from one of its PCRs on, once some packet would go to the same slot for both and the two have met so, sends what the running one sends ever after, however much of the stream has reached either |
| Joining.JoinerMeetsRunner | README.md:311-324 | two schedulers from new that meet all of those terms: one starts in slot 10, the other has only what came from slot 14 on and is out of phase until they meet in slot 16; both send slot 17, and alike |
| Drain.StreamDrains | src/pacer.rs:144-147 | after the source ends a stream-clocked leg has nothing pending within a number of datagrams computed from its last placed slot and what waits |
| Drain.EveryStreamLegDrains | src/pacer.rs:144-147 | the same from every run of every configuration, for every re-insertion threshold |
| Drain.ArrivalDrains | src/pacer.rs:144-147 | an arrival-clocked leg empties where the threshold is over one slot, or PCRs are preserved, or no packet without a PCR waits behind one: after any closing datagrams, with anything due, a computed number that find all it holds due are enough |
| Drain.NeverDrains | src/scheduler.rs:1579-1598 | otherwise it never does, however many datagrams are asked for, at whatever times and with whatever due |
| Drain.DrainsExactlyWhenClear | src/pacer.rs:144-147 | so for every arrival-clocked scheduler from new over every run, and any closing datagrams before all it holds comes due, it empties if and only if that condition holds |
| Pacing.DrainsOnItsOwnClock | src/pacer.rs:144-147 | the same with nothing assumed of what is due: asked on its own media clock at any instants, and then often enough at instants by which the slowest release has earned what it holds, it empties if and only if that condition holds |
| Pacing.ReleasedIsBounded | src/scheduler.rs:310-334 | over every run of an arrival-clocked scheduler on its own clock, packets released since the clock was anchored are at most one more than 1.05 times the carrier's rate over the time it has run |
| Pacing.RunIsCalls | src/scheduler.rs:1405-1408 | a scheduler on its own clock goes through a run of the scheduler, so every theorem over any due holds of it |
| Cushions.EstimateFollowsTheInput | src/scheduler.rs:204-282 | over every run of an arrival-clocked scheduler on its own clock, while what it has accepted since the last stall carries from low to high packets a second between PCRs, its estimate is from low to high, once a sample has ended and if the carrier can hold it |
| Cushions.ReleaseStartsATargetOn | src/scheduler.rs:1097-1193 | over every such run anything is due if and only if a target has passed since the first content was accepted, or that which ended the last stall |
| Cushions.ReleasesTowardsItsTarget | src/scheduler.rs:1405-1408 | between two ticks it earns more than the estimate says exactly when more is buffered than the estimate delivers in a target, less exactly when less is, and a twentieth less when nothing is |
| Drain.TwoPacketsNeverDrain | src/scheduler.rs:1579-1598 | a PCR-bearing packet and a plain one behind it are enough for it to fail at a threshold of one, whatever is asked of the leg then |
| Schedulers.Scheduler.constructor | src/scheduler.rs:863-909 | a new scheduler: a grid under stream clocking, a buffer otherwise, nothing sent, its media clock at the carrier's rate |
| Schedulers.Scheduler.Enqueue | src/scheduler.rs:918-997 | the whole new state is the specified one: stuffing stripped, a stall ended, the start moved or the clocks armed, the packet on the grid or in the buffer, the media clock as `Pacing` has it |
| Schedulers.Scheduler.Arm | src/scheduler.rs:1097-1121 | with pinned depths, both clocks start a release latency on, once |
| Schedulers.Scheduler.Resume | src/scheduler.rs:1164-1193 | a stall ends: under arrival clocking the media clock restarts and a flag is pending, under stream clocking neither |
| Schedulers.Scheduler.EmitDatagram | src/scheduler.rs:1380-1480 | the loop over slots leaves exactly the specified state and scratch buffer, empty when the datagram is withheld, for what the media clock ticked to now says is due, and the clock as `Pacing` has it |
| Schedulers.Scheduler.Admit | src/scheduler.rs:1493-1500 | at most one packet moves into the emission queue, and the answer says whether one did |
| Schedulers.Scheduler.NextContent | src/scheduler.rs:1547-1562 | stream clocking gives the packet that belongs in the slot and counts the late ones, arrival clocking the oldest if one is wanted |
| Schedulers.Scheduler.ReinsertPcr | src/scheduler.rs:1579-1598 | a PCR is due exactly when the specified rule says, with the clock of its slot |
| Schedulers.Scheduler.CatchUp | src/scheduler.rs:1517-1539 | the clock moves to the live edge as specified, deferred content counted late |
| Schedulers.Scheduler.SourceStateAt | src/scheduler.rs:1196-1222 | priming, live, starved or stalled as specified |
| Schedulers.Scheduler.AdvanceMuted | src/scheduler.rs:1249-1255 | a datagram's slots pass unsent, counted as muted, and phase is lost |
| Schedulers.Scheduler.Flush | src/scheduler.rs:1150-1154 | the held-back run is given up under stream clocking, and nothing happens otherwise |
| Schedulers.Scheduler.Framing | src/scheduler.rs:1296-1306 | the framing is that of the slot under stream clocking, and there is none otherwise |
| Schedulers.Scheduler.NextDue | src/scheduler.rs:1284-1287 | the due time is the anchor plus the send time of the slots since |
| MediaClocks.RateIsMediant | src/scheduler.rs:204-282 | over any run and any decays the candidate rate lies between the least and greatest sample since the last reset, and is exact on a constant-rate stream; so does the rate where the carrier can hold it |
| RateSamples.SamplesAreMeasured | src/scheduler.rs:204-282 | over every run each sample is the packets counted from the PCR that began it to the one that ended it, by the time between them; the samples follow on one another from the first PCR on, each with just enough time to be one, and only an interval over which source time cannot be believed to have passed counts for nothing |
| RateSamples.RateFollowsTheSource | src/scheduler.rs:204-282 | so while the source carries from low to high packets a second between one PCR and the next, the recovered rate is from low to high once a sample has ended, if the carrier can hold it |
| RateSamples.RateIsExact | src/scheduler.rs:204-282 | with n packets from each PCR to the next and one time between them the rate is exactly n by that time, once they have gone on for long enough for a sample |
| MediaClocks.OnlySamplesMoveTheRate | src/scheduler.rs:204-334 | nothing but a finished sample moves the rate |
| MediaClocks.StoppedClockIsSeen | src/scheduler.rs:204-282 | over every run a clock not judged stopped has the rate of its samples, once there are any, and one is judged stopped that has more than a second of carriage counted and no sample |
| MediaClocks.ServoPullsToTarget | src/scheduler.rs:328-334 | the release rate is over the estimate exactly when more than the target is held and under it exactly when less is, by a twentieth at nothing or twice the target and in proportion between |
| MediaClocks.OnTargetIsExact | src/scheduler.rs:310-324 | held on target, or without one, what is due is one more than the whole packets of the rate over the time since the anchor, however often it is asked |
| MediaClocks.ReleaseIsBounded | src/scheduler.rs:204-334 | the rate never exceeds the carrier's, and packets released never exceed one plus 1.05 times the carrier's rate over the time since the anchor |
| MediaClocks.MediaClock.Observe | src/scheduler.rs:204-282 | the clock after a packet is the specified one: samples counted, folded, or held back as too short |
| MediaClocks.MediaClock.constructor | src/scheduler.rs:163-187 | a clock releasing at the carrier's rate until it has an estimate |
| MediaClocks.MediaClock.Due | src/scheduler.rs:310-324 | credit accrues at the trimmed rate for the time since the last tick, and the count due is one more than its floor |
| MediaClocks.MediaClock.ReleaseRate | src/scheduler.rs:328-334 | the rate is the estimate trimmed by the clamped relative error |
| MediaClocks.MediaClock.Resume | src/scheduler.rs:1180-1192 | every sample and all credit is forgotten, and release starts again at the new anchor |
| ArrivalProfiles.LeadIsBoundedByBurstiness | src/arrival.rs:135-186 | if no window of arrivals runs ahead of real time by more than sigma packets of media, the lead never reads more than that |
| ArrivalProfiles.PeakMissesAtMostOnePacket | src/arrival.rs:135-186 | within the open cycle no window runs ahead by more than the peak and one packet's media, and the peak is itself some window's excess |
| ArrivalProfiles.OpenCycleIsExact | src/arrival.rs:135-155 | over any arrivals at one rate the open cycle began at the arrival by which the input last came level with real time, its peak is exactly the furthest it has run ahead since then, and a cycle is closed exactly when it comes level |
| ArrivalProfiles.LeadRemembersEightCycles | src/arrival.rs:135-186 | over any arrivals the lead is the greatest of the open cycle's peak and those of the last eight cycles closed, or nothing |
| ArrivalProfiles.BurstsAreBetweenSilences | src/arrival.rs:167-176 | over any arrivals the open burst is those since the last silence of over a millisecond, the bursts counted those before it, and the longest is the longest of those |
| ArrivalProfiles.ArrivalProfile.Observe | src/arrival.rs:135-155 | the profile after an arrival is the specified one: burst grouped, cycle closed at level or its peak raised |
| ArrivalProfiles.ArrivalProfile.CloseCycle | src/arrival.rs:158-163 | the peak is banked in the ring, the oldest overwritten |
| ArrivalProfiles.ArrivalProfile.GroupBurst | src/arrival.rs:167-176 | a burst closes after a silence of over a millisecond, keeping the largest |
| ArrivalProfiles.ArrivalProfile.Lead | src/arrival.rs:184-186 | the loop finds the greatest of the open peak and the eight remembered |
| ArrivalProfiles.ArrivalProfile.constructor | src/arrival.rs:113-126 | an empty profile |
| JitterBuffers.HoldsTheNewest | src/jitter_buffer.rs:43-52 | a buffer fed without being popped holds the newest packets, as many as fit, in order |
| JitterBuffers.JitterBuffer.constructor | src/jitter_buffer.rs:23-28 | an empty buffer, its capacity at least one |
| JitterBuffers.JitterBuffer.Push | src/jitter_buffer.rs:43-52 | the packet joins the back, the oldest making way when full, and the answer says so |
| JitterBuffers.JitterBuffer.Pop | src/jitter_buffer.rs:55-57 | the oldest packet leaves, if any |
| JitterBuffers.JitterBuffer.GrowTo | src/jitter_buffer.rs:37-39 | the capacity rises and never falls |
| JitterBuffers.JitterBuffer.Room | src/jitter_buffer.rs:70-72 | occupancy and room make up the capacity, and past it there is none |
| Resync.ScanResumes | src/pacer.rs:433-451 | scanning a stretch, then its leftover with more behind it, is scanning the whole |
| Resync.ScanShape | src/pacer.rs:433-451 | every packet found is 188 octets starting with the sync byte, and less than a packet is kept, the tail of the input |
| Resync.ScanMissesNothing | src/pacer.rs:433-451 | nothing is passed over in which a packet could have started: the input is the packets, what stood between them without a sync byte in it, and the part kept |
| Resync.AlignedIsFound | src/pacer.rs:433-451 | a stream of whole packets is found whole, with nothing kept |
| Resync.Splitter.SplitPackets | src/pacer.rs:433-451 | the draining loop yields the packets of one scan of buffer and data, and keeps its tail |
| Resync.SplittingIsChunkIndependent | src/pacer.rs:433-451 | for every byte string and every way of cutting it into pushes, packets and leftover are those of one scan |
| Resync.ReadSource.Fill | src/source.rs:71-77 | reads of any sizes fill the buffer without losing or reordering an octet, stopping only when full or at the end |
| Resync.ReadSource.Recv | src/source.rs:69-88 | the in-place shifting reader yields the next packet of the scan of all that is ahead, and none exactly when that scan has no more |

## Left out

- The driver loop of `src/pacer.rs` with its timers, channels, auto-rate warm-up and health watch: only `split_packets` and the closing condition are modelled.
- `src/output.rs`, `src/main.rs`, `src/observe.rs`, the examples and the compliance scripts: sinks, interface and reporting.
- `src/config.rs`, `src/error.rs`, `src/stats.rs`, `src/estimate.rs`: their constants and derived depths are parameters of `SchedulerSpec.Config`.
- Aligned starts (`align_start`, `arrived_sooner`) and the adaptive depths and start gate (`resize`, the deadline branch of `arm`, `poll_start`, `start_now`): depths are pinned, and a stream-clocked start is the unaligned one. `GrowTo` is modelled on the grid and the buffer, not called by the scheduler.
- `f64` rounding, `Duration` clamping and overflow of 64-bit counters: reals and unbounded integers stand for them. The one unsigned wrap that can occur, in `forward_delta` on a value decoded past the wrap, is modelled.
- Counters that only report (`intervals`, `pcrs_seen`, high-water marks of the buffer, gap lengths, stall counts, start backlog) and the scheduler's use of `ArrivalProfile`, which under pinned depths only feeds them.
- The scheduler's scratch buffer holds cells, not octets; `Wire.Render` says what the octets are, and `PcrRegen` is the class that rewrites them in place. Inside the scheduler the regenerator is kept as a value.
- The media clock's convergence to the target depth, which depends on the input.
- Schedulers.Scheduler.constructor: takes the depths as given, with no adaptive latency or alignment to derive them from.
- Schedulers.Scheduler.Enqueue: takes the decay factor of a finished rate sample as a parameter, since `exp` is not modelled, and leaves out adaptive resizing, alignment, the arrival profile and the reporting counters.
- Schedulers.Scheduler.Arm: is the branch for pinned depths; the deadline of an adaptive start is not modelled.
- Schedulers.Scheduler.EmitDatagram: fills the scratch buffer with cells instead of octets, leaves out the counts of stalls and re-bases and the gap length, and returns what the media clock said was due, so that the specification can speak of it.
- Schedulers.Scheduler.AdvanceMuted: leaves out the stall count and gap length `observe_state` keeps for reports.
- MediaClocks.MediaClock.Observe: leaves out the counters of intervals and PCRs seen, which only report.
- GridQueue.BelowFrontierIsFinal: is about a source still alive; `flush`, which ends it, comes after every call it quantifies over.
- Displacement.HighWaterIsWorstWindow: is likewise about runs before `flush`; a push after one closes an empty run, which the code leaves without trace.
- Timebase.EmittedClockFollowsSource: is for PCR values below the wrap; the 9-bit extension is not range checked by the code, and a value past the wrap has no place on the source's clock.
- Paths.PlacementIsPathIndependent: needs every PCR step quiet, as `Paths.ArrivalIsIrrelevantExactlyWhenQuiet` shows it must: a declared or long step is judged by the leg's own silence.
- Coalescence.JoiningIsSharing: needs the running leg's clock to have neither wrapped nor been re-based, since a late leg cannot know of either; this is the limit the comment on `slot_for` states.
- TwoLegs.TwoLegsAgree: needs nothing evicted by the capacity bound after the boundary and equal emission states at it; `Meetings.MeetingEndsEqual` says when phasing gives the second.
- Meetings.LateJoinerSendsTheSame: is about a late leg whose first packet carries a PCR, and supposes that neither leg cuts a run of the stream from there; `Gaps.BetrayedStretchIsWithheld` is about legs that do.
- Gaps.CutSlotsStayUnknown: is for PCR values below the wrap, past which the grid can step back (`Timebase.GoesBackExactlyPastTheWrap`).
- Gaps.BetrayedStretchIsWithheld: is about two legs on one source clock that joined it within one wrap, and PCR values below the wrap; it says nothing of the slots from the PCR that betrays the loss to the first they place alike, which displacement left over from before it can hold apart.
- Insertions.InsertedPcrsBreakNothing: is about stretches whose datagrams are all sent, as they are under arrival clocking; across a withheld datagram content is missing from the wire too, and it is the partner that fills it in.
- SourceClocks.WireFollowsTheSource: says that nothing else is marked only where there is no stall timeout; after a stall one more PCR is (`Stalls.ReturnIsMarked`).
- Drain.ArrivalDrains: supposes the last datagrams find what is buffered due; `Pacing.DrainsOnItsOwnClock` replaces that by time enough on the media clock.
- Drain.DrainsExactlyWhenClear: supposes the same; that the leg never empties when the condition fails needs no such thing (`Drain.NeverDrains`).
- Pacing.DrainsOnItsOwnClock: asks for instants by which the slowest release, 0.95 of the rate in force, has earned all that is held; with the rate at which a clock starts or the one it has recovered.
