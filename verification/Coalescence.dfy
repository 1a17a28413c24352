/** A leg that joins late lands on the running one's placements (src/scheduler.rs,
    `close_run`), and exactly when. */
module Coalescence {
  import opened Prelude
  import opened Packets
  import opened SlotMaps
  import opened GridSpec
  import Displacement
  import Paths

  // ---- Placements as one chain ----

  /** The first free slot before placement `k`. */
  function FreeAt(placed: seq<Placement>, free: nat, k: nat): nat
    requires k <= |placed|
  {
    if k == 0 then free else placed[k - 1].slot + 1
  }

  /** Each packet is in its ideal slot or the first free one. */
  ghost predicate Chained(placed: seq<Placement>, free: nat) {
    forall k | 0 <= k < |placed| :: placed[k].slot == Max(placed[k].ideal, FreeAt(placed, free, k))
  }

  /** The same packets, wanted in the same slots on the same bases. */
  ghost predicate Alike(a: seq<Placement>, b: seq<Placement>) {
    |a| == |b| && forall k | 0 <= k < |a| :: a[k].(slot := 0) == b[k].(slot := 0)
  }

  /** Packet `k`'s ideal slot is at or past both legs' first free ones. */
  predicate Meets(a: seq<Placement>, b: seq<Placement>, freeA: nat, freeB: nat, k: nat)
    requires k < |a| == |b|
  {
    a[k].ideal >= FreeAt(a, freeA, k) && a[k].ideal >= FreeAt(b, freeB, k)
  }

  ghost predicate Met(a: seq<Placement>, b: seq<Placement>, freeA: nat, freeB: nat, k: nat)
    requires k < |a| == |b|
  {
    exists j | 0 <= j <= k :: Meets(a, b, freeA, freeB, j)
  }

  lemma AgreeStep(a: seq<Placement>, b: seq<Placement>, freeA: nat, freeB: nat, k: nat)
    requires Alike(a, b) && Chained(a, freeA) && Chained(b, freeB)
    requires k < |a|
    ensures a[k].slot == b[k].slot <==>
      FreeAt(a, freeA, k) == FreeAt(b, freeB, k) || Meets(a, b, freeA, freeB, k)
  {
    assert a[k].(slot := 0) == b[k].(slot := 0);
  }

  lemma {:induction false} SlotsAgreeOnceMet(a: seq<Placement>, b: seq<Placement>, freeA: nat, freeB: nat, k: nat)
    requires Alike(a, b) && Chained(a, freeA) && Chained(b, freeB)
    requires k < |a|
    ensures a[k].slot == b[k].slot <==> freeA == freeB || Met(a, b, freeA, freeB, k)
  {
    hide Chained, Meets, Met;
    MetStep(a, b, freeA, freeB, k);
    AgreeStep(a, b, freeA, freeB, k);
    if k > 0 {
      SlotsAgreeOnceMet(a, b, freeA, freeB, k - 1);
    }
  }

  /** Two legs placing the same packets agree on packet `k` exactly when their next
      free slots agreed to begin with or some packet up to `k` has met both; so from
      the first such packet on they never part. */
  lemma AgreeExactlyOnceMet(a: seq<Placement>, b: seq<Placement>, freeA: nat, freeB: nat, k: nat)
    requires Alike(a, b) && Chained(a, freeA) && Chained(b, freeB)
    requires k < |a|
    ensures a[k] == b[k] <==> freeA == freeB || Met(a, b, freeA, freeB, k)
  {
    SlotsAgreeOnceMet(a, b, freeA, freeB, k);
    assert a[k].(slot := 0) == b[k].(slot := 0);
    hide Met, Chained;
  }

  lemma MetStep(a: seq<Placement>, b: seq<Placement>, freeA: nat, freeB: nat, k: nat)
    requires k < |a| == |b|
    ensures Met(a, b, freeA, freeB, k) <==>
      Meets(a, b, freeA, freeB, k) || (k > 0 && Met(a, b, freeA, freeB, k - 1))
  {
    hide Meets;
  }

  lemma ChainedJoin(x: seq<Placement>, y: seq<Placement>, free: nat)
    requires Chained(x, free) && Chained(y, FreeAt(x, free, |x|))
    ensures Chained(x + y, free)
    ensures FreeAt(x + y, free, |x + y|) == FreeAt(y, FreeAt(x, free, |x|), |y|)
  {
    var z := x + y;
    var mid := FreeAt(x, free, |x|);
    forall k | 0 <= k < |z|
      ensures z[k].slot == Max(z[k].ideal, FreeAt(z, free, k))
    {
      JoinAt(x, y, free, k);
      assert if k < |x| then z[k] == x[k] else z[k] == y[k - |x|];
    }
    JoinAt(x, y, free, |z|);
  }

  lemma JoinAt(x: seq<Placement>, y: seq<Placement>, free: nat, k: nat)
    requires k <= |x| + |y|
    ensures FreeAt(x + y, free, k)
         == if k < |x| then FreeAt(x, free, k) else FreeAt(y, FreeAt(x, free, |x|), k - |x|)
  {
  }

  lemma {:induction false} SpreadChained(run: seq<Packet>, index: nat, open: nat, span: nat, free: nat, base: int,
      wraps: nat)
    requires index <= |run|
    ensures Chained(Spread(run, index, open, span, free, base, wraps), free)
    decreases |run| - index
  {
    hide Ideal;
    if index == |run| {
    } else {
      var slot := Max(Ideal(open, span, |run|, index), free);
      var first := [Spread(run, index, open, span, free, base, wraps)[0]];
      SpreadChained(run, index + 1, open, span, slot + 1, base, wraps);
      ChainedJoin(first, Spread(run, index + 1, open, span, slot + 1, base, wraps), free);
    }
  }

  lemma {:induction false} SpreadAlike(run: seq<Packet>, index: nat, open: nat, span: nat, freeA: nat, freeB: nat,
      base: int, wraps: nat)
    requires index <= |run|
    ensures Alike(Spread(run, index, open, span, freeA, base, wraps),
                  Spread(run, index, open, span, freeB, base, wraps))
    decreases |run| - index
  {
    hide Ideal;
    if index == |run| {
    } else {
      var ideal := Ideal(open, span, |run|, index);
      var a, b := Spread(run, index, open, span, freeA, base, wraps), Spread(run, index, open, span, freeB, base,
          wraps);
      var restA := Spread(run, index + 1, open, span, Max(ideal, freeA) + 1, base, wraps);
      var restB := Spread(run, index + 1, open, span, Max(ideal, freeB) + 1, base, wraps);
      SpreadAlike(run, index + 1, open, span, Max(ideal, freeA) + 1, Max(ideal, freeB) + 1, base, wraps);
      forall k | 0 < k < |a|
        ensures a[k].(slot := 0) == b[k].(slot := 0)
      {
        assert a[k] == restA[k - 1] && b[k] == restB[k - 1];
      }
    }
  }

  // ---- Two legs on one stream ----

  /** Two legs on the same run of the same clock. What they placed before, how far they
      spilled, what they remember of cadences and counters may all differ. */
  predicate Shared(a: Core, b: Core) {
    && a.rateMap == b.rateMap && a.clock == b.clock && a.clock.open.Some?
    && a.run == b.run && a.run != [] && a.openBase == b.openBase && a.openWraps == b.openWraps
  }

  /** No counter breaks for this leg anywhere in `packets`, so nothing is missing. */
  predicate Unbroken(c: Core, packets: seq<Packet>)
    decreases |packets|
  {
    packets == [] ||
    (!c.Noted(packets[0]).runBroken && Unbroken(c.Push(packets[0], Arrival(0, None)), packets[1..]))
  }

  /** No run is cut for this leg anywhere in `packets`: it places every one it ends. */
  predicate Uncut(c: Core, packets: seq<Packet>) {
    Paths.Fed(c, packets).cut == c.cut
  }

  lemma PushCuts(c: Core, p: Packet, at: Arrival)
    ensures c.Push(p, at).cut >= c.cut
  {
    hide SlotFor, Core.Misses, Spread;
  }

  lemma {:induction false} FeedCuts(c: Core, packets: seq<Packet>)
    ensures Paths.Fed(c, packets).cut >= c.cut
    decreases |packets|
  {
    hide Core.Push;
    if packets == [] {
    } else {
      PushCuts(c, packets[0], Arrival(0, None));
      FeedCuts(c.Push(packets[0], Arrival(0, None)), packets[1..]);
    }
  }

  lemma UncutNext(c: Core, packets: seq<Packet>)
    requires Uncut(c, packets) && packets != []
    ensures
      var c' := c.Push(packets[0], Arrival(0, None));
      c'.cut == c.cut && Uncut(c', packets[1..])
  {
    hide Core.Push;
    PushCuts(c, packets[0], Arrival(0, None));
    FeedCuts(c.Push(packets[0], Arrival(0, None)), packets[1..]);
  }

  predicate QuietNext(c: Core, p: Packet) {
    p.pcr.Some? && c.clock.open.Some? ==> Paths.Quiet(c.clock.open.value.pcr, p.pcr.value, p.declared)
  }

  function Added(before: Core, after: Core): seq<Placement> {
    if |before.log| <= |after.log| then after.NewSince(before) else []
  }

  lemma ClosesChained(c: Core, open: nat, next: nat)
    ensures
      var after := c.CloseRun(open, next);
      && after.log == c.log + Added(c, after)
      && Chained(Added(c, after), c.nextFree)
      && after.nextFree == FreeAt(Added(c, after), c.nextFree, |Added(c, after)|)
      && after.run == []
  {
    if c.run != [] {
      SpreadChained(c.run, 0, open, SatSub(next, open), c.nextFree, c.openBase, c.openWraps);
      assert Added(c, c.CloseRun(open, next))
          == Spread(c.run, 0, open, SatSub(next, open), c.nextFree, c.openBase, c.openWraps);
    }
  }

  lemma ClosesAlike(a: Core, b: Core, open: nat, next: nat)
    requires a.run == b.run && a.openBase == b.openBase && a.openWraps == b.openWraps
    ensures Alike(Added(a, a.CloseRun(open, next)), Added(b, b.CloseRun(open, next)))
  {
    if a.run != [] {
      SpreadAlike(a.run, 0, open, SatSub(next, open), a.nextFree, b.nextFree, a.openBase, a.openWraps);
      assert Added(a, a.CloseRun(open, next))
          == Spread(a.run, 0, open, SatSub(next, open), a.nextFree, a.openBase, a.openWraps);
      assert Added(b, b.CloseRun(open, next))
          == Spread(b.run, 0, open, SatSub(next, open), b.nextFree, b.openBase, b.openWraps);
    }
  }

  /** A step that cuts nothing closes the open run. */
  lemma UncutCloses(c: Core, p: Packet)
    requires p.pcr.Some? && c.clock.open.Some? && c.run != [] && c.Push(p, Arrival(0, None)).cut == c.cut
    ensures
      var aim := c.Noted(p).Aims(p, Arrival(0, None));
      c.Noted(p).EndRun(aim) == c.Noted(p).CloseRun(c.clock.open.value.slot, aim.slot)
  {
    hide Core.CloseRun, SlotFor, Core.Misses;
  }

  /** On a quiet step at which no counter has broken nothing is cut. */
  lemma QuietUnbrokenCuts(c: Core, p: Packet)
    requires QuietNext(c, p) && !c.Noted(p).runBroken
    ensures c.Push(p, Arrival(0, None)).cut == c.cut
  {
    hide Core.CloseRun, Applied;
    if p.pcr.Some? && c.clock.open.Some? {
      CloseKeepsCut(c.Noted(p), c.clock.open.value.slot, c.Noted(p).Aims(p, Arrival(0, None)).slot);
    }
  }

  lemma CloseKeepsCut(c: Core, open: nat, next: nat)
    ensures c.CloseRun(open, next).cut == c.cut
  {
  }

  lemma {:induction false} UnbrokenIsUncut(c: Core, packets: seq<Packet>)
    requires Unbroken(c, packets) && Paths.QuietStream(Paths.OpenPcr(c), packets)
    ensures Uncut(c, packets)
    decreases |packets|
  {
    hide Core.Push, Paths.Quiet;
    if packets == [] {
    } else {
      QuietUnbrokenCuts(c, packets[0]);
      Paths.QuietPush(c, packets[0], Arrival(0, None));
      UnbrokenIsUncut(c.Push(packets[0], Arrival(0, None)), packets[1..]);
    }
  }

  ghost predicate StepsTogether(a: Core, b: Core, a': Core, b': Core) {
    && Shared(a', b')
    && a'.log == a.log + Added(a, a') && b'.log == b.log + Added(b, b')
    && Alike(Added(a, a'), Added(b, b'))
    && Chained(Added(a, a'), a.nextFree) && Chained(Added(b, b'), b.nextFree)
    && a'.nextFree == FreeAt(Added(a, a'), a.nextFree, |Added(a, a')|)
    && b'.nextFree == FreeAt(Added(b, b'), b.nextFree, |Added(b, b')|)
  }

  lemma PlainTogether(a: Core, b: Core, p: Packet)
    requires Shared(a, b) && p.pcr.None?
    ensures StepsTogether(a, b, a.Push(p, Arrival(0, None)), b.Push(p, Arrival(0, None)))
  {
  }

  lemma PushTogether(a: Core, b: Core, p: Packet)
    requires Shared(a, b)
    requires a.Push(p, Arrival(0, None)).cut == a.cut && b.Push(p, Arrival(0, None)).cut == b.cut
    ensures StepsTogether(a, b, a.Push(p, Arrival(0, None)), b.Push(p, Arrival(0, None)))
  {
    if p.pcr.None? {
      PlainTogether(a, b, p);
    } else {
      UncutCloses(a, p);
      UncutCloses(b, p);
      var na, nb := a.Noted(p), b.Noted(p);
      var aim := na.Aims(p, Arrival(0, None));
      var open, next := a.clock.open.value.slot, aim.slot;
      ClosesChained(na, open, next);
      ClosesChained(nb, open, next);
      ClosesAlike(na, nb, open, next);
      ClosedTogether(a, b, na, nb, na.CloseRun(open, next), nb.CloseRun(open, next), aim, p);
    }
  }

  lemma ClosedTogether(a: Core, b: Core, na: Core, nb: Core, ca: Core, cb: Core, aim: Aim, p: Packet)
    requires p.pcr.Some?
    requires na.log == a.log && nb.log == b.log && na.nextFree == a.nextFree && nb.nextFree == b.nextFree
    requires ca.rateMap == cb.rateMap
    requires ca.log == na.log + Added(na, ca) && cb.log == nb.log + Added(nb, cb)
    requires Alike(Added(na, ca), Added(nb, cb))
    requires Chained(Added(na, ca), na.nextFree) && Chained(Added(nb, cb), nb.nextFree)
    requires ca.nextFree == FreeAt(Added(na, ca), na.nextFree, |Added(na, ca)|)
    requires cb.nextFree == FreeAt(Added(nb, cb), nb.nextFree, |Added(nb, cb)|)
    ensures StepsTogether(a, b, ca.OpenRun(aim, p, p.pcr.value), cb.OpenRun(aim, p, p.pcr.value))
  {
    hide Alike, Chained;
  }

  lemma AlikeJoin(a1: seq<Placement>, b1: seq<Placement>, a2: seq<Placement>, b2: seq<Placement>)
    requires Alike(a1, b1) && Alike(a2, b2)
    ensures Alike(a1 + a2, b1 + b2)
  {
  }

  lemma AddedTwice(c: Core, c1: Core, c2: Core)
    requires c1.log == c.log + Added(c, c1) && c2.log == c1.log + Added(c1, c2)
    ensures Added(c, c2) == Added(c, c1) + Added(c1, c2) && c2.log == c.log + Added(c, c2)
  {
    LogTwice(c.log, Added(c, c1), Added(c1, c2));
  }

  lemma LogTwice(log: seq<Placement>, x: seq<Placement>, y: seq<Placement>)
    ensures log + x + y == log + (x + y) && (log + x + y)[|log|..] == x + y
  {
  }

  lemma StepsTogetherTwice(a: Core, b: Core, a1: Core, b1: Core, a2: Core, b2: Core)
    requires StepsTogether(a, b, a1, b1) && StepsTogether(a1, b1, a2, b2)
    ensures StepsTogether(a, b, a2, b2)
  {
    hide Chained, Alike, Shared, Added, FreeAt;
    AddedTwice(a, a1, a2);
    AddedTwice(b, b1, b2);
    AlikeJoin(Added(a, a1), Added(b, b1), Added(a1, a2), Added(b1, b2));
    ChainedJoin(Added(a, a1), Added(a1, a2), a.nextFree);
    ChainedJoin(Added(b, b1), Added(b1, b2), b.nextFree);
  }

  lemma {:induction false} FedTogether(a: Core, b: Core, packets: seq<Packet>)
    requires Shared(a, b) && Uncut(a, packets) && Uncut(b, packets)
    ensures StepsTogether(a, b, Paths.Fed(a, packets), Paths.Fed(b, packets))
    decreases |packets|
  {
    if packets == [] {
    } else {
      hide Core.Push, StepsTogether, Uncut;
      var a', b' := a.Push(packets[0], Arrival(0, None)), b.Push(packets[0], Arrival(0, None));
      UncutNext(a, packets);
      UncutNext(b, packets);
      NextTogether(a, b, packets[0]);
      FedTogether(a', b', packets[1..]);
      StepsTogetherTwice(a, b, a', b', Paths.Fed(a', packets[1..]), Paths.Fed(b', packets[1..]));
    }
  }

  lemma NextTogether(a: Core, b: Core, p: Packet)
    requires Shared(a, b)
    requires a.Push(p, Arrival(0, None)).cut == a.cut && b.Push(p, Arrival(0, None)).cut == b.cut
    ensures
      var a', b' := a.Push(p, Arrival(0, None)), b.Push(p, Arrival(0, None));
      StepsTogether(a, b, a', b') && Shared(a', b')
  {
    hide Core.Push;
    PushTogether(a, b, p);
  }

  /** Two legs on one stream neither has a run of it cut, wherever each has spilled to. Of
      the packets they place from there on, they place packet `k` alike exactly when their
      first free slots already agreed or some packet up to `k` wanted a slot at or past
      both; and having met they stay together. */
  lemma LateJoinerCoalesces(a: Core, b: Core, packets: seq<Packet>, k: nat)
    requires Shared(a, b) && Uncut(a, packets) && Uncut(b, packets)
    requires k < |Added(a, Paths.Fed(a, packets))|
    ensures |Added(a, Paths.Fed(a, packets))| == |Added(b, Paths.Fed(b, packets))|
    ensures
      var placedA, placedB := Added(a, Paths.Fed(a, packets)), Added(b, Paths.Fed(b, packets));
      && (placedA[k] == placedB[k] <==>
            a.nextFree == b.nextFree || Met(placedA, placedB, a.nextFree, b.nextFree, k))
      && (placedA[k] == placedB[k] ==> forall l | k <= l < |placedA| :: placedA[l] == placedB[l])
  {
    hide Chained;
    FedTogether(a, b, packets);
    var placedA, placedB := Added(a, Paths.Fed(a, packets)), Added(b, Paths.Fed(b, packets));
    AgreeExactlyOnceMet(placedA, placedB, a.nextFree, b.nextFree, k);
    if placedA[k] == placedB[k] {
      forall l | k <= l < |placedA|
        ensures placedA[l] == placedB[l]
      {
        AgreeExactlyOnceMet(placedA, placedB, a.nextFree, b.nextFree, l);
        if a.nextFree != b.nextFree {
          var j :| 0 <= j <= k && Meets(placedA, placedB, a.nextFree, b.nextFree, j);
        }
      }
    }
  }

  /** A leg that hears its first PCR shares the running leg's run from that packet on,
      whenever the running leg's clock has neither wrapped nor been re-based. */
  lemma JoiningIsSharing(running: Core, joining: Core, p: Packet)
    requires p.pcr.Some? && running.clock.open.Some? && QuietNext(running, p)
    requires joining.clock == NewCore(joining.rateMap).clock && joining.rateMap == running.rateMap
    requires
      var after := running.Push(p, Arrival(0, None)).clock;
      after.(open := None) == joining.clock
    ensures Shared(running.Push(p, Arrival(0, None)), joining.Push(p, Arrival(0, None)))
  {
    var at := Arrival(0, None);
    var here, there := running.Noted(p).Aims(p, at), joining.Noted(p).Aims(p, at);
    hide Judge, SlotMap.SlotOfPcr, Core.Misses;
    assert here.clock.(open := None) == there.clock.(open := None);
    assert here.slot == there.slot;
  }

  /** Once neither leg's placement runs past the source's grid (both displacements
      read zero), the next packet they place meets both. */
  lemma ZeroDisplacementMeets(a: Core, b: Core)
    requires Shared(a, b)
    requires Displacement.Displaced(a.nextFree, a.clock.open.value.slot) == 0
    requires Displacement.Displaced(b.nextFree, b.clock.open.value.slot) == 0
    ensures forall next | a.run != [] ::
      Added(a, a.CloseRun(a.clock.open.value.slot, next)) != []
      && Added(a, a.CloseRun(a.clock.open.value.slot, next)) == Added(b, b.CloseRun(a.clock.open.value.slot, next))
  {
    var open := a.clock.open.value.slot;
    forall next: nat | a.run != []
      ensures Added(a, a.CloseRun(open, next)) != []
      ensures Added(a, a.CloseRun(open, next)) == Added(b, b.CloseRun(open, next))
    {
      ClosesChained(a, open, next);
      ClosesChained(b, open, next);
      ClosesAlike(a, b, open, next);
      var placedA, placedB := Added(a, a.CloseRun(open, next)), Added(b, b.CloseRun(open, next));
      assert |placedA| == |a.run|;
      Displacement.SpreadShape(a.run, 0, open, SatSub(next, open), a.nextFree, a.openBase, a.openWraps);
      assert placedA[0].ideal >= open;
      assert Meets(placedA, placedB, a.nextFree, b.nextFree, 0);
      forall k | 0 <= k < |placedA|
        ensures placedA[k] == placedB[k]
      {
        AgreeExactlyOnceMet(placedA, placedB, a.nextFree, b.nextFree, k);
      }
    }
  }
}
