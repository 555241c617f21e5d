/** What the protocol promises, in every reachable state and over every run. */
module Guarantees {
  import opened Bytes
  import opened Commits
  import opened Invariant
  import opened Landing
  import opened ManifestCodec
  import opened Packing
  import opened Protocol
  import opened Segment
  import opened Slots
  import opened Wrappers

  // ---------------------------------------------------------------- locations and fencing

  /** No segment is in the log twice, and the entries tile the sequence space from 0 to the next sequence. */
  lemma LocationsAreUnique(z: Zstd, w: World)
    requires Reachable(z, w)
    ensures forall x, y :: 0 <= x < y < |Cur(w).slots| ==> Cur(w).slots[x].loc != Cur(w).slots[y].loc
    ensures Tiled(Cur(w))
  {
    hide Reachable, Ordered, Tiled, Chain, Objects, Puts, Producers, Versions;
    ReachableHolds(z, w);
    forall x, y | 0 <= x < y < |Cur(w).slots|
      ensures Cur(w).slots[x].loc != Cur(w).slots[y].loc
    {
      OrderedDistinct(Cur(w).slots, x, y);
    }
  }

  /** Slot x first appears in version v. */
  predicate EntersAt(w: World, v: nat, x: nat)
    requires v < |w.history|
  {
    |ManAt(w, v).slots| <= x < |w.history[v].man.slots|
  }

  /** Epochs never decrease along the history, a claim raises them, and what one version holds every later one holds
      in the same place. */
  lemma EpochsNeverDecrease(z: Zstd, w: World, u: nat, v: nat)
    requires Reachable(z, w) && u < v < |w.history|
    ensures w.history[u].man.epoch <= w.history[v].man.epoch
    ensures w.history[v].claim ==> w.history[u].man.epoch < w.history[v].man.epoch
    ensures w.history[u].man.slots <= w.history[v].man.slots
  {
    hide Reachable, Chain, ManOk, Objects, Puts, Producers, Versions;
    ReachableHolds(z, w);
    ChainMonotone(w, u + 1, v + 1);
  }

  /** Entries written under one epoch all precede those written under a later one. */
  lemma EpochsOrderEntries(z: Zstd, w: World, u: nat, v: nat, x: nat, y: nat)
    requires Reachable(z, w) && u < |w.history| && v < |w.history| && EntersAt(w, u, x) && EntersAt(w, v, y)
    requires w.history[u].man.epoch < w.history[v].man.epoch
    ensures x < y
  {
    hide Reachable, Chain, ManOk, Objects, Puts, Producers, Versions;
    ReachableHolds(z, w);
    if v <= u {
      ChainMonotone(w, v + 1, u + 1);
    } else {
      ChainMonotone(w, u + 1, v);
    }
  }

  /** No two producers hold the same epoch. */
  lemma ClaimsAreExclusive(z: Zstd, w: World, p: Run, q: Run)
    requires Reachable(z, w) && p in w.producers && q in w.producers && p != q
    requires w.producers[p].epoch > 0
    ensures w.producers[p].epoch != w.producers[q].epoch
  {
    hide Reachable, Chain, ManOk, Objects, Puts, Versions, ProducerOk;
    ReachableHolds(z, w);
    assert ProducerOk(w, p) && ProducerOk(w, q);
    if w.producers[p].epoch == w.producers[q].epoch {
      EpochsDiffer(w, p, q);
    }
  }

  /** A commit lands only under its writer's own epoch, adds only that writer's segments, and no claim that landed
      before it is higher: once a higher claim is in the register, acknowledged or not, an older primary is fenced. */
  lemma FencedAfterHigherClaim(z: Zstd, w: World, v: nat, c: nat)
    requires Reachable(z, w) && v < |w.history| && !w.history[v].claim
    ensures w.history[v].writer in w.producers
    ensures w.history[v].man.epoch == w.producers[w.history[v].writer].epoch > 0
    ensures forall x: nat :: EntersAt(w, v, x) ==> w.history[v].man.slots[x].loc.run == w.history[v].writer
    ensures c < v ==> w.history[c].man.epoch <= w.producers[w.history[v].writer].epoch
  {
    hide Reachable, Chain, ManOk, Objects, Puts, Producers, Own, OwnsTail;
    ReachableHolds(z, w);
    assert Link(w, v) by {
      LinkAt(w, v);
    }
    assert VersionOk(w, v, w.history[v].writer);
    if c < v {
      ChainMonotone(w, c + 1, v + 1);
    }
  }

  lemma LinkAt(w: World, v: nat)
    requires Chain(w) && v < |w.history|
    ensures Link(w, v)
  {
  }

  // ---------------------------------------------------------------- no ABA

  predicate Less(a: Man, b: Man) { a.epoch < b.epoch || (a.epoch == b.epoch && a.next < b.next) }

  /** Every landed write strictly raises (epoch, next sequence). */
  lemma {:induction false} WritesIncrease(w: World, u: nat, v: nat)
    requires Chain(w) && u < v <= |w.history|
    ensures Less(ManAt(w, u), ManAt(w, v))
    decreases v
  {
    LinkAt(w, v - 1);
    if u < v - 1 {
      WritesIncrease(w, u, v - 1);
    }
  }

  /** A manifest value never comes back, so comparing contents is as good as comparing version numbers. */
  lemma NoABA(z: Zstd, w: World, ver: nat)
    requires Reachable(z, w) && ver <= |w.history|
    ensures ManAt(w, ver) == Cur(w) <==> ver == |w.history|
  {
    hide Reachable, Chain, ManOk, Objects, Puts, Producers, Versions;
    ReachableHolds(z, w);
    if ver < |w.history| {
      WritesIncrease(w, ver, |w.history|);
    }
  }

  /** Serialized manifests of different versions have different bytes, whatever their entries and snapshot look like
      in encoded form: an ETag derived from the content changes with every landed write. */
  lemma SerializedNeverRepeats(z: Zstd, w: World, u: nat, v: nat, a: Raw, b: Raw)
    requires Reachable(z, w) && u < v <= |w.history|
    requires Fits(a) && a.epoch == ManAt(w, u).epoch && a.nextSequence == ManAt(w, u).next
    requires Fits(b) && b.epoch == ManAt(w, v).epoch && b.nextSequence == ManAt(w, v).next
    ensures Serialize(a, CHECKSUM_VERSION) != Serialize(b, CHECKSUM_VERSION)
  {
    hide Reachable, Chain, ManOk, Objects, Puts, Producers, Versions, Serialize;
    ReachableHolds(z, w);
    WritesIncrease(w, u, v);
    if Serialize(a, CHECKSUM_VERSION) == Serialize(b, CHECKSUM_VERSION) {
      SerializeIsInjective(a, b);
    }
  }

  // ---------------------------------------------------------------- integrity

  /** Every entry names a stored object that decodes to exactly the records planned for it. */
  lemma EntriesDecode(z: Zstd, w: World, x: nat)
    requires Reachable(z, w) && Lossless(z) && x < |Cur(w).slots|
    ensures var s := Cur(w).slots[x];
            && s.loc.run in w.producers && s.loc.ordinal < |w.producers[s.loc.run].plans| && s.loc in w.objects
            && var items := w.producers[s.loc.run].plans[s.loc.ordinal].items;
               && ParseSegment(z, w.objects[s.loc]) == Ok(Flat(items))
               && s.count == |Flat(items)| <= U32_MAX
  {
    hide Reachable, Chain, Puts, Versions, Ordered, Tiled, SegmentBytes, ParseSegment, Flat, Lossless, PlansOk,
      WaitOk, LandedOk, AcksOk;
    ReachableHolds(z, w);
    var s := Cur(w).slots[x];
    assert SlotOk(w, s) && ObjectOk(z, w, s.loc);
    var q := w.producers[s.loc.run];
    assert ProducerOk(w, s.loc.run);
    SegmentReadBack(z, Flat(q.plans[s.loc.ordinal].items), q.comp, q.legacy);
  }

  // ---------------------------------------------------------------- prefix of the admission order

  /** The run's slots, in manifest order. */
  function OwnSlots(slots: seq<Slot>, p: Run): (r: seq<Slot>)
    ensures |r| == Own(slots, p)
  {
    if slots == [] then []
    else
      var last := slots[|slots| - 1];
      OwnSlots(slots[..|slots| - 1], p) + if last.loc.run == p then [last] else []
  }

  lemma {:induction false} OwnSlotsOrdered(slots: seq<Slot>, p: Run, k: nat)
    requires Ordered(slots) && k < Own(slots, p)
    ensures OwnSlots(slots, p)[k] in slots && OwnSlots(slots, p)[k].loc == Location(p, k)
    decreases |slots|
  {
    var front := slots[..|slots| - 1];
    OrderedPrefix(front, slots);
    if k < Own(front, p) {
      OwnSlotsOrdered(front, p, k);
      assert OwnSlots(slots, p)[k] == OwnSlots(front, p)[k];
    } else {
      assert OwnSlots(slots, p)[k] == slots[|slots| - 1];
    }
  }

  lemma {:induction false} JoinPrefix(plans: seq<Batch>, k: nat)
    requires k <= |plans|
    ensures JoinBatches(plans[..k]) <= JoinBatches(plans)
    decreases k
  {
    if k > 0 {
      JoinPrefix(plans[1..], k - 1);
      assert plans[..k][1..] == plans[1..][..k - 1];
      var a, b := JoinBatches(plans[1..][..k - 1]), JoinBatches(plans[1..]);
      assert plans[0].items + a <= plans[0].items + b;
    }
  }

  /** What one producer has in the log is, in order, a prefix of what it admitted: every segment it acknowledged
      and at most the one group it was last committing. */
  lemma LandedIsPrefix(z: Zstd, w: World, p: Run)
    requires Reachable(z, w) && p in w.producers
    ensures var q, own := w.producers[p], OwnSlots(Cur(w).slots, p);
            && (|own| == q.done || |own| == q.done + Attempted(q))
            && |own| <= |q.plans|
            && (forall k :: 0 <= k < |own| ==> Carries(own[k], p, k, q.plans[k]))
            && JoinBatches(q.plans[..|own|]) <= q.admitted
  {
    hide Reachable, Chain, Objects, Puts, Versions, Own, Ordered, Tiled, OwnSlots, Carries, JoinBatches, WaitOk, AcksOk;
    ReachableHolds(z, w);
    var q, own := w.producers[p], OwnSlots(Cur(w).slots, p);
    assert ProducerOk(w, p);
    JoinPrefix(q.plans, |own|);
    assert q.admitted[..q.taken] <= q.admitted;
    forall k | 0 <= k < |own|
      ensures Carries(own[k], p, k, q.plans[k])
    {
      OwnSlotsOrdered(Cur(w).slots, p, k);
      var x :| 0 <= x < |Cur(w).slots| && Cur(w).slots[x] == own[k];
      assert SlotOk(w, Cur(w).slots[x]);
    }
  }

  /** In no reachable state does a reload find part of a group. */
  lemma PartialGroupIsUnreachable(z: Zstd, w: World, p: Run, ver: nat)
    requires Reachable(z, w) && Enabled(w, CommitAttempt(p, ver))
    ensures !Decide(w.producers[p], p, w.producers[p].phase.n, w.producers[p].phase.unknown, ManAt(w, ver)).Partial?
  {
    hide Reachable, Inv, Decide;
    ReachableHolds(z, w);
    NeverPartial(z, w, p, ver);
  }
}
