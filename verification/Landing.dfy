/** A put that lands, at whatever moment, keeps the invariant. With this every step does. */
module Landing {
  import opened Commits
  import opened Invariant
  import opened Packing
  import opened Preservation
  import opened Protocol
  import opened Segment
  import opened Slots

  lemma ManAtLanded(z: Zstd, w: World, id: nat, ver: nat)
    requires Enabled(w, Land(id)) && ver <= |w.history|
    ensures ManAt(Apply(z, w, Land(id)), ver) == ManAt(w, ver)
    ensures Cur(Apply(z, w, Land(id))) == w.sent[id].man
  {
  }

  lemma LandChain(z: Zstd, w: World, id: nat)
    requires Chain(w) && Enabled(w, Land(id)) && w.sent[id].owner in w.producers
    requires Extends(Cur(w), Version(w.sent[id].man, w.sent[id].owner, w.sent[id].kind.Claim?))
    ensures Chain(Apply(z, w, Land(id)))
  {
    var w' := Apply(z, w, Land(id));
    forall v | 0 <= v < |w'.history|
      ensures Link(w', v)
    {
      ManAtLanded(z, w, id, v);
      if v < |w.history| {
        assert Link(w, v);
      }
    }
  }

  /** Landing moves the register on, so that no other put in flight can land any more. */
  lemma LandPuts(z: Zstd, w: World, id: nat)
    requires Puts(w) && Enabled(w, Land(id))
    ensures Puts(Apply(z, w, Land(id)))
  {
    hide Own, AppendGroup;
    var w' := Apply(z, w, Land(id));
    forall k | 0 <= k < |w'.sent|
      ensures PutOk(w', k)
    {
      assert PutOk(w, k);
      ShapeFrame(w, w', k);
      assert !LiveBy(w', k, w'.sent[k].owner);
    }
  }

  lemma LandClaims(z: Zstd, w: World, id: nat, r: Run)
    requires Enabled(w, Land(id)) && r in w.producers
    requires w.producers[r].epoch > 0 ==> exists v: nat :: IsClaim(w, v, r, w.producers[r].epoch)
    ensures w.producers[r].epoch > 0 ==> exists v: nat :: IsClaim(Apply(z, w, Land(id)), v, r, w.producers[r].epoch)
  {
    if w.producers[r].epoch > 0 {
      var v: nat :| IsClaim(w, v, r, w.producers[r].epoch);
      assert IsClaim(Apply(z, w, Land(id)), v, r, w.producers[r].epoch);
    }
  }

  lemma EpochBound(w: World, r: Run)
    requires Chain(w) && r in w.producers && ProducerOk(w, r)
    ensures w.producers[r].epoch <= Cur(w).epoch
  {
    hide PlansOk, Counters, WaitOk, LandedOk, AcksOk, Chain;
    if w.producers[r].epoch > 0 {
      var v: nat :| IsClaim(w, v, r, w.producers[r].epoch);
      ChainMonotone(w, v + 1, |w.history|);
    }
  }

  // ---------------------------------------------------------------- a claim lands

  lemma ClaimLandsProducer(z: Zstd, w: World, id: nat, r: Run)
    requires Chain(w) && Enabled(w, Land(id)) && PutOk(w, id) && w.sent[id].kind.Claim?
    requires r in w.producers && ProducerOk(w, r)
    ensures ProducerOk(Apply(z, w, Land(id)), r)
    ensures VersionOk(Apply(z, w, Land(id)), |w.history|, r)
  {
    hide Own, PlansOk, AcksOk, Chain, OwnsTail;
    ManAtLanded(z, w, id, |w.history|);
    LandClaims(z, w, id, r);
    EpochBound(w, r);
  }

  lemma ClaimLands(z: Zstd, w: World, id: nat)
    requires Inv(z, w) && Enabled(w, Land(id)) && w.sent[id].kind.Claim?
    ensures Inv(z, Apply(z, w, Land(id)))
  {
    hide Own, Ordered, Tiled, Carries, SegmentBytes, Flat, RecordsFit, ProducerOk, OwnsTail, Chain;
    var w' := Apply(z, w, Land(id));
    assert PutOk(w, id);
    ManAtLanded(z, w, id, |w.history|);
    LandChain(z, w, id);
    assert Tiled(Cur(w')) by {
      TiledFrame(Cur(w), Cur(w'));
    }
    forall x | 0 <= x < |Cur(w').slots|
      ensures SlotOk(w', Cur(w').slots[x])
    {
      SlotFrame(w, w', Cur(w).slots[x]);
    }
    forall loc
      ensures ObjectOk(z, w', loc)
    {
      assert ObjectOk(z, w, loc);
    }
    LandPuts(z, w, id);
    forall r | r in w'.producers
      ensures ProducerOk(w', r)
    {
      ClaimLandsProducer(z, w, id, r);
    }
    forall v, r | 0 <= v < |w'.history| && r in w'.producers
      ensures VersionOk(w', v, r)
    {
      if v < |w.history| {
        assert VersionOk(w, v, r);
      } else {
        ClaimLandsProducer(z, w, id, r);
      }
    }
  }

  lemma TiledFrame(a: Man, b: Man)
    requires Tiled(a) && b.slots == a.slots && b.next == a.next
    ensures Tiled(b)
  {
  }

  // ---------------------------------------------------------------- a group lands

  lemma {:induction false} TotalPositive(items: seq<Item>)
    requires items != [] && AllNonEmpty(items)
    ensures Total(items) > 0
  {
    assert items[0].records != [];
  }

  /** What is known of a commit put at the moment it lands. */
  predicate Arriving(w: World, id: nat)
    requires id < |w.sent| == |w.status|
  {
    && Enabled(w, Land(id)) && PutOk(w, id) && w.sent[id].kind.Append?
    && Chain(w) && ManOk(w)
  }

  /** Segment i of the group, as it stands behind the present slots. */
  predicate ArrivedSlot(w: World, id: nat, i: nat)
    requires id < |w.sent|
  {
    var x := w.sent[id];
    && x.kind.Append? && x.owner in w.producers
    && x.kind.lo + i < |w.producers[x.owner].plans| && |Cur(w).slots| + i < |x.man.slots|
    && Carries(x.man.slots[|Cur(w).slots| + i], x.owner, x.kind.lo + i, w.producers[x.owner].plans[x.kind.lo + i])
  }

  lemma ArrivingGroup(w: World, id: nat)
    requires id < |w.sent| == |w.status| && Arriving(w, id) && PlansOk(w.producers[w.sent[id].owner])
    ensures var x := w.sent[id];
            var p, lo, n, m := x.owner, x.kind.lo, x.kind.n, x.man;
            && m.epoch == Cur(w).epoch == w.producers[p].epoch
            && Ordered(m.slots) && Tiled(m)
            && lo == w.producers[p].done && n == Attempted(w.producers[p]) > 0
            && Own(Cur(w).slots, p) == lo && Own(m.slots, p) == lo + n
            && (forall r :: r != p ==> Own(m.slots, r) == Own(Cur(w).slots, r))
            && |m.slots| == |Cur(w).slots| + n && Cur(w).slots <= m.slots && Cur(w).next < m.next
            && (forall i :: 0 <= i < n ==> ArrivedSlot(w, id, i))
  {
    hide Own, Ordered, Tiled, AppendGroup, Total, Carries, SlotOk, Chain;
    var x := w.sent[id];
    var p, lo, n := x.owner, x.kind.lo, x.kind.n;
    var bs := w.producers[p].plans[lo..lo + n];
    assert LiveBy(w, id, p);
    forall i | 0 <= i < |bs|
      ensures Total(bs[i].items) > 0
    {
      assert bs[i] == w.producers[p].plans[lo + i];
      TotalPositive(bs[i].items);
    }
    GroupFacts(Cur(w), p, bs, lo);
    GroupKeeps(Cur(w), p, bs, lo);
    forall i | 0 <= i < n
      ensures ArrivedSlot(w, id, i)
    {
      assert Carries(x.man.slots[|Cur(w).slots| + i], p, lo + i, bs[i]);
    }
  }

  lemma NewSlotOk(z: Zstd, w: World, id: nat, x: nat)
    requires id < |w.sent| == |w.status| && Arriving(w, id) && PlansOk(w.producers[w.sent[id].owner])
    requires x < |w.sent[id].man.slots|
    ensures SlotOk(Apply(z, w, Land(id)), w.sent[id].man.slots[x])
    ensures x >= |Cur(w).slots| ==>
              && w.sent[id].man.slots[x].loc.run == w.sent[id].owner
              && w.sent[id].man.slots[x].loc.ordinal >= w.producers[w.sent[id].owner].done
  {
    hide Own, Ordered, Tiled, AppendGroup, Total, Metas, Chain, PlansOk;
    var w' := Apply(z, w, Land(id));
    var put := w.sent[id];
    ArrivingGroup(w, id);
    if x < |Cur(w).slots| {
      assert put.man.slots[x] == Cur(w).slots[x];
      SlotFrame(w, w', Cur(w).slots[x]);
    } else {
      var i := x - |Cur(w).slots|;
      assert ArrivedSlot(w, id, i);
    }
  }

  lemma GroupLandsRegister(z: Zstd, w: World, id: nat)
    requires id < |w.sent| == |w.status| && Arriving(w, id) && PlansOk(w.producers[w.sent[id].owner])
    requires Objects(z, w)
    ensures Chain(Apply(z, w, Land(id))) && ManOk(Apply(z, w, Land(id))) && Objects(z, Apply(z, w, Land(id)))
  {
    hide Own, Ordered, Tiled, AppendGroup, Carries, SegmentBytes, Flat, RecordsFit, PlansOk, Chain, SlotOk;
    var w' := Apply(z, w, Land(id));
    ArrivingGroup(w, id);
    ManAtLanded(z, w, id, |w.history|);
    forall x | 0 <= x < |Cur(w').slots|
      ensures SlotOk(w', Cur(w').slots[x])
      ensures x >= |Cur(w).slots| ==> Cur(w').slots[x].loc.run == w.sent[id].owner
    {
      NewSlotOk(z, w, id, x);
    }
    LandChain(z, w, id);
    forall loc
      ensures ObjectOk(z, w', loc)
    {
      assert ObjectOk(z, w, loc);
    }
  }

  lemma AcksAfterLanding(z: Zstd, w: World, id: nat, r: Run)
    requires id < |w.sent| == |w.status| && Arriving(w, id) && PlansOk(w.producers[w.sent[id].owner])
    requires r in w.producers && AcksOk(Cur(w).slots, r, w.producers[r])
    ensures AcksOk(w.sent[id].man.slots, r, w.producers[r])
  {
    hide Own, Ordered, Tiled, AppendGroup, Carries, PlansOk, Chain, SlotOk;
    var slots := w.sent[id].man.slots;
    ArrivingGroup(w, id);
    forall x | 0 <= x < |slots| && slots[x].loc.run == r && slots[x].loc.ordinal < w.producers[r].done
      ensures slots[x].loc.ordinal < |w.producers[r].acks| &&
              slots[x].sequence == w.producers[r].acks[slots[x].loc.ordinal]
    {
      NewSlotOk(z, w, id, x);
      if x < |Cur(w).slots| {
        assert slots[x] == Cur(w).slots[x];
      }
    }
  }

  lemma GroupLandsProducer(z: Zstd, w: World, id: nat, r: Run)
    requires id < |w.sent| == |w.status| && Arriving(w, id) && ProducerOk(w, w.sent[id].owner)
    requires r in w.producers && ProducerOk(w, r)
    ensures ProducerOk(Apply(z, w, Land(id)), r)
  {
    hide Own, AcksOk, Chain, ManOk, PlansOk, Ordered, Tiled, AppendGroup, Carries, PutShape, PutLanded;
    var w' := Apply(z, w, Land(id));
    ArrivingGroup(w, id);
    ManAtLanded(z, w, id, |w.history|);
    AcksAfterLanding(z, w, id, r);
    LandClaims(z, w, id, r);
    assert LiveBy(w, id, w.sent[id].owner);
  }

  lemma TailExtends(slots: seq<Slot>, r: seq<Slot>, p: Run, n: nat)
    requires OwnsTail(slots, p) && slots <= r && |r| == |slots| + n && Own(r, p) == Own(slots, p) + n
    requires forall x :: |slots| <= x < |r| ==> r[x].loc.run == p
    ensures OwnsTail(r, p)
  {
    hide Own;
    forall x | |r| - Own(r, p) <= x < |r|
      ensures r[x].loc.run == p
    {
      if x < |slots| {
        assert r[x] == slots[x];
      }
    }
  }

  lemma GroupLandsVersion(z: Zstd, w: World, id: nat, r: Run)
    requires Inv(z, w) && id < |w.sent| && Arriving(w, id) && r in w.producers
    ensures VersionOk(Apply(z, w, Land(id)), |w.history|, r)
  {
    hide Own, AcksOk, Chain, ManOk, PlansOk, Ordered, Tiled, AppendGroup, Carries, OwnsTail, Objects, Puts, WaitOk;
    var w' := Apply(z, w, Land(id));
    var put := w.sent[id];
    var p := put.owner;
    assert ProducerOk(w, r) && ProducerOk(w, p);
    ArrivingGroup(w, id);
    if w.producers[r].epoch > 0 && put.man.epoch == w.producers[r].epoch {
      EpochsDiffer(w, r, p);
      assert VersionOk(w, |w.history| - 1, p);
      forall x | |Cur(w).slots| <= x < |put.man.slots|
        ensures put.man.slots[x].loc.run == p
      {
        NewSlotOk(z, w, id, x);
      }
      TailExtends(Cur(w).slots, put.man.slots, p, put.kind.n);
    }
  }

  lemma GroupLands(z: Zstd, w: World, id: nat)
    requires Inv(z, w) && Enabled(w, Land(id)) && w.sent[id].kind.Append?
    ensures Inv(z, Apply(z, w, Land(id)))
  {
    hide Own, Chain, ManOk, OwnsTail, Objects, AppendGroup, PlansOk, Counters, WaitOk, LandedOk, AcksOk;
    var w' := Apply(z, w, Land(id));
    assert PutOk(w, id);
    assert ProducerOk(w, w.sent[id].owner);
    GroupLandsRegister(z, w, id);
    LandPuts(z, w, id);
    forall r | r in w'.producers
      ensures ProducerOk(w', r)
    {
      assert ProducerOk(w, r);
      GroupLandsProducer(z, w, id, r);
    }
    forall v, r | 0 <= v < |w'.history| && r in w'.producers
      ensures VersionOk(w', v, r)
    {
      if v < |w.history| {
        assert VersionOk(w, v, r);
      } else {
        GroupLandsVersion(z, w, id, r);
      }
    }
  }

  // ---------------------------------------------------------------- every step

  lemma CommitAttemptKeeps(z: Zstd, w: World, s: Step)
    requires Inv(z, w) && s.CommitAttempt? && Enabled(w, s)
    ensures Inv(z, Apply(z, w, s))
  {
    hide Inv, Decide;
    var q := w.producers[s.p];
    match Decide(q, s.p, q.phase.n, q.phase.unknown, ManAt(w, s.ver)) {
      case Fenced => PhaseKeeps(z, w, s.p, Halted(q.phase.n));
      case Partial => NeverPartial(z, w, s.p, s.ver);
      case Harvested(_) => HarvestKeeps(z, w, s);
      case Send => CommitSendKeeps(z, w, s);
    }
  }

  lemma StepKeeps(z: Zstd, w: World, s: Step)
    requires Inv(z, w) && Enabled(w, s)
    ensures Inv(z, Apply(z, w, s))
  {
    hide Inv, Enabled, Apply;
    match s {
      case Spawn(_, _, _) => SpawnKeeps(z, w, s);
      case ClaimAttempt(_, _) => ClaimAttemptKeeps(z, w, s);
      case Land(id) => LandKeeps(z, w, id);
      case Lose(id) => LoseKeeps(z, w, s);
      case AnswerOk(_) => AnswerOkKeeps(z, w, s);
      case AnswerRefused(_) => AnswerNoKeeps(z, w, s);
      case AnswerUnknown(_) => AnswerNoKeeps(z, w, s);
      case Halt(_) => HaltKeeps(z, w, s);
      case Admit(_, _) => AdmitKeeps(z, w, s);
      case StartFlush(_, _, _, _) => StartFlushKeeps(z, w, s);
      case UploadLands(_, _) => UploadKeeps(z, w, s);
      case FinishUploads(_, _) => FlushStepKeeps(z, w, s);
      case BeginGroup(_, _) => BeginGroupKeeps(z, w, s);
      case CommitAttempt(_, _) => CommitAttemptKeeps(z, w, s);
      case EndFlush(_) => FlushStepKeeps(z, w, s);
    }
  }

  lemma LandKeeps(z: Zstd, w: World, id: nat)
    requires Inv(z, w) && Enabled(w, Land(id))
    ensures Inv(z, Apply(z, w, Land(id)))
  {
    hide Inv, Apply;
    if w.sent[id].kind.Claim? {
      ClaimLands(z, w, id);
    } else {
      GroupLands(z, w, id);
    }
  }

  lemma LoseKeeps(z: Zstd, w: World, s: Step)
    requires Inv(z, w) && s.Lose? && Enabled(w, s)
    ensures Inv(z, Apply(z, w, s))
  {
    DeadKeeps(z, w, s.id);
  }

  lemma AnswerOkKeeps(z: Zstd, w: World, s: Step)
    requires Inv(z, w) && s.AnswerOk? && Enabled(w, s)
    ensures Inv(z, Apply(z, w, s))
  {
    hide Inv, Apply;
    if w.producers[s.p].phase.Claiming? {
      ClaimOkKeeps(z, w, s);
    } else {
      CommitOkKeeps(z, w, s);
    }
  }

  lemma InitialHolds(z: Zstd)
    ensures Inv(z, INITIAL)
  {
  }

  lemma {:induction false} RunKeeps(z: Zstd, w: World, steps: seq<Step>, w': World)
    requires Inv(z, w) && Leads(z, w, steps, w')
    ensures Inv(z, w')
    decreases |steps|
  {
    hide Inv, Enabled, Apply;
    if steps != [] {
      StepKeeps(z, w, steps[0]);
      RunKeeps(z, Apply(z, w, steps[0]), steps[1..], w');
    }
  }

  /** Every reachable state satisfies the invariant. */
  lemma ReachableHolds(z: Zstd, w: World)
    requires Reachable(z, w)
    ensures Inv(z, w)
  {
    hide Inv;
    var steps :| Leads(z, INITIAL, steps, w);
    InitialHolds(z);
    RunKeeps(z, INITIAL, steps, w);
  }
}
