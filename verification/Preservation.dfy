/** Every step keeps the invariant. */
module Preservation {
  import opened Invariant
  import opened Packing
  import opened Protocol
  import opened Segment
  import opened Slots
  import opened Wrappers

  // ---------------------------------------------------------------- steps of one producer

  /** The producer keeps its epoch once it has one, its plans and its codec. */
  predicate Compatible(q: Producer, q': Producer) {
    && (q.epoch > 0 ==> q'.epoch == q.epoch)
    && q.plans <= q'.plans
    && q.comp == q'.comp && q.legacy == q'.legacy
  }

  lemma SlotFrame(w: World, w': World, s: Slot)
    requires SlotOk(w, s)
    requires s.loc.run in w'.producers && w.producers[s.loc.run].plans <= w'.producers[s.loc.run].plans
    requires s.loc in w'.objects
    ensures SlotOk(w', s)
  {
  }

  lemma ShapeFrame(w: World, w': World, id: nat)
    requires id < |w.sent| == |w.status| && PutShape(w, id)
    requires id < |w'.sent| == |w'.status| && w'.sent[id] == w.sent[id]
    requires w.history <= w'.history
    requires w.sent[id].owner in w'.producers
    requires Compatible(w.producers[w.sent[id].owner], w'.producers[w.sent[id].owner])
    requires forall loc :: loc in w.objects ==> loc in w'.objects
    ensures PutShape(w', id)
  {
    hide AppendGroup;
    var x := w.sent[id];
    var q, q' := w.producers[x.owner], w'.producers[x.owner];
    assert ManAt(w', x.onto) == ManAt(w, x.onto);
    if x.kind.Append? {
      assert q'.plans[x.kind.lo..x.kind.lo + x.kind.n] == q.plans[x.kind.lo..x.kind.lo + x.kind.n];
    }
  }

  /** A producer's own part depends on the register, the puts and the objects only. */
  lemma OtherProducer(w: World, w': World, r: Run)
    requires r in w.producers && ProducerOk(w, r)
    requires r in w'.producers && w'.producers[r] == w.producers[r]
    requires w'.history == w.history && w'.sent == w.sent && w'.status == w.status && w'.objects == w.objects
    ensures ProducerOk(w', r)
  {
    hide Own, PlansOk, AcksOk;
    assert Cur(w') == Cur(w);
    if w.producers[r].epoch > 0 {
      var v: nat :| IsClaim(w, v, r, w.producers[r].epoch);
      assert IsClaim(w', v, r, w.producers[r].epoch);
    }
  }

  /** The register and the objects are untouched, and no producer forgets. */
  predicate Grows(w: World, w': World) {
    && w'.history == w.history && w'.objects == w.objects
    && forall r :: r in w.producers ==> r in w'.producers && Compatible(w.producers[r], w'.producers[r])
  }

  lemma RegisterFrame(z: Zstd, w: World, w': World)
    requires Chain(w) && ManOk(w) && Objects(z, w) && Grows(w, w')
    ensures Chain(w') && ManOk(w') && Objects(z, w')
  {
    hide Own, Ordered, Tiled, SegmentBytes, Flat, Carries, RecordsFit;
    assert Cur(w') == Cur(w);
    forall v | 0 <= v < |w'.history|
      ensures Link(w', v)
    {
      assert Link(w, v);
    }
    forall x | 0 <= x < |Cur(w').slots|
      ensures SlotOk(w', Cur(w').slots[x])
    {
      SlotFrame(w, w', Cur(w).slots[x]);
    }
    forall loc
      ensures ObjectOk(z, w', loc)
    {
      assert ObjectOk(z, w, loc);
    }
  }

  lemma SetPuts(w: World, p: Run, q': Producer)
    requires Puts(w) && p in w.producers && Compatible(w.producers[p], q')
    requires forall id :: 0 <= id < |w.sent| && w.sent[id].owner == p ==> PutLive(Set(w, p, q'), id)
    ensures Puts(Set(w, p, q'))
  {
    hide Own, AppendGroup;
    var w' := Set(w, p, q');
    assert Cur(w') == Cur(w);
    forall id | 0 <= id < |w'.sent|
      ensures PutOk(w', id)
    {
      assert PutOk(w, id);
      ShapeFrame(w, w', id);
    }
  }

  /** A step that touches one producer only needs to be justified for that producer. */
  lemma SetKeeps(z: Zstd, w: World, p: Run, q': Producer)
    requires Inv(z, w) && p in w.producers && Compatible(w.producers[p], q')
    requires ProducerOk(Set(w, p, q'), p)
    requires forall id :: 0 <= id < |w.sent| && w.sent[id].owner == p ==> PutLive(Set(w, p, q'), id)
    requires forall v :: 0 <= v < |w.history| ==> VersionOk(Set(w, p, q'), v, p)
    ensures Inv(z, Set(w, p, q'))
  {
    hide ManOk, Chain, Objects, Puts, PutLive, ProducerOk, Own, OwnsTail;
    var w' := Set(w, p, q');
    RegisterFrame(z, w, w');
    SetPuts(w, p, q');
    forall r | r in w'.producers
      ensures ProducerOk(w', r)
    {
      if r != p {
        assert ProducerOk(w, r);
        OtherProducer(w, w', r);
      }
    }
    forall v, r | 0 <= v < |w'.history| && r in w'.producers
      ensures VersionOk(w', v, r)
    {
      if r != p {
        assert VersionOk(w, v, r);
      }
    }
  }

  // ---------------------------------------------------------------- a new producer

  lemma {:induction false} OwnZero(slots: seq<Slot>, p: Run)
    requires forall x :: 0 <= x < |slots| ==> slots[x].loc.run != p
    ensures Own(slots, p) == 0
  {
    if slots != [] {
      OwnZero(slots[..|slots| - 1], p);
    }
  }

  lemma Foreign(w: World, p: Run)
    requires Chain(w) && ManOk(w) && p !in w.producers
    ensures forall x :: 0 <= x < |Cur(w).slots| ==> Cur(w).slots[x].loc.run != p
    ensures Own(Cur(w).slots, p) == 0
    ensures forall v :: 0 <= v < |w.history| ==> Own(w.history[v].man.slots, p) == 0
  {
    forall x | 0 <= x < |Cur(w).slots|
      ensures Cur(w).slots[x].loc.run != p
    {
      assert SlotOk(w, Cur(w).slots[x]);
    }
    OwnZero(Cur(w).slots, p);
    forall v | 0 <= v < |w.history|
      ensures Own(w.history[v].man.slots, p) == 0
    {
      ChainMonotone(w, v + 1, |w.history|);
      OwnPrefix(ManAt(w, v + 1).slots, Cur(w).slots, p);
    }
  }

  lemma SpawnedOk(z: Zstd, w: World, s: Step)
    requires Chain(w) && ManOk(w) && s.Spawn? && Enabled(w, s)
    ensures var w' := Apply(z, w, s);
            ProducerOk(w', s.p) && forall v :: 0 <= v < |w'.history| ==> VersionOk(w', v, s.p)
  {
    hide Own, OwnsTail, Ordered, Tiled;
    assert Cur(Apply(z, w, s)) == Cur(w);
    Foreign(w, s.p);
    forall v | 0 <= v < |w.history|
      ensures w.history[v].writer != s.p
    {
      assert Link(w, v);
    }
  }

  lemma SpawnKeeps(z: Zstd, w: World, s: Step)
    requires Inv(z, w) && s.Spawn? && Enabled(w, s)
    ensures Inv(z, Apply(z, w, s))
  {
    hide ManOk, Chain, Objects, Puts, ProducerOk, Own, OwnsTail;
    var p, w' := s.p, Apply(z, w, s);
    RegisterFrame(z, w, w');
    SpawnPuts(z, w, s);
    SpawnedOk(z, w, s);
    forall r | r in w'.producers
      ensures ProducerOk(w', r)
    {
      if r != p {
        assert ProducerOk(w, r);
        OtherProducer(w, w', r);
      }
    }
    forall v, r | 0 <= v < |w'.history| && r in w'.producers
      ensures VersionOk(w', v, r)
    {
      if r != p {
        assert VersionOk(w, v, r);
      }
    }
  }

  lemma SpawnPuts(z: Zstd, w: World, s: Step)
    requires Puts(w) && s.Spawn? && Enabled(w, s)
    ensures Puts(Apply(z, w, s))
  {
    hide Own, AppendGroup;
    var w' := Apply(z, w, s);
    assert Cur(w') == Cur(w);
    forall id | 0 <= id < |w'.sent|
      ensures PutOk(w', id)
    {
      assert PutOk(w, id);
      ShapeFrame(w, w', id);
    }
  }

  // ---------------------------------------------------------------- answers that say no, halting, admission

  lemma DeadKeeps(z: Zstd, w: World, id: nat)
    requires Inv(z, w) && id < |w.status| && !w.status[id].Landed?
    ensures Inv(z, SetStatus(w, id, Dead))
  {
    hide Own, AppendGroup, OwnsTail, PlansOk, AcksOk, ManOk, Objects, Chain;
    var w' := SetStatus(w, id, Dead);
    assert Cur(w') == Cur(w);
    RegisterFrame(z, w, w');
    forall k | 0 <= k < |w'.sent|
      ensures PutOk(w', k)
    {
      assert PutOk(w, k);
      ShapeFrame(w, w', k);
    }
    forall r | r in w'.producers
      ensures ProducerOk(w', r)
    {
      assert ProducerOk(w, r);
      if w.producers[r].epoch > 0 {
        var v: nat :| IsClaim(w, v, r, w.producers[r].epoch);
        assert IsClaim(w', v, r, w.producers[r].epoch);
      }
    }
    forall v, r | 0 <= v < |w'.history| && r in w'.producers
      ensures VersionOk(w', v, r)
    {
      assert VersionOk(w, v, r);
    }
  }

  /** A phase outside waiting that keeps the attempted group. */
  predicate Settled(q: Producer, phase: Phase) {
    var q' := q.(phase := phase);
    && Attempted(q') == Attempted(q)
    && Awaited(q') == None
    && (q.epoch == 0 ==> !Working(q'))
    && (q.epoch > 0 ==> !phase.Unclaimed?)
    && (phase.Committing? ==> phase.n > 0)
  }

  lemma PhaseProducer(w: World, p: Run, phase: Phase)
    requires p in w.producers && ProducerOk(w, p) && Settled(w.producers[p], phase)
    requires phase.Committing? && !phase.unknown ==> Own(Cur(w).slots, p) == w.producers[p].done
    ensures ProducerOk(Set(w, p, w.producers[p].(phase := phase)), p)
  {
    hide Own;
    var q := w.producers[p];
    var w' := Set(w, p, q.(phase := phase));
    assert Cur(w') == Cur(w);
    if q.epoch > 0 {
      var v: nat :| IsClaim(w, v, p, q.epoch);
      assert IsClaim(w', v, p, q.epoch);
    }
  }

  /** A change of phase, with the condition under which the producer may forget that an outcome was unknown. */
  lemma PhaseKeeps(z: Zstd, w: World, p: Run, phase: Phase)
    requires Inv(z, w) && p in w.producers && Settled(w.producers[p], phase)
    requires phase.Committing? && !phase.unknown ==>
               Own(Cur(w).slots, p) == w.producers[p].done && NoneLive(w, p)
    ensures Inv(z, Set(w, p, w.producers[p].(phase := phase)))
  {
    hide Own, OwnsTail, ManOk, Chain, Objects, ProducerOk, PutShape, PutLanded;
    var q' := w.producers[p].(phase := phase);
    var w' := Set(w, p, q');
    assert Cur(w') == Cur(w);
    assert ProducerOk(w, p);
    PhaseProducer(w, p, phase);
    forall id | 0 <= id < |w.sent| && w.sent[id].owner == p
      ensures PutLive(w', id)
    {
      assert PutOk(w, id);
      assert LiveBy(w', id, p) == LiveBy(w, id, p);
    }
    forall v | 0 <= v < |w.history|
      ensures VersionOk(w', v, p)
    {
      assert VersionOk(w, v, p);
    }
    SetKeeps(z, w, p, q');
  }

  lemma AnswerNoKeeps(z: Zstd, w: World, s: Step)
    requires Inv(z, w) && (s.AnswerRefused? || s.AnswerUnknown?) && Enabled(w, s)
    ensures Inv(z, Apply(z, w, s))
  {
    hide Own, AppendGroup, OwnsTail, PlansOk, ManOk, Chain, Objects, Versions, AcksOk;
    var p := s.p;
    var q := w.producers[p];
    var id := Awaited(q).value;
    var w1 := if s.AnswerRefused? then SetStatus(w, id, Dead) else w;
    if s.AnswerRefused? {
      DeadKeeps(z, w, id);
    }
    assert Cur(w1) == Cur(w);
    assert ProducerOk(w, p);
    var phase := AfterNo(q, s.AnswerUnknown?).phase;
    if phase.Committing? && !phase.unknown {
      forall k | 0 <= k < |w1.sent|
        ensures !LiveBy(w1, k, p)
      {
        assert PutOk(w, k);
      }
    }
    PhaseKeeps(z, w1, p, phase);
  }

  lemma HaltKeeps(z: Zstd, w: World, s: Step)
    requires Inv(z, w) && s.Halt? && Enabled(w, s)
    ensures Inv(z, Apply(z, w, s))
  {
    PhaseKeeps(z, w, s.p, Halted(Attempted(w.producers[s.p])));
  }

  // ---------------------------------------------------------------- admission, planning, uploads

  /** A change that leaves the commit state of the producer alone. */
  lemma QuietKeeps(z: Zstd, w: World, p: Run, q': Producer)
    requires Inv(z, w) && p in w.producers && Compatible(w.producers[p], q')
    requires var q := w.producers[p];
             && q'.epoch == q.epoch && q'.done == q.done && q'.acks == q.acks
             && Attempted(q') == Attempted(q) && Awaited(q') == Awaited(q)
             && (q'.phase == q.phase || Settled(q, q'.phase))
             && !(q'.phase.Committing? && q'.phase != q.phase)
             && PlansOk(q') && Counters(w, p, q')
    ensures Inv(z, Set(w, p, q'))
  {
    hide Own, OwnsTail, ManOk, Chain, Objects, PlansOk, Counters, PutShape, PutLanded;
    var q := w.producers[p];
    var w' := Set(w, p, q');
    assert Cur(w') == Cur(w);
    assert ProducerOk(w, p);
    assert Counters(w', p, q') by {
      CountersFrame(w, w', p, q');
    }
    if q.epoch > 0 {
      var v: nat :| IsClaim(w, v, p, q.epoch);
      assert IsClaim(w', v, p, q.epoch);
    }
    forall id | 0 <= id < |w.sent| && w.sent[id].owner == p
      ensures PutLive(w', id)
    {
      assert PutOk(w, id);
      assert LiveBy(w', id, p) == LiveBy(w, id, p);
    }
    forall v | 0 <= v < |w.history|
      ensures VersionOk(w', v, p)
    {
      assert VersionOk(w, v, p);
    }
    SetKeeps(z, w, p, q');
  }

  lemma CountersFrame(w: World, w': World, p: Run, q: Producer)
    requires Counters(w, p, q) && w'.objects == w.objects
    ensures Counters(w', p, q)
  {
  }

  lemma AdmitKeeps(z: Zstd, w: World, s: Step)
    requires Inv(z, w) && s.Admit? && Enabled(w, s)
    ensures Inv(z, Apply(z, w, s))
  {
    hide ManOk, Chain, Objects, Puts, Versions, WaitOk, LandedOk, AcksOk;
    var q := w.producers[s.p];
    var q' := q.(admitted := q.admitted + [s.item]);
    assert ProducerOk(w, s.p);
    assert q'.admitted[..q.taken] == q.admitted[..q.taken];
    QuietKeeps(z, w, s.p, q');
  }

  lemma {:induction false} JoinBatchesConcat(a: seq<Batch>, b: seq<Batch>)
    ensures JoinBatches(a + b) == JoinBatches(a) + JoinBatches(b)
  {
    if a == [] {
      assert a + b == b;
    } else {
      assert (a + b)[1..] == a[1..] + b;
      JoinBatchesConcat(a[1..], b);
      assert a[0].items + (JoinBatches(a[1..]) + JoinBatches(b)) == (a[0].items + JoinBatches(a[1..])) + JoinBatches(b);
    }
  }

  lemma {:induction false} JoinOfBatches(groups: seq<seq<Item>>, nowMs: int)
    ensures JoinBatches(Batches(groups, nowMs)) == Join(groups)
  {
    if groups != [] {
      assert Batches(groups, nowMs)[1..] == Batches(groups[1..], nowMs);
      JoinOfBatches(groups[1..], nowMs);
    }
  }

  lemma {:induction false} MembersNonEmpty(groups: seq<seq<Item>>, k: nat)
    requires AllNonEmpty(Join(groups)) && k < |groups|
    ensures AllNonEmpty(groups[k])
    decreases k
  {
    var head, rest := groups[0], Join(groups[1..]);
    if k == 0 {
      forall g | 0 <= g < |head|
        ensures head[g].records != []
      {
        assert (head + rest)[g] == head[g];
      }
    } else {
      forall g | 0 <= g < |rest|
        ensures rest[g].records != []
      {
        assert (head + rest)[|head| + g] == rest[g];
      }
      MembersNonEmpty(groups[1..], k - 1);
    }
  }

  lemma PlannedOk(q: Producer, cap: nat, groups: seq<seq<Item>>, nowMs: int)
    requires PlansOk(q) && IsPacking(cap, q.admitted[q.taken..], groups)
    ensures PlansOk(q.(taken := |q.admitted|, plans := q.plans + Batches(groups, nowMs), phase := Uploading))
  {
    var bs := Batches(groups, nowMs);
    JoinBatchesConcat(q.plans, bs);
    JoinOfBatches(groups, nowMs);
    assert q.admitted[..q.taken] + q.admitted[q.taken..] == q.admitted == q.admitted[..|q.admitted|];
    forall k | 0 <= k < |bs|
      ensures bs[k].items != [] && AllNonEmpty(bs[k].items)
    {
      MembersNonEmpty(groups, k);
    }
  }

  lemma StartFlushKeeps(z: Zstd, w: World, s: Step)
    requires Inv(z, w) && s.StartFlush? && Enabled(w, s)
    ensures Inv(z, Apply(z, w, s))
  {
    hide ManOk, Chain, Objects, Puts, Versions, WaitOk, LandedOk, AcksOk, IsPacking, PlansOk;
    var q := w.producers[s.p];
    var q' := q.(taken := |q.admitted|, plans := q.plans + Batches(s.groups, s.nowMs), phase := Uploading);
    assert ProducerOk(w, s.p);
    PlannedOk(q, s.cap, s.groups, s.nowMs);
    QuietKeeps(z, w, s.p, q');
  }

  lemma FlushStepKeeps(z: Zstd, w: World, s: Step)
    requires Inv(z, w) && (s.FinishUploads? || s.EndFlush?) && Enabled(w, s)
    ensures Inv(z, Apply(z, w, s))
  {
    hide ManOk, Chain, Objects, Puts, Versions, WaitOk, LandedOk, AcksOk;
    var q := w.producers[s.p];
    var q' := if s.FinishUploads? then q.(limit := s.limit, phase := Flushing) else q.(phase := Ready);
    assert ProducerOk(w, s.p);
    QuietKeeps(z, w, s.p, q');
  }

  lemma UploadKeeps(z: Zstd, w: World, s: Step)
    requires Inv(z, w) && s.UploadLands? && Enabled(w, s)
    ensures Inv(z, Apply(z, w, s))
  {
    hide Own, OwnsTail, Ordered, Tiled, SegmentBytes, Flat, Carries, AppendGroup, RecordsFit, PlansOk, AcksOk;
    var w' := Apply(z, w, s);
    assert Cur(w') == Cur(w);
    forall v | 0 <= v < |w'.history|
      ensures Link(w', v)
    {
      assert Link(w, v);
    }
    forall x | 0 <= x < |Cur(w').slots|
      ensures SlotOk(w', Cur(w').slots[x])
    {
      SlotFrame(w, w', Cur(w).slots[x]);
    }
    forall loc
      ensures ObjectOk(z, w', loc)
    {
      assert ObjectOk(z, w, loc);
    }
    UploadPuts(z, w, s);
    forall r | r in w'.producers
      ensures ProducerOk(w', r)
    {
      assert ProducerOk(w, r);
      if w.producers[r].epoch > 0 {
        var v: nat :| IsClaim(w, v, r, w.producers[r].epoch);
        assert IsClaim(w', v, r, w.producers[r].epoch);
      }
    }
    forall v, r | 0 <= v < |w'.history| && r in w'.producers
      ensures VersionOk(w', v, r)
    {
      assert VersionOk(w, v, r);
    }
  }

  lemma UploadPuts(z: Zstd, w: World, s: Step)
    requires Puts(w) && s.UploadLands? && Enabled(w, s)
    ensures Puts(Apply(z, w, s))
  {
    hide Own, AppendGroup, SegmentBytes, Flat, RecordsFit;
    var w' := Apply(z, w, s);
    assert Cur(w') == Cur(w);
    forall id | 0 <= id < |w'.sent|
      ensures PutOk(w', id)
    {
      assert PutOk(w, id);
      ShapeFrame(w, w', id);
    }
  }
}
