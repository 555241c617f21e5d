/** The steps that send, land and acknowledge manifest writes keep the invariant. */
module Commits {
  import opened Invariant
  import opened Packing
  import opened Preservation
  import opened Protocol
  import opened Segment
  import opened Slots

  // ---------------------------------------------------------------- opening a group

  /** Outside a commit, no commit put can still land. */
  lemma IdleNoneLive(w: World, p: Run)
    requires Puts(w) && p in w.producers && Attempted(w.producers[p]) == 0
    ensures NoneLive(w, p)
  {
    hide Own, AppendGroup;
    forall id | 0 <= id < |w.sent|
      ensures !LiveBy(w, id, p)
    {
      assert PutOk(w, id);
    }
  }

  lemma BeginGroupKeeps(z: Zstd, w: World, s: Step)
    requires Inv(z, w) && s.BeginGroup? && Enabled(w, s)
    ensures Inv(z, Apply(z, w, s))
  {
    hide Own, OwnsTail, ManOk, Chain, Objects, PlansOk, PutShape, PutLanded, AcksOk;
    var p := s.p;
    var q := w.producers[p];
    var q' := q.(phase := Committing(s.n, false));
    var w' := Set(w, p, q');
    assert Cur(w') == Cur(w);
    assert ProducerOk(w, p);
    IdleNoneLive(w, p);
    BegunOk(w, p, s.n);
    forall id | 0 <= id < |w.sent| && w.sent[id].owner == p
      ensures PutLive(w', id)
    {
      assert LiveBy(w', id, p) == LiveBy(w, id, p);
    }
    forall v | 0 <= v < |w.history|
      ensures VersionOk(w', v, p)
    {
      assert VersionOk(w, v, p);
    }
    SetKeeps(z, w, p, q');
  }

  lemma BegunOk(w: World, p: Run, n: nat)
    requires p in w.producers && ProducerOk(w, p) && w.producers[p].phase.Flushing?
    requires n > 0 && w.producers[p].done + n <= w.producers[p].limit
    ensures ProducerOk(Set(w, p, w.producers[p].(phase := Committing(n, false))), p)
  {
    hide Own;
    var q := w.producers[p];
    var w' := Set(w, p, q.(phase := Committing(n, false)));
    assert Cur(w') == Cur(w);
    if q.epoch > 0 {
      var v: nat :| IsClaim(w, v, p, q.epoch);
      assert IsClaim(w', v, p, q.epoch);
    }
  }

  // ---------------------------------------------------------------- sending

  lemma SendKeeps(z: Zstd, w: World, put: Put, q': Producer)
    requires Inv(z, w) && put.owner in w.producers && Compatible(w.producers[put.owner], q')
    requires PutShape(SendPut(w, put, q'), |w.sent|) && PutLive(SendPut(w, put, q'), |w.sent|)
    requires forall id :: 0 <= id < |w.sent| && w.sent[id].owner == put.owner ==> PutLive(SendPut(w, put, q'), id)
    requires ProducerOk(SendPut(w, put, q'), put.owner)
    requires forall v :: 0 <= v < |w.history| ==> VersionOk(SendPut(w, put, q'), v, put.owner)
    ensures Inv(z, SendPut(w, put, q'))
  {
    hide ManOk, Chain, Objects, Own, OwnsTail, AppendGroup, PlansOk, AcksOk;
    var w' := SendPut(w, put, q');
    RegisterFrame(z, w, w');
    assert Cur(w') == Cur(w);
    SendPuts(w, put, q');
    forall r | r in w'.producers
      ensures ProducerOk(w', r)
    {
      if r != put.owner {
        assert ProducerOk(w, r);
        OtherAfterSend(w, put, q', r);
      }
    }
    forall v, r | 0 <= v < |w'.history| && r in w'.producers
      ensures VersionOk(w', v, r)
    {
      if r != put.owner {
        assert VersionOk(w, v, r);
      }
    }
  }

  lemma SendPuts(w: World, put: Put, q': Producer)
    requires Puts(w) && put.owner in w.producers && Compatible(w.producers[put.owner], q')
    requires PutShape(SendPut(w, put, q'), |w.sent|) && PutLive(SendPut(w, put, q'), |w.sent|)
    requires forall id :: 0 <= id < |w.sent| && w.sent[id].owner == put.owner ==> PutLive(SendPut(w, put, q'), id)
    ensures Puts(SendPut(w, put, q'))
  {
    hide Own, AppendGroup;
    var w' := SendPut(w, put, q');
    assert Cur(w') == Cur(w);
    forall id | 0 <= id < |w'.sent|
      ensures PutOk(w', id)
    {
      if id < |w.sent| {
        assert PutOk(w, id);
        ShapeFrame(w, w', id);
        assert LiveBy(w', id, w.sent[id].owner) == LiveBy(w, id, w.sent[id].owner);
      }
    }
  }

  lemma OtherAfterSend(w: World, put: Put, q': Producer, r: Run)
    requires r in w.producers && r != put.owner && ProducerOk(w, r) && |w.sent| == |w.status|
    ensures ProducerOk(SendPut(w, put, q'), r)
  {
    hide Own, PlansOk, AcksOk;
    var w' := SendPut(w, put, q');
    assert Cur(w') == Cur(w);
    if w.producers[r].epoch > 0 {
      var v: nat :| IsClaim(w, v, r, w.producers[r].epoch);
      assert IsClaim(w', v, r, w.producers[r].epoch);
    }
  }

  /** The producer that sent the put and waits for it. */
  lemma SentOk(w: World, put: Put, phase: Phase)
    requires put.owner in w.producers && ProducerOk(w, put.owner) && |w.sent| == |w.status|
    requires var q := w.producers[put.owner];
             match phase
             case Claiming(id) => q.phase.Unclaimed? && id == |w.sent| && put.kind == Claim
             case Waiting(n, u, id) =>
               q.phase == Committing(n, u) && id == |w.sent| && put.kind == Append(q.done, n)
             case _ => false
    ensures ProducerOk(SendPut(w, put, w.producers[put.owner].(phase := phase)), put.owner)
  {
    hide Own;
    var p, q := put.owner, w.producers[put.owner];
    var w' := SendPut(w, put, q.(phase := phase));
    assert Cur(w') == Cur(w);
    if q.epoch > 0 {
      var v: nat :| IsClaim(w, v, p, q.epoch);
      assert IsClaim(w', v, p, q.epoch);
    }
  }

  lemma ClaimAttemptKeeps(z: Zstd, w: World, s: Step)
    requires Inv(z, w) && s.ClaimAttempt? && Enabled(w, s)
    ensures Inv(z, Apply(z, w, s))
  {
    hide ManOk, Chain, Objects, Own, OwnsTail, AppendGroup, ProducerOk;
    var p := s.p;
    var q := w.producers[p];
    var m := ManAt(w, s.ver);
    var put := Put(p, s.ver, m.(epoch := m.epoch + 1), Claim);
    var q' := q.(phase := Claiming(|w.sent|));
    var w' := SendPut(w, put, q');
    assert Cur(w') == Cur(w);
    assert ProducerOk(w, p);
    SentOk(w, put, Claiming(|w.sent|));
    IdleNoneLive(w, p);
    forall id | 0 <= id < |w.sent| && w.sent[id].owner == p
      ensures PutLive(w', id)
    {
      assert LiveBy(w', id, p) == LiveBy(w, id, p);
    }
    forall v | 0 <= v < |w.history|
      ensures VersionOk(w', v, p)
    {
      assert VersionOk(w, v, p);
    }
    SendKeeps(z, w, put, q');
  }

  // ---------------------------------------------------------------- a load in commitEntries

  /** In a version with the producer's epoch the group is there whole, as the last slots, or not at all. */
  lemma WholeOrNothing(w: World, p: Run, ver: nat, n: nat)
    requires Chain(w) && ManOk(w) && Versions(w) && p in w.producers && 0 < ver <= |w.history|
    requires Attempted(w.producers[p]) == n > 0 && w.producers[p].epoch > 0
    requires ManAt(w, ver).epoch == w.producers[p].epoch
    ensures var m, q := ManAt(w, ver), w.producers[p];
            var f := Found(m, p, q.done, n);
            if Own(m.slots, p) <= q.done then CountFound(f) == 0
            else Own(m.slots, p) == q.done + n && n <= |m.slots| && CountFound(f) == n &&
                 forall i :: 0 <= i < n ==> HarvestedAt(m, p, q.done, n, i)
    ensures Ordered(ManAt(w, ver).slots)
  {
    hide Own, OwnsTail, Ordered, Found, CountFound, Tiled, HarvestedAt, Chain;
    var m, q := ManAt(w, ver), w.producers[p];
    ChainMonotone(w, ver, |w.history|);
    OrderedPrefix(m.slots, Cur(w).slots);
    assert VersionOk(w, ver - 1, p);
    if Own(m.slots, p) <= q.done {
      FoundNone(m, p, q.done, n);
    } else {
      FoundAll(m, p, q.done, n);
    }
  }

  /** The branch for a partly present group is never taken. */
  lemma NeverPartial(z: Zstd, w: World, p: Run, ver: nat)
    requires Inv(z, w) && Enabled(w, CommitAttempt(p, ver))
    ensures !Decide(w.producers[p], p, w.producers[p].phase.n, w.producers[p].phase.unknown, ManAt(w, ver)).Partial?
  {
    hide Own, Found, CountFound, ManOk, Chain, Objects, Puts, Versions, PlansOk, WaitOk, LandedOk, AcksOk, Ordered;
    var q := w.producers[p];
    assert ProducerOk(w, p);
    if ManAt(w, ver).epoch == q.epoch {
      WholeOrNothing(w, p, ver, q.phase.n);
    }
  }

  /** When the group is sent again, nothing of it is in the current manifest. */
  lemma SendIsSafe(w: World, p: Run)
    requires Chain(w) && ManOk(w) && Versions(w) && p in w.producers && ProducerOk(w, p)
    requires w.producers[p].phase.Committing? && |w.history| > 0
    requires Decide(w.producers[p], p, w.producers[p].phase.n, w.producers[p].phase.unknown, Cur(w)).Send?
    ensures Own(Cur(w).slots, p) == w.producers[p].done
  {
    hide Own, Found, CountFound, ManOk, Chain, Versions, PlansOk, WaitOk, AcksOk, Ordered, HarvestedAt;
    var q := w.producers[p];
    if q.phase.unknown {
      WholeOrNothing(w, p, |w.history|, q.phase.n);
    }
  }

  lemma CommitSendKeeps(z: Zstd, w: World, s: Step)
    requires Inv(z, w) && s.CommitAttempt? && Enabled(w, s)
    requires Decide(w.producers[s.p], s.p, w.producers[s.p].phase.n, w.producers[s.p].phase.unknown,
                    ManAt(w, s.ver)).Send?
    ensures Inv(z, Apply(z, w, s))
  {
    hide ManOk, Chain, Objects, Own, OwnsTail, AppendGroup, Decide, PlansOk, WaitOk, LandedOk, AcksOk;
    var p := s.p;
    var q := w.producers[p];
    var n, u, m := q.phase.n, q.phase.unknown, ManAt(w, s.ver);
    var put := Put(p, s.ver, AppendGroup(m, p, q.plans[q.done..q.done + n], q.done), Append(q.done, n));
    var phase := Waiting(n, u, |w.sent|);
    var q' := q.(phase := phase);
    var w' := SendPut(w, put, q');
    assert Cur(w') == Cur(w);
    assert ProducerOk(w, p);
    assert m.epoch == q.epoch by {
      SendHasEpoch(q, p, n, u, m);
    }
    if s.ver == |w.history| {
      SendIsSafe(w, p);
    }
    SentOk(w, put, phase);
    forall id | 0 <= id < |w.sent| && w.sent[id].owner == p
      ensures PutLive(w', id)
    {
      assert PutOk(w, id);
      assert LiveBy(w', id, p) == LiveBy(w, id, p);
    }
    forall v | 0 <= v < |w.history|
      ensures VersionOk(w', v, p)
    {
      assert VersionOk(w, v, p);
    }
    SendKeeps(z, w, put, q');
  }

  lemma SendHasEpoch(q: Producer, p: Run, n: nat, unknown: bool, m: Man)
    requires Decide(q, p, n, unknown, m).Send?
    ensures m.epoch == q.epoch
  {
  }

  // ---------------------------------------------------------------- acknowledging

  /** The last n slots of m are the group from ordinal lo on, and seqs are their sequences. */
  predicate HoldsGroup(m: Man, p: Run, lo: nat, n: nat, seqs: seq<nat>) {
    && n <= |m.slots| && |seqs| == n
    && forall i :: 0 <= i < n ==> GroupSlot(m, p, lo, n, seqs, i)
  }

  predicate GroupSlot(m: Man, p: Run, lo: nat, n: nat, seqs: seq<nat>, i: nat)
    requires n <= |m.slots| && |seqs| == n && i < n
  {
    m.slots[|m.slots| - n + i].loc == Location(p, lo + i) && m.slots[|m.slots| - n + i].sequence == seqs[i]
  }

  lemma AcksExtend(slots: seq<Slot>, m: Man, p: Run, q: Producer, q': Producer, n: nat, seqs: seq<nat>)
    requires Ordered(slots) && m.slots <= slots && HoldsGroup(m, p, q.done, n, seqs)
    requires AcksOk(slots, p, q) && |q.acks| == q.done
    requires q'.done == q.done + n && q'.acks == q.acks + seqs
    ensures AcksOk(slots, p, q')
  {
    hide Ordered;
    forall x | 0 <= x < |slots| && slots[x].loc.run == p && slots[x].loc.ordinal < q'.done
      ensures slots[x].loc.ordinal < |q'.acks| && slots[x].sequence == q'.acks[slots[x].loc.ordinal]
    {
      if slots[x].loc.ordinal >= q.done {
        var i := slots[x].loc.ordinal - q.done;
        assert GroupSlot(m, p, q.done, n, seqs, i);
        var y := |m.slots| - n + i;
        assert slots[y] == m.slots[y];
        if x < y {
          OrderedDistinct(slots, x, y);
        } else if y < x {
          OrderedDistinct(slots, y, x);
        }
      }
    }
  }

  /** A producer that has seen its group in a version resolves it to the sequences it has there. */
  lemma AcknowledgeKeeps(z: Zstd, w: World, p: Run, m: Man, n: nat, seqs: seq<nat>)
    requires Inv(z, w) && p in w.producers && Attempted(w.producers[p]) == n > 0
    requires !w.producers[p].phase.Halted?
    requires m.slots <= Cur(w).slots && Own(m.slots, p) == w.producers[p].done + n
    requires HoldsGroup(m, p, w.producers[p].done, n, seqs)
    ensures var q := w.producers[p];
            Inv(z, Set(w, p, q.(done := q.done + n, acks := q.acks + seqs, phase := Flushing)))
  {
    hide Own, OwnsTail, Chain, Objects, PlansOk, PutShape, PutLanded, Ordered, Tiled, HoldsGroup, AcksOk;
    var q := w.producers[p];
    var q' := q.(done := q.done + n, acks := q.acks + seqs, phase := Flushing);
    var w' := Set(w, p, q');
    assert Cur(w') == Cur(w);
    assert ProducerOk(w, p);
    OwnPrefix(m.slots, Cur(w).slots, p);
    AcksExtend(Cur(w).slots, m, p, q, q', n, seqs);
    assert |seqs| == n by {
      GroupLength(m, p, q.done, n, seqs);
    }
    assert PlansOk(q') by {
      SamePlans(q, q');
    }
    if q.epoch > 0 {
      var v: nat :| IsClaim(w, v, p, q.epoch);
      assert IsClaim(w', v, p, q.epoch);
    }
    forall id | 0 <= id < |w.sent| && w.sent[id].owner == p
      ensures PutLive(w', id)
    {
      assert PutOk(w, id);
      assert LiveBy(w', id, p) == LiveBy(w, id, p);
    }
    forall v | 0 <= v < |w.history|
      ensures VersionOk(w', v, p)
    {
      assert VersionOk(w, v, p);
    }
    SetKeeps(z, w, p, q');
  }

  lemma GroupLength(m: Man, p: Run, lo: nat, n: nat, seqs: seq<nat>)
    requires HoldsGroup(m, p, lo, n, seqs)
    ensures |seqs| == n
  {
  }

  lemma SamePlans(q: Producer, q': Producer)
    requires PlansOk(q) && q'.plans == q.plans && q'.taken == q.taken && q'.admitted == q.admitted
    ensures PlansOk(q')
  {
  }

  lemma HarvestKeeps(z: Zstd, w: World, s: Step)
    requires Inv(z, w) && s.CommitAttempt? && Enabled(w, s)
    requires Decide(w.producers[s.p], s.p, w.producers[s.p].phase.n, w.producers[s.p].phase.unknown,
                    ManAt(w, s.ver)).Harvested?
    ensures Inv(z, Apply(z, w, s))
  {
    hide Own, Found, CountFound, ManOk, Chain, Objects, Puts, Versions, PlansOk, WaitOk, LandedOk, AcksOk, Ordered;
    var p := s.p;
    var q := w.producers[p];
    var n, m := q.phase.n, ManAt(w, s.ver);
    var seqs := Decide(q, p, n, q.phase.unknown, m).seqs;
    assert ProducerOk(w, p);
    WholeOrNothing(w, p, s.ver, n);
    ChainMonotone(w, s.ver, |w.history|);
    assert HoldsGroup(m, p, q.done, n, seqs) by {
      forall i | 0 <= i < n
        ensures GroupSlot(m, p, q.done, n, seqs, i)
      {
        assert HarvestedAt(m, p, q.done, n, i);
      }
    }
    AcknowledgeKeeps(z, w, p, m, n, seqs);
  }

  /** A commit put that landed put its group, whole, behind exactly the ordinals before it. */
  lemma LandedGroup(w: World, id: nat)
    requires Chain(w) && ManOk(w) && id < |w.sent| == |w.status| && PutOk(w, id)
    requires w.status[id].Landed? && w.sent[id].kind.Append?
    ensures var x := w.sent[id];
            var lo, n := x.kind.lo, x.kind.n;
            && x.onto < |w.history| && x.man == ManAt(w, x.onto + 1)
            && x.man.slots <= Cur(w).slots
            && n <= |x.man.slots| && Own(x.man.slots, x.owner) == lo + n
            && HoldsGroup(x.man, x.owner, lo, n, LastSequences(x.man, n))
  {
    hide Own, Chain, Tiled, SlotOk, PutLive, Ordered, AppendGroup, HoldsGroup;
    var x := w.sent[id];
    ChainMonotone(w, x.onto + 1, |w.history|);
    OrderedPrefix(x.man.slots, Cur(w).slots);
    GroupOwn(ManAt(w, x.onto), x.owner, w.producers[x.owner].plans[x.kind.lo..x.kind.lo + x.kind.n], x.kind.lo);
  }

  /** If appending the group leaves the slots in order, the group was the run's next one. */
  lemma GroupOwn(prev: Man, p: Run, bs: seq<Batch>, lo: nat)
    requires bs != [] && Ordered(AppendGroup(prev, p, bs, lo).slots)
    ensures var r := AppendGroup(prev, p, bs, lo);
            && |bs| <= |r.slots|
            && Own(prev.slots, p) == lo && Own(r.slots, p) == lo + |bs|
            && HoldsGroup(r, p, lo, |bs|, LastSequences(r, |bs|))
  {
    hide Own, AppendGroup, Metas, Total;
    var r, n := AppendGroup(prev, p, bs, lo), |bs|;
    GroupFacts(prev, p, bs, lo);
    forall i | 0 <= i < n
      ensures GroupSlot(r, p, lo, n, LastSequences(r, n), i)
    {
      assert Carries(r.slots[|prev.slots| + i], p, lo + i, bs[i]);
    }
    assert r.slots[..|prev.slots|] == prev.slots;
    assert Carries(r.slots[|prev.slots|], p, lo, bs[0]);
    assert GroupSlot(r, p, lo, n, LastSequences(r, n), n - 1);
    var front := r.slots[..|r.slots| - 1];
    assert r.slots == front + [r.slots[|r.slots| - 1]];
    OwnSnoc(front, r.slots[|r.slots| - 1], p);
  }

  lemma CommitOkKeeps(z: Zstd, w: World, s: Step)
    requires Inv(z, w) && s.AnswerOk? && Enabled(w, s) && w.producers[s.p].phase.Waiting?
    ensures Inv(z, Apply(z, w, s))
  {
    hide Own, ManOk, Chain, Objects, Versions, PlansOk, LandedOk, AcksOk, HoldsGroup, PutOk;
    var p := s.p;
    var q := w.producers[p];
    assert ProducerOk(w, p);
    assert PutOk(w, q.phase.id);
    LandedGroup(w, q.phase.id);
    var man := w.sent[q.phase.id].man;
    AcknowledgeKeeps(z, w, p, man, q.phase.n, LastSequences(man, q.phase.n));
  }

  lemma ClaimOkKeeps(z: Zstd, w: World, s: Step)
    requires Inv(z, w) && s.AnswerOk? && Enabled(w, s) && w.producers[s.p].phase.Claiming?
    ensures Inv(z, Apply(z, w, s))
  {
    hide Own, OwnsTail, ManOk, Chain, Objects;
    var p := s.p;
    var q := w.producers[p];
    assert ProducerOk(w, p);
    var id := q.phase.id;
    assert PutOk(w, id);
    var q' := q.(epoch := w.sent[id].man.epoch, phase := Ready);
    var w' := Set(w, p, q');
    assert Cur(w') == Cur(w);
    assert IsClaim(w', w.sent[id].onto, p, q'.epoch);
    IdleNoneLive(w, p);
    forall k | 0 <= k < |w.sent| && w.sent[k].owner == p
      ensures PutLive(w', k)
    {
      assert LiveBy(w', k, p) == LiveBy(w, k, p);
    }
    forall v | 0 <= v < |w.history|
      ensures VersionOk(w', v, p)
    {
      assert VersionOk(w, v, p);
      OwnsNothing(w.history[v].man.slots, p);
    }
    SetKeeps(z, w, p, q');
  }

  lemma OwnsNothing(slots: seq<Slot>, p: Run)
    ensures Own(slots, p) == 0 ==> OwnsTail(slots, p)
  {
  }
}
