/** What every reachable state of the protocol satisfies. */
module Invariant {
  import opened Packing
  import opened Protocol
  import opened Segment
  import opened Slots

  // ---------------------------------------------------------------- the register

  /** A claim raises the epoch and nothing else; a commit appends segments of its writer under an unchanged epoch. */
  predicate Extends(prev: Man, v: Version) {
    if v.claim then v.man == Man(prev.epoch + 1, prev.next, prev.slots)
    else
      && v.man.epoch == prev.epoch && prev.slots < v.man.slots && prev.next < v.man.next
      && forall x :: |prev.slots| <= x < |v.man.slots| ==> v.man.slots[x].loc.run == v.writer
  }

  predicate Link(w: World, v: nat)
    requires v < |w.history|
  {
    w.history[v].writer in w.producers && Extends(ManAt(w, v), w.history[v])
  }

  predicate Chain(w: World) {
    forall v :: 0 <= v < |w.history| ==> Link(w, v)
  }

  /** The slot is a planned segment whose object is stored. */
  predicate SlotOk(w: World, s: Slot) {
    && s.loc.run in w.producers
    && s.loc.ordinal < |w.producers[s.loc.run].plans|
    && Carries(s, s.loc.run, s.loc.ordinal, w.producers[s.loc.run].plans[s.loc.ordinal])
    && s.loc in w.objects
  }

  predicate ManOk(w: World) {
    && Ordered(Cur(w).slots)
    && Tiled(Cur(w))
    && forall x :: 0 <= x < |Cur(w).slots| ==> SlotOk(w, Cur(w).slots[x])
  }

  /** A stored object is the encoding of the segment planned for its location. */
  ghost predicate ObjectOk(z: Zstd, w: World, loc: Location) {
    loc in w.objects ==>
      && loc.run in w.producers
      && loc.ordinal < |w.producers[loc.run].plans|
      && var q := w.producers[loc.run];
         && RecordsFit(Flat(q.plans[loc.ordinal].items))
         && w.objects[loc] == SegmentBytes(z, Flat(q.plans[loc.ordinal].items), q.comp, q.legacy)
  }

  // ---------------------------------------------------------------- puts

  /** The put was computed from the version it expects, by a producer entitled to it. */
  predicate PutShape(w: World, id: nat)
    requires id < |w.sent| == |w.status|
  {
    var x := w.sent[id];
    && x.owner in w.producers
    && x.onto <= |w.history|
    && match x.kind
       case Claim => x.man == Man(ManAt(w, x.onto).epoch + 1, ManAt(w, x.onto).next, ManAt(w, x.onto).slots)
       case Append(lo, n) =>
         var q := w.producers[x.owner];
         && n > 0 && lo + n <= |q.plans|
         && q.epoch > 0 && ManAt(w, x.onto).epoch == q.epoch
         && x.man == AppendGroup(ManAt(w, x.onto), x.owner, q.plans[lo..lo + n], lo)
         && forall k :: lo <= k < lo + n ==> Location(x.owner, k) in w.objects
  }

  /** A put that landed is the version behind the one it expects. */
  predicate PutLanded(w: World, id: nat)
    requires id < |w.sent| == |w.status|
  {
    var x := w.sent[id];
    w.status[id].Landed? ==>
      x.onto < |w.history| && w.history[x.onto] == Version(x.man, x.owner, x.kind.Claim?)
  }

  predicate LiveBy(w: World, id: nat, p: Run)
    requires id < |w.sent| == |w.status|
  {
    && w.status[id].InFlight? && w.sent[id].kind.Append?
    && w.sent[id].onto == |w.history| && w.sent[id].owner == p
  }

  /** No commit put of the producer can still land. */
  predicate NoneLive(w: World, p: Run) {
    |w.sent| == |w.status| && forall id :: 0 <= id < |w.sent| ==> !LiveBy(w, id, p)
  }

  /** A commit put that could still land carries the group its owner is trying to commit, and nothing of that
      group is in the manifest. */
  predicate PutLive(w: World, id: nat)
    requires id < |w.sent| == |w.status|
  {
    var x := w.sent[id];
    LiveBy(w, id, x.owner) && x.owner in w.producers ==>
      var q := w.producers[x.owner];
      && x.kind == Append(q.done, Attempted(q))
      && Own(Cur(w).slots, x.owner) == q.done
      && (q.phase.Committing? ==> q.phase.unknown)
      && (q.phase.Waiting? && !q.phase.unknown ==> q.phase.id == id)
  }

  predicate PutOk(w: World, id: nat)
    requires id < |w.sent| == |w.status|
  {
    PutShape(w, id) && PutLanded(w, id) && PutLive(w, id)
  }

  // ---------------------------------------------------------------- producers

  function JoinBatches(plans: seq<Batch>): seq<Item> {
    if plans == [] then [] else plans[0].items + JoinBatches(plans[1..])
  }

  /** Segments partition the drained Appends in admission order. */
  predicate PlansOk(q: Producer) {
    && q.taken <= |q.admitted|
    && JoinBatches(q.plans) == q.admitted[..q.taken]
    && AllNonEmpty(q.admitted)
    && forall k :: 0 <= k < |q.plans| ==> q.plans[k].items != [] && AllNonEmpty(q.plans[k].items)
  }

  predicate Counters(w: World, p: Run, q: Producer) {
    && |q.acks| == q.done
    && q.done + Attempted(q) <= q.limit <= |q.plans|
    && (forall k :: 0 <= k < q.limit ==> Location(p, k) in w.objects)
    && (q.phase.Committing? || q.phase.Waiting? ==> q.phase.n > 0)
    && (q.epoch == 0 ==> q.plans == [] && q.admitted == [] && !Working(q))
    && (q.epoch > 0 ==> !q.phase.Unclaimed? && !q.phase.Claiming?)
    && (q.comp == COMPRESSION_NONE || q.comp == COMPRESSION_ZSTD)
  }

  predicate IsClaim(w: World, v: nat, p: Run, epoch: nat) {
    v < |w.history| && w.history[v].claim && w.history[v].writer == p && w.history[v].man.epoch == epoch
  }

  predicate WaitOk(w: World, p: Run, q: Producer) {
    Awaited(q).Some? ==>
      var id := Awaited(q).value;
      && id < |w.sent| == |w.status|
      && w.sent[id].owner == p
      && (q.phase.Claiming? ==> w.sent[id].kind == Claim)
      && (q.phase.Waiting? ==> w.sent[id].kind == Append(q.done, q.phase.n))
      && (q.phase.Waiting? && !q.phase.unknown && !w.status[id].Landed? ==> Own(Cur(w).slots, p) == q.done)
  }

  /** The manifest holds the acknowledged segments and at most the one group under way. */
  predicate LandedOk(w: World, p: Run, q: Producer) {
    && (Own(Cur(w).slots, p) == q.done || Own(Cur(w).slots, p) == q.done + Attempted(q))
    && (q.phase.Committing? && !q.phase.unknown ==> Own(Cur(w).slots, p) == q.done)
  }

  /** Acknowledged segments are where they were said to be. */
  predicate AcksOk(slots: seq<Slot>, p: Run, q: Producer) {
    forall x :: 0 <= x < |slots| && slots[x].loc.run == p && slots[x].loc.ordinal < q.done ==>
      slots[x].loc.ordinal < |q.acks| && slots[x].sequence == q.acks[slots[x].loc.ordinal]
  }

  ghost predicate ProducerOk(w: World, p: Run)
    requires p in w.producers
  {
    var q := w.producers[p];
    && PlansOk(q)
    && Counters(w, p, q)
    && WaitOk(w, p, q)
    && LandedOk(w, p, q)
    && AcksOk(Cur(w).slots, p, q)
    && (q.epoch > 0 ==> exists v: nat :: IsClaim(w, v, p, q.epoch))
  }

  /** No version holds part of a group, and under its own epoch a producer's slots are the last ones. */
  predicate VersionOk(w: World, v: nat, p: Run)
    requires v < |w.history| && p in w.producers
  {
    var q, slots := w.producers[p], w.history[v].man.slots;
    && (Own(slots, p) <= q.done || Own(slots, p) == q.done + Attempted(q))
    && (q.epoch > 0 && w.history[v].man.epoch == q.epoch ==> OwnsTail(slots, p))
    && (w.history[v].writer == p && !w.history[v].claim ==> q.epoch == w.history[v].man.epoch > 0)
  }

  ghost predicate Objects(z: Zstd, w: World) {
    forall loc :: ObjectOk(z, w, loc)
  }

  predicate Puts(w: World) {
    |w.sent| == |w.status| && forall id :: 0 <= id < |w.sent| ==> PutOk(w, id)
  }

  ghost predicate Producers(w: World) {
    forall p :: p in w.producers ==> ProducerOk(w, p)
  }

  predicate Versions(w: World) {
    forall v, p :: 0 <= v < |w.history| && p in w.producers ==> VersionOk(w, v, p)
  }

  ghost predicate Inv(z: Zstd, w: World) {
    Chain(w) && ManOk(w) && Objects(z, w) && Puts(w) && Producers(w) && Versions(w)
  }

  // ---------------------------------------------------------------- consequences used by the steps

  lemma PrefixTransitive(a: seq<Slot>, b: seq<Slot>, c: seq<Slot>)
    requires a <= b <= c
    ensures a <= c
  {
  }

  lemma {:induction false} ChainMonotone(w: World, u: nat, v: nat)
    requires Chain(w) && u <= v <= |w.history|
    ensures ManAt(w, u).epoch <= ManAt(w, v).epoch
    ensures ManAt(w, u).slots <= ManAt(w, v).slots
    ensures ManAt(w, u).next <= ManAt(w, v).next
    ensures u < v && w.history[v - 1].claim ==> ManAt(w, u).epoch < ManAt(w, v).epoch
    decreases v
  {
    if u < v {
      ChainMonotone(w, u, v - 1);
      assert Link(w, v - 1);
      PrefixTransitive(ManAt(w, u).slots, ManAt(w, v - 1).slots, ManAt(w, v).slots);
    }
  }

  /** Two producers never hold the same epoch. */
  lemma EpochsDiffer(w: World, p: Run, q: Run)
    requires Chain(w) && p in w.producers && q in w.producers && ProducerOk(w, p) && ProducerOk(w, q)
    requires w.producers[p].epoch == w.producers[q].epoch > 0
    ensures p == q
  {
    hide Chain, PlansOk, Counters, WaitOk, LandedOk, AcksOk;
    var e := w.producers[p].epoch;
    var u: nat :| IsClaim(w, u, p, e);
    var v: nat :| IsClaim(w, v, q, e);
    if u < v {
      ChainMonotone(w, u + 1, v + 1);
    } else if v < u {
      ChainMonotone(w, v + 1, u + 1);
    }
  }
}
