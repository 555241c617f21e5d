/** What a producer's in-flight counters and Durability outcomes stand for. */
module Accounting {
  import opened CommitLoop
  import opened Entries
  import opened Invariant
  import opened Landing
  import opened Packing
  import opened Protocol
  import opened Provenance
  import opened Segment
  import opened Wrappers

  /** How a Durability was resolved. */
  datatype Resolution = At(first: nat) | Failed

  /** An Append waiting for a flush; id is its place in the admission order. */
  datatype Pending = Pending(id: nat, item: Item)

  datatype Limits = Limits(
    maxBytes: nat,
    maxBatches: nat,
    flushBytes: nat,
    segmentMax: nat,
    groupMax: nat,
    uploadAttempts: nat,
    manifestAttempts: nat,
    commitConflicts: nat)

  /** withDefaults leaves no budget at zero except flushBytes, segmentMax and groupMax, where zero means unlimited. */
  predicate Usable(l: Limits) {
    l.maxBytes > 0 && l.maxBatches > 0 && l.uploadAttempts > 0 && l.manifestAttempts > 0 && l.commitConflicts > 0
  }

  // ---------------------------------------------------------------- counters

  /** The producer's own fields, with how many Appends have left the queue and how many are resolved. */
  datatype Ledger = Ledger(
    pending: seq<Pending>,
    pendByte: int,
    bytes: int,
    count: int,
    ordinal: nat,
    halted: bool,
    closing: bool,
    outcomes: map<nat, Resolution>,
    taken: nat,
    resolved: nat)

  predicate Queued(admitted: seq<Item>, taken: nat, pending: seq<Pending>)
    requires taken <= |admitted|
  {
    && |pending| == |admitted| - taken
    && forall i :: 0 <= i < |pending| ==> pending[i] == Pending(taken + i, admitted[taken + i])
  }

  /** Of the admitted Appends the first taken have left the queue, and of these the first resolved are resolved. The
      counters are the sums over exactly the Appends that are not resolved. */
  ghost predicate Books(admitted: seq<Item>, l: Ledger) {
    && l.resolved <= l.taken <= |admitted|
    && Queued(admitted, l.taken, l.pending)
    && l.pendByte == Weight(admitted[l.taken..])
    && l.bytes == Weight(admitted[l.resolved..])
    && l.count == |admitted| - l.resolved
    && forall id :: id in l.outcomes <==> 0 <= id < l.resolved
  }

  /** The budgets hold, or a single Append larger than them is in flight. */
  predicate WithinBudget(limits: Limits, l: Ledger) {
    l.count <= 1 || (l.bytes <= limits.maxBytes && l.count <= limits.maxBatches)
  }

  predicate Fits(limits: Limits, l: Ledger, b: nat) {
    l.count == 0 || (l.bytes + b <= limits.maxBytes && l.count + 1 <= limits.maxBatches)
  }

  function Enqueue(l: Ledger, id: nat, item: Item): Ledger {
    var b := Size(item.records);
    l.(pending := l.pending + [Pending(id, item)], pendByte := l.pendByte + b, bytes := l.bytes + b, count := l.count + 1)
  }

  function Drain(l: Ledger): Ledger {
    l.(pending := [], pendByte := 0, taken := l.taken + |l.pending|)
  }

  /** Resolves the next Appends in admission order and returns their budget. */
  function Settle(l: Ledger, outs: seq<Resolution>, b: nat): Ledger {
    l.(outcomes := Extended(l.outcomes, l.resolved, outs), bytes := l.bytes - b, count := l.count - |outs|,
       resolved := l.resolved + |outs|)
  }

  function Extended(outcomes: map<nat, Resolution>, from: nat, outs: seq<Resolution>): (m: map<nat, Resolution>)
    ensures forall id :: id in m <==> id in outcomes || from <= id < from + |outs|
    ensures forall id :: id in m ==>
              m[id] == if from <= id < from + |outs| then outs[id - from] else outcomes[id]
    decreases |outs|
  {
    if outs == [] then outcomes else Extended(outcomes[from := outs[0]], from + 1, outs[1..])
  }

  lemma WeightFrom(admitted: seq<Item>, k: nat, item: Item)
    requires k <= |admitted|
    ensures (admitted + [item])[k..] == admitted[k..] + [item]
    ensures Weight((admitted + [item])[k..]) == Weight(admitted[k..]) + Size(item.records)
  {
    WeightSnoc(admitted[k..], item);
  }

  lemma WeightSplit(admitted: seq<Item>, r: nat, r': nat)
    requires r <= r' <= |admitted|
    ensures Weight(admitted[r..]) == Weight(admitted[r..r']) + Weight(admitted[r'..])
  {
    assert admitted[r..] == admitted[r..r'] + admitted[r'..];
    Concatenated(admitted[r..r'], admitted[r'..]);
  }

  lemma BooksEnqueue(admitted: seq<Item>, l: Ledger, item: Item)
    requires Books(admitted, l)
    ensures Books(admitted + [item], Enqueue(l, |admitted|, item))
  {
    hide Weight, Size;
    WeightFrom(admitted, l.taken, item);
    WeightFrom(admitted, l.resolved, item);
  }

  lemma BooksDrain(admitted: seq<Item>, l: Ledger)
    requires Books(admitted, l)
    ensures Books(admitted, Drain(l)) && Drain(l).taken == |admitted|
  {
    assert admitted[|admitted|..] == [];
  }

  lemma BooksSettle(admitted: seq<Item>, l: Ledger, outs: seq<Resolution>)
    requires Books(admitted, l) && l.resolved + |outs| <= l.taken
    ensures Books(admitted, Settle(l, outs, Weight(admitted[l.resolved..l.resolved + |outs|])))
  {
    hide Weight;
    WeightSplit(admitted, l.resolved, l.resolved + |outs|);
  }

  // ---------------------------------------------------------------- segments as slices of the admission order

  lemma {:induction false} ItemsBeforeAll(plans: seq<Batch>)
    ensures ItemsBefore(plans, |plans|) == |JoinBatches(plans)|
  {
    if plans != [] {
      ItemsBeforeAll(plans[1..]);
    }
  }

  lemma {:induction false} ItemsBeforeNext(plans: seq<Batch>, k: nat)
    requires k < |plans|
    ensures ItemsBefore(plans, k + 1) == ItemsBefore(plans, k) + |plans[k].items|
    decreases k
  {
    if k > 0 {
      ItemsBeforeNext(plans[1..], k - 1);
    } else {
      assert ItemsBefore(plans[1..], 0) == 0;
    }
  }

  lemma {:induction false} ItemsBeforePrefix(plans: seq<Batch>, more: seq<Batch>, k: nat)
    requires k <= |plans|
    ensures ItemsBefore(plans + more, k) == ItemsBefore(plans, k)
    decreases k
  {
    if k > 0 {
      assert (plans + more)[1..] == plans[1..] + more;
      ItemsBeforePrefix(plans[1..], more, k - 1);
    }
  }

  /** The items of segment k are consecutive Appends. */
  lemma SegmentIsSlice(q: Producer, k: nat)
    requires PlansOk(q) && k < |q.plans|
    ensures var lo, hi := ItemsBefore(q.plans, k), ItemsBefore(q.plans, k + 1);
            hi <= q.taken && lo + |q.plans[k].items| == hi && q.admitted[lo..hi] == q.plans[k].items
  {
    hide JoinBatches, ItemsBefore;
    ItemsBeforeNext(q.plans, k);
    var lo, items := ItemsBefore(q.plans, k), q.plans[k].items;
    forall g | 0 <= g < |items|
      ensures lo + g < q.taken && q.admitted[lo + g] == items[g]
    {
      JoinAt(q.plans, k, g);
    }
    JoinAt(q.plans, k, |items| - 1);
  }

  lemma AllTaken(q: Producer)
    requires PlansOk(q)
    ensures ItemsBefore(q.plans, |q.plans|) == q.taken
  {
    ItemsBeforeAll(q.plans);
  }

  // ---------------------------------------------------------------- outcomes

  /** Item g of segment k, if resolved, was resolved to where its first record is. */
  predicate Settled(q: Producer, outcomes: map<nat, Resolution>, k: nat, g: nat)
    requires k < |q.plans| && k < |q.acks| && g < |q.plans[k].items|
  {
    var id := ItemsBefore(q.plans, k) + g;
    id in outcomes ==> outcomes[id] == At(ResolvedTo(q, k, g))
  }

  /** Committed Appends succeed with their own position, all others fail. */
  predicate Truthful(q: Producer, outcomes: map<nat, Resolution>) {
    && q.done <= |q.plans| && q.done <= |q.acks|
    && (forall k, g :: 0 <= k < q.done && 0 <= g < |q.plans[k].items| ==> Settled(q, outcomes, k, g))
    && forall id :: id in outcomes && id >= ItemsBefore(q.plans, q.done) ==> outcomes[id] == Failed
  }

  /** The segment and the item an Append went into. */
  lemma {:induction false} SegmentOf(plans: seq<Batch>, done: nat, id: nat) returns (k: nat, g: nat)
    requires done <= |plans| && id < ItemsBefore(plans, done)
    ensures k < done && g < |plans[k].items| && id == ItemsBefore(plans, k) + g
    decreases done
  {
    ItemsBeforeNext(plans, done - 1);
    if id < ItemsBefore(plans, done - 1) {
      k, g := SegmentOf(plans, done - 1, id);
    } else {
      k, g := done - 1, id - ItemsBefore(plans, done - 1);
    }
  }

  /** Which Appends succeed: a prefix of the admission order, so a failure is never followed by a success. */
  lemma SuccessIsPrefix(q: Producer, outcomes: map<nat, Resolution>, id: nat)
    requires Truthful(q, outcomes) && id in outcomes
    ensures outcomes[id].At? <==> id < ItemsBefore(q.plans, q.done)
  {
    hide ItemsBefore, ResolvedTo;
    if id < ItemsBefore(q.plans, q.done) {
      var k, g := SegmentOf(q.plans, q.done, id);
      assert Settled(q, outcomes, k, g);
    }
  }

  /** What Wait returned is where the records are: record j of the Append is at first + j, under any later state of
      the log, and a reader finds it there with the Append's own metadata. */
  lemma ResolvedIsInLog(z: Zstd, w: World, p: Run, outcomes: map<nat, Resolution>, id: nat, j: nat)
    requires Reachable(z, w) && p in w.producers && Truthful(w.producers[p], outcomes)
    requires id in outcomes && outcomes[id].At? && id < |w.producers[p].admitted|
    requires j < |w.producers[p].admitted[id].records|
    ensures Originates(w, outcomes[id].first + j, Origin(p, id, j))
    ensures Lossless(z) ==>
              LogRecord(z, w, outcomes[id].first + j) ==
                Some((w.producers[p].admitted[id].records[j], w.producers[p].admitted[id].meta))
  {
    hide Reachable, ItemsBefore, Originates, LogRecord, Lossless, ResolvedTo, Chain, ManOk, Objects, Puts, Versions,
      WaitOk, LandedOk, AcksOk, JoinBatches;
    var q := w.producers[p];
    SuccessIsPrefix(q, outcomes, id);
    var k, g := SegmentOf(q.plans, q.done, id);
    assert Settled(q, outcomes, k, g);
    ReachableHolds(z, w);
    assert ProducerOk(w, p);
    SegmentIsSlice(q, k);
    assert q.plans[k].items[g] == q.admitted[id];
    AcknowledgedIsInLog(z, w, p, k, g, j);
    if Lossless(z) {
      OriginIsRead(z, w, outcomes[id].first + j, Origin(p, id, j));
    }
  }

  // ---------------------------------------------------------------- the object against the protocol

  /** A producer's fields agree with its state in the protocol. */
  ghost predicate Sound(z: Zstd, p: Run, limits: Limits, w: World, l: Ledger) {
    && Usable(limits) && WithinBudget(limits, l)
    && Reachable(z, w) && |w.sent| == |w.status| && p in w.producers
    && var q := w.producers[p];
    && q.epoch > 0 && l.ordinal == |q.plans|
    && Books(q.admitted, l) && Truthful(q, l.outcomes)
    && q.taken <= l.taken && (if l.halted then q.phase.Halted? else q.taken == l.taken)
  }

  /** No flush is running: everything that left the queue is resolved. */
  ghost predicate Resting(z: Zstd, p: Run, limits: Limits, w: World, l: Ledger) {
    && Sound(z, p, limits, w, l) && l.resolved == l.taken
    && (!l.halted ==> w.producers[p].phase.Ready? && w.producers[p].done == |w.producers[p].plans|)
  }

  predicate SameAccounts(q: Producer, q': Producer) {
    && q'.epoch == q.epoch && q'.admitted == q.admitted && q'.taken == q.taken && q'.plans == q.plans
    && q'.done == q.done && q'.acks == q.acks
  }

  lemma TruthfulSame(q: Producer, q': Producer, outcomes: map<nat, Resolution>)
    requires Truthful(q, outcomes) && q'.plans == q.plans && q'.done == q.done && q'.acks == q.acks
    ensures Truthful(q', outcomes)
  {
    hide ItemsBefore, Metas;
    forall k, g | 0 <= k < q'.done && 0 <= g < |q'.plans[k].items|
      ensures Settled(q', outcomes, k, g)
    {
      assert Settled(q, outcomes, k, g);
    }
  }

  /** Steps that leave the producer's accounts alone keep it sound. */
  lemma SoundMoves(z: Zstd, p: Run, limits: Limits, w: World, w': World, l: Ledger)
    requires Sound(z, p, limits, w, l) && Reaches(z, w, w') && |w'.sent| == |w'.status|
    requires p in w'.producers && SameAccounts(w.producers[p], w'.producers[p])
    requires l.halted ==> w'.producers[p].phase.Halted?
    ensures Sound(z, p, limits, w', l)
  {
    hide Reachable, Reaches, Books, Truthful;
    ReachableFrom(z, w, w');
    TruthfulSame(w.producers[p], w'.producers[p], l.outcomes);
  }

  lemma SoundEnqueue(z: Zstd, p: Run, limits: Limits, w: World, l: Ledger, item: Item)
    requires Sound(z, p, limits, w, l) && item.records != [] && Fits(limits, l, Size(item.records))
    ensures var w' := Set(w, p, w.producers[p].(admitted := w.producers[p].admitted + [item]));
            && Enabled(w, Admit(p, item)) && Apply(z, w, Admit(p, item)) == w'
            && Sound(z, p, limits, w', Enqueue(l, |w.producers[p].admitted|, item))
  {
    hide Reachable, Reaches, Books, Truthful, Size;
    ReachesSelf(z, w);
    ReachesStep(z, w, w, Admit(p, item));
    var w' := Apply(z, w, Admit(p, item));
    ReachableFrom(z, w, w');
    TruthfulSame(w.producers[p], w'.producers[p], l.outcomes);
    BooksEnqueue(w.producers[p].admitted, l, item);
  }

  // ---------------------------------------------------------------- a flush, on values

  /** Taking the queue and planning it: the planned segments hold exactly the taken Appends. */
  lemma SoundStart(z: Zstd, p: Run, limits: Limits, w: World, l: Ledger, groups: seq<seq<Item>>, nowMs: int)
    requires Resting(z, p, limits, w, l) && !l.halted
    requires IsPacking(limits.segmentMax, w.producers[p].admitted[l.taken..], groups)
    ensures var s := StartFlush(p, limits.segmentMax, groups, nowMs);
            var q := w.producers[p];
            && Enabled(w, s)
            && var w' := Apply(z, w, s);
               && w' == Set(w, p, q.(taken := |q.admitted|, plans := q.plans + Batches(groups, nowMs), phase := Uploading))
               && Sound(z, p, limits, w', Drain(l).(ordinal := l.ordinal + |groups|))
               && ItemsBefore(w'.producers[p].plans, q.done) == l.resolved
  {
    hide Reachable, Reaches, Books, Truthful, ItemsBefore, IsPacking;
    var s, q := StartFlush(p, limits.segmentMax, groups, nowMs), w.producers[p];
    assert l.taken == q.taken <= |q.admitted| by {
      BooksRange(q.admitted, l);
    }
    ReachesSelf(z, w);
    ReachesStep(z, w, w, s);
    var w' := Apply(z, w, s);
    ReachableFrom(z, w, w');
    BooksDrain(q.admitted, l);
    PlansAreOk(z, w, p);
    AllTaken(q);
    ItemsBeforePrefix(q.plans, Batches(groups, nowMs), q.done);
    TruthfulMore(q, w'.producers[p], l.outcomes);
    BooksOrdinal(q.admitted, Drain(l), l.ordinal + |groups|);
  }

  lemma BooksRange(admitted: seq<Item>, l: Ledger)
    requires Books(admitted, l)
    ensures l.resolved <= l.taken <= |admitted|
  {
  }

  lemma BooksOrdinal(admitted: seq<Item>, l: Ledger, ordinal: nat)
    requires Books(admitted, l)
    ensures Books(admitted, l.(ordinal := ordinal))
  {
  }

  lemma PlansAreOk(z: Zstd, w: World, p: Run)
    requires Reachable(z, w) && p in w.producers
    ensures PlansOk(w.producers[p]) && |w.producers[p].acks| == w.producers[p].done <= |w.producers[p].plans|
  {
    hide Reachable, Chain, ManOk, Objects, Puts, Versions, PlansOk, WaitOk, LandedOk, AcksOk;
    ReachableHolds(z, w);
    assert ProducerOk(w, p);
  }

  /** Planning more segments settles nothing. */
  lemma TruthfulMore(q: Producer, q': Producer, outcomes: map<nat, Resolution>)
    requires Truthful(q, outcomes) && q.plans <= q'.plans && q'.done == q.done && q'.acks == q.acks
    ensures Truthful(q', outcomes)
  {
    hide ItemsBefore, Metas;
    var more := q'.plans[|q.plans|..];
    assert q'.plans == q.plans + more;
    ItemsBeforePrefix(q.plans, more, q.done);
    forall k, g | 0 <= k < q'.done && 0 <= g < |q'.plans[k].items|
      ensures Settled(q', outcomes, k, g)
    {
      ItemsBeforePrefix(q.plans, more, k);
      assert Settled(q, outcomes, k, g);
    }
  }

  /** A committed group becomes acknowledged before any of its Appends is resolved. */
  lemma SoundCommit(z: Zstd, p: Run, limits: Limits, w: World, w': World, l: Ledger, n: nat, seqs: seq<nat>)
    requires Sound(z, p, limits, w, l) && !l.halted && Reaches(z, w, w') && |w'.sent| == |w'.status|
    requires p in w'.producers && |seqs| == n && w.producers[p].done + n <= |w.producers[p].plans|
    requires w.producers[p].done <= |w.producers[p].plans|
    requires l.resolved == ItemsBefore(w.producers[p].plans, w.producers[p].done)
    requires w'.producers[p] ==
               w.producers[p].(done := w.producers[p].done + n, acks := w.producers[p].acks + seqs, phase := Flushing)
    ensures Sound(z, p, limits, w', l)
  {
    hide Reachable, Reaches, Truthful, ItemsBefore, Weight;
    ReachableFrom(z, w, w');
    PlansAreOk(z, w, p);
    TruthfulCommit(w.producers[p], w'.producers[p], l.outcomes);
  }

  lemma TruthfulCommit(q: Producer, q': Producer, outcomes: map<nat, Resolution>)
    requires Truthful(q, outcomes) && q'.plans == q.plans && q.done <= q'.done <= |q.plans|
    requires q.acks <= q'.acks && |q'.acks| == q'.done
    requires forall id :: id in outcomes ==> id < ItemsBefore(q.plans, q.done)
    ensures Truthful(q', outcomes)
  {
    hide ItemsBefore, Metas;
    forall k, g | 0 <= k < q'.done && 0 <= g < |q'.plans[k].items|
      ensures Settled(q', outcomes, k, g)
    {
      if k < q.done {
        assert Settled(q, outcomes, k, g);
      } else {
        ItemsMonotone(q.plans, q.done, k);
      }
    }
    ItemsMonotone(q.plans, q.done, q'.done);
  }

  lemma ItemsMonotone(plans: seq<Batch>, k: nat, l: nat)
    requires k <= l <= |plans|
    ensures ItemsBefore(plans, k) <= ItemsBefore(plans, l)
  {
    if k < l {
      ItemsOrdered(plans, k, l);
    }
  }

  /** What resolvePlan resolves the items of a segment to. */
  function Positions(base: nat, metas: seq<RecordMeta>): (r: seq<Resolution>)
    ensures |r| == |metas|
    ensures forall g :: 0 <= g < |r| ==> r[g] == At(base + metas[g].startIndex)
  {
    if metas == [] then [] else [At(base + metas[0].startIndex)] + Positions(base, metas[1..])
  }

  function Failures(n: nat): (r: seq<Resolution>)
    ensures |r| == n && forall g :: 0 <= g < n ==> r[g] == Failed
  {
    if n == 0 then [] else [Failed] + Failures(n - 1)
  }

  /** Resolving the items of segment k, when all before it are resolved: to their positions if it is committed, as
      failed if it is not. */
  lemma SoundSettle(z: Zstd, p: Run, limits: Limits, w: World, l: Ledger, k: nat, outs: seq<Resolution>)
    requires Sound(z, p, limits, w, l)
    requires k < |w.producers[p].plans| && l.resolved == ItemsBefore(w.producers[p].plans, k)
    requires k < |w.producers[p].acks| || k >= w.producers[p].done
    requires var b := w.producers[p].plans[k];
             outs == if k < w.producers[p].done then Positions(w.producers[p].acks[k], Metas(b.items, 0, b.nowMs))
                     else Failures(|b.items|)
    ensures var q := w.producers[p];
            && Sound(z, p, limits, w, Settle(l, outs, Weight(q.plans[k].items)))
            && Settle(l, outs, Weight(q.plans[k].items)).resolved == ItemsBefore(q.plans, k + 1)
  {
    hide Reachable, Books, Truthful, ItemsBefore, Weight, Positions, Failures, Metas;
    var q := w.producers[p];
    PlansAreOk(z, w, p);
    SegmentIsSlice(q, k);
    BooksRange(q.admitted, l);
    BooksSettle(q.admitted, l, outs);
    TruthfulSettle(q, l.outcomes, l.resolved, k, outs);
    SettledBudget(limits, q.admitted, l, outs, Weight(q.plans[k].items));
  }

  lemma SettledBudget(limits: Limits, admitted: seq<Item>, l: Ledger, outs: seq<Resolution>, b: nat)
    requires WithinBudget(limits, l) && Books(admitted, Settle(l, outs, b))
    ensures WithinBudget(limits, Settle(l, outs, b))
  {
  }

  lemma TruthfulSettle(q: Producer, outcomes: map<nat, Resolution>, resolved: nat, k: nat, outs: seq<Resolution>)
    requires Truthful(q, outcomes) && k < |q.plans| && resolved == ItemsBefore(q.plans, k)
    requires k < |q.acks| || k >= q.done
    requires var b := q.plans[k];
             outs == if k < q.done then Positions(q.acks[k], Metas(b.items, 0, b.nowMs)) else Failures(|b.items|)
    ensures Truthful(q, Extended(outcomes, resolved, outs))
  {
    hide ItemsBefore, Metas, Extended;
    var after := Extended(outcomes, resolved, outs);
    forall i, g | 0 <= i < q.done && 0 <= g < |q.plans[i].items|
      ensures Settled(q, after, i, g)
    {
      assert Settled(q, outcomes, i, g);
      SettledElsewhere(q, i, g, k);
    }
    if k < q.done {
      ItemsBeforeNext(q.plans, k);
      ItemsMonotone(q.plans, k + 1, q.done);
    }
  }

  lemma SettledElsewhere(q: Producer, i: nat, g: nat, k: nat)
    requires i < |q.plans| && g < |q.plans[i].items| && k < |q.plans|
    ensures var id, lo := ItemsBefore(q.plans, i) + g, ItemsBefore(q.plans, k);
            lo <= id < lo + |q.plans[k].items| ==> i == k
  {
    hide ItemsBefore;
    if i < k {
      ItemsOrdered(q.plans, i, k);
    } else if k < i {
      ItemsOrdered(q.plans, k, i);
    }
  }

  /** Failing the next n Appends, none of which is committed. */
  lemma SoundFail(z: Zstd, p: Run, limits: Limits, w: World, l: Ledger, n: nat)
    requires Sound(z, p, limits, w, l) && l.resolved + n <= l.taken <= |w.producers[p].admitted|
    requires w.producers[p].done <= |w.producers[p].plans|
    requires ItemsBefore(w.producers[p].plans, w.producers[p].done) <= l.resolved
    ensures Sound(z, p, limits, w,
              Settle(l, Failures(n), Weight(w.producers[p].admitted[l.resolved..l.resolved + n])))
  {
    hide Reachable, Books, ItemsBefore, Weight, Failures, Extended;
    var q := w.producers[p];
    BooksSettle(q.admitted, l, Failures(n));
    var after := Settle(l, Failures(n), Weight(q.admitted[l.resolved..l.resolved + n]));
    SettledBudget(limits, q.admitted, l, Failures(n), Weight(q.admitted[l.resolved..l.resolved + n]));
    forall k, g | 0 <= k < q.done && 0 <= g < |q.plans[k].items|
      ensures Settled(q, after.outcomes, k, g)
    {
      assert Settled(q, l.outcomes, k, g);
      ItemsBeforeNext(q.plans, k);
      ItemsMonotone(q.plans, k + 1, q.done);
    }
  }
}
