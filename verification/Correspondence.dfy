/** Two entities appear at two grains each: admission as a ledger and as a token protocol, the replica under any Applier
    and the replica that feeds a sink. They agree. */
module Correspondence {
  import opened Entries
  import opened ManifestIndex
  import opened Packing
  import opened Segment
  import opened TailLog
  import A = Accounting
  import B = Backpressure
  import E = EndToEnd
  import P = Primaries
  import S = SinkSpec

  // ---------------------------------------------------------------- admission

  function BudgetOf(limits: A.Limits): B.Budget { B.Budget(limits.maxBytes, limits.maxBatches) }

  function Sizes(items: seq<Item>): (r: seq<nat>)
    ensures |r| == |items| && forall i :: 0 <= i < |r| ==> r[i] == Size(items[i].records)
  {
    if items == [] then [] else [Size(items[0].records)] + Sizes(items[1..])
  }

  /** What is in flight are the Appends not resolved, the counters are their sums, and the flags and the token agree. */
  predicate Mirrors(s: B.State, l: A.Ledger, released: bool, admitted: seq<Item>) {
    && l.resolved <= |admitted| && s.inFlight == Sizes(admitted[l.resolved..])
    && l.bytes == B.Sum(s.inFlight) && l.count == |s.inFlight|
    && l.halted == s.halted && l.closing == s.closing && released == s.token
  }

  lemma {:induction false} SumSplit(sizes: seq<nat>, k: nat)
    requires k <= |sizes|
    ensures B.Sum(sizes) == B.Sum(sizes[..k]) + B.Sum(sizes[k..])
    decreases k
  {
    if k == 0 {
      assert sizes[..0] == [] && sizes[0..] == sizes;
    } else {
      SumSplit(sizes[1..], k - 1);
      assert sizes[..k][1..] == sizes[1..][..k - 1] && sizes[1..][k - 1..] == sizes[k..];
    }
  }

  lemma {:induction false} SumOfSizes(items: seq<Item>)
    ensures B.Sum(Sizes(items)) == Weight(items)
  {
    if items != [] {
      SumOfSizes(items[1..]);
    }
  }

  lemma SizesSnoc(admitted: seq<Item>, k: nat, item: Item)
    requires k <= |admitted|
    ensures Sizes((admitted + [item])[k..]) == Sizes(admitted[k..]) + [Size(item.records)]
    ensures B.Sum(Sizes((admitted + [item])[k..])) == B.Sum(Sizes(admitted[k..])) + Size(item.records)
  {
    hide Sizes, Size;
    var before, after := Sizes(admitted[k..]), Sizes((admitted + [item])[k..]);
    assert after == before + [Size(item.records)];
    SumSplit(after, |before|);
    assert after[..|before|] == before && after[|before|..] == [Size(item.records)];
    assert B.Sum([Size(item.records)]) == Size(item.records) + B.Sum([]);
  }

  lemma SizesDrop(admitted: seq<Item>, k: nat, n: nat)
    requires k + n <= |admitted|
    ensures Sizes(admitted[k..])[n..] == Sizes(admitted[k + n..])
    ensures B.Sum(Sizes(admitted[k..])) == Weight(admitted[k..k + n]) + B.Sum(Sizes(admitted[k + n..]))
  {
    hide Sizes, Size;
    var all := Sizes(admitted[k..]);
    SumSplit(all, n);
    assert all[n..] == Sizes(admitted[k + n..]) && all[..n] == Sizes(admitted[k..k + n]);
    SumOfSizes(admitted[k..k + n]);
  }

  /** The lock section of Append and its send: what it decides, what it books, and whether it passes the token on. */
  function Asked(limits: A.Limits, s: B.State, c: nat): B.State
    requires c in s.callers && s.callers[c].Checking?
  {
    var s' := B.Apply(BudgetOf(limits), s, B.Check(c));
    if c in s'.callers && s'.callers[c].Signalling? then B.Apply(BudgetOf(limits), s', B.PassOn(c)) else s'
  }

  /** The lock section of release and its send. */
  function Freed(limits: A.Limits, s: B.State, n: nat): B.State
    requires B.Enabled(s, B.Release(n))
  {
    var s' := B.Apply(BudgetOf(limits), s, B.Release(n));
    if s'.signal then B.Apply(BudgetOf(limits), s', B.Send) else s'
  }

  predicate Slack(limits: A.Limits, l: A.Ledger) {
    l.count == 0 || (l.bytes < limits.maxBytes && l.count < limits.maxBatches)
  }

  lemma AdmittedMirrors(limits: A.Limits, s: B.State, l: A.Ledger, released: bool, admitted: seq<Item>, c: nat, id: nat,
    item: Item)
    requires Mirrors(s, l, released, admitted) && c in s.callers && s.callers[c] == B.Checking(Size(item.records))
    requires !l.halted && !l.closing && A.Fits(limits, l, Size(item.records))
    ensures var l' := A.Enqueue(l, id, item);
            && Mirrors(Asked(limits, s, c), l', released || Slack(limits, l'), admitted + [item])
            && c !in Asked(limits, s, c).callers
  {
    hide Sizes, Size, B.Sum;
    SizesSnoc(admitted, l.resolved, item);
  }

  lemma SettledMirrors(limits: A.Limits, s: B.State, l: A.Ledger, released: bool, admitted: seq<Item>,
    outs: seq<A.Resolution>)
    requires Mirrors(s, l, released, admitted) && B.Enabled(s, B.Release(|outs|))
    ensures var l' := A.Settle(l, outs, Weight(admitted[l.resolved..l.resolved + |outs|]));
            Mirrors(Freed(limits, s, |outs|), l', released || Slack(limits, l'), admitted)
  {
    hide Sizes, Size, B.Sum, A.Extended, Weight;
    SizesDrop(admitted, l.resolved, |outs|);
  }

  /** Append on the producer object is the token protocol's Append: it decides, books and signals the same. */
  method AppendIsAsked(pr: P.Primary, item: Item, ghost s: B.State, ghost c: nat) returns (reply: P.Reply)
    requires pr.Valid() && pr.p in pr.world.producers && item.records != []
    requires Mirrors(s, pr.View(), pr.released, pr.world.producers[pr.p].admitted)
    requires c in s.callers && s.callers[c] == B.Checking(Size(item.records))
    modifies pr
    ensures pr.Valid() && pr.p in pr.world.producers
    ensures Mirrors(Asked(pr.limits, s, c), pr.View(), pr.released, pr.world.producers[pr.p].admitted)
    ensures reply.Blocked? <==> c in Asked(pr.limits, s, c).callers && Asked(pr.limits, s, c).callers[c].Waiting?
  {
    hide Sizes, Size, B.Sum, A.Sound;
    ghost var l, w := pr.View(), pr.world;
    ghost var released, admitted := pr.released, w.producers[pr.p].admitted;
    reply := pr.TryAppend(item);
    if reply.Admitted? {
      AdmittedMirrors(pr.limits, s, l, released, admitted, c, reply.id, item);
    }
  }

  /** Resolving the oldest Appends in flight is the token protocol's release, and wakes a caller when it does. */
  method ResolveIsFreed(pr: P.Primary, plan: Plan, base: nat, first: nat, ghost s: B.State)
    requires first == pr.resolved && pr.p in pr.world.producers && |plan.metas| == |plan.items|
    requires pr.resolved + |plan.items| <= |pr.world.producers[pr.p].admitted|
    requires plan.items == pr.world.producers[pr.p].admitted[pr.resolved..pr.resolved + |plan.items|]
    requires forall id :: pr.resolved <= id < pr.resolved + |plan.items| ==> id !in pr.outcomes
    requires Mirrors(s, pr.View(), pr.released, pr.world.producers[pr.p].admitted)
    requires B.Enabled(s, B.Release(|plan.items|))
    modifies pr
    ensures pr.world == old(pr.world)
    ensures Mirrors(Freed(pr.limits, s, |plan.items|), pr.View(), pr.released, pr.world.producers[pr.p].admitted)
  {
    hide Sizes, Size, B.Sum, A.Extended, Weight, A.Positions;
    SettledMirrors(pr.limits, s, pr.View(), pr.released, pr.world.producers[pr.p].admitted,
                   A.Positions(base, plan.metas));
    pr.ResolvePlan(plan, base, first);
  }

  /** Both are runs of the token protocol. */
  lemma SectionsAreRuns(limits: A.Limits, s: B.State, c: nat, n: nat)
    requires B.Reachable(BudgetOf(limits), s)
    ensures c in s.callers && s.callers[c].Checking? ==> B.Reachable(BudgetOf(limits), Asked(limits, s, c))
    ensures B.Enabled(s, B.Release(n)) ==> B.Reachable(BudgetOf(limits), Freed(limits, s, n))
  {
    hide B.Reachable, B.HasRoom, B.Fits;
    var l := BudgetOf(limits);
    if c in s.callers && s.callers[c].Checking? {
      B.ReachableStep(l, s, B.Check(c));
      var s' := B.Apply(l, s, B.Check(c));
      if c in s'.callers && s'.callers[c].Signalling? {
        B.ReachableStep(l, s', B.PassOn(c));
      }
    }
    if B.Enabled(s, B.Release(n)) {
      B.ReachableStep(l, s, B.Release(n));
      var s' := B.Apply(l, s, B.Release(n));
      if s'.signal {
        B.ReachableStep(l, s', B.Send);
      }
    }
  }

  /** On the producer object: while it is open, nobody is left waiting with nothing in flight and an empty slot, unless
      a caller or the flush goroutine is still on its way to fill it. */
  lemma NobodySleeps(limits: A.Limits, s: B.State, l: A.Ledger, released: bool, admitted: seq<Item>)
    requires B.Reachable(BudgetOf(limits), s) && Mirrors(s, l, released, admitted)
    requires !l.halted && !l.closing && B.SomeWaiting(s) && !B.SomeActive(s) && !s.signal
    ensures l.count > 0 || released
  {
    hide B.Reachable, Sizes;
    if l.count == 0 {
      B.WakeUpIsNeverLost(BudgetOf(limits), s);
    }
  }

  // ---------------------------------------------------------------- the replica of a sink

  /** Where the segments of a log end. */
  function Ends(log: seq<Logged>): (r: seq<nat>)
    ensures |r| == |log| && forall i :: 0 <= i < |r| ==> r[i] == log[i].entry.End()
  {
    seq(|log|, i requires 0 <= i < |log| => log[i].entry.End())
  }

  /** A per-record log from sequence 0, flattened and cut at the ends of its entries, is what a sink polls. */
  lemma SinkSeesTheLog(z: Zstd, log: seq<Logged>, hi: nat)
    requires LogOk(z, log, 0, hi) && E.Counted(log)
    ensures S.Segmented(Ends(log), |Flatten(z, log)|) && |Flatten(z, log)| == hi
    ensures forall n :: 0 <= n < hi ==> Flatten(z, log)[n].sequence == n
  {
    hide ParseSegment, Flatten, RecordsOf, Contents;
    E.FlatLength(z, log, 0, hi);
    forall i | 0 <= i < |log|
      ensures 0 < Ends(log)[i] <= hi
    {
      WholeAt(z, log, 0, hi, i);
    }
    forall i, j | 0 <= i < j < |log|
      ensures Ends(log)[i] < Ends(log)[j]
    {
      TilesOrdered(EntriesOf(log), 0, hi, i, j);
    }
    forall n | 0 <= n < hi
      ensures Flatten(z, log)[n].sequence == n
    {
      E.SequenceIsUnique(z, log, 0, hi, n);
    }
  }

  /** Over records numbered from a on, those from n on are a suffix. */
  lemma {:induction false} FromNumbered(records: seq<Record>, a: nat, n: nat)
    requires forall k :: 0 <= k < |records| ==> records[k].sequence == a + k
    requires n <= a + |records|
    ensures From(records, n) == records[S.Max(n, a) - a..]
    decreases |records|
  {
    if records != [] {
      var k, m := |records| - 1, S.Max(n, a) - a;
      if n <= a + k {
        FromNumbered(records[..k], a, n);
        assert From(records, n) == From(records[..k], n) + [records[k]];
        hide From;
        assert records[..k][m..] == records[m..k];
        assert records[m..k] + [records[k]] == records[m..];
      } else {
        FromAll(records, n);
        assert records[m..] == [];
      }
    }
  }

  /** What lies in the log between the bounds of an entry are the records of that entry. */
  lemma EntryInLog(z: Zstd, log: seq<Logged>, hi: nat, i: nat)
    requires LogOk(z, log, 0, hi) && E.Counted(log) && i < |log|
    ensures log[i].entry.End() <= |Flatten(z, log)|
    ensures Flatten(z, log)[log[i].entry.sequence..log[i].entry.End()] == RecordsOf(z, log[i])
    ensures forall k :: 0 <= k < |RecordsOf(z, log[i])| ==> RecordsOf(z, log[i])[k].sequence == log[i].entry.sequence + k
  {
    hide ParseSegment, Flatten, Tiles, Contents, Numbered, RecordsOf, Covering;
    var e, flat, records := log[i].entry, Flatten(z, log), RecordsOf(z, log[i]);
    WholeAt(z, log, 0, hi, i);
    E.FlatLength(z, log, 0, hi);
    E.RecordsCount(z, log[i]);
    forall k | 0 <= k < |records|
      ensures records[k].sequence == e.sequence + k && flat[e.sequence + k] == records[k]
    {
      E.NumberedAt(z, log[i], k);
      E.FlatBySequence(z, log, 0, hi, i, e.sequence + k);
    }
  }

  /** The segment a sink's poll starts with is the first entry the replica selects, and the records of a segment, from
      where the poll resumes, are the ones the replica hands over from that entry. */
  lemma SegmentsAreEntries(z: Zstd, log: seq<Logged>, hi: nat, n: nat, i: nat)
    requires LogOk(z, log, 0, hi) && E.Counted(log) && i < |log|
    ensures S.FirstBeyond(Ends(log), n) == Before(EntriesOf(log), n)
    ensures S.StartOf(Ends(log), i) == log[i].entry.sequence && log[i].entry.End() <= |Flatten(z, log)|
    ensures n <= log[i].entry.End() ==>
              Flatten(z, log)[S.Max(n, log[i].entry.sequence)..log[i].entry.End()] == From(RecordsOf(z, log[i]), n)
  {
    hide ParseSegment, Flatten, From, Tiles, RecordsOf, Whole, S.FirstBeyond, Before;
    var e, flat, records := log[i].entry, Flatten(z, log), RecordsOf(z, log[i]);
    TilesIsChained(EntriesOf(log), 0, hi);
    EntryInLog(z, log, hi, i);
    if n <= e.End() {
      FromNumbered(records, e.sequence, n);
      var m := S.Max(n, e.sequence);
      assert flat[m..e.End()] == flat[e.sequence..e.End()][m - e.sequence..];
    }
  }
}
