/** From Append to Applier: what a producer was told about an Append is what every reader is handed. */
module EndToEnd {
  import opened Accounting
  import opened Bytes
  import opened CommitLoop
  import opened Entries
  import opened Guarantees
  import opened Invariant
  import opened Landing
  import opened Packing
  import opened Protocol
  import opened Provenance
  import opened Segment
  import opened Slots
  import opened TailLog

  // ---------------------------------------------------------------- the log a reader loads

  function RenderSlot(name: Location -> bytes, s: Slot, objects: map<Location, bytes>): Logged {
    Logged(Entry(s.sequence, s.count, name(s.loc), s.metas), if s.loc in objects then objects[s.loc] else [])
  }

  function Render(name: Location -> bytes, slots: seq<Slot>, objects: map<Location, bytes>): (r: seq<Logged>)
    ensures |r| == |slots| && forall x :: 0 <= x < |r| ==> r[x] == RenderSlot(name, slots[x], objects)
  {
    if slots == [] then [] else [RenderSlot(name, slots[0], objects)] + Render(name, slots[1..], objects)
  }

  /** The manifest's entries with the objects they name. */
  function Rendered(name: Location -> bytes, w: World): seq<Logged> { Render(name, Cur(w).slots, w.objects) }

  predicate Counted(log: seq<Logged>) { forall x :: 0 <= x < |log| ==> log[x].entry.count > 0 }

  lemma RenderedTiles(name: Location -> bytes, m: Man, objects: map<Location, bytes>)
    requires Tiled(m)
    ensures Counted(Render(name, m.slots, objects)) && Tiles(EntriesOf(Render(name, m.slots, objects)), 0, m.next)
  {
    hide Render, EntriesOf;
    var es := EntriesOf(Render(name, m.slots, objects));
    forall x | 0 <= x < |es|
      ensures es[x].count > 0 && es[x].End() == EndOf(m.slots[..x + 1]) && es[x].sequence == EndOf(m.slots[..x])
    {
      assert RangeAt(m.slots, x);
      assert m.slots[..x + 1][x] == m.slots[x];
    }
    assert m.slots[..|m.slots|] == m.slots;
    assert Chained(es) by {
      forall x | 0 < x < |es|
        ensures es[x - 1].End() == es[x].sequence
      {
        assert es[x - 1].End() == EndOf(m.slots[..x - 1 + 1]);
      }
    }
    TilesIsChained(es, 0, m.next);
  }

  /** Every reachable state shows a reader a whole, tiled log of per-record entries. */
  lemma ReadersSeeWholeLog(z: Zstd, w: World, name: Location -> bytes)
    requires Reachable(z, w) && Lossless(z)
    ensures LogOk(z, Rendered(name, w), 0, Cur(w).next) && Counted(Rendered(name, w))
  {
    hide Reachable, Render, EntriesOf, ParseSegment, Flat, Lossless, Chain, Objects, Puts, Producers, Versions, Ordered,
      Tiled, Tiles;
    ReachableHolds(z, w);
    RenderedTiles(name, Cur(w), w.objects);
    forall x | 0 <= x < |Cur(w).slots|
      ensures Whole(z, Rendered(name, w)[x])
    {
      EntriesDecode(z, w, x);
    }
  }

  // ---------------------------------------------------------------- sequences are positions

  /** In a log of per-record entries the record at position n - lo has sequence n and comes from the entry that
      covers n. */
  lemma {:induction false} FlatBySequence(z: Zstd, log: seq<Logged>, lo: nat, hi: nat, x: nat, n: nat)
    requires LogOk(z, log, lo, hi) && Counted(log) && x < |log| && log[x].entry.Contains(n)
    ensures |Flatten(z, log)| == hi - lo && lo <= n < hi
    ensures |RecordsOf(z, log[x])| == log[x].entry.count
    ensures Flatten(z, log)[n - lo] == RecordsOf(z, log[x])[n - log[x].entry.sequence]
    decreases |log|
  {
    hide ParseSegment, LogOk, RecordsOf, Contents;
    var k := |log| - 1;
    SplitAt(z, log, lo, hi, k);
    FlatLength(z, log[..k], lo, log[k].entry.sequence);
    assert Whole(z, log[k]) && Whole(z, log[x]) && log[k].entry.End() == hi by {
      WholeAt(z, log, lo, hi, k);
      WholeAt(z, log, lo, hi, x);
      SplitAt(z, log, lo, hi, |log|);
    }
    RecordsCount(z, log[k]);
    RecordsCount(z, log[x]);
    if x < k {
      FlatBySequence(z, log[..k], lo, log[k].entry.sequence, x, n);
    }
  }

  lemma RecordsCount(z: Zstd, c: Logged)
    requires Whole(z, c) && c.entry.count > 0
    ensures |RecordsOf(z, c)| == c.entry.count
  {
  }

  lemma {:induction false} FlatLength(z: Zstd, log: seq<Logged>, lo: nat, hi: nat)
    requires LogOk(z, log, lo, hi) && Counted(log)
    ensures lo <= hi && |Flatten(z, log)| == hi - lo
    decreases |log|
  {
    hide ParseSegment, RecordsOf, Contents;
    if log != [] {
      var k := |log| - 1;
      SplitAt(z, log, lo, hi, k);
      FlatLength(z, log[..k], lo, log[k].entry.sequence);
      assert log[k].entry.End() == hi by {
        SplitAt(z, log, lo, hi, |log|);
      }
      RecordsCount(z, log[k]);
    }
  }

  /** What a reader is handed for sequence n is what the log holds there. */
  lemma HandedIsLogged(z: Zstd, w: World, name: Location -> bytes, n: nat, o: Origin)
    requires Reachable(z, w) && Lossless(z) && Originates(w, n, o)
    ensures o.run in w.producers && o.append < |w.producers[o.run].admitted|
    ensures o.index < |w.producers[o.run].admitted[o.append].records|
    ensures n < |Flatten(z, Rendered(name, w))|
    ensures var item := w.producers[o.run].admitted[o.append];
            Flatten(z, Rendered(name, w))[n] == Record(n, item.meta, item.records[o.index])
  {
    hide Reachable, Render, LogOk, ParseSegment, Flat, Lossless, Flatten, LogRecord, Covering, Chain, Objects, Puts,
      Producers, Versions, Ordered, Tiled, StartOf, ItemsBefore;
    OriginIsRead(z, w, n, o);
    ReadersSeeWholeLog(z, w, name);
    ReachableHolds(z, w);
    var x: nat, g: nat :| IsOrigin(w, n, o, x, g);
    var s, log := Cur(w).slots[x], Rendered(name, w);
    EntriesDecode(z, w, x);
    ReadAt(z, w, n, x);
    assert log[x] == RenderSlot(name, s, w.objects);
    assert s.count > 0;
    FlatBySequence(z, log, 0, Cur(w).next, x, n);
  }

  // ---------------------------------------------------------------- the promise to callers

  lemma {:induction false} FromKeeps(records: seq<Record>, n: nat, x: Record)
    ensures x in From(records, n) <==> x in records && x.sequence >= n
    decreases |records|
  {
    if records != [] {
      var k := |records| - 1;
      FromKeeps(records[..k], n, x);
      assert records == records[..k] + [records[k]];
    }
  }

  /** Sequences of a per-record log are distinct. */
  lemma SequenceIsUnique(z: Zstd, log: seq<Logged>, lo: nat, hi: nat, i: nat)
    requires LogOk(z, log, lo, hi) && Counted(log) && i < |Flatten(z, log)|
    ensures Flatten(z, log)[i].sequence == lo + i
    decreases |log|
  {
    hide ParseSegment, RecordsOf, Contents;
    var k := |log| - 1;
    SplitAt(z, log, lo, hi, k);
    FlatLength(z, log[..k], lo, log[k].entry.sequence);
    if i < |Flatten(z, log[..k])| {
      SequenceIsUnique(z, log[..k], lo, log[k].entry.sequence, i);
    } else {
      NumberedAt(z, log[k], i - |Flatten(z, log[..k])|);
    }
  }

  lemma NumberedAt(z: Zstd, c: Logged, i: nat)
    requires Whole(z, c) && c.entry.count > 0 && i < |RecordsOf(z, c)|
    ensures RecordsOf(z, c)[i].sequence == c.entry.sequence + i
  {
  }

  /** Record j of an Append that was resolved to first sequence f reaches every reader that has passed f + j, as
      sequence f + j with the Append's own metadata, and nothing else ever reaches it under that sequence. */
  lemma AppendIsDelivered(z: Zstd, w: World, name: Location -> bytes, p: Run, outcomes: map<nat, Resolution>, id: nat,
    j: nat, start: nat, next: nat, delivered: seq<Record>, trace: seq<nat>)
    requires Reachable(z, w) && Lossless(z) && p in w.producers && Truthful(w.producers[p], outcomes)
    requires id in outcomes && outcomes[id].At? && id < |w.producers[p].admitted|
    requires j < |w.producers[p].admitted[id].records|
    requires Delivers(Visible(z, Rendered(name, w), start), delivered, trace)
    requires Passed(z, Rendered(name, w), Cur(w).next, start, next, trace)
    requires start <= outcomes[id].first + j
    ensures var item, n := w.producers[p].admitted[id], outcomes[id].first + j;
            && (n < next ==> Record(n, item.meta, item.records[j]) in delivered)
            && forall k :: 0 <= k < |delivered| && delivered[k].sequence == n ==>
                 delivered[k] == Record(n, item.meta, item.records[j])
  {
    hide Reachable, Lossless, Truthful, LogOk, From, Flatten, Render, Originates, InOrder, High;
    var item, n, log := w.producers[p].admitted[id], outcomes[id].first + j, Rendered(name, w);
    var mine, flat, hi := Record(n, item.meta, item.records[j]), Flatten(z, log), Cur(w).next;
    ResolvedIsInLog(z, w, p, outcomes, id, j);
    HandedIsLogged(z, w, name, n, Origin(p, id, j));
    ReadersSeeWholeLog(z, w, name);
    var visible := Visible(z, log, start);
    assert flat[n] == mine && mine in visible by {
      FromKeeps(flat, start, mine);
    }
    if n < next {
      var i :| 0 <= i < |visible| && visible[i] == mine;
      CursorIsSafe(z, log, 0, hi, start, next, delivered, trace, i);
    }
    forall k | 0 <= k < |delivered| && delivered[k].sequence == n
      ensures delivered[k] == mine
    {
      assert delivered[k] in visible;
      FromKeeps(flat, start, delivered[k]);
      var i :| 0 <= i < |flat| && flat[i] == delivered[k];
      SequenceIsUnique(z, log, 0, hi, i);
    }
  }

  // ---------------------------------------------------------------- the log a reader sees only grows

  /** Whatever happens, what a reader saw it will see again, with more behind it. */
  lemma ReadersSeeGrowth(z: Zstd, w: World, w': World, name: Location -> bytes)
    requires Reachable(z, w) && Reaches(z, w, w') && Lossless(z)
    ensures Rendered(name, w) <= Rendered(name, w')
    ensures LogOk(z, Rendered(name, w')[|Rendered(name, w)|..], Cur(w).next, Cur(w').next)
  {
    hide Reachable, Reaches, Lossless, LogOk, Render, Chain, Objects, Puts, Producers, Versions, Ordered, Tiled, Follows;
    ReachableFrom(z, w, w');
    ReachableHolds(z, w);
    ReachableHolds(z, w');
    assert Follows(w, w') by {
      ReachesFollows(z, w, w');
    }
    SlotsGrow(z, w, w');
    var a, b := Rendered(name, w), Rendered(name, w');
    forall x | 0 <= x < |a|
      ensures a[x] == b[x]
    {
      assert SlotOk(w, Cur(w).slots[x]);
      ObjectStays(z, w, w', Cur(w).slots[x].loc);
    }
    ReadersSeeWholeLog(z, w, name);
    ReadersSeeWholeLog(z, w', name);
    SplitAt(z, b, 0, Cur(w').next, |a|);
    BoundaryIs(z, a, b, Cur(w).next, Cur(w').next);
  }

  /** A stored segment is never replaced by other bytes. */
  lemma ObjectStays(z: Zstd, w: World, w': World, loc: Location)
    requires Follows(w, w') && Objects(z, w) && Objects(z, w') && loc in w.objects
    ensures loc in w'.objects && w'.objects[loc] == w.objects[loc]
  {
    hide SegmentBytes, Flat, RecordsFit;
    assert ObjectOk(z, w, loc) && ObjectOk(z, w', loc);
    assert Remembers(w.producers[loc.run], w'.producers[loc.run]);
  }

  lemma BoundaryIs(z: Zstd, a: seq<Logged>, b: seq<Logged>, hi: nat, hi': nat)
    requires LogOk(z, a, 0, hi) && LogOk(z, b, 0, hi') && a <= b
    ensures Boundary(b, hi', |a|) == hi
  {
    hide ParseSegment;
    SplitAt(z, b, 0, hi', |a|);
    assert b[..|a|] == a;
    TilesIsChained(EntriesOf(a), 0, hi);
    TilesIsChained(EntriesOf(a), 0, Boundary(b, hi', |a|));
  }
}
