/** Where each record of the log comes from: which Append of which producer, and at which sequence it was promised. */
module Provenance {
  import opened Bytes
  import opened Guarantees
  import opened Invariant
  import opened Landing
  import opened Packing
  import opened Protocol
  import opened Segment
  import opened Slots
  import opened Wrappers

  /** Record number index of the Append with that number in the run's admission order. */
  datatype Origin = Origin(run: Run, append: nat, index: nat)

  // ---------------------------------------------------------------- the log as a reader sees it

  predicate Covers(s: Slot, n: nat) { s.sequence <= n < s.sequence + s.count }

  /** The slot that owns sequence n. */
  function SlotAt(slots: seq<Slot>, n: nat): Option<nat> {
    if slots == [] then None
    else if Covers(slots[|slots| - 1], n) then Some(|slots| - 1)
    else SlotAt(slots[..|slots| - 1], n)
  }

  /** The data and the group metadata stored for sequence n: fetch the covering segment, decode it, pick the record
      and look its annotation up. */
  function LogRecord(z: Zstd, w: World, n: nat): Option<(bytes, bytes)> {
    match SlotAt(Cur(w).slots, n)
    case None => None
    case Some(x) =>
      if x < |Cur(w).slots| && Covers(Cur(w).slots[x], n) && Cur(w).slots[x].loc in w.objects then
        var s := Cur(w).slots[x];
        match ParseSegment(z, w.objects[s.loc])
        case Err(_) => None
        case Ok(records) =>
          if n - s.sequence < |records| then
            Some((records[n - s.sequence], Covering(s.metas, n - s.sequence, [])))
          else None
      else None
  }

  lemma {:induction false} SlotAtFinds(m: Man, n: nat)
    requires Tiled(m) && n < m.next
    ensures SlotAt(m.slots, n).Some? && SlotAt(m.slots, n).value < |m.slots|
    ensures Covers(m.slots[SlotAt(m.slots, n).value], n)
    decreases |m.slots|
  {
    var k := |m.slots| - 1;
    if !Covers(m.slots[k], n) {
      var front := Man(m.epoch, EndOf(m.slots[..k]), m.slots[..k]);
      assert RangeAt(m.slots, k);
      forall x | 0 <= x < |front.slots|
        ensures RangeAt(front.slots, x)
      {
        assert RangeAt(m.slots, x);
        assert front.slots[..x] == m.slots[..x];
      }
      SlotAtFinds(front, n);
    }
  }

  lemma CoverIsUnique(m: Man, n: nat, x: nat, y: nat)
    requires Tiled(m) && x < |m.slots| && y < |m.slots| && Covers(m.slots[x], n) && Covers(m.slots[y], n)
    ensures x == y
  {
    assert RangeAt(m.slots, x) && RangeAt(m.slots, y);
    if x < y {
      TiledOrdered(m, x, y);
    } else if y < x {
      TiledOrdered(m, y, x);
    }
  }

  // ---------------------------------------------------------------- Appends inside segments

  /** How many Appends the segments before k hold. */
  function ItemsBefore(plans: seq<Batch>, k: nat): nat
    requires k <= |plans|
  {
    if k == 0 then 0 else |plans[0].items| + ItemsBefore(plans[1..], k - 1)
  }

  lemma {:induction false} JoinAt(plans: seq<Batch>, k: nat, g: nat)
    requires k < |plans| && g < |plans[k].items|
    ensures ItemsBefore(plans, k) + g < |JoinBatches(plans)|
    ensures JoinBatches(plans)[ItemsBefore(plans, k) + g] == plans[k].items[g]
    decreases k
  {
    if k > 0 {
      JoinAt(plans[1..], k - 1, g);
    }
  }

  lemma {:induction false} ItemsOrdered(plans: seq<Batch>, k: nat, l: nat)
    requires k < l <= |plans|
    ensures ItemsBefore(plans, k) + |plans[k].items| <= ItemsBefore(plans, l)
    decreases l
  {
    if k > 0 {
      ItemsOrdered(plans[1..], k - 1, l - 1);
    }
  }

  /** An Append is in one segment only. */
  lemma SegmentOfAppend(plans: seq<Batch>, k: nat, g: nat, l: nat, h: nat)
    requires k < |plans| && l < |plans| && g < |plans[k].items| && h < |plans[l].items|
    requires ItemsBefore(plans, k) + g == ItemsBefore(plans, l) + h
    ensures k == l && g == h
  {
    if k < l {
      ItemsOrdered(plans, k, l);
    } else if l < k {
      ItemsOrdered(plans, l, k);
    }
  }

  // ---------------------------------------------------------------- origins

  /** Slot x holds, at sequence n, record o.index of item g of its segment, which is Append o.append. */
  predicate IsOrigin(w: World, n: nat, o: Origin, x: nat, g: nat) {
    && x < |Cur(w).slots|
    && var s := Cur(w).slots[x];
    && Covers(s, n) && s.loc.run == o.run && o.run in w.producers
    && s.loc.ordinal < |w.producers[o.run].plans|
    && var items := w.producers[o.run].plans[s.loc.ordinal].items;
    && g < |items| && o.index < |items[g].records|
    && n - s.sequence == StartOf(items, g) + o.index
    && o.append == ItemsBefore(w.producers[o.run].plans, s.loc.ordinal) + g
  }

  ghost predicate Originates(w: World, n: nat, o: Origin) {
    exists x: nat, g: nat :: IsOrigin(w, n, o, x, g)
  }

  /** Every sequence of the log has an origin. */
  lemma OriginExists(z: Zstd, w: World, n: nat) returns (o: Origin)
    requires Reachable(z, w) && n < Cur(w).next
    ensures Originates(w, n, o)
  {
    hide Reachable, Chain, Objects, Puts, Producers, Versions, Ordered, Tiled, StartOf, ItemsBefore, OwnerOf, Total;
    ReachableHolds(z, w);
    SlotAtFinds(Cur(w), n);
    var x := SlotAt(Cur(w).slots, n).value;
    var s := Cur(w).slots[x];
    assert SlotOk(w, s);
    var plans := w.producers[s.loc.run].plans;
    var items := plans[s.loc.ordinal].items;
    var i := n - s.sequence;
    var g := OwnerOf(items, i);
    o := Origin(s.loc.run, ItemsBefore(plans, s.loc.ordinal) + g, i - StartOf(items, g));
    assert IsOrigin(w, n, o, x, g);
  }

  /** A sequence has one origin only, and no record of any Append, acknowledged or not, is in the log twice. */
  lemma OriginsAreDistinct(z: Zstd, w: World, n: nat, n': nat, o: Origin, o': Origin)
    requires Reachable(z, w) && Originates(w, n, o) && Originates(w, n', o')
    ensures n == n' <==> o == o'
  {
    hide Reachable, Chain, Objects, Puts, Producers, Versions, Tiled, ItemsBefore, Ordered, StartOf;
    ReachableHolds(z, w);
    var x: nat, g: nat :| IsOrigin(w, n, o, x, g);
    var y: nat, h: nat :| IsOrigin(w, n', o', y, h);
    var s, t := Cur(w).slots[x], Cur(w).slots[y];
    if n == n' {
      CoverIsUnique(Cur(w), n, x, y);
      var items := w.producers[o.run].plans[s.loc.ordinal].items;
      OwnerIsUnique(items, g, o.index, h, o'.index);
    }
    if o == o' {
      SegmentOfAppend(w.producers[o.run].plans, s.loc.ordinal, g, t.loc.ordinal, h);
      if x < y {
        OrderedDistinct(Cur(w).slots, x, y);
      } else if y < x {
        OrderedDistinct(Cur(w).slots, y, x);
      }
    }
  }

  lemma OwnerIsUnique(items: seq<Item>, g: nat, i: nat, h: nat, j: nat)
    requires g < |items| && h < |items| && i < |items[g].records| && j < |items[h].records|
    requires StartOf(items, g) + i == StartOf(items, h) + j
    ensures g == h && i == j
  {
    if g < h {
      StartsOrdered(items, g, h);
    } else if h < g {
      StartsOrdered(items, h, g);
    }
  }

  /** What a reader finds at a sequence is the record it originates from, with that Append's own metadata. */
  lemma OriginIsRead(z: Zstd, w: World, n: nat, o: Origin)
    requires Reachable(z, w) && Lossless(z) && Originates(w, n, o)
    ensures o.run in w.producers && o.append < |w.producers[o.run].admitted|
    ensures o.index < |w.producers[o.run].admitted[o.append].records|
    ensures var item := w.producers[o.run].admitted[o.append];
            LogRecord(z, w, n) == Some((item.records[o.index], item.meta))
  {
    hide Reachable, Chain, Objects, Puts, Versions, Tiled, Ordered, ItemsBefore, StartOf, Flat, OwnerOf, Metas, Covering,
      ParseSegment, Lossless, Counters, WaitOk, LandedOk, AcksOk, SlotAt, JoinBatches, Total;
    var x: nat, g: nat :| IsOrigin(w, n, o, x, g);
    ReachableHolds(z, w);
    EntriesDecode(z, w, x);
    var s := Cur(w).slots[x];
    var q := w.producers[o.run];
    var items := q.plans[s.loc.ordinal].items;
    assert ProducerOk(w, o.run);
    assert SlotOk(w, s);
    JoinAt(q.plans, s.loc.ordinal, g);
    FlatAt(items, g, o.index);
    CoveringIsOwn(items, 0, q.plans[s.loc.ordinal].nowMs, n - s.sequence, []);
    ReadAt(z, w, n, x);
  }

  /** A reader that decodes the covering slot. */
  lemma ReadAt(z: Zstd, w: World, n: nat, x: nat)
    requires Tiled(Cur(w)) && x < |Cur(w).slots| && Covers(Cur(w).slots[x], n) && Cur(w).slots[x].loc in w.objects
    requires ParseSegment(z, w.objects[Cur(w).slots[x].loc]).Ok?
    requires |ParseSegment(z, w.objects[Cur(w).slots[x].loc]).value| == Cur(w).slots[x].count
    ensures var s := Cur(w).slots[x];
            LogRecord(z, w, n) == Some((ParseSegment(z, w.objects[s.loc]).value[n - s.sequence],
                                        Covering(s.metas, n - s.sequence, [])))
  {
    hide Tiled, ParseSegment, Covering;
    BelowNext(Cur(w), n, x);
    SlotAtFinds(Cur(w), n);
    CoverIsUnique(Cur(w), n, x, SlotAt(Cur(w).slots, n).value);
  }

  lemma BelowNext(m: Man, n: nat, x: nat)
    requires Tiled(m) && x < |m.slots| && Covers(m.slots[x], n)
    ensures n < m.next
  {
    TiledOrdered(m, x, |m.slots|);
    assert m.slots[..|m.slots|] == m.slots;
  }

  // ---------------------------------------------------------------- acknowledged Appends

  /** The first sequence an Append was resolved to: item g of acknowledged segment k. */
  function ResolvedTo(q: Producer, k: nat, g: nat): nat
    requires k < |q.acks| && k < |q.plans| && g < |q.plans[k].items|
  {
    q.acks[k] + Metas(q.plans[k].items, 0, q.plans[k].nowMs)[g].startIndex
  }

  /** An acknowledged Append is in the log at exactly the range it was resolved to. */
  lemma AcknowledgedIsInLog(z: Zstd, w: World, p: Run, k: nat, g: nat, j: nat)
    requires Reachable(z, w) && p in w.producers && k < w.producers[p].done
    requires k < |w.producers[p].plans| && k < |w.producers[p].acks|
    requires g < |w.producers[p].plans[k].items| && j < |w.producers[p].plans[k].items[g].records|
    ensures Originates(w, ResolvedTo(w.producers[p], k, g) + j, Origin(p, ItemsBefore(w.producers[p].plans, k) + g, j))
  {
    hide Reachable, Chain, Objects, Puts, Versions, Tiled, Ordered, ItemsBefore, StartOf, Flat, Metas, Own, PlansOk,
      Counters, WaitOk, Total, RecordsFit, SegmentBytes;
    ReachableHolds(z, w);
    assert ProducerOk(w, p);
    var q := w.producers[p];
    var items := q.plans[k].items;
    var x := OrdinalPresent(Cur(w).slots, p, k);
    var s := Cur(w).slots[x];
    assert SlotOk(w, s);
    assert Total(items) <= U32_MAX by {
      StoredFits(z, w, s.loc);
    }
    StartsOrdered(items, g, g);
    StartsOrdered(items, g, g + 1);
    MetasAt(items, 0, q.plans[k].nowMs, g);
    FlatAt(items, g, j);
    assert IsOrigin(w, ResolvedTo(q, k, g) + j, Origin(p, ItemsBefore(q.plans, k) + g, j), x, g);
  }

  lemma StoredFits(z: Zstd, w: World, loc: Location)
    requires Objects(z, w) && loc in w.objects && loc.run in w.producers
    requires loc.ordinal < |w.producers[loc.run].plans|
    ensures Total(w.producers[loc.run].plans[loc.ordinal].items) <= U32_MAX
  {
    assert ObjectOk(z, w, loc);
  }

  // ---------------------------------------------------------------- over time

  /** Nothing that was said is taken back. */
  predicate Follows(w: World, w': World) {
    && w.history <= w'.history
    && (forall loc :: loc in w.objects ==> loc in w'.objects)
    && forall p :: p in w.producers ==> p in w'.producers && Remembers(w.producers[p], w'.producers[p])
  }

  predicate Remembers(q: Producer, q': Producer) {
    && q.admitted <= q'.admitted && q.plans <= q'.plans && q.acks <= q'.acks && q.done <= q'.done
    && q'.comp == q.comp && q'.legacy == q.legacy
  }

  lemma StepFollows(z: Zstd, w: World, s: Step)
    requires Enabled(w, s)
    ensures Follows(w, Apply(z, w, s))
  {
    hide IsPacking, AppendGroup, Decide, SegmentBytes, Flat, RecordsFit;
  }

  lemma FollowsTransitive(a: World, b: World, c: World)
    requires Follows(a, b) && Follows(b, c)
    ensures Follows(a, c)
  {
    forall p | p in a.producers
      ensures p in c.producers && Remembers(a.producers[p], c.producers[p])
    {
      assert Remembers(a.producers[p], b.producers[p]) && Remembers(b.producers[p], c.producers[p]);
    }
  }

  /** Along any run, history, acknowledgements and stored segments only grow. */
  lemma {:induction false} RunFollows(z: Zstd, w: World, steps: seq<Step>, w': World)
    requires Leads(z, w, steps, w')
    ensures Follows(w, w')
    decreases |steps|
  {
    hide Enabled, Apply;
    if steps == [] {
      FollowsSelf(w);
    } else {
      StepFollows(z, w, steps[0]);
      RunFollows(z, Apply(z, w, steps[0]), steps[1..], w');
      FollowsTransitive(w, Apply(z, w, steps[0]), w');
    }
  }

  lemma FollowsSelf(w: World)
    ensures Follows(w, w)
  {
  }
}
