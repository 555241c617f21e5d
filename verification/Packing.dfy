/** Append groups, the segments they are packed into, and the annotations that find them again. */
module Packing {
  import opened Bytes
  import opened Entries

  const WORD := 0x1_0000_0000

  /** One Append: its records and its metadata payload. */
  datatype Item = Item(records: seq<bytes>, meta: bytes)

  function Size(records: seq<bytes>): nat {
    if records == [] then 0 else |records[0]| + Size(records[1..])
  }

  function Weight(items: seq<Item>): nat {
    if items == [] then 0 else Size(items[0].records) + Weight(items[1..])
  }

  /** The number of records in the items. */
  function Total(items: seq<Item>): nat {
    if items == [] then 0 else |items[0].records| + Total(items[1..])
  }

  /** All records, in order. */
  function Flat(items: seq<Item>): (r: seq<bytes>)
    ensures |r| == Total(items)
  {
    if items == [] then [] else items[0].records + Flat(items[1..])
  }

  /** The position of the first record of item g among all records. */
  function StartOf(items: seq<Item>, g: nat): nat
    requires g <= |items|
  {
    if g == 0 then 0 else |items[0].records| + StartOf(items[1..], g - 1)
  }

  /** The item that record i belongs to. */
  function OwnerOf(items: seq<Item>, i: nat): (g: nat)
    requires i < Total(items)
    ensures g < |items|
    ensures StartOf(items, g) <= i < StartOf(items, g) + |items[g].records|
  {
    if i < |items[0].records| then 0 else 1 + OwnerOf(items[1..], i - |items[0].records|)
  }

  lemma {:induction false} FlatAt(items: seq<Item>, g: nat, j: nat)
    requires g < |items| && j < |items[g].records|
    ensures StartOf(items, g) + j < Total(items)
    ensures Flat(items)[StartOf(items, g) + j] == items[g].records[j]
    ensures OwnerOf(items, StartOf(items, g) + j) == g
    decreases g
  {
    if g > 0 {
      var rest := items[1..];
      FlatAt(rest, g - 1, j);
      var n, i := |items[0].records|, StartOf(rest, g - 1) + j;
      assert StartOf(items, g) + j == n + i;
      assert Flat(items)[n + i] == Flat(rest)[i];
    }
  }

  lemma {:induction false} StartsOrdered(items: seq<Item>, g: nat, h: nat)
    requires g <= h <= |items|
    ensures StartOf(items, g) <= StartOf(items, h) <= Total(items)
    ensures g < h ==> StartOf(items, g) + |items[g].records| <= StartOf(items, h)
    decreases h
  {
    if g > 0 {
      StartsOrdered(items[1..], g - 1, h - 1);
    } else if h > 0 {
      StartsOrdered(items[1..], 0, h - 1);
    }
  }

  // ---------------------------------------------------------------- annotations

  /** One annotation per item; the start index is held in 32 bits. */
  function Metas(items: seq<Item>, start: nat, nowMs: int): (m: seq<RecordMeta>)
    ensures |m| == |items|
  {
    if items == [] then []
    else [RecordMeta(start % WORD, nowMs, items[0].meta)] + Metas(items[1..], start + |items[0].records|, nowMs)
  }

  lemma {:induction false} MetasAt(items: seq<Item>, start: nat, nowMs: int, g: nat)
    requires g < |items|
    ensures Metas(items, start, nowMs)[g] == RecordMeta((start + StartOf(items, g)) % WORD, nowMs, items[g].meta)
    decreases g
  {
    if g > 0 {
      MetasAt(items[1..], start + |items[0].records|, nowMs, g - 1);
    }
  }

  /** groupMetaFor: the payload of the last leading annotation that starts at or before i. */
  function Covering(metas: seq<RecordMeta>, i: nat, payload: bytes): bytes {
    if metas == [] || metas[0].startIndex > i then payload
    else Covering(metas[1..], i, metas[0].payload)
  }

  method GroupMetaFor(metas: seq<RecordMeta>, i: nat) returns (payload: bytes)
    ensures payload == Covering(metas, i, [])
  {
    payload := [];
    for k := 0 to |metas|
      invariant Covering(metas, i, []) == Covering(metas[k..], i, payload)
    {
      assert metas[k..][1..] == metas[k + 1..];
      if metas[k].startIndex <= i {
        payload := metas[k].payload;
      } else {
        return;
      }
    }
  }

  predicate AllNonEmpty(items: seq<Item>) { forall g :: 0 <= g < |items| ==> items[g].records != [] }

  /** Every record of a segment small enough for 32-bit indices finds the metadata of its own Append. */
  lemma {:induction false} CoveringIsOwn(items: seq<Item>, start: nat, nowMs: int, i: nat, payload: bytes)
    requires AllNonEmpty(items) && start + Total(items) <= WORD && i < Total(items)
    ensures Covering(Metas(items, start, nowMs), start + i, payload) == items[OwnerOf(items, i)].meta
    decreases items
  {
    var first := |items[0].records|;
    var rest := Metas(items[1..], start + first, nowMs);
    assert Metas(items, start, nowMs)[1..] == rest;
    if i < first {
      if items[1..] != [] {
        assert rest[0].startIndex == start + first by {
          assert items[1..][0].records != [];
        }
      }
    } else {
      CoveringIsOwn(items[1..], start + first, nowMs, i - first, items[0].meta);
    }
  }

  // ---------------------------------------------------------------- packing

  /** One segment to be uploaded. */
  datatype Plan = Plan(items: seq<Item>, records: seq<bytes>, metas: seq<RecordMeta>, weight: nat)

  function PlanOf(items: seq<Item>, nowMs: int): Plan {
    Plan(items, Flat(items), Metas(items, 0, nowMs), Weight(items))
  }

  function Join(groups: seq<seq<Item>>): seq<Item> {
    if groups == [] then [] else groups[0] + Join(groups[1..])
  }

  /** A group is within the cap unless it is one Append alone, and the next group's first Append would not fit. */
  predicate Greedy(cap: nat, groups: seq<seq<Item>>) {
    && (forall k :: 0 <= k < |groups| ==> groups[k] != [])
    && (cap == 0 ==> |groups| <= 1)
    && (cap > 0 ==> forall k :: 0 <= k < |groups| ==> |groups[k]| == 1 || Weight(groups[k]) <= cap)
    && (cap > 0 ==> forall k :: 0 < k < |groups| ==> Weight(groups[k - 1]) + Size(groups[k][0].records) > cap)
  }

  predicate IsPacking(cap: nat, batch: seq<Item>, groups: seq<seq<Item>>) {
    Join(groups) == batch && Greedy(cap, groups)
  }

  lemma {:induction false} Concatenated(a: seq<Item>, b: seq<Item>)
    ensures Weight(a + b) == Weight(a) + Weight(b)
    ensures Total(a + b) == Total(a) + Total(b)
    ensures Flat(a + b) == Flat(a) + Flat(b)
  {
    if a == [] {
      assert a + b == b;
    } else {
      assert (a + b)[1..] == a[1..] + b;
      Concatenated(a[1..], b);
      assert a[0].records + (Flat(a[1..]) + Flat(b)) == (a[0].records + Flat(a[1..])) + Flat(b);
    }
  }

  lemma {:induction false} JoinSnoc(groups: seq<seq<Item>>, g: seq<Item>)
    ensures Join(groups + [g]) == Join(groups) + g
  {
    if groups == [] {
      assert [g][1..] == [] && g + [] == g && [] + g == g;
      assert groups + [g] == [g];
    } else {
      assert (groups + [g])[1..] == groups[1..] + [g];
      JoinSnoc(groups[1..], g);
      assert groups[0] + (Join(groups[1..]) + g) == (groups[0] + Join(groups[1..])) + g;
    }
  }

  lemma MetasSnoc(items: seq<Item>, it: Item, start: nat, nowMs: int)
    ensures Metas(items + [it], start, nowMs) ==
            Metas(items, start, nowMs) + [RecordMeta((start + Total(items)) % WORD, nowMs, it.meta)]
  {
    if items == [] {
      assert items + [it] == [it] && [it][1..] == [];
    } else {
      assert (items + [it])[1..] == items[1..] + [it];
      MetasSnoc(items[1..], it, start + |items[0].records|, nowMs);
    }
  }

  lemma PlanSnoc(items: seq<Item>, it: Item, nowMs: int)
    ensures PlanOf(items + [it], nowMs) ==
            Plan(items + [it], Flat(items) + it.records,
                 Metas(items, 0, nowMs) + [RecordMeta(Total(items) % WORD, nowMs, it.meta)],
                 Weight(items) + Size(it.records))
  {
    MetasSnoc(items, it, 0, nowMs);
    Concatenated(items, [it]);
    assert [it][1..] == [];
    assert it.records + [] == it.records;
  }

  /** The state of the packing loop: sealed groups and the group being filled. */
  predicate Filling(cap: nat, groups: seq<seq<Item>>, cur: seq<Item>) {
    && Greedy(cap, groups)
    && (cap == 0 ==> groups == [])
    && (cap > 0 ==> |cur| <= 1 || Weight(cur) <= cap)
    && (cap > 0 && groups != [] ==> cur != [] && Weight(groups[|groups| - 1]) + Size(cur[0].records) > cap)
  }

  lemma SealGroup(cap: nat, groups: seq<seq<Item>>, cur: seq<Item>)
    requires Filling(cap, groups, cur) && cur != []
    ensures Greedy(cap, groups + [cur]) && Join(groups + [cur]) == Join(groups) + cur
  {
    JoinSnoc(groups, cur);
  }

  /** Sealing the group being filled when the next Append does not fit, and starting the next with it. */
  lemma FillingSeals(cap: nat, groups: seq<seq<Item>>, cur: seq<Item>, it: Item)
    requires Filling(cap, groups, cur) && cur != [] && cap > 0 && Weight(cur) + Size(it.records) > cap
    ensures Filling(cap, groups + [cur], [it])
  {
    hide Weight, Size, Join;
    SealGroup(cap, groups, cur);
    assert (groups + [cur])[|groups|] == cur;
  }

  /** Adding an Append that fits, or the first one. */
  lemma FillingGrows(cap: nat, groups: seq<seq<Item>>, cur: seq<Item>, it: Item)
    requires Filling(cap, groups, cur) && (cap == 0 || cur == [] || Weight(cur) + Size(it.records) <= cap)
    requires cur == [] ==> groups == []
    ensures Filling(cap, groups, cur + [it])
  {
    hide Weight, Size, Greedy;
    WeightSnoc(cur, it);
  }

  lemma WeightSnoc(items: seq<Item>, it: Item)
    ensures Weight(items + [it]) == Weight(items) + Size(it.records)
    ensures Total(items + [it]) == Total(items) + |it.records|
  {
    Concatenated(items, [it]);
    assert [it][1..] == [];
  }

  /** planSegments. */
  method PlanSegments(cap: nat, batch: seq<Item>, nowMs: int) returns (plans: seq<Plan>, ghost groups: seq<seq<Item>>)
    ensures IsPacking(cap, batch, groups)
    ensures |plans| == |groups| && forall k :: 0 <= k < |plans| ==> plans[k] == PlanOf(groups[k], nowMs)
  {
    hide Join, Weight, Total, Size, Flat, Metas, Filling, Greedy;
    plans, groups := [], [];
    var cur := PlanOf([], nowMs);
    var curIdx := 0;
    EmptyPlan(nowMs);
    NothingFilled(cap);
    for n := 0 to |batch|
      invariant cur == PlanOf(cur.items, nowMs) && curIdx == Total(cur.items) % WORD
      invariant if n > 0 then cur.items != [] else groups == []
      invariant Join(groups) + cur.items == batch[..n]
      invariant |plans| == |groups| && forall k :: 0 <= k < |plans| ==> plans[k] == PlanOf(groups[k], nowMs)
      invariant Filling(cap, groups, cur.items)
    {
      var it := batch[n];
      ghost var before := batch[..n];
      if cap > 0 && cur.items != [] && cur.weight + Size(it.records) > cap {
        FillingSeals(cap, groups, cur.items, it);
        SealGroup(cap, groups, cur.items);
        plans := plans + [cur];
        groups := groups + [cur.items];
        cur := PlanOf([], nowMs);
        curIdx := 0;
        assert Join(groups) + [] == before && [] + [it] == [it];
      } else {
        FillingGrows(cap, groups, cur.items, it);
      }
      PlanSnoc(cur.items, it, nowMs);
      WeightSnoc(cur.items, it);
      ConcatOne(Join(groups), cur.items, it);
      assert batch[..n + 1] == before + [it];
      cur := Plan(cur.items + [it], cur.records + it.records,
                  cur.metas + [RecordMeta(curIdx, nowMs, it.meta)], cur.weight + Size(it.records));
      curIdx := (curIdx + |it.records|) % WORD;
    }
    assert batch[..|batch|] == batch;
    if cur.items != [] {
      SealGroup(cap, groups, cur.items);
      plans := plans + [cur];
      groups := groups + [cur.items];
    } else {
      assert Join(groups) + [] == Join(groups);
      SealedSoFar(cap, groups, cur.items);
    }
  }

  lemma NothingFilled(cap: nat)
    ensures Filling(cap, [], [])
  {
  }

  lemma SealedSoFar(cap: nat, groups: seq<seq<Item>>, cur: seq<Item>)
    requires Filling(cap, groups, cur)
    ensures Greedy(cap, groups)
  {
  }

  lemma ConcatOne(a: seq<Item>, b: seq<Item>, it: Item)
    ensures a + (b + [it]) == (a + b) + [it]
  {
  }

  lemma EmptyPlan(nowMs: int)
    ensures PlanOf([], nowMs) == Plan([], [], [], 0) && Total([]) == 0 && Join([]) == []
  {
  }

  /** The contract of PlanSegments leaves no choice: a batch has one greedy packing. */
  lemma {:induction false} PackingIsUnique(cap: nat, a: seq<seq<Item>>, b: seq<seq<Item>>)
    requires Greedy(cap, a) && Greedy(cap, b) && Join(a) == Join(b)
    ensures a == b
  {
    JoinOfNone(cap, a);
    JoinOfNone(cap, b);
    if a != [] {
      FirstGroupIsForced(cap, a, b);
      FirstGroupIsForced(cap, b, a);
      assert a[0] == Join(a)[..|a[0]|] == b[0];
      assert Join(a[1..]) == Join(a)[|a[0]|..] == Join(b[1..]);
      GreedyTail(cap, a);
      GreedyTail(cap, b);
      PackingIsUnique(cap, a[1..], b[1..]);
      assert [a[0]] + a[1..] == a && [b[0]] + b[1..] == b;
    }
  }

  lemma JoinOfNone(cap: nat, a: seq<seq<Item>>)
    requires Greedy(cap, a)
    ensures Join(a) == [] <==> a == []
  {
  }

  lemma GreedyTail(cap: nat, a: seq<seq<Item>>)
    requires Greedy(cap, a) && a != []
    ensures Greedy(cap, a[1..])
  {
    forall k | 0 < k < |a[1..]|
      ensures a[1..][k - 1] == a[k] && a[1..][k] == a[k + 1]
    {
    }
  }

  /** The first group cannot be longer in a than in b: b would have taken the Append that follows. */
  lemma FirstGroupIsForced(cap: nat, a: seq<seq<Item>>, b: seq<seq<Item>>)
    requires Greedy(cap, a) && Greedy(cap, b) && Join(a) == Join(b) && a != [] && b != []
    ensures |a[0]| <= |b[0]|
  {
    var n := |b[0]|;
    assert a[0] == Join(a)[..|a[0]|] && b[0] == Join(b)[..n];
    if |a[0]| > n {
      assert |Join(b)| == n + |Join(b[1..])|;
      JoinOfNone(cap, b[1..]);
      assert a[0][n] == Join(b)[n] == Join(b[1..])[0] == b[1][0];
      assert a[0][..n] == b[0];
      WeightOfPrefix(a[0], n);
    }
  }

  lemma {:induction false} WeightOfPrefix(items: seq<Item>, n: nat)
    requires n < |items|
    ensures Weight(items) >= Weight(items[..n]) + Size(items[n].records)
    decreases n
  {
    if n > 0 {
      WeightOfPrefix(items[1..], n - 1);
      assert items[..n][1..] == items[1..][..n - 1];
    }
  }
}
