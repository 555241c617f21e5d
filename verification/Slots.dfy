/** Facts about manifest slots: ownership, order, tiling, and what one group adds. */
module Slots {
  import opened Packing
  import opened Protocol
  import opened Wrappers

  /** How many slots belong to the run. */
  function Own(slots: seq<Slot>, p: Run): (n: nat)
    ensures n <= |slots|
  {
    if slots == [] then 0
    else Own(slots[..|slots| - 1], p) + (if slots[|slots| - 1].loc.run == p then 1 else 0)
  }

  /** Each run's slots carry the ordinals 0, 1, 2, ... in this order. */
  predicate Ordered(slots: seq<Slot>) {
    forall x :: 0 <= x < |slots| ==> slots[x].loc.ordinal == Own(slots[..x], slots[x].loc.run)
  }

  function EndOf(slots: seq<Slot>): nat {
    if slots == [] then 0 else slots[|slots| - 1].sequence + slots[|slots| - 1].count
  }

  predicate RangeAt(slots: seq<Slot>, x: nat)
    requires x < |slots|
  {
    slots[x].count > 0 && slots[x].sequence == EndOf(slots[..x])
  }

  /** Non-empty ranges from 0 on, without gap or overlap, up to next. */
  predicate Tiled(m: Man) {
    && (forall x :: 0 <= x < |m.slots| ==> RangeAt(m.slots, x))
    && m.next == EndOf(m.slots)
  }

  /** The run's slots are the last ones. */
  predicate OwnsTail(slots: seq<Slot>, p: Run) {
    forall x :: |slots| - Own(slots, p) <= x < |slots| ==> slots[x].loc.run == p
  }

  lemma {:induction false} OwnMonotone(slots: seq<Slot>, x: nat, p: Run)
    requires x <= |slots|
    ensures Own(slots[..x], p) <= Own(slots, p)
    ensures x < |slots| && slots[x].loc.run == p ==> Own(slots[..x], p) < Own(slots, p)
    decreases |slots|
  {
    if x < |slots| {
      var front := slots[..|slots| - 1];
      assert front[..x] == slots[..x];
      OwnMonotone(front, x, p);
      if x < |front| {
        assert front[x] == slots[x];
      }
    } else {
      assert slots[..x] == slots;
    }
  }

  lemma OwnPrefix(a: seq<Slot>, b: seq<Slot>, p: Run)
    requires a <= b
    ensures Own(a, p) <= Own(b, p)
  {
    assert b[..|a|] == a;
    OwnMonotone(b, |a|, p);
  }

  lemma OrderedPrefix(a: seq<Slot>, b: seq<Slot>)
    requires a <= b && Ordered(b)
    ensures Ordered(a)
  {
    forall x | 0 <= x < |a|
      ensures a[x].loc.ordinal == Own(a[..x], a[x].loc.run)
    {
      assert a[x] == b[x] && a[..x] == b[..x];
    }
  }

  /** Each location occurs at most once. */
  lemma OrderedDistinct(slots: seq<Slot>, x: nat, y: nat)
    requires Ordered(slots) && x < y < |slots|
    ensures slots[x].loc != slots[y].loc
    ensures slots[x].loc.run == slots[y].loc.run ==> slots[x].loc.ordinal < slots[y].loc.ordinal
  {
    assert slots[..y][..x] == slots[..x] && slots[..y][x] == slots[x];
    OwnMonotone(slots[..y], x, slots[x].loc.run);
  }

  lemma OrdinalBound(slots: seq<Slot>, x: nat)
    requires Ordered(slots) && x < |slots|
    ensures slots[x].loc.ordinal < Own(slots, slots[x].loc.run)
  {
    OwnMonotone(slots, x, slots[x].loc.run);
  }

  /** Every ordinal below the number of owned slots is there. */
  lemma {:induction false} OrdinalPresent(slots: seq<Slot>, p: Run, k: nat) returns (x: nat)
    requires Ordered(slots) && k < Own(slots, p)
    ensures x < |slots| && slots[x].loc == Location(p, k)
    decreases |slots|
  {
    var front := slots[..|slots| - 1];
    if k < Own(front, p) {
      OrderedPrefix(front, slots);
      x := OrdinalPresent(front, p, k);
    } else {
      x := |slots| - 1;
    }
  }

  lemma {:induction false} TiledOrdered(m: Man, x: nat, y: nat)
    requires Tiled(m) && x <= y <= |m.slots|
    ensures EndOf(m.slots[..x]) <= EndOf(m.slots[..y])
    ensures x < y ==> m.slots[x].sequence + m.slots[x].count <= EndOf(m.slots[..y])
    decreases y
  {
    if x < y {
      TiledOrdered(m, x, y - 1);
      assert RangeAt(m.slots, y - 1);
      assert m.slots[..y][y - 1] == m.slots[y - 1];
    }
  }

  // ---------------------------------------------------------------- one group

  /** The slot is segment k of the run, as planned. */
  predicate Carries(s: Slot, p: Run, k: nat, b: Batch) {
    s.loc == Location(p, k) && s.count == Total(b.items) && s.metas == Metas(b.items, 0, b.nowMs)
  }

  /** What appending a group does to the manifest. */
  lemma {:induction false} GroupFacts(m: Man, p: Run, bs: seq<Batch>, lo: nat)
    ensures var r := AppendGroup(m, p, bs, lo);
            && r.epoch == m.epoch
            && |r.slots| == |m.slots| + |bs|
            && m.slots <= r.slots
            && forall i :: 0 <= i < |bs| ==> Carries(r.slots[|m.slots| + i], p, lo + i, bs[i])
    decreases |bs|
  {
    if bs != [] {
      var s := SlotFor(Location(p, lo), m.next, bs[0]);
      var m1 := Man(m.epoch, m.next + s.count, m.slots + [s]);
      GroupFacts(m1, p, bs[1..], lo + 1);
      var r := AppendGroup(m, p, bs, lo);
      forall i | 0 <= i < |bs|
        ensures Carries(r.slots[|m.slots| + i], p, lo + i, bs[i])
      {
        if i == 0 {
          assert m1.slots[|m.slots|] == s;
        } else {
          assert Carries(r.slots[|m1.slots| + (i - 1)], p, lo + 1 + (i - 1), bs[1..][i - 1]);
        }
      }
    }
  }

  lemma OwnSnoc(slots: seq<Slot>, s: Slot, p: Run)
    ensures Own(slots + [s], p) == Own(slots, p) + if s.loc.run == p then 1 else 0
  {
    assert (slots + [s])[..|slots|] == slots;
  }

  lemma OrderedSnoc(slots: seq<Slot>, s: Slot)
    requires Ordered(slots) && s.loc.ordinal == Own(slots, s.loc.run)
    ensures Ordered(slots + [s])
  {
    var r := slots + [s];
    forall x | 0 <= x < |r|
      ensures r[x].loc.ordinal == Own(r[..x], r[x].loc.run)
    {
      assert r[..x] == if x < |slots| then slots[..x] else slots;
    }
  }

  lemma TiledSnoc(m: Man, s: Slot)
    requires Tiled(m) && s.sequence == m.next && s.count > 0
    ensures Tiled(Man(m.epoch, m.next + s.count, m.slots + [s]))
  {
    var r := m.slots + [s];
    forall x | 0 <= x < |r|
      ensures RangeAt(r, x)
    {
      assert r[..x] == if x < |m.slots| then m.slots[..x] else m.slots;
      if x < |m.slots| {
        assert RangeAt(m.slots, x);
      }
    }
  }

  /** A group of the run's next ordinals keeps order and tiling, and adds only to that run. */
  lemma {:induction false} GroupKeeps(m: Man, p: Run, bs: seq<Batch>, lo: nat)
    requires Ordered(m.slots) && Tiled(m) && Own(m.slots, p) == lo
    requires forall i :: 0 <= i < |bs| ==> Total(bs[i].items) > 0
    ensures var r := AppendGroup(m, p, bs, lo);
            && Ordered(r.slots) && Tiled(r)
            && Own(r.slots, p) == lo + |bs|
            && (forall q :: q != p ==> Own(r.slots, q) == Own(m.slots, q))
            && (bs != [] ==> r.next > m.next)
    decreases |bs|
  {
    hide Own, Ordered, Tiled, Total, Metas;
    if bs != [] {
      var s := SlotFor(Location(p, lo), m.next, bs[0]);
      OrderedSnoc(m.slots, s);
      TiledSnoc(m, s);
      forall q
        ensures Own(m.slots + [s], q) == Own(m.slots, q) + if q == p then 1 else 0
      {
        OwnSnoc(m.slots, s, q);
      }
      GroupKeeps(Man(m.epoch, m.next + s.count, m.slots + [s]), p, bs[1..], lo + 1);
    }
  }

  // ---------------------------------------------------------------- harvesting

  lemma {:induction false} LastWithNone(slots: seq<Slot>, loc: Location)
    requires forall x :: 0 <= x < |slots| ==> slots[x].loc != loc
    ensures LastWith(slots, loc) == None
  {
    if slots != [] {
      LastWithNone(slots[..|slots| - 1], loc);
    }
  }

  lemma {:induction false} LastWithAt(slots: seq<Slot>, x: nat)
    requires x < |slots| && forall y :: x < y < |slots| ==> slots[y].loc != slots[x].loc
    ensures LastWith(slots, slots[x].loc) == Some(slots[x].sequence)
    decreases |slots|
  {
    if x < |slots| - 1 {
      assert slots[..|slots| - 1][x] == slots[x];
      LastWithAt(slots[..|slots| - 1], x);
    }
  }

  lemma {:induction false} CountAll(f: seq<Option<nat>>)
    ensures (forall i :: 0 <= i < |f| ==> f[i].Some?) ==> CountFound(f) == |f|
    ensures (forall i :: 0 <= i < |f| ==> f[i].None?) ==> CountFound(f) == 0
    ensures CountFound(f) <= |f|
  {
    if f != [] {
      CountAll(f[1..]);
      if forall i :: 0 <= i < |f| ==> f[i].Some? {
        assert forall i :: 0 <= i < |f[1..]| ==> f[1..][i] == f[i + 1];
      }
      if forall i :: 0 <= i < |f| ==> f[i].None? {
        assert forall i :: 0 <= i < |f[1..]| ==> f[1..][i] == f[i + 1];
      }
    }
  }

  lemma TailIndex(slots: seq<Slot>, limit: nat, y: nat)
    requires y < |TailOf(slots, limit)|
    ensures |slots| >= |TailOf(slots, limit)|
    ensures TailOf(slots, limit)[y] == slots[|slots| - |TailOf(slots, limit)| + y]
  {
  }

  /** Nothing of a group that has not landed is found. */
  lemma FoundNone(m: Man, p: Run, lo: nat, n: nat)
    requires Ordered(m.slots) && Own(m.slots, p) <= lo
    ensures CountFound(Found(m, p, lo, n)) == 0
  {
    var f := Found(m, p, lo, n);
    forall i | 0 <= i < n
      ensures f[i] == None
    {
      var tail := TailOf(m.slots, 4 * n);
      forall y | 0 <= y < |tail|
        ensures tail[y].loc != Location(p, lo + i)
      {
        TailIndex(m.slots, 4 * n, y);
        OrdinalBound(m.slots, |m.slots| - |tail| + y);
      }
      LastWithNone(tail, Location(p, lo + i));
    }
    CountAll(f);
  }

  lemma FoundAt(m: Man, p: Run, lo: nat, n: nat, i: nat)
    requires Ordered(m.slots) && OwnsTail(m.slots, p) && Own(m.slots, p) == lo + n && i < n
    ensures n <= |m.slots|
    ensures m.slots[|m.slots| - n + i].loc == Location(p, lo + i)
    ensures LastWith(TailOf(m.slots, 4 * n), Location(p, lo + i)) == Some(m.slots[|m.slots| - n + i].sequence)
  {
    hide Own, Ordered, OwnsTail, LastWith;
    var x := |m.slots| - n + i;
    TailOrdinal(m.slots, p, n - i);
    var tail := TailOf(m.slots, 4 * n);
    var t := |tail| - n + i;
    TailIndex(m.slots, 4 * n, t);
    assert tail[t] == m.slots[x];
    forall y | t < y < |tail|
      ensures tail[y].loc != tail[t].loc
    {
      TailIndex(m.slots, 4 * n, y);
      OrderedDistinct(m.slots, x, |m.slots| - |tail| + y);
    }
    LastWithAt(tail, t);
  }

  /** Segment i of the group is the i-th of the last n slots, and the lookup returns its sequence. */
  predicate HarvestedAt(m: Man, p: Run, lo: nat, n: nat, i: nat)
    requires i < n <= |m.slots|
  {
    && m.slots[|m.slots| - n + i].loc == Location(p, lo + i)
    && Found(m, p, lo, n)[i] == Some(m.slots[|m.slots| - n + i].sequence)
  }

  /** A group that has landed, with nothing of others behind it, is found whole. */
  lemma FoundAll(m: Man, p: Run, lo: nat, n: nat)
    requires Ordered(m.slots) && OwnsTail(m.slots, p) && Own(m.slots, p) == lo + n
    ensures n <= |m.slots|
    ensures CountFound(Found(m, p, lo, n)) == n
    ensures forall i :: 0 <= i < n ==> HarvestedAt(m, p, lo, n, i)
  {
    hide Own, Ordered, OwnsTail, LastWith, CountFound;
    var f := Found(m, p, lo, n);
    forall i | 0 <= i < n
      ensures HarvestedAt(m, p, lo, n, i) && f[i].Some?
    {
      FoundAt(m, p, lo, n, i);
    }
    CountAll(f);
  }

  /** The k-th slot from the end, when it is owned. */
  lemma {:induction false} TailOrdinal(slots: seq<Slot>, p: Run, k: nat)
    requires Ordered(slots) && OwnsTail(slots, p) && 1 <= k <= Own(slots, p)
    ensures slots[|slots| - k].loc == Location(p, Own(slots, p) - k)
    ensures Own(slots[..|slots| - k], p) == Own(slots, p) - k
    decreases k
  {
    if k > 1 {
      TailOrdinal(slots, p, k - 1);
      var y := |slots| - k + 1;
      assert slots[..y][..y - 1] == slots[..y - 1];
      assert slots[..y][|slots[..y]| - 1] == slots[y - 1];
    } else {
      assert slots[|slots| - 1].loc.run == p;
    }
  }
}
