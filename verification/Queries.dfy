/** Bounded reads over the sink's files: the window, its pruning, and the watermark that successive reads share. */
module Queries {
  import opened SinkLayout
  import opened SinkLoss
  import opened SinkSpec
  import opened Sinks
  import opened TailLog
  import opened Wrappers

  // ---------------------------------------------------------------- the window

  datatype Mode = Incremental | Cumulative

  /** The bounds the view is built from; without hasLo there is no lower bound and no bucket bound. */
  datatype Window = Window(lo: nat, hasLo: bool, bucketLo: nat)

  function ResolveWindow(mode: Mode, start: nat, watermark: nat, bucketSize: nat): Window
    requires bucketSize > 0
  {
    var lo := if mode == Cumulative then start else watermark;
    if lo == 0 then Window(0, false, 0) else Window(lo, true, lo / bucketSize)
  }

  /** The view's WHERE clause, for a row of a file. */
  predicate Matches(w: Window, hi: nat, bucket: nat, r: Record) {
    r.sequence <= hi && (w.hasLo ==> r.sequence >= w.lo && bucket >= w.bucketLo)
  }

  function MatchingRows(w: Window, hi: nat, bucket: nat, rows: seq<Record>): seq<Record> {
    if rows == [] then []
    else
      var k := |rows| - 1;
      MatchingRows(w, hi, bucket, rows[..k]) + if Matches(w, hi, bucket, rows[k]) then [rows[k]] else []
  }

  /** The rows of the view. */
  function Pruned(w: Window, hi: nat, files: seq<File>): seq<Record> {
    if files == [] then []
    else
      var k := |files| - 1;
      Pruned(w, hi, files[..k]) + MatchingRows(w, hi, files[k].bucket, files[k].rows)
  }

  /** The rows with lo <= sequence <= hi, wherever they are. */
  function Plain(lo: nat, hi: nat, rows: seq<Record>): seq<Record> {
    if rows == [] then []
    else
      var k := |rows| - 1;
      Plain(lo, hi, rows[..k]) + if lo <= rows[k].sequence <= hi then [rows[k]] else []
  }

  function LowerBound(mode: Mode, start: nat, watermark: nat): nat {
    if mode == Cumulative then start else watermark
  }

  lemma {:induction false} PlainConcat(lo: nat, hi: nat, a: seq<Record>, b: seq<Record>)
    ensures Plain(lo, hi, a + b) == Plain(lo, hi, a) + Plain(lo, hi, b)
    decreases |b|
  {
    if b == [] {
      assert a + b == a;
    } else {
      assert (a + b)[..|a + b| - 1] == a + b[..|b| - 1];
      PlainConcat(lo, hi, a, b[..|b| - 1]);
    }
  }

  lemma QuotientGrows(a: nat, b: nat, d: nat)
    requires a <= b && d > 0
    ensures a / d <= b / d
  {
    var p, q := a / d, b / d;
    assert a == p * d + a % d && b == q * d + b % d;
    assert (q - p) * d == q * d - p * d;
    if q - p < 0 {
      NegativeProduct(q - p, d);
    }
  }

  lemma NegativeProduct(k: int, d: nat)
    requires k < 0
    ensures k * d + d <= 0
  {
  }

  lemma ProductBounds(p: nat, d: nat, a: nat)
    requires d > 0 && p * d <= a
    ensures p <= a / d
  {
    QuotientGrows(p * d, a, d);
    assert p * d / d == p;
  }

  /** A larger divisor gives a smaller quotient. */
  lemma QuotientShrinks(a: nat, d: nat, e: nat)
    requires 0 < d <= e
    ensures a / e <= a / d
  {
    var p := a / e;
    assert p * e <= a;
    assert p * e == p * d + p * (e - d);
    ProductBounds(p, d, a);
  }

  /** The bucket bound excludes no row of the window if the reader's bucket size is at least the writer's, and some row
      otherwise. */
  lemma PruningIsSafeIff(written: nat, read: nat)
    requires written > 0 && read > 0
    ensures (forall lo: nat, n: nat :: lo <= n ==> KeptByBound(written, read, lo, n)) <==> written <= read
  {
    if written <= read {
      forall lo: nat, n: nat | lo <= n
        ensures KeptByBound(written, read, lo, n)
      {
        QuotientGrows(lo, n, written);
        QuotientShrinks(lo, written, read);
      }
    } else {
      assert !KeptByBound(written, read, read, read) by {
        assert read / written == 0 && read / read == 1;
      }
    }
  }

  /** Row n, filed by a writer with one bucket size, passes the bucket bound a reader derives from lo with its own. */
  predicate KeptByBound(written: nat, read: nat, lo: nat, n: nat)
    requires written > 0 && read > 0
  {
    n / written >= lo / read
  }

  lemma {:induction false} RowsAreKept(w: Window, lo: nat, hi: nat, file: File, rows: seq<Record>)
    requires if w.hasLo then w.lo == lo else lo == 0
    requires forall i :: 0 <= i < |rows| && rows[i].sequence >= lo ==> file.bucket >= w.bucketLo
    ensures MatchingRows(w, hi, file.bucket, rows) == Plain(lo, hi, rows)
    decreases |rows|
  {
    if rows != [] {
      RowsAreKept(w, lo, hi, file, rows[..|rows| - 1]);
    }
  }

  /** The pruned scan of files the sink has laid out returns the rows of the plain scan, in the same order, for a reader
      whose bucket size is at least the sink's. */
  lemma {:induction false} PrunedIsPlain(c: Config, files: seq<File>, mode: Mode, start: nat, watermark: nat, read: nat,
    hi: nat)
    requires Usable(c) && c.bucketSize <= read && forall k :: 0 <= k < |files| ==> FileOk(c, files[k])
    ensures Pruned(ResolveWindow(mode, start, watermark, read), hi, files) ==
            Plain(LowerBound(mode, start, watermark), hi, Rows(files))
    decreases |files|
  {
    if files != [] {
      var k, lo := |files| - 1, LowerBound(mode, start, watermark);
      var w, file := ResolveWindow(mode, start, watermark, read), files[k];
      PrunedIsPlain(c, files[..k], mode, start, watermark, read, hi);
      assert FileOk(c, file);
      forall i | 0 <= i < |file.rows| && file.rows[i].sequence >= lo
        ensures file.bucket >= w.bucketLo
      {
        QuotientGrows(lo, file.rows[i].sequence, c.bucketSize);
        QuotientShrinks(lo, c.bucketSize, read);
      }
      RowsAreKept(w, lo, hi, file, file.rows);
      PlainConcat(lo, hi, Rows(files[..k]), file.rows);
    }
  }

  // ---------------------------------------------------------------- a trigger of the stream

  /** The view's rows, as the cursor over it returns them. */
  method ScanView(w: Window, hi: nat, files: seq<File>) returns (out: seq<Record>)
    ensures out == Pruned(w, hi, files)
  {
    out := [];
    for k := 0 to |files|
      invariant out == Pruned(w, hi, files[..k])
    {
      ghost var before := out;
      var rows := files[k].rows;
      for i := 0 to |rows|
        invariant out == before + MatchingRows(w, hi, files[k].bucket, rows[..i])
      {
        assert rows[..i + 1][..i] == rows[..i];
        if Matches(w, hi, files[k].bucket, rows[i]) {
          out := out + [rows[i]];
        }
      }
      assert rows[..|rows|] == rows && files[..k + 1][..k] == files[..k];
    }
    assert files[..|files|] == files;
  }

  /** The watermark store; unset reads as 0. */
  class Watermark {
    var value: nat

    constructor ()
      ensures value == 0
    {
      value := 0;
    }

    /** Compare-and-swap; false is ErrConflict. */
    method SaveCAS(prev: nat, next: nat) returns (ok: bool)
      modifies this
      ensures ok == (old(value) == prev) && value == if ok then next else old(value)
    {
      ok := value == prev;
      if ok {
        value := next;
      }
    }
  }

  /** What a trigger comes to: nothing new, rows sent, rows discarded because the context ended before they could be
      sent, or a watermark that someone else has moved. */
  datatype Trigger = Quiet | Emit(high: nat, rows: seq<Record>) | Discard(high: nat) | Conflicted

  /** One re-query of a stream. Other runners may move the watermark after it has been read; sent says whether the result
      can be sent before the context ends. The watermark has been moved by then. */
  method StreamTrigger(store: Watermark, files: seq<File>, mode: Mode, start: nat, bucketSize: nat, others: Option<nat>,
    sent: bool) returns (t: Trigger)
    requires bucketSize > 0
    modifies store
    ensures t.Emit? || t.Discard? ==> HighestLast(files) == Some(t.high) && (t.Emit? <==> sent)
    ensures mode.Cumulative? ==>
              && store.value == old(store.value) && !t.Conflicted? && (t.Quiet? <==> HighestLast(files).None?)
              && (t.Emit? ==> t.rows == Pruned(ResolveWindow(Cumulative, start, 0, bucketSize), t.high, files))
    ensures mode.Incremental? ==>
              var prev, raced := old(store.value), if others.Some? then others.value else old(store.value);
              match t
              case Emit(hi, rows) =>
                && prev <= hi && raced == prev && store.value == hi + 1
                && rows == Pruned(ResolveWindow(Incremental, start, prev, bucketSize), hi, files)
              case Discard(hi) => prev <= hi && raced == prev && store.value == hi + 1
              case Quiet => store.value == prev && (HighestLast(files).Some? ==> HighestLast(files).value < prev)
              case Conflicted => raced != prev && store.value == raced
  {
    var hi, have := ScanExisting(files);
    if !have {
      return Quiet;
    }
    var prev := 0;
    if mode.Incremental? {
      prev := store.value;
      if prev > hi {
        return Quiet;
      }
    }
    var rows := ScanView(ResolveWindow(mode, start, prev, bucketSize), hi, files);
    if mode.Incremental? {
      if others.Some? {
        store.value := others.value;
      }
      var ok := store.SaveCAS(prev, hi + 1);
      if !ok {
        return Conflicted;
      }
    }
    t := if sent then Emit(hi, rows) else Discard(hi);
  }

  // ---------------------------------------------------------------- any number of runners

  /** A window that a runner has read. */
  datatype Reading = Reading(prev: nat, hi: nat)

  /** The watermark, windows read but not yet committed, windows committed so far in order, and for each of those
      whether a runner still has it in hand, has delivered it or has dropped it. */
  datatype Shared = Shared(
    watermark: nat,
    reading: map<nat, Reading>,
    passed: seq<Reading>,
    inHand: map<nat, nat>,
    delivered: seq<nat>,
    dropped: seq<nat>)

  const UNREAD := Shared(0, map[], [], map[], [], [])

  /** A runner reads a window, commits it by compare-and-swap, and only then sends the result; the context may end, or
      the process, before or after the commit. */
  datatype Move = Load(r: nat, hi: nat) | Abandon(r: nat) | Commit(r: nat) | Deliver(r: nat) | Drop(r: nat)

  predicate Allowed(s: Shared, m: Move) {
    match m
    case Load(r, _) => r !in s.reading && r !in s.inHand
    case Abandon(r) => r in s.reading
    case Commit(r) => r in s.reading && r !in s.inHand
    case Deliver(r) => r in s.inHand
    case Drop(r) => r in s.inHand
  }

  function Moved(s: Shared, m: Move): Shared
    requires Allowed(s, m)
  {
    match m
    case Load(r, hi) =>
      if s.watermark > hi then s else s.(reading := s.reading[r := Reading(s.watermark, hi)])
    case Abandon(r) => s.(reading := s.reading - {r})
    case Commit(r) =>
      var w := s.reading[r];
      if s.watermark == w.prev then
        s.(watermark := w.hi + 1, reading := s.reading - {r}, passed := s.passed + [w], inHand := s.inHand[r := |s.passed|])
      else s.(reading := s.reading - {r})
    case Deliver(r) => s.(inHand := s.inHand - {r}, delivered := s.delivered + [s.inHand[r]])
    case Drop(r) => s.(inHand := s.inHand - {r}, dropped := s.dropped + [s.inHand[r]])
  }

  /** The windows follow one another from 0 up to the watermark. */
  predicate Consecutive(windows: seq<Reading>, watermark: nat) {
    if windows == [] then watermark == 0
    else
      var last := windows[|windows| - 1];
      last.prev <= last.hi && watermark == last.hi + 1 && Consecutive(windows[..|windows| - 1], last.prev)
  }

  ghost predicate Played(s: Shared, moves: seq<Move>, s': Shared)
    decreases |moves|
  {
    if moves == [] then s' == s else Allowed(s, moves[0]) && Played(Moved(s, moves[0]), moves[1..], s')
  }

  predicate ReadingsOk(s: Shared) { forall r :: r in s.reading ==> s.reading[r].prev <= s.reading[r].hi }

  /** Window i is in the hands of a runner. */
  predicate Held(s: Shared, i: nat) { exists r :: r in s.inHand && s.inHand[r] == i }

  predicate HasFate(s: Shared, i: nat) { Held(s, i) || i in s.delivered || i in s.dropped }

  /** Every committed window has exactly one fate. */
  ghost predicate FatesOk(s: Shared) {
    && (forall i, j :: 0 <= i < j < |s.delivered| ==> s.delivered[i] != s.delivered[j])
    && (forall r, q :: r in s.inHand && q in s.inHand && s.inHand[r] == s.inHand[q] ==> r == q)
    && (forall i: nat :: HasFate(s, i) <==> i < |s.passed|)
    && (forall i :: i in s.delivered ==> i !in s.dropped && !Held(s, i))
    && (forall i :: i in s.dropped ==> !Held(s, i))
  }

  lemma MoveKeepsFates(s: Shared, m: Move)
    requires FatesOk(s) && Allowed(s, m)
    ensures FatesOk(Moved(s, m))
  {
    var s' := Moved(s, m);
    if m.Commit? && s'.passed != s.passed {
      CommitHeld(s, s', m.r);
      forall q | q in s.inHand
        ensures s.inHand[q] < |s.passed|
      {
        assert Held(s, s.inHand[q]) && HasFate(s, s.inHand[q]);
      }
      assert !HasFate(s, |s.passed|);
    } else if m.Deliver? || m.Drop? {
      HandedOn(s, s', m.r);
    } else {
      assert s'.inHand == s.inHand;
      assert forall i: nat :: Held(s', i) <==> Held(s, i);
    }
    forall i: nat
      ensures HasFate(s', i) <==> i < |s'.passed|
    {
      assert HasFate(s, i) <==> i < |s.passed|;
    }
  }

  lemma CommitHeld(s: Shared, s': Shared, r: nat)
    requires r !in s.inHand && s'.inHand == s.inHand[r := |s.passed|]
    ensures forall i: nat :: Held(s', i) <==> Held(s, i) || i == |s.passed|
  {
    forall i: nat
      ensures Held(s', i) <==> Held(s, i) || i == |s.passed|
    {
      if i == |s.passed| {
        assert r in s'.inHand && s'.inHand[r] == i;
      }
      if Held(s, i) {
        var q :| q in s.inHand && s.inHand[q] == i;
        assert q in s'.inHand && s'.inHand[q] == i;
      }
    }
  }

  lemma HandedOn(s: Shared, s': Shared, r: nat)
    requires FatesOk(s) && r in s.inHand && s'.inHand == s.inHand - {r}
    ensures forall i: nat :: Held(s', i) <==> Held(s, i) && i != s.inHand[r]
    ensures Held(s, s.inHand[r])
  {
    forall i: nat
      ensures Held(s', i) <==> Held(s, i) && i != s.inHand[r]
    {
      if Held(s, i) && i != s.inHand[r] {
        var q :| q in s.inHand && s.inHand[q] == i;
        assert q in s'.inHand && s'.inHand[q] == i;
      }
    }
  }

  lemma {:induction false} RunnersKeep(s: Shared, moves: seq<Move>, s': Shared)
    requires Played(s, moves, s') && Consecutive(s.passed, s.watermark) && ReadingsOk(s) && FatesOk(s)
    ensures Consecutive(s'.passed, s'.watermark) && FatesOk(s')
    decreases |moves|
  {
    hide FatesOk;
    if moves != [] {
      var t := Moved(s, moves[0]);
      assert ReadingsOk(t);
      MoveKeepsFates(s, moves[0]);
      if |t.passed| > |s.passed| {
        assert t.passed[..|t.passed| - 1] == s.passed;
      }
      RunnersKeep(t, moves[1..], s');
    }
  }

  predicate InWindow(w: Reading, n: nat) { w.prev <= n <= w.hi }

  predicate Both(v: Reading, w: Reading, n: nat) { InWindow(v, n) && InWindow(w, n) }

  /** The k-th delivered window holds n. */
  predicate DeliveredIn(s: Shared, k: nat, n: nat) {
    k < |s.delivered| && s.delivered[k] < |s.passed| && InWindow(s.passed[s.delivered[k]], n)
  }

  lemma {:induction false} ConsecutiveCovers(windows: seq<Reading>, watermark: nat, n: nat)
    requires Consecutive(windows, watermark)
    ensures n < watermark <==> exists i :: 0 <= i < |windows| && InWindow(windows[i], n)
    ensures forall i, j :: 0 <= i < |windows| && 0 <= j < |windows| && Both(windows[i], windows[j], n) ==> i == j
    decreases |windows|
  {
    if windows != [] {
      var k := |windows| - 1;
      var front, last := windows[..k], windows[k];
      ConsecutiveCovers(front, last.prev, n);
      if n < last.prev {
        var i :| 0 <= i < |front| && InWindow(front[i], n);
        assert InWindow(windows[i], n);
      }
      forall i | 0 <= i < k && InWindow(windows[i], n)
        ensures n < last.prev
      {
        assert InWindow(front[i], n);
      }
      forall i, j | 0 <= i < |windows| && 0 <= j < |windows| && Both(windows[i], windows[j], n)
        ensures i == j
      {
        if i < k && j < k {
          assert Both(front[i], front[j], n);
        }
      }
    }
  }

  /** However many runners share a watermark, and whatever is cancelled or crashes, no sequence is delivered twice, and
      none at or above the watermark at all. */
  lemma ReadAtMostOnce(moves: seq<Move>, s: Shared, n: nat, j: nat, k: nat)
    requires Played(UNREAD, moves, s) && DeliveredIn(s, j, n) && DeliveredIn(s, k, n)
    ensures j == k && n < s.watermark
  {
    hide InWindow, Played;
    RunnersKeep(UNREAD, moves, s);
    ConsecutiveCovers(s.passed, s.watermark, n);
    assert Both(s.passed[s.delivered[j]], s.passed[s.delivered[k]], n);
  }

  /** Some delivered window holds n. */
  predicate WasDelivered(s: Shared, n: nat) { exists k: nat :: k < |s.delivered| && DeliveredIn(s, k, n) }

  /** Every sequence below the watermark, 0 included, has been delivered, and by the above once, exactly when no
      committed window was dropped and none is still in hand. */
  lemma ReadExactlyOnceIff(moves: seq<Move>, s: Shared)
    requires Played(UNREAD, moves, s)
    ensures (forall n: nat :: n < s.watermark ==> WasDelivered(s, n)) <==> s.dropped == [] && s.inHand == map[]
  {
    hide Played;
    RunnersKeep(UNREAD, moves, s);
    if s.dropped == [] && s.inHand == map[] {
      forall n: nat | n < s.watermark
        ensures WasDelivered(s, n)
      {
        ConsecutiveCovers(s.passed, s.watermark, n);
        var i: nat :| i < |s.passed| && InWindow(s.passed[i], n);
        assert HasFate(s, i) && !Held(s, i);
        var k :| 0 <= k < |s.delivered| && s.delivered[k] == i;
        assert DeliveredIn(s, k, n);
      }
    } else {
      var i := Undelivered(s);
      var n := s.passed[i].prev;
      WindowIsNotEmpty(s.passed, s.watermark, i);
      ConsecutiveCovers(s.passed, s.watermark, n);
      assert n < s.watermark && !WasDelivered(s, n) by {
        assert InWindow(s.passed[i], n);
        NotDelivered(s, i, n);
      }
    }
  }

  lemma NotDelivered(s: Shared, i: nat, n: nat)
    requires Consecutive(s.passed, s.watermark) && i < |s.passed| && i !in s.delivered && InWindow(s.passed[i], n)
    ensures !WasDelivered(s, n)
  {
    hide InWindow, Consecutive;
    ConsecutiveCovers(s.passed, s.watermark, n);
    forall k: nat | k < |s.delivered|
      ensures !DeliveredIn(s, k, n)
    {
      assert s.delivered[k] != i;
      if s.delivered[k] < |s.passed| {
        assert !Both(s.passed[s.delivered[k]], s.passed[i], n);
      }
    }
  }

  lemma Undelivered(s: Shared) returns (i: nat)
    requires FatesOk(s) && !(s.dropped == [] && s.inHand == map[])
    ensures i < |s.passed| && i !in s.delivered
  {
    if s.dropped != [] {
      i := s.dropped[0];
      assert HasFate(s, i);
    } else {
      var r :| r in s.inHand;
      i := s.inHand[r];
      assert Held(s, i) && HasFate(s, i);
    }
  }

  lemma {:induction false} WindowIsNotEmpty(windows: seq<Reading>, watermark: nat, i: nat)
    requires Consecutive(windows, watermark) && i < |windows|
    ensures windows[i].prev <= windows[i].hi
    decreases |windows|
  {
    if i < |windows| - 1 {
      WindowIsNotEmpty(windows[..|windows| - 1], windows[|windows| - 1].prev, i);
    }
  }

  /** A run in which the context ends between the commit and the send: sequence 0 is passed and never delivered. */
  lemma DroppedWindow()
    ensures var s := Shared(1, map[], [Reading(0, 0)], map[], [], [0]);
            Played(UNREAD, [Load(7, 0), Commit(7), Drop(7)], s) && !WasDelivered(s, 0)
  {
    var s1 := Moved(UNREAD, Load(7, 0));
    var s2 := Moved(s1, Commit(7));
    var s3 := Moved(s2, Drop(7));
    assert s1.reading == map[7 := Reading(0, 0)] && s1.reading - {7} == map[];
    assert s2 == Shared(1, map[], [Reading(0, 0)], map[7 := 0], [], []);
    assert s2.inHand - {7} == map[];
    assert [Load(7, 0), Commit(7), Drop(7)][1..] == [Commit(7), Drop(7)];
    assert [Commit(7), Drop(7)][1..] == [Drop(7)] && [Drop(7)][1..] == [];
    assert Played(s3, [], s3) && Played(s2, [Drop(7)], s3) && Played(s1, [Commit(7), Drop(7)], s3);
  }

  // ---------------------------------------------------------------- what is read

  lemma PlainLast(lo: nat, hi: nat, rows: seq<Record>, r: Record)
    ensures Plain(lo, hi, rows + [r]) == Plain(lo, hi, rows) + if lo <= r.sequence <= hi then [r] else []
  {
    assert (rows + [r])[..|rows|] == rows;
  }

  lemma {:induction false} PlainKeeps(lo: nat, hi: nat, rows: seq<Record>)
    requires forall i :: 0 <= i < |rows| ==> lo <= rows[i].sequence <= hi
    ensures Plain(lo, hi, rows) == rows
    decreases |rows|
  {
    if rows != [] {
      hide Plain;
      var k := |rows| - 1;
      var front, r := rows[..k], rows[k];
      assert rows == front + [r];
      PlainKeeps(lo, hi, front);
      PlainLast(lo, hi, front, r);
    }
  }

  lemma {:induction false} PlainDrops(lo: nat, hi: nat, rows: seq<Record>)
    requires forall i :: 0 <= i < |rows| ==> rows[i].sequence < lo
    ensures Plain(lo, hi, rows) == []
    decreases |rows|
  {
    if rows != [] {
      hide Plain;
      var k := |rows| - 1;
      var front, r := rows[..k], rows[k];
      assert rows == front + [r];
      PlainDrops(lo, hi, front);
      PlainLast(lo, hi, front, r);
    }
  }

  /** Over files that hold the log from start up to end, a window reads exactly its part of the log. */
  lemma WindowReads(log: seq<Record>, start: nat, lo: nat, hi: nat, end: nat)
    requires InSequence(log) && start <= end <= |log| && end <= hi + 1
    ensures Plain(lo, hi, log[start..end]) == if Larger(start, lo) <= end then log[Larger(start, lo)..end] else []
  {
    hide Plain;
    var mid := if Larger(start, lo) <= end then Larger(start, lo) else end;
    var a, b := log[start..mid], log[mid..end];
    assert log[start..end] == a + b;
    PlainConcat(lo, hi, a, b);
    PlainDrops(lo, hi, a);
    PlainKeeps(lo, hi, b);
  }

  function Larger(a: nat, b: nat): nat { if a < b then b else a }

  /** An incremental read returns the records of its window, in order and once each, over files as the sink leaves them
      between two flushes of a poll, after a poll, or after a failed poll from rest. */
  lemma IncrementalRead(c: Config, log: seq<Record>, start: nat, st: State, prev: nat, read: nat, hi: nat)
    requires Usable(c) && InSequence(log) && Laid(c, start, st) && Contiguous(log, start, st) && st.high == Some(hi)
    requires c.bucketSize <= read && prev <= hi
    ensures start <= hi < |log|
    ensures Pruned(ResolveWindow(Incremental, 0, prev, read), hi, st.files) == log[Larger(start, prev)..hi + 1]
  {
    hide Rows, FileOk, Pruned, Plain;
    LaidRows(c, log, start, st);
    PrunedIsPlain(c, st.files, Incremental, 0, prev, read, hi);
    assert st.nextCursor == hi + 1 > start by {
      HasRows(c, start, st);
    }
    WindowReads(log, start, prev, hi, hi + 1);
  }

  /** A cumulative read returns the records from its start on, or from the sink's if that is later, up to visibleHigh. */
  lemma CumulativeRead(c: Config, log: seq<Record>, start: nat, st: State, from: nat, read: nat, hi: nat)
    requires Usable(c) && InSequence(log) && Laid(c, start, st) && Contiguous(log, start, st) && st.high == Some(hi)
    requires c.bucketSize <= read && from <= hi
    ensures start <= hi < |log|
    ensures Pruned(ResolveWindow(Cumulative, from, 0, read), hi, st.files) == log[Larger(start, from)..hi + 1]
  {
    hide Rows, FileOk, Pruned, Plain;
    LaidRows(c, log, start, st);
    PrunedIsPlain(c, st.files, Cumulative, from, 0, read, hi);
    assert st.nextCursor == hi + 1 > start by {
      HasRows(c, start, st);
    }
    WindowReads(log, start, from, hi, hi + 1);
  }

  /** The watermark and all rows sent so far, after triggers at the given moments of the sink. */
  function Triggered(read: nat, moments: seq<State>): (nat, seq<Record>)
    requires read > 0
  {
    if moments == [] then (0, [])
    else
      var st := moments[|moments| - 1];
      var (watermark, rows) := Triggered(read, moments[..|moments| - 1]);
      match st.high
      case None => (watermark, rows)
      case Some(hi) =>
        if watermark > hi then (watermark, rows)
        else (hi + 1, rows + Pruned(ResolveWindow(Incremental, 0, watermark, read), hi, st.files))
  }

  /** Triggers at any moments of a sink that has lost and repeated nothing, mid-poll ones included, send together exactly
      the log from the sink's start up to the watermark, in order and once each. */
  lemma {:induction false} TriggersRead(c: Config, log: seq<Record>, start: nat, read: nat, moments: seq<State>)
    requires Usable(c) && InSequence(log) && c.bucketSize <= read
    requires forall k :: 0 <= k < |moments| ==> Laid(c, start, moments[k]) && Contiguous(log, start, moments[k])
    ensures var (watermark, rows) := Triggered(read, moments);
            && watermark <= |log| && (watermark == 0 || watermark > start)
            && rows == if watermark == 0 then [] else log[start..watermark]
    decreases |moments|
  {
    hide Laid, Contiguous, Pruned, InSequence;
    if moments != [] {
      var k := |moments| - 1;
      var st := moments[k];
      TriggersRead(c, log, start, read, moments[..k]);
      var (watermark, rows) := Triggered(read, moments[..k]);
      if st.high.Some? && watermark <= st.high.value {
        var hi := st.high.value;
        IncrementalRead(c, log, start, st, watermark, read, hi);
        if watermark > 0 {
          assert log[start..watermark] + log[watermark..hi + 1] == log[start..hi + 1];
        }
      }
    }
  }

  /** The sink after each poll of a run. */
  function AfterEach(c: Config, st: State, log: seq<Record>, passes: seq<Pass>): seq<State>
    requires Usable(c) && Proper(log, passes)
    decreases |passes|
  {
    if passes == [] then []
    else
      var st' := Poll(c, passes[0].f, st, log, passes[0].ends).0;
      [st'] + AfterEach(c, st', log, passes[1..])
  }

  lemma {:induction false} EachAtRest(c: Config, st: State, log: seq<Record>, passes: seq<Pass>, start: nat)
    requires Usable(c) && Proper(log, passes) && AtRest(c, log, start, st) && Succeeds(c, st, log, passes)
    ensures forall k :: 0 <= k < |AfterEach(c, st, log, passes)| ==> AtRest(c, log, start, AfterEach(c, st, log, passes)[k])
    ensures passes != [] ==>
              var each := AfterEach(c, st, log, passes);
              each != [] && each[|each| - 1] == Run(c, st, log, passes)
    decreases |passes|
  {
    hide Poll, AtRest;
    if passes != [] {
      var st' := Poll(c, passes[0].f, st, log, passes[0].ends).0;
      PollIsLaid(c, passes[0].f, st, log, passes[0].ends, start);
      EachAtRest(c, st', log, passes[1..], start);
      if passes[1..] == [] {
        assert AfterEach(c, st', log, passes[1..]) == [];
      }
    }
  }

  /** A stream triggered after every poll of a run without failures sends the log from the sink's start up to
      visibleHigh, in order and once each, and nothing that is visible is left unsent. */
  lemma StreamFollowsSink(c: Config, log: seq<Record>, start: nat, read: nat, passes: seq<Pass>)
    requires Usable(c) && Proper(log, passes) && c.bucketSize <= read && Succeeds(c, Fresh(start), log, passes)
    ensures var (watermark, rows) := Triggered(read, AfterEach(c, Fresh(start), log, passes));
            var st := Run(c, Fresh(start), log, passes);
            && watermark <= |log| && (watermark == 0 || start < watermark)
            && rows == (if watermark == 0 then [] else log[start..watermark])
            && (st.high.Some? ==> watermark > st.high.value)
  {
    hide Poll, Succeeds, Run, Pruned;
    var each := AfterEach(c, Fresh(start), log, passes);
    assert AtRest(c, log, start, Fresh(start)) by {
      FreshRests(c, log, start);
    }
    EachAtRest(c, Fresh(start), log, passes, start);
    TriggersRead(c, log, start, read, each);
    if passes == [] {
      NoPolls(c, log, start);
    }
  }

  lemma FreshRests(c: Config, log: seq<Record>, start: nat)
    requires Usable(c)
    ensures AtRest(c, log, start, Fresh(start))
  {
    assert Rows([]) == [] && All(Fresh(start)) == [];
  }

  lemma NoPolls(c: Config, log: seq<Record>, start: nat)
    requires Usable(c) && Proper(log, [])
    ensures Run(c, Fresh(start), log, []) == Fresh(start)
  {
  }
}
