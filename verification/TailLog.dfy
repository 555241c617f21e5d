/** The committed log as a reader numbers it, and which part of it has been delivered. */
module TailLog {
  import opened Bytes
  import opened Entries
  import opened Packing
  import opened Segment
  import opened Wrappers

  /** A committed segment: its manifest entry and the object stored at its location. */
  datatype Logged = Logged(entry: Entry, stored: bytes)

  /** What an Applier is handed. */
  datatype Record = Record(sequence: nat, meta: bytes, data: bytes)

  function Contents(z: Zstd, c: Logged): seq<bytes> {
    match ParseSegment(z, c.stored)
    case Ok(records) => records
    case Err(_) => []
  }

  /** Record i of an entry: per-record entries number their records, legacy ones share one sequence. */
  function RecordAt(e: Entry, data: bytes, i: nat): Record {
    Record(if e.count > 0 then e.sequence + i else e.sequence, Covering(e.metadata, i, []), data)
  }

  function Numbered(e: Entry, data: seq<bytes>, from: nat): (r: seq<Record>)
    ensures |r| == |data| && forall i :: 0 <= i < |r| ==> r[i] == RecordAt(e, data[i], from + i)
    decreases |data|
  {
    if data == [] then [] else [RecordAt(e, data[0], from)] + Numbered(e, data[1..], from + 1)
  }

  function RecordsOf(z: Zstd, c: Logged): seq<Record> { Numbered(c.entry, Contents(z, c), 0) }

  /** All records of the log, in commit order. */
  function Flatten(z: Zstd, log: seq<Logged>): seq<Record> {
    if log == [] then [] else Flatten(z, log[..|log| - 1]) + RecordsOf(z, log[|log| - 1])
  }

  function EntriesOf(log: seq<Logged>): (r: seq<Entry>)
    ensures |r| == |log| && forall i :: 0 <= i < |r| ==> r[i] == log[i].entry
  {
    if log == [] then [] else [log[0].entry] + EntriesOf(log[1..])
  }

  /** The records from sequence n on. */
  function From(records: seq<Record>, n: nat): seq<Record> {
    if records == [] then []
    else
      From(records[..|records| - 1], n) +
      if records[|records| - 1].sequence >= n then [records[|records| - 1]] else []
  }

  /** Every stored object decodes, to as many records as its entry says. */
  predicate Whole(z: Zstd, c: Logged) {
    ParseSegment(z, c.stored).Ok? && (c.entry.count > 0 ==> |Contents(z, c)| == c.entry.count)
  }

  predicate LogOk(z: Zstd, log: seq<Logged>, lo: nat, hi: nat) {
    Tiles(EntriesOf(log), lo, hi) && forall i :: 0 <= i < |log| ==> Whole(z, log[i])
  }

  // ---------------------------------------------------------------- filtering

  predicate Below(records: seq<Record>, n: nat) { forall i :: 0 <= i < |records| ==> records[i].sequence < n }

  predicate AtLeast(records: seq<Record>, n: nat) { forall i :: 0 <= i < |records| ==> records[i].sequence >= n }

  lemma {:induction false} FromConcat(a: seq<Record>, b: seq<Record>, n: nat)
    ensures From(a + b, n) == From(a, n) + From(b, n)
    decreases |b|
  {
    if b == [] {
      assert a + b == a;
    } else {
      assert (a + b)[..|a + b| - 1] == a + b[..|b| - 1];
      FromConcat(a, b[..|b| - 1], n);
    }
  }

  lemma {:induction false} FromAll(records: seq<Record>, n: nat)
    ensures AtLeast(records, n) ==> From(records, n) == records
    ensures Below(records, n) ==> From(records, n) == []
    decreases |records|
  {
    if records != [] {
      FromAll(records[..|records| - 1], n);
    }
  }

  lemma {:induction false} FlattenConcat(z: Zstd, a: seq<Logged>, b: seq<Logged>)
    ensures Flatten(z, a + b) == Flatten(z, a) + Flatten(z, b)
    decreases |b|
  {
    hide RecordsOf;
    if b == [] {
      assert a + b == a;
    } else {
      assert (a + b)[..|a + b| - 1] == a + b[..|b| - 1];
      FlattenConcat(z, a, b[..|b| - 1]);
    }
  }

  lemma RecordsWithin(z: Zstd, c: Logged)
    requires Whole(z, c)
    ensures AtLeast(RecordsOf(z, c), c.entry.sequence) && Below(RecordsOf(z, c), c.entry.End())
  {
    hide ParseSegment, Covering;
  }

  lemma {:induction false} TilesSplit(es: seq<Entry>, lo: nat, hi: nat, k: nat)
    requires Tiles(es, lo, hi) && k <= |es|
    ensures var mid := if k == |es| then hi else es[k].sequence;
            && Tiles(es[..k], lo, mid) && Tiles(es[k..], mid, hi)
            && (k > 0 ==> mid == es[k - 1].End())
    decreases k
  {
    if k > 0 {
      TilesSplit(es[1..], es[0].End(), hi, k - 1);
      assert es[..k][1..] == es[1..][..k - 1] && es[k..] == es[1..][k - 1..];
    } else {
      assert es[0..] == es;
    }
  }

  lemma EntriesPrefix(log: seq<Logged>, k: nat)
    requires k <= |log|
    ensures EntriesOf(log[..k]) == EntriesOf(log)[..k] && EntriesOf(log[k..]) == EntriesOf(log)[k..]
  {
    hide EntriesOf;
  }

  /** The sequences of a tiled log lie in the range it tiles. */
  lemma {:induction false} FlattenWithin(z: Zstd, log: seq<Logged>, lo: nat, hi: nat)
    requires LogOk(z, log, lo, hi)
    ensures lo <= hi && AtLeast(Flatten(z, log), lo) && Below(Flatten(z, log), hi)
    decreases |log|
  {
    hide ParseSegment, RecordsOf, Contents;
    if log != [] {
      var k := |log| - 1;
      TilesIsChained(EntriesOf(log), lo, hi);
      SplitAt(z, log, lo, hi, k);
      FlattenWithin(z, log[..k], lo, log[k].entry.sequence);
      RecordsWithin(z, log[k]);
    }
  }

  /** Where entry k begins, or the end of the log. */
  function Boundary(log: seq<Logged>, hi: nat, k: nat): nat
    requires k <= |log|
  {
    if k == |log| then hi else log[k].entry.sequence
  }

  /** A tiled log cut at an entry boundary is two tiled logs. */
  lemma SplitAt(z: Zstd, log: seq<Logged>, lo: nat, hi: nat, k: nat)
    requires LogOk(z, log, lo, hi) && k <= |log|
    ensures LogOk(z, log[..k], lo, Boundary(log, hi, k)) && LogOk(z, log[k..], Boundary(log, hi, k), hi)
    ensures k > 0 ==> Boundary(log, hi, k) == log[k - 1].entry.End()
  {
    hide ParseSegment, Tiles, EntriesOf;
    EntriesPrefix(log, k);
    TilesSplit(EntriesOf(log), lo, hi, k);
  }

  /** Reading on from the boundary of entry k reads exactly the entries from k on. */
  lemma FromBoundary(z: Zstd, log: seq<Logged>, lo: nat, hi: nat, k: nat)
    requires LogOk(z, log, lo, hi) && k <= |log|
    ensures From(Flatten(z, log), Boundary(log, hi, k)) == Flatten(z, log[k..])
  {
    hide ParseSegment, Flatten, From, LogOk;
    var n := Boundary(log, hi, k);
    SplitAt(z, log, lo, hi, k);
    FlattenWithin(z, log[..k], lo, n);
    FlattenWithin(z, log[k..], n, hi);
    assert log == log[..k] + log[k..];
    FlattenConcat(z, log[..k], log[k..]);
    FromConcat(Flatten(z, log[..k]), Flatten(z, log[k..]), n);
    FromAll(Flatten(z, log[..k]), n);
    FromAll(Flatten(z, log[k..]), n);
  }

  // ---------------------------------------------------------------- positions

  predicate Sorted(records: seq<Record>) {
    forall i, j :: 0 <= i < j < |records| ==> records[i].sequence <= records[j].sequence
  }

  lemma {:induction false} FlattenSorted(z: Zstd, log: seq<Logged>, lo: nat, hi: nat)
    requires LogOk(z, log, lo, hi)
    ensures Sorted(Flatten(z, log))
    decreases |log|
  {
    hide ParseSegment, LogOk;
    if log != [] {
      var k := |log| - 1;
      SplitAt(z, log, lo, hi, k);
      FlattenSorted(z, log[..k], lo, Boundary(log, hi, k));
      FlattenWithin(z, log[..k], lo, Boundary(log, hi, k));
      assert Whole(z, log[k]) by {
        WholeAt(z, log, lo, hi, k);
      }
      RecordsWithin(z, log[k]);
    }
  }

  lemma WholeAt(z: Zstd, log: seq<Logged>, lo: nat, hi: nat, k: nat)
    requires LogOk(z, log, lo, hi) && k < |log|
    ensures Whole(z, log[k]) && log[k].entry.End() <= hi
  {
    TilesWithin(EntriesOf(log), lo, hi, k);
  }

  lemma SuffixSnoc(a: seq<Record>, b: seq<Record>, x: Record)
    requires |b| <= |a| && a[|a| - |b|..] == b
    ensures (a + [x])[|a| - |b|..] == b + [x]
  {
  }

  /** The records from n on are the last ones of those from s on. */
  lemma {:induction false} FromIsSuffix(records: seq<Record>, s: nat, n: nat)
    requires Sorted(records) && s <= n
    ensures var a, b := From(records, s), From(records, n);
            |b| <= |a| && a[|a| - |b|..] == b
    decreases |records|
  {
    if records != [] {
      var k := |records| - 1;
      var front, x := records[..k], records[k];
      if x.sequence >= n {
        FromIsSuffix(front, s, n);
        SuffixSnoc(From(front, s), From(front, n), x);
      } else {
        assert Below(records, n);
        FromAll(records, n);
      }
    }
  }

  /** The records of the log a reader starting at s is to see. */
  function Visible(z: Zstd, log: seq<Logged>, s: nat): seq<Record> { From(Flatten(z, log), s) }

  /** How many of them are below n. */
  function Position(z: Zstd, log: seq<Logged>, s: nat, n: nat): int {
    |Visible(z, log, s)| - |Visible(z, log, n)|
  }

  lemma RestOfVisible(z: Zstd, log: seq<Logged>, lo: nat, hi: nat, s: nat, n: nat)
    requires LogOk(z, log, lo, hi) && s <= n
    ensures 0 <= Position(z, log, s, n) <= |Visible(z, log, s)|
    ensures Visible(z, log, s)[Position(z, log, s, n)..] == Visible(z, log, n)
  {
    hide ParseSegment, LogOk, Flatten, From;
    FlattenSorted(z, log, lo, hi);
    FromIsSuffix(Flatten(z, log), s, n);
  }

  /** More commits add to the end of what is visible and move no position at or below the old end. */
  lemma LogGrows(z: Zstd, log: seq<Logged>, more: seq<Logged>, lo: nat, hi: nat, hi': nat, s: nat, n: nat)
    requires LogOk(z, log, lo, hi) && LogOk(z, more, hi, hi')
    ensures LogOk(z, log + more, lo, hi')
    ensures Visible(z, log, s) <= Visible(z, log + more, s)
    ensures n == s || s <= n <= hi ==> Position(z, log + more, s, n) == Position(z, log, s, n)
  {
    hide ParseSegment, Flatten, From, Tiles, EntriesOf;
    EntriesConcat(log, more);
    TilesConcat(EntriesOf(log), EntriesOf(more), lo, hi, hi');
    FlattenConcat(z, log, more);
    FromConcat(Flatten(z, log), Flatten(z, more), s);
    FromConcat(Flatten(z, log), Flatten(z, more), n);
    FlattenWithin(z, more, hi, hi');
    FromAll(Flatten(z, more), n);
    FromAll(Flatten(z, more), s);
  }

  lemma EntriesConcat(a: seq<Logged>, b: seq<Logged>)
    ensures EntriesOf(a + b) == EntriesOf(a) + EntriesOf(b)
  {
    hide EntriesOf;
  }

  // ---------------------------------------------------------------- deliveries

  /** One past the furthest index delivered. */
  function High(trace: seq<nat>): nat {
    if trace == [] then 0
    else
      var h, last := High(trace[..|trace| - 1]), trace[|trace| - 1];
      if last + 1 > h then last + 1 else h
  }

  /** Every delivery repeats an earlier one or is the next in line. */
  predicate InOrder(trace: seq<nat>) {
    trace == [] || (InOrder(trace[..|trace| - 1]) && trace[|trace| - 1] <= High(trace[..|trace| - 1]))
  }

  /** The deliveries that are not repeats. */
  function Firsts(trace: seq<nat>): seq<nat> {
    if trace == [] then []
    else
      var front, last := trace[..|trace| - 1], trace[|trace| - 1];
      Firsts(front) + if last in front then [] else [last]
  }

  /** First deliveries run through 0, 1, 2, ... without a gap and in order. */
  lemma {:induction false} FirstsAreGapless(trace: seq<nat>)
    requires InOrder(trace)
    ensures |Firsts(trace)| == High(trace)
    ensures forall i :: 0 <= i < |Firsts(trace)| ==> Firsts(trace)[i] == i
    ensures forall i: nat :: i in trace <==> i < High(trace)
    decreases |trace|
  {
    if trace != [] {
      var front, last := trace[..|trace| - 1], trace[|trace| - 1];
      FirstsAreGapless(front);
      assert trace == front + [last];
    }
  }

  function Consecutive(from: nat, n: nat): (r: seq<nat>)
    ensures |r| == n && forall i :: 0 <= i < n ==> r[i] == from + i
    decreases n
  {
    if n == 0 then [] else Consecutive(from, n - 1) + [from + n - 1]
  }

  lemma {:induction false} ContinueInOrder(trace: seq<nat>, from: nat, n: nat)
    requires InOrder(trace) && from <= High(trace)
    ensures InOrder(trace + Consecutive(from, n))
    ensures High(trace + Consecutive(from, n)) ==
            if n > 0 && from + n > High(trace) then from + n else High(trace)
    decreases n
  {
    if n == 0 {
      assert trace + Consecutive(from, 0) == trace;
    } else {
      ContinueInOrder(trace, from, n - 1);
      var t := trace + Consecutive(from, n);
      assert t[..|t| - 1] == trace + Consecutive(from, n - 1);
    }
  }

  /** delivered[k] is the record at index trace[k] of what is visible. */
  predicate Delivers(visible: seq<Record>, delivered: seq<Record>, trace: seq<nat>) {
    && |delivered| == |trace| && InOrder(trace)
    && forall k :: 0 <= k < |trace| ==> trace[k] < |visible| && delivered[k] == visible[trace[k]]
  }

  /** Delivering the next m records from a position already reached. */
  lemma DeliversMore(visible: seq<Record>, delivered: seq<Record>, trace: seq<nat>, from: nat, part: seq<Record>)
    requires Delivers(visible, delivered, trace) && from <= High(trace) && from <= |visible| && part <= visible[from..]
    ensures Delivers(visible, delivered + part, trace + Consecutive(from, |part|))
    ensures High(trace + Consecutive(from, |part|)) >= from + |part|
    ensures High(trace + Consecutive(from, |part|)) >= High(trace)
  {
    hide InOrder, High, Consecutive;
    ContinueInOrder(trace, from, |part|);
    assert |part| <= |visible[from..]|;
    var t, d := trace + Consecutive(from, |part|), delivered + part;
    forall k | 0 <= k < |t|
      ensures t[k] < |visible| && d[k] == visible[t[k]]
    {
      if k < |trace| {
        assert t[k] == trace[k] && d[k] == delivered[k];
      } else {
        var i := k - |trace|;
        assert t[k] == from + i && d[k] == part[i] == visible[from..][i];
      }
    }
  }

  // ---------------------------------------------------------------- one poll, on values

  /** A cursor at n has passed only records that have been delivered. */
  predicate Passed(z: Zstd, log: seq<Logged>, hi: nat, s: nat, n: nat, trace: seq<nat>) {
    (n == s || s <= n <= hi) && Position(z, log, s, n) <= High(trace)
  }

  lemma PassedStart(z: Zstd, log: seq<Logged>, hi: nat, s: nat, trace: seq<nat>)
    ensures Passed(z, log, hi, s, s, trace)
  {
  }

  /** What a poll resuming at n hands over while it is inside entry i, having gone through j of its records. */
  function Handed(z: Zstd, log: seq<Logged>, n: nat, i: nat, j: nat): seq<Record>
    requires i < |log| && j <= |RecordsOf(z, log[i])|
  {
    From(Flatten(z, log[..i]) + RecordsOf(z, log[i])[..j], n)
  }

  lemma HandedNext(z: Zstd, log: seq<Logged>, n: nat, i: nat, j: nat)
    requires i < |log| && j < |RecordsOf(z, log[i])|
    ensures var x := RecordsOf(z, log[i])[j];
            if x.sequence >= n then Handed(z, log, n, i, j + 1) == Handed(z, log, n, i, j) + [x]
            else Handed(z, log, n, i, j + 1) == Handed(z, log, n, i, j)
  {
    hide Flatten, RecordsOf;
    var a, r := Flatten(z, log[..i]), RecordsOf(z, log[i]);
    var whole := a + r[..j + 1];
    assert whole[..|whole| - 1] == a + r[..j];
  }

  lemma HandedEnds(z: Zstd, log: seq<Logged>, n: nat, i: nat)
    requires i < |log|
    ensures Handed(z, log, n, i, 0) == From(Flatten(z, log[..i]), n)
    ensures Handed(z, log, n, i, |RecordsOf(z, log[i])|) == From(Flatten(z, log[..i + 1]), n)
  {
    hide From, RecordsOf;
    var a, r := Flatten(z, log[..i]), RecordsOf(z, log[i]);
    assert a + r[..0] == a && r[..|r|] == r;
    assert log[..i + 1][..i] == log[..i] && log[..i + 1][i] == log[i];
  }

  lemma HandedWithin(z: Zstd, log: seq<Logged>, n: nat, i: nat, j: nat)
    requires i < |log| && j <= |RecordsOf(z, log[i])|
    ensures |Handed(z, log, n, i, j)| <= |From(Flatten(z, log[..i + 1]), n)|
  {
    hide From, Flatten, RecordsOf;
    var a, r := Flatten(z, log[..i]), RecordsOf(z, log[i]);
    FlattenSnoc(z, log, i);
    assert a + r == (a + r[..j]) + r[j..];
    FromConcat(a + r[..j], r[j..], n);
  }

  lemma HandedIsVisible(z: Zstd, log: seq<Logged>, n: nat, i: nat, j: nat)
    requires i < |log| && j <= |RecordsOf(z, log[i])|
    ensures Handed(z, log, n, i, j) <= Visible(z, log, n)
  {
    hide From, Flatten, RecordsOf;
    var a, r, b := Flatten(z, log[..i]), RecordsOf(z, log[i]), Flatten(z, log[i + 1..]);
    assert log == log[..i + 1] + log[i + 1..];
    FlattenConcat(z, log[..i + 1], log[i + 1..]);
    FlattenSnoc(z, log, i);
    assert Flatten(z, log) == (a + r[..j]) + (r[j..] + b);
    FromConcat(a + r[..j], r[j..] + b, n);
  }

  lemma FlattenSnoc(z: Zstd, log: seq<Logged>, i: nat)
    requires i < |log|
    ensures Flatten(z, log[..i + 1]) == Flatten(z, log[..i]) + RecordsOf(z, log[i])
  {
    assert log[..i + 1][..i] == log[..i];
  }

  /** Entries wholly below n hand over nothing. */
  lemma NothingBelow(z: Zstd, log: seq<Logged>, lo: nat, hi: nat, n: nat, k: nat)
    requires LogOk(z, log, lo, hi) && k <= |log| && (k > 0 ==> log[k - 1].entry.End() <= n)
    ensures From(Flatten(z, log[..k]), n) == []
  {
    hide ParseSegment, Flatten, From, LogOk;
    if k == 0 {
      assert log[..0] == [] && Flatten(z, []) == [] && From([], n) == [] by {
        FlattenNone(z, n);
      }
    } else {
      SplitAt(z, log, lo, hi, k);
      FlattenWithin(z, log[..k], lo, Boundary(log, hi, k));
      FromAll(Flatten(z, log[..k]), n);
    }
  }

  lemma FlattenNone(z: Zstd, n: nat)
    ensures Flatten(z, []) == [] && From([], n) == []
  {
  }

  /** After entry i - 1 the cursor stands right behind everything handed over. */
  lemma EndPosition(z: Zstd, log: seq<Logged>, lo: nat, hi: nat, s: nat, n: nat, i: nat)
    requires LogOk(z, log, lo, hi) && s <= n && 0 < i <= |log| && n < log[i - 1].entry.End()
    ensures log[i - 1].entry.End() <= hi
    ensures Position(z, log, s, log[i - 1].entry.End()) ==
            Position(z, log, s, n) + |From(Flatten(z, log[..i]), n)|
  {
    hide ParseSegment, Flatten, From, LogOk;
    var e := log[i - 1].entry.End();
    SplitAt(z, log, lo, hi, i);
    FlattenWithin(z, log[i..], Boundary(log, hi, i), hi);
    FromBoundary(z, log, lo, hi, i);
    assert log == log[..i] + log[i..];
    FlattenConcat(z, log[..i], log[i..]);
    FromConcat(Flatten(z, log[..i]), Flatten(z, log[i..]), n);
    FromAll(Flatten(z, log[i..]), n);
  }

  /** A poll that resumed at n, with d and t delivered before it, has handed over part so far. */
  ghost predicate Serving(z: Zstd, log: seq<Logged>, lo: nat, hi: nat, s: nat, n: nat, d: seq<Record>, t: seq<nat>,
    part: seq<Record>)
  {
    && LogOk(z, log, lo, hi) && s <= n && Passed(z, log, hi, s, n, t)
    && Delivers(Visible(z, log, s), d, t) && part <= Visible(z, log, n)
  }

  function Traced(z: Zstd, log: seq<Logged>, s: nat, n: nat, t: seq<nat>, part: seq<Record>): seq<nat> {
    if Position(z, log, s, n) >= 0 then t + Consecutive(Position(z, log, s, n), |part|) else t
  }

  lemma ServingDelivers(z: Zstd, log: seq<Logged>, lo: nat, hi: nat, s: nat, n: nat, d: seq<Record>, t: seq<nat>,
    part: seq<Record>)
    requires Serving(z, log, lo, hi, s, n, d, t, part)
    ensures Delivers(Visible(z, log, s), d + part, Traced(z, log, s, n, t, part))
    ensures High(t) <= High(Traced(z, log, s, n, t, part))
    ensures Position(z, log, s, n) + |part| <= High(Traced(z, log, s, n, t, part))
  {
    hide LogOk, Visible, InOrder, High, Consecutive;
    RestOfVisible(z, log, lo, hi, s, n);
    DeliversMore(Visible(z, log, s), d, t, Position(z, log, s, n), part);
  }

  // ---------------------------------------------------------------- what it amounts to

  /** Leaving repeats out, what was delivered is the beginning of the visible log, in order and without a gap. */
  lemma FirstDeliveries(visible: seq<Record>, delivered: seq<Record>, trace: seq<nat>)
    requires Delivers(visible, delivered, trace)
    ensures High(trace) <= |visible| && Distinct(delivered, trace) == visible[..High(trace)]
  {
    hide InOrder, High;
    DistinctAt(visible, delivered, trace);
  }

  /** The deliveries that are not repeats, as records. */
  function Distinct(delivered: seq<Record>, trace: seq<nat>): seq<Record>
    requires |delivered| == |trace|
    decreases |trace|
  {
    if trace == [] then []
    else
      var k := |trace| - 1;
      Distinct(delivered[..k], trace[..k]) + if trace[k] in trace[..k] then [] else [delivered[k]]
  }

  lemma {:induction false} DistinctAt(visible: seq<Record>, delivered: seq<Record>, trace: seq<nat>)
    requires |delivered| == |trace| && InOrder(trace)
    requires forall k :: 0 <= k < |trace| ==> trace[k] < |visible| && delivered[k] == visible[trace[k]]
    ensures High(trace) <= |visible| && Distinct(delivered, trace) == visible[..High(trace)]
    decreases |trace|
  {
    if trace != [] {
      var k := |trace| - 1;
      var front := trace[..k];
      DistinctAt(visible, delivered[..k], front);
      FirstsAreGapless(front);
      if trace[k] !in front {
        assert visible[..High(front)] + [visible[trace[k]]] == visible[..High(front) + 1];
      }
    }
  }

  /** No record below a cursor is undelivered. */
  lemma CursorIsSafe(z: Zstd, log: seq<Logged>, lo: nat, hi: nat, s: nat, n: nat, delivered: seq<Record>,
    trace: seq<nat>, i: nat)
    requires LogOk(z, log, lo, hi) && Delivers(Visible(z, log, s), delivered, trace) && Passed(z, log, hi, s, n, trace)
    requires i < |Visible(z, log, s)| && Visible(z, log, s)[i].sequence < n
    ensures Visible(z, log, s)[i] in delivered
  {
    hide LogOk, InOrder, High, From, Flatten;
    var visible, p := Visible(z, log, s), Position(z, log, s, n);
    RestOfVisible(z, log, lo, hi, s, n);
    FromBounds(Flatten(z, log), n);
    assert i < p;
    FirstsAreGapless(trace);
    assert i in trace;
    var k :| 0 <= k < |trace| && trace[k] == i;
    assert delivered[k] == visible[i];
  }

  lemma {:induction false} FromBounds(records: seq<Record>, n: nat)
    ensures AtLeast(From(records, n), n)
    decreases |records|
  {
    if records != [] {
      FromBounds(records[..|records| - 1], n);
    }
  }

  // ---------------------------------------------------------------- catching up

  /** The position of a reader that resumed at n and has gone through the first k entries. */
  function StandsAt(log: seq<Logged>, n: nat, k: nat): nat {
    if 0 < k <= |log| && log[k - 1].entry.End() > n then log[k - 1].entry.End() else n
  }

  /** The cap, if there is one, is not reached at any boundary from k to last. */
  ghost predicate Short(z: Zstd, log: seq<Logged>, n: nat, maxRecords: nat, k: nat, last: nat) {
    maxRecords > 0 ==>
      forall l :: k <= l < last && l <= |log| ==> |From(Flatten(z, log[..l]), n)| < maxRecords
  }

  lemma ShortNone(z: Zstd, log: seq<Logged>, n: nat, maxRecords: nat, k: nat)
    ensures Short(z, log, n, maxRecords, k, k)
  {
  }

  lemma ShortMore(z: Zstd, log: seq<Logged>, n: nat, maxRecords: nat, k: nat, last: nat)
    requires Short(z, log, n, maxRecords, k, last) && last < |log|
    requires maxRecords == 0 || |From(Flatten(z, log[..last]), n)| < maxRecords
    ensures Short(z, log, n, maxRecords, k, last + 1)
  {
  }

  /** A poll that resumed at n and was shown the first v entries got to entry last: it handed over exactly the records of
      the entries before it from n on, stands behind them, and stopped where its budget was reached, not before. */
  ghost predicate CaughtUp(z: Zstd, log: seq<Logged>, maxRecords: nat, n: nat, v: nat, last: nat, got: seq<Record>, next: nat) {
    && last <= v <= |log| && got == From(Flatten(z, log[..last]), n)
    && next == StandsAt(log, n, last)
    && (last < v ==> 0 < maxRecords <= |got|)
    && Short(z, log, n, maxRecords, 0, last)
  }

  /** The cursor was last saved behind entry k, if that is beyond where the poll resumed. */
  predicate SavedBehind(log: seq<Logged>, n: nat, k: nat, was: Option<nat>, persisted: Option<nat>) {
    k <= |log| && persisted == if StandsAt(log, n, k) == n then was else Some(StandsAt(log, n, k))
  }

  lemma NotSavedYet(log: seq<Logged>, n: nat, k: nat, was: Option<nat>)
    requires k <= |log| && (k > 0 ==> log[k - 1].entry.End() <= n)
    ensures StandsAt(log, n, k) == n && SavedBehind(log, n, k, was, was)
  {
  }

  lemma SavedNow(log: seq<Logged>, n: nat, k: nat, was: Option<nat>)
    requires 0 < k <= |log| && log[k - 1].entry.End() > n
    ensures StandsAt(log, n, k) == log[k - 1].entry.End() > n
    ensures SavedBehind(log, n, k, was, Some(log[k - 1].entry.End()))
  {
  }

  /** A reader that has passed every entry has been handed everything visible. */
  lemma AllDelivered(z: Zstd, log: seq<Logged>, lo: nat, hi: nat, s: nat, n: nat, delivered: seq<Record>, trace: seq<nat>)
    requires LogOk(z, log, lo, hi) && Delivers(Visible(z, log, s), delivered, trace)
    requires Passed(z, log, hi, s, n, trace) && (log != [] ==> log[|log| - 1].entry.End() <= n)
    ensures forall r :: r in Visible(z, log, s) ==> r in delivered
  {
    hide ParseSegment, LogOk, Flatten, From, Position, InOrder, High;
    FlattenWithin(z, log, lo, hi);
    SplitAt(z, log, lo, hi, |log|);
    forall r | r in Visible(z, log, s)
      ensures r in delivered
    {
      var i :| 0 <= i < |Visible(z, log, s)| && Visible(z, log, s)[i] == r;
      FromWithin(Flatten(z, log), s, i);
      if log == [] {
        FlattenNone(z, s);
        assert false;
      }
      CursorIsSafe(z, log, lo, hi, s, n, delivered, trace, i);
    }
  }

  lemma {:induction false} FromWithin(records: seq<Record>, n: nat, i: nat)
    requires i < |From(records, n)|
    ensures From(records, n)[i] in records
    decreases |records|
  {
    var k := |records| - 1;
    if i < |From(records[..k], n)| {
      FromWithin(records[..k], n, i);
    }
  }
}
