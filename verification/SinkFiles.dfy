/** What a successful poll needed, and how it cut its rows into files. */
module SinkFiles {
  import opened SinkLayout
  import opened SinkRestarts
  import opened SinkSpec
  import opened TailLog

  // ---------------------------------------------------------------- no fault goes unnoticed

  /** Every file written between the two states was written without an error, and its cursor saved. */
  predicate Heeded(c: Config, f: Faults, st: State, st': State) {
    && st.flushes <= st'.flushes
    && forall k :: st.flushes <= k < st'.flushes ==> f.writes(k) && (c.persistent ==> f.saves(k))
  }

  lemma FlushHeeds(c: Config, f: Faults, st: State)
    requires Usable(c) && !FlushOne(c, f, st).1.FlushError?
    ensures Heeded(c, f, st, FlushOne(c, f, st).0)
  {
    hide Leading;
  }

  lemma RecordHeeds(c: Config, f: Faults, st: State, r: Record)
    requires Usable(c) && OnRecord(c, f, st, r).1
    ensures f.decodes(r.sequence) && Heeded(c, f, st, OnRecord(c, f, st, r).0)
  {
    hide FlushOne, Full, BucketOf;
    var (st1, e1) :=
      if st.buf != [] && BucketOf(c, r.sequence) != BucketOf(c, st.buf[0].sequence) then FlushOne(c, f, st)
      else (st, Nothing);
    if !FlushOne(c, f, st).1.FlushError? {
      FlushHeeds(c, f, st);
    }
    var st2 := st1.(buf := st1.buf + [r]);
    if !FlushOne(c, f, st2).1.FlushError? {
      FlushHeeds(c, f, st2);
    }
  }

  predicate Decoded(f: Faults, log: seq<Record>, a: nat, b: nat) {
    forall n :: a <= n < b && n < |log| ==> f.decodes(log[n].sequence)
  }

  lemma {:induction false} RecordsHeed(c: Config, f: Faults, st: State, log: seq<Record>, n: nat, end: nat)
    requires Usable(c) && n <= end <= |log| && Deliver(c, f, st, log, n, end).1
    ensures Decoded(f, log, n, end) && Heeded(c, f, st, Deliver(c, f, st, log, n, end).0)
    decreases end - n
  {
    hide OnRecord;
    if n < end {
      RecordHeeds(c, f, st, log[n]);
      RecordsHeed(c, f, OnRecord(c, f, st, log[n]).0, log, n + 1, end);
    }
  }

  /** The segments from i on that end at or before next were read. */
  predicate Fetched(f: Faults, ends: seq<nat>, i: nat, next: nat) {
    forall j :: i <= j < |ends| && ends[j] <= next ==> f.fetches(j)
  }

  lemma {:induction false} SegmentsHeed(c: Config, f: Faults, st: State, log: seq<Record>, ends: seq<nat>, i: nat,
    n: nat, applied: nat)
    requires Usable(c) && Segmented(ends, |log|) && i <= |ends| && (i < |ends| ==> n < ends[i])
    requires Tail(c, f, st, log, ends, i, n, applied).1 && st.next == Max(n, StartOf(ends, i))
    ensures var st' := Tail(c, f, st, log, ends, i, n, applied).0;
            && st.next <= st'.next && Heeded(c, f, st, st') && Decoded(f, log, st.next, st'.next)
            && Fetched(f, ends, i, st'.next)
    decreases |ends| - i
  {
    hide Deliver;
    if i < |ends| {
      var from := Max(n, StartOf(ends, i));
      RecordsHeed(c, f, st, log, from, ends[i]);
      var st2 := Deliver(c, f, st, log, from, ends[i]).0.(next := ends[i]);
      if !(c.maxRecords > 0 && applied + (ends[i] - from) >= c.maxRecords) {
        SegmentsHeed(c, f, st2, log, ends, i + 1, n, applied + (ends[i] - from));
      }
    }
  }

  lemma {:induction false} DrainHeeds(c: Config, f: Faults, st: State)
    requires Usable(c) && Drain(c, f, st).1
    ensures Heeded(c, f, st, Drain(c, f, st).0) && Drain(c, f, st).0.next == st.next
    decreases |st.buf|
  {
    var (st', e) := FlushOne(c, f, st);
    FlushHeeds(c, f, st);
    if e.Flushed? {
      FlushShrinks(c, f, st);
      DrainHeeds(c, f, st');
    }
  }

  /** A poll that succeeded had loaded the manifest, read every segment it passed, decoded every record it was handed,
      and written every file and saved every cursor it had to. */
  lemma SuccessHeeds(c: Config, f: Faults, st: State, log: seq<Record>, ends: seq<nat>)
    requires Usable(c) && Segmented(ends, |log|) && Poll(c, f, st, log, ends).1
    ensures var st' := Poll(c, f, st, log, ends).0;
            && f.loads && st.next <= st'.next && Heeded(c, f, st, st') && Decoded(f, log, st.next, st'.next)
            && Fetched(f, ends, FirstBeyond(ends, st.next), st'.next)
  {
    hide Tail, Drain;
    var i := FirstBeyond(ends, st.next);
    if i < |ends| {
      SegmentsHeed(c, f, st, log, ends, i, st.next, 0);
    } else {
      NothingToTail(c, f, st, log, ends);
    }
    DrainHeeds(c, f, Tail(c, f, st, log, ends, i, st.next, 0).0);
  }

  lemma NothingToTail(c: Config, f: Faults, st: State, log: seq<Record>, ends: seq<nat>)
    requires Usable(c) && Segmented(ends, |log|)
    ensures Tail(c, f, st, log, ends, |ends|, st.next, 0) == (st, true)
  {
  }

  // ---------------------------------------------------------------- files are as large as they may be

  /** The bytes of some rows. */
  function BytesOf(rows: seq<Record>): nat {
    if rows == [] then 0 else |rows[0].data| + BytesOf(rows[1..])
  }

  /** The rows have reached a cap. */
  predicate Filled(c: Config, rows: seq<Record>) {
    |rows| >= c.maxRows || (c.maxBytes > 0 && BytesOf(rows) >= c.maxBytes)
  }

  lemma {:induction false} BytesSnoc(rows: seq<Record>, r: Record)
    ensures BytesOf(rows + [r]) == BytesOf(rows) + |r.data|
  {
    if rows == [] {
      assert rows + [r] == [r] && [r][1..] == [];
    } else {
      assert (rows + [r])[1..] == rows[1..] + [r];
      BytesSnoc(rows[1..], r);
    }
  }

  lemma {:induction false} FilledIsFull(c: Config, rows: seq<Record>)
    ensures BytesOf(rows) == Bulk(rows) && (Filled(c, rows) <==> Full(c, rows))
    decreases |rows|
  {
    if rows != [] {
      var k := |rows| - 1;
      FilledIsFull(c, rows[..k]);
      BytesSnoc(rows[..k], rows[k]);
      assert rows[..k] + [rows[k]] == rows;
    }
  }

  /** A file is closed no later than with the row that reaches a cap. */
  predicate Tight(c: Config, rows: seq<Record>) { rows != [] && !Filled(c, rows[..|rows| - 1]) }

  /** A file is closed no earlier than it has to be: a cap is reached, or the next row is in another bucket. */
  predicate Parted(c: Config, rows: seq<Record>, next: Record)
    requires Usable(c) && rows != []
  {
    Filled(c, rows) || BucketOf(c, next.sequence) != BucketOf(c, rows[0].sequence)
  }

  /** All files are tight, and each is parted from what follows it, in the files or in the buffer. */
  predicate Greedy(c: Config, files: seq<File>, buf: seq<Record>)
    requires Usable(c)
  {
    && (forall i :: 0 <= i < |files| ==> Tight(c, files[i].rows))
    && (forall i :: 0 <= i && i + 1 < |files| ==> Parted(c, files[i].rows, files[i + 1].rows[0]))
    && (files != [] && buf != [] ==> Parted(c, files[|files| - 1].rows, buf[0]))
  }

  /** Inside a poll: the buffer is in one bucket and short of the caps, and is empty only behind a filled file. */
  predicate Filling(c: Config, files: seq<File>, buf: seq<Record>)
    requires Usable(c)
  {
    && Greedy(c, files, buf) && OneBucket(c, buf) && !Filled(c, buf)
    && (files != [] && buf == [] ==> Filled(c, files[|files| - 1].rows))
  }

  lemma NothingFilled(c: Config)
    requires Usable(c)
    ensures !Filled(c, []) && Filling(c, [], [])
  {
  }

  lemma ShorterNotFilled(c: Config, rows: seq<Record>, r: Record)
    requires !Filled(c, rows + [r])
    ensures !Filled(c, rows)
  {
    BytesSnoc(rows, r);
  }

  /** Closing the buffer as one more file. */
  lemma FileCloses(c: Config, files: seq<File>, buf: seq<Record>, bucket: nat)
    requires Usable(c) && Greedy(c, files, buf) && Tight(c, buf)
    ensures Greedy(c, files + [File(bucket, buf)], [])
  {
    hide Filled, BucketOf;
    var more := files + [File(bucket, buf)];
    forall i | 0 <= i < |more|
      ensures Tight(c, more[i].rows)
    {
      assert i < |files| ==> more[i] == files[i];
    }
    forall i | 0 <= i && i + 1 < |more|
      ensures Parted(c, more[i].rows, more[i + 1].rows[0])
    {
      if i + 1 < |files| {
        assert Parted(c, files[i].rows, files[i + 1].rows[0]);
      }
    }
  }

  lemma BufferTight(c: Config, buf: seq<Record>)
    requires buf != [] && !Filled(c, buf)
    ensures Tight(c, buf)
  {
    var k := |buf| - 1;
    assert buf[..k] + [buf[k]] == buf;
    ShorterNotFilled(c, buf[..k], buf[k]);
  }

  /** A flush of a buffer in one bucket closes it as one file. */
  lemma FlushCloses(c: Config, f: Faults, st: State)
    requires Usable(c) && OneBucket(c, st.buf) && st.buf != [] && !FlushOne(c, f, st).1.FlushError?
    ensures var (st', e) := FlushOne(c, f, st);
            e.Flushed? && st'.buf == [] && st'.files == st.files + [File(BucketOf(c, st.buf[0].sequence), st.buf)]
  {
    WholeBuffer(c, st.buf);
    hide Leading, BucketOf;
    assert st.buf[..|st.buf|] == st.buf;
  }

  lemma RowJoins(c: Config, files: seq<File>, buf: seq<Record>, r: Record)
    requires Usable(c) && Greedy(c, files, buf) && OneBucket(c, buf) && !Filled(c, buf)
    requires buf != [] ==> BucketOf(c, r.sequence) == BucketOf(c, buf[0].sequence)
    requires files != [] && buf == [] ==> Parted(c, files[|files| - 1].rows, r)
    ensures Greedy(c, files, buf + [r]) && OneBucket(c, buf + [r]) && Tight(c, buf + [r])
  {
    hide Filled, BucketOf;
    assert (buf + [r])[..|buf|] == buf && (buf + [r])[0] == if buf == [] then r else buf[0];
  }

  /** A row in another bucket: the buffer is closed as a file before it. */
  lemma CrossingFills(c: Config, f: Faults, st: State, r: Record, b: nat)
    requires Usable(c) && b <= |st.files| && Filling(c, st.files[b..], st.buf) && st.buf != []
    requires BucketOf(c, r.sequence) != BucketOf(c, st.buf[0].sequence) && !FlushOne(c, f, st).1.FlushError?
    ensures var st1 := FlushOne(c, f, st).0;
            && st1.buf == [] && b < |st1.files| && st1.files[..b] == st.files[..b] && Greedy(c, st1.files[b..], [])
            && st1.files[|st1.files| - 1].rows != [] && Parted(c, st1.files[|st1.files| - 1].rows, r)
  {
    hide FlushOne, Filled, BucketOf, Greedy, OneBucket;
    FlushCloses(c, f, st);
    BufferTight(c, st.buf);
    FileCloses(c, st.files[b..], st.buf, BucketOf(c, st.buf[0].sequence));
    assert FlushOne(c, f, st).0.files[b..] == st.files[b..] + [File(BucketOf(c, st.buf[0].sequence), st.buf)];
  }

  /** A cap reached: the buffer is closed as a file. */
  lemma CapFills(c: Config, f: Faults, st: State, b: nat)
    requires Usable(c) && b <= |st.files| && st.buf != [] && OneBucket(c, st.buf) && Tight(c, st.buf)
    requires Greedy(c, st.files[b..], st.buf) && Filled(c, st.buf) && !FlushOne(c, f, st).1.FlushError?
    ensures var st' := FlushOne(c, f, st).0;
            b <= |st'.files| && st'.files[..b] == st.files[..b] && Filling(c, st'.files[b..], st'.buf)
  {
    hide FlushOne, Filled, BucketOf, Greedy, OneBucket;
    FlushCloses(c, f, st);
    FileCloses(c, st.files[b..], st.buf, BucketOf(c, st.buf[0].sequence));
    assert FlushOne(c, f, st).0.files[b..] == st.files[b..] + [File(BucketOf(c, st.buf[0].sequence), st.buf)];
    EmptyBuffer(c);
  }

  lemma RecordFills(c: Config, f: Faults, st: State, r: Record, b: nat)
    requires Usable(c) && b <= |st.files| && Filling(c, st.files[b..], st.buf) && OnRecord(c, f, st, r).1
    ensures var st' := OnRecord(c, f, st, r).0;
            b <= |st'.files| && st'.files[..b] == st.files[..b] && Filling(c, st'.files[b..], st'.buf)
  {
    hide FlushOne, Filled, Full, BucketOf, Greedy, OneBucket, Tight;
    var crosses := st.buf != [] && BucketOf(c, r.sequence) != BucketOf(c, st.buf[0].sequence);
    var st1 := if crosses then FlushOne(c, f, st).0 else st;
    EmptyBuffer(c);
    if crosses {
      CrossingFills(c, f, st, r, b);
      assert st1.files[b..][|st1.files| - b - 1] == st1.files[|st1.files| - 1];
    }
    RowJoins(c, st1.files[b..], st1.buf, r);
    var st2 := st1.(buf := st1.buf + [r]);
    FilledIsFull(c, st2.buf);
    if Full(c, st2.buf) {
      CapFills(c, f, st2, b);
    }
  }

  lemma EmptyBuffer(c: Config)
    requires Usable(c)
    ensures OneBucket(c, []) && !Filled(c, [])
  {
  }

  lemma {:induction false} RecordsFill(c: Config, f: Faults, st: State, log: seq<Record>, n: nat, end: nat, b: nat)
    requires Usable(c) && n <= end <= |log| && Deliver(c, f, st, log, n, end).1
    requires b <= |st.files| && Filling(c, st.files[b..], st.buf)
    ensures var st' := Deliver(c, f, st, log, n, end).0;
            b <= |st'.files| && st'.files[..b] == st.files[..b] && Filling(c, st'.files[b..], st'.buf)
    decreases end - n
  {
    hide OnRecord, Filling;
    if n < end {
      RecordFills(c, f, st, log[n], b);
      RecordsFill(c, f, OnRecord(c, f, st, log[n]).0, log, n + 1, end, b);
    }
  }

  lemma {:induction false} SegmentsFill(c: Config, f: Faults, st: State, log: seq<Record>, ends: seq<nat>, i: nat, n: nat,
    applied: nat, b: nat)
    requires Usable(c) && Segmented(ends, |log|) && i <= |ends| && (i < |ends| ==> n < ends[i])
    requires Tail(c, f, st, log, ends, i, n, applied).1 && b <= |st.files| && Filling(c, st.files[b..], st.buf)
    ensures var st' := Tail(c, f, st, log, ends, i, n, applied).0;
            b <= |st'.files| && st'.files[..b] == st.files[..b] && Filling(c, st'.files[b..], st'.buf)
    decreases |ends| - i
  {
    hide Deliver, Filling;
    if i < |ends| {
      var from := Max(n, StartOf(ends, i));
      RecordsFill(c, f, st, log, from, ends[i], b);
      var st2 := Deliver(c, f, st, log, from, ends[i]).0.(next := ends[i]);
      if !(c.maxRecords > 0 && applied + (ends[i] - from) >= c.maxRecords) {
        SegmentsFill(c, f, st2, log, ends, i + 1, n, applied + (ends[i] - from), b);
      }
    }
  }

  lemma DrainCloses(c: Config, f: Faults, st: State, b: nat)
    requires Usable(c) && Drain(c, f, st).1 && b <= |st.files| && Filling(c, st.files[b..], st.buf)
    ensures var st' := Drain(c, f, st).0;
            && st'.buf == [] && b <= |st'.files| && st'.files[..b] == st.files[..b] && Greedy(c, st'.files[b..], [])
  {
    hide Filled, BucketOf, Greedy, OneBucket;
    if st.buf == [] {
      FlushNothing(c, f, st);
    } else {
      FlushCloses(c, f, st);
      BufferTight(c, st.buf);
      var st1 := FlushOne(c, f, st).0;
      FileCloses(c, st.files[b..], st.buf, BucketOf(c, st.buf[0].sequence));
      assert st1.files[b..] == st.files[b..] + [File(BucketOf(c, st.buf[0].sequence), st.buf)];
      FlushNothing(c, f, st1);
      assert Drain(c, f, st1) == (st1, true);
    }
  }

  /** The files a successful poll adds are cut greedily: each is closed with the row that reaches MaxRows or MaxBytes or is
      the last of its bucket, and at no other row but the poll's last. */
  lemma PollCutsGreedily(c: Config, f: Faults, st: State, log: seq<Record>, ends: seq<nat>)
    requires Usable(c) && Segmented(ends, |log|) && st.buf == [] && Poll(c, f, st, log, ends).1
    ensures var st' := Poll(c, f, st, log, ends).0;
            st'.buf == [] && st.files <= st'.files && Greedy(c, st'.files[|st.files|..], [])
  {
    hide Tail, Drain, Filling, Greedy;
    var i, b := FirstBeyond(ends, st.next), |st.files|;
    NothingFilled(c);
    assert st.files[b..] == [];
    SegmentsFill(c, f, st, log, ends, i, st.next, 0, b);
    DrainCloses(c, f, Tail(c, f, st, log, ends, i, st.next, 0).0, b);
  }

  // ---------------------------------------------------------------- and so they are determined

  lemma RowsFront(files: seq<File>)
    requires files != []
    ensures Rows(files) == files[0].rows + Rows(files[1..])
  {
    RowsOfOne(files[0]);
    hide Rows;
    assert files == [files[0]] + files[1..];
    RowsConcat([files[0]], files[1..]);
  }

  lemma RowsOfOne(file: File)
    ensures Rows([file]) == file.rows
  {
    assert [file][..0] == [];
  }

  lemma {:induction false} PrefixNotFilled(c: Config, rows: seq<Record>, n: nat)
    requires n <= |rows| && !Filled(c, rows)
    ensures !Filled(c, rows[..n])
    decreases |rows|
  {
    var k := |rows| - 1;
    if n == |rows| {
      assert rows[..n] == rows;
    } else {
      assert rows[..k] + [rows[k]] == rows;
      ShorterNotFilled(c, rows[..k], rows[k]);
      PrefixNotFilled(c, rows[..k], n);
      assert rows[..k][..n] == rows[..n];
    }
  }

  lemma FirstTight(c: Config, files: seq<File>)
    requires Usable(c) && files != [] && Greedy(c, files, [])
    ensures Tight(c, files[0].rows) && files[0].rows != []
  {
  }

  /** The row behind the first file. */
  lemma FirstParted(c: Config, files: seq<File>)
    requires Usable(c) && files != [] && Greedy(c, files, []) && |files[0].rows| < |Rows(files)|
    ensures files[0].rows != [] && Parted(c, files[0].rows, Rows(files)[|files[0].rows|])
  {
    hide Filled, BucketOf, Rows;
    RowsFront(files);
    NoRows();
    assert Tight(c, files[0].rows);
    RowsFront(files[1..]);
    assert Tight(c, files[1].rows) && Parted(c, files[0].rows, files[1].rows[0]);
  }

  /** Inside a tight file in one bucket no row is parted from those before it. */
  lemma NotParted(c: Config, rows: seq<Record>, n: nat)
    requires Usable(c) && Tight(c, rows) && OneBucket(c, rows) && 0 < n < |rows|
    ensures !Parted(c, rows[..n], rows[n])
  {
    hide Filled, BucketOf;
    PrefixNotFilled(c, rows[..|rows| - 1], n);
    assert rows[..|rows| - 1][..n] == rows[..n];
  }

  /** Of two greedy cuts of the same rows, neither closes its first file before the other. */
  lemma FirstNoShorter(c: Config, a: seq<File>, b: seq<File>)
    requires Usable(c) && a != [] && b != [] && Greedy(c, a, []) && Greedy(c, b, []) && Rows(a) == Rows(b)
    requires OneBucket(c, b[0].rows)
    ensures |a[0].rows| >= |b[0].rows|
  {
    hide Filled, BucketOf, Rows, Parted, Tight, Greedy, OneBucket;
    var x, y := a[0].rows, b[0].rows;
    var n := |x|;
    if n < |y| {
      RowsFront(a);
      RowsFront(b);
      FirstTight(c, a);
      FirstTight(c, b);
      assert Rows(a)[..n] == x && Rows(b)[..n] == y[..n] && Rows(a)[n] == y[n];
      FirstParted(c, a);
      NotParted(c, y, n);
    }
  }

  lemma NoRows()
    ensures Rows([]) == []
  {
  }

  lemma SomeRow(c: Config, files: seq<File>)
    requires Usable(c) && files != [] && Greedy(c, files, [])
    ensures Rows(files) != []
  {
    hide Rows;
    RowsFront(files);
    FirstTight(c, files);
  }

  lemma GreedyRest(c: Config, files: seq<File>)
    requires Usable(c) && files != [] && Greedy(c, files, [])
    ensures Greedy(c, files[1..], [])
  {
    hide Filled, BucketOf;
    var rest := files[1..];
    forall i | 0 <= i && i + 1 < |rest|
      ensures Parted(c, rest[i].rows, rest[i + 1].rows[0])
    {
      assert Parted(c, files[i + 1].rows, files[i + 1 + 1].rows[0]);
    }
  }

  /** Rows have only one greedy cut: where the files of a poll begin and end is determined by its rows. */
  lemma {:induction false} GreedyIsUnique(c: Config, a: seq<File>, b: seq<File>)
    requires Usable(c) && Greedy(c, a, []) && Greedy(c, b, []) && Rows(a) == Rows(b)
    requires forall i :: 0 <= i < |a| ==> OneBucket(c, a[i].rows)
    requires forall i :: 0 <= i < |b| ==> OneBucket(c, b[i].rows)
    ensures |a| == |b| && forall i :: 0 <= i < |a| ==> a[i].rows == b[i].rows
    decreases |a|
  {
    hide Filled, BucketOf, Rows, OneBucket;
    NoRows();
    if a != [] {
      SomeRow(c, a);
    }
    if b != [] {
      SomeRow(c, b);
    }
    if a != [] && b != [] {
      FirstNoShorter(c, a, b);
      FirstNoShorter(c, b, a);
      RowsFront(a);
      RowsFront(b);
      var n := |a[0].rows|;
      assert Rows(a)[..n] == a[0].rows && Rows(b)[..n] == b[0].rows;
      assert Rows(a)[n..] == Rows(a[1..]) && Rows(b)[n..] == Rows(b[1..]);
      GreedyRest(c, a);
      GreedyRest(c, b);
      GreedyIsUnique(c, a[1..], b[1..]);
      forall i | 0 <= i < |a|
        ensures a[i].rows == b[i].rows
      {
        assert i > 0 ==> a[i] == a[1..][i - 1] && b[i] == b[1..][i - 1];
      }
    }
  }
}
