/** What the sink's files hold: exactly the log over runs whose polls succeed, and what a failed poll leaves out. */
module SinkLayout {
  import opened SinkSpec
  import opened TailLog
  import opened Wrappers

  // ---------------------------------------------------------------- rows

  function Rows(files: seq<File>): seq<Record> {
    if files == [] then [] else Rows(files[..|files| - 1]) + files[|files| - 1].rows
  }

  /** Everything the sink still has of what it was handed, in order. */
  function All(st: State): seq<Record> { Rows(st.files) + st.buf }

  function Slice(log: seq<Record>, a: nat, b: nat): seq<Record> { if a <= b <= |log| then log[a..b] else [] }

  /** Record n has sequence n. */
  predicate InSequence(log: seq<Record>) { forall i :: 0 <= i < |log| ==> log[i].sequence == i }

  predicate HasSeq(rows: seq<Record>, n: nat) { exists i :: 0 <= i < |rows| && rows[i].sequence == n }

  lemma RowsSnoc(files: seq<File>, file: File)
    ensures Rows(files + [file]) == Rows(files) + file.rows
  {
    assert (files + [file])[..|files|] == files;
  }

  lemma SliceJoins(log: seq<Record>, a: nat, b: nat, c: nat)
    requires a <= b <= c <= |log|
    ensures Slice(log, a, b) + Slice(log, b, c) == Slice(log, a, c)
  {
  }

  /** A flush moves rows from the buffer to a file and changes nothing else about what the sink has. */
  lemma FlushKeepsAll(c: Config, f: Faults, st: State)
    requires Usable(c)
    ensures var (st', e) := FlushOne(c, f, st);
            All(st') == All(st) && st'.next == st.next && (e.Nothing? <==> st.buf == [])
  {
    if st.buf != [] && f.writes(st.flushes) {
      var k := Leading(c, st.buf);
      RowsSnoc(st.files, File(BucketOf(c, st.buf[0].sequence), st.buf[..k]));
      assert st.buf[..k] + st.buf[k..] == st.buf;
      assert Rows(st.files) + st.buf[..k] + st.buf[k..] == Rows(st.files) + (st.buf[..k] + st.buf[k..]);
    }
  }

  /** A record that is accepted is added behind what was there; one that fails is added or not. */
  lemma RecordIsAdded(c: Config, f: Faults, st: State, r: Record)
    requires Usable(c)
    ensures var (st', ok) := OnRecord(c, f, st, r);
            && st'.next == st.next && (All(st') == All(st) || All(st') == All(st) + [r])
            && (ok ==> All(st') == All(st) + [r])
  {
    hide FlushOne, Rows, BucketOf, Leading;
    if f.decodes(r.sequence) {
      FlushKeepsAll(c, f, st);
      var (st1, e1) :=
        if st.buf != [] && BucketOf(c, r.sequence) != BucketOf(c, st.buf[0].sequence) then FlushOne(c, f, st)
        else (st, Nothing);
      var st2 := st1.(buf := st1.buf + [r]);
      assert All(st2) == All(st1) + [r];
      FlushKeepsAll(c, f, st2);
    }
  }

  lemma {:induction false} RecordsAreAdded(c: Config, f: Faults, st: State, log: seq<Record>, n: nat, end: nat)
    returns (m: nat)
    requires Usable(c) && n <= end <= |log|
    ensures n <= m <= end
    ensures var (st', ok) := Deliver(c, f, st, log, n, end);
            st'.next == st.next && All(st') == All(st) + Slice(log, n, m) && (ok ==> m == end)
    decreases end - n
  {
    hide OnRecord, All;
    m := n;
    if n < end {
      RecordIsAdded(c, f, st, log[n]);
      var (st1, ok) := OnRecord(c, f, st, log[n]);
      if ok {
        m := RecordsAreAdded(c, f, st1, log, n + 1, end);
        assert [log[n]] + Slice(log, n + 1, m) == Slice(log, n, m);
        assert All(st) + [log[n]] + Slice(log, n + 1, m) == All(st) + ([log[n]] + Slice(log, n + 1, m));
      } else if All(st1) != All(st) {
        m := n + 1;
        assert [log[n]] == Slice(log, n, n + 1);
      }
    }
  }

  /** Segments hand over the log from where the replica stood, and the replica moves on only past what was handed over
      whole. */
  lemma {:induction false} SegmentsAreAdded(c: Config, f: Faults, st: State, log: seq<Record>, ends: seq<nat>, i: nat,
    resumeAt: nat, applied: nat) returns (m: nat)
    requires Usable(c) && Segmented(ends, |log|) && i <= |ends| && (i < |ends| ==> resumeAt < ends[i])
    requires st.next == Max(resumeAt, StartOf(ends, i))
    ensures var (st', ok) := Tail(c, f, st, log, ends, i, resumeAt, applied);
            && st.next <= st'.next <= m && (m <= |log| || m == st.next)
            && All(st') == All(st) + Slice(log, st.next, m) && (ok ==> m == st'.next)
    decreases |ends| - i
  {
    hide Deliver, All;
    m := st.next;
    assert All(st) + Slice(log, m, m) == All(st);
    if i < |ends| && f.fetches(i) {
      var from := st.next;
      var (st1, ok) := Deliver(c, f, st, log, from, ends[i]);
      m := RecordsAreAdded(c, f, st, log, from, ends[i]);
      if ok {
        var st2, count := st1.(next := ends[i]), applied + (ends[i] - from);
        assert All(st2) == All(st1) by {
          MovedOnly(st1, ends[i]);
        }
        if !(c.maxRecords > 0 && count >= c.maxRecords) {
          m := SegmentsAreAdded(c, f, st2, log, ends, i + 1, resumeAt, count);
          SliceJoins(log, from, ends[i], m);
          var a, b := Slice(log, from, ends[i]), Slice(log, ends[i], m);
          assert All(st) + a + b == All(st) + (a + b);
        }
      }
    }
  }

  lemma MovedOnly(st: State, next: nat)
    ensures All(st.(next := next)) == All(st)
  {
  }

  lemma {:induction false} DrainKeepsAll(c: Config, f: Faults, st: State)
    requires Usable(c)
    ensures var (st', ok) := Drain(c, f, st);
            All(st') == All(st) && st'.next == st.next && (ok ==> st'.buf == [])
    decreases |st.buf|
  {
    hide All, FlushOne;
    FlushKeepsAll(c, f, st);
    var (st1, e) := FlushOne(c, f, st);
    if e.Flushed? {
      FlushShrinks(c, f, st);
      DrainKeepsAll(c, f, st1);
    } else if e.Nothing? {
      FlushNothing(c, f, st);
    }
  }

  lemma FlushShrinks(c: Config, f: Faults, st: State)
    requires Usable(c) && FlushOne(c, f, st).1.Flushed?
    ensures |FlushOne(c, f, st).0.buf| < |st.buf|
  {
  }

  lemma FlushNothing(c: Config, f: Faults, st: State)
    requires Usable(c) && st.buf == []
    ensures FlushOne(c, f, st) == (st, Nothing)
  {
  }

  // ---------------------------------------------------------------- files are only ever added

  lemma RecordKeepsFiles(c: Config, f: Faults, st: State, r: Record)
    requires Usable(c)
    ensures st.files <= OnRecord(c, f, st, r).0.files
  {
    hide Leading, BucketOf, Full;
  }

  lemma {:induction false} RecordsKeepFiles(c: Config, f: Faults, st: State, log: seq<Record>, n: nat, end: nat)
    requires Usable(c) && n <= end <= |log|
    ensures st.files <= Deliver(c, f, st, log, n, end).0.files
    decreases end - n
  {
    hide OnRecord;
    if n < end {
      RecordKeepsFiles(c, f, st, log[n]);
      var (st1, ok) := OnRecord(c, f, st, log[n]);
      if ok {
        RecordsKeepFiles(c, f, st1, log, n + 1, end);
      }
    }
  }

  lemma {:induction false} SegmentsKeepFiles(c: Config, f: Faults, st: State, log: seq<Record>, ends: seq<nat>, i: nat,
    resumeAt: nat, applied: nat)
    requires Usable(c) && Segmented(ends, |log|) && i <= |ends| && (i < |ends| ==> resumeAt < ends[i])
    ensures st.files <= Tail(c, f, st, log, ends, i, resumeAt, applied).0.files
    decreases |ends| - i
  {
    hide Deliver;
    if i < |ends| && f.fetches(i) {
      var from := Max(resumeAt, StartOf(ends, i));
      RecordsKeepFiles(c, f, st, log, from, ends[i]);
      var (st1, ok) := Deliver(c, f, st, log, from, ends[i]);
      var st2, count := st1.(next := ends[i]), applied + (ends[i] - from);
      if ok && !(c.maxRecords > 0 && count >= c.maxRecords) {
        SegmentsKeepFiles(c, f, st2, log, ends, i + 1, resumeAt, count);
      }
    }
  }

  // ---------------------------------------------------------------- layout

  predicate OneBucket(c: Config, rows: seq<Record>)
    requires Usable(c)
  {
    forall i :: 0 <= i < |rows| ==> BucketOf(c, rows[i].sequence) == BucketOf(c, rows[0].sequence)
  }

  /** A file is not empty, lies in the bucket it is filed under, and is within the row cap. */
  predicate FileOk(c: Config, file: File)
    requires Usable(c)
  {
    && 0 < |file.rows| <= c.maxRows
    && forall i :: 0 <= i < |file.rows| ==> BucketOf(c, file.rows[i].sequence) == file.bucket
  }

  /** What the sink has is the log from start on, without gap or repeat. */
  predicate Contiguous(log: seq<Record>, start: nat, st: State) {
    All(st) == Slice(log, start, start + |All(st)|) && (start + |All(st)| <= |log| || All(st) == [])
  }

  /** The files are well laid out, the buffer is in one bucket, cursor and visibleHigh stand right behind the last row
      that is in a file, and no saved cursor is beyond them. */
  predicate Laid(c: Config, start: nat, st: State)
    requires Usable(c)
  {
    && OneBucket(c, st.buf) && |st.buf| <= c.maxRows
    && (forall k :: 0 <= k < |st.files| ==> FileOk(c, st.files[k]))
    && st.nextCursor == start + |Rows(st.files)|
    && (if st.files == [] then st.high == None else st.nextCursor > 0 && st.high == Some(st.nextCursor - 1))
    && (st.saved.Some? ==> st.saved.value <= st.nextCursor)
  }

  lemma FlushIsLaid(c: Config, f: Faults, st: State, log: seq<Record>, start: nat)
    requires Usable(c) && InSequence(log) && Laid(c, start, st) && Contiguous(log, start, st)
    ensures var (st', e) := FlushOne(c, f, st);
            && Laid(c, start, st') && Contiguous(log, start, st')
            && (e.Flushed? ==> st'.buf == [] && (c.persistent ==> st'.saved == Some(st'.nextCursor)))
            && (e.Nothing? ==> st' == st)
  {
    hide Rows, BucketOf;
    FlushKeepsAll(c, f, st);
    if st.buf != [] && f.writes(st.flushes) {
      WholeBuffer(c, st.buf);
      LastSequence(log, start, st);
      var file := File(BucketOf(c, st.buf[0].sequence), st.buf);
      assert st.buf[..|st.buf|] == st.buf;
      RowsSnoc(st.files, file);
    }
  }

  lemma WholeBuffer(c: Config, buf: seq<Record>)
    requires Usable(c) && OneBucket(c, buf)
    ensures Leading(c, buf) == |buf|
  {
    hide BucketOf;
  }

  /** The last buffered row is the last the sink has. */
  lemma LastSequence(log: seq<Record>, start: nat, st: State)
    requires InSequence(log) && Contiguous(log, start, st) && st.buf != []
    ensures st.buf[|st.buf| - 1].sequence == start + |Rows(st.files)| + |st.buf| - 1
  {
    hide Rows;
    var all := All(st);
    assert all[|all| - 1] == st.buf[|st.buf| - 1];
    assert Slice(log, start, start + |all|)[|all| - 1] == log[start + |all| - 1];
  }

  /** Handing over the next record of the log keeps the layout, whether it succeeds or not. */
  lemma RecordIsLaid(c: Config, f: Faults, st: State, log: seq<Record>, start: nat, n: nat)
    requires Usable(c) && InSequence(log) && Laid(c, start, st) && Contiguous(log, start, st) && |st.buf| < c.maxRows
    requires n < |log| && n == start + |All(st)|
    ensures var (st', ok) := OnRecord(c, f, st, log[n]);
            && Laid(c, start, st') && Contiguous(log, start, st')
            && (ok ==> |st'.buf| < c.maxRows && |All(st')| == |All(st)| + 1)
            && (ok && c.persistent && (st.files == [] || st.saved == Some(st.nextCursor)) ==>
                  st'.files == [] || st'.saved == Some(st'.nextCursor))
  {
    hide FlushOne, Rows, BucketOf, Contiguous;
    if f.decodes(n) {
      FlushIsLaid(c, f, st, log, start);
      FlushKeepsAll(c, f, st);
      var (st1, e1) :=
        if st.buf != [] && BucketOf(c, log[n].sequence) != BucketOf(c, st.buf[0].sequence) then FlushOne(c, f, st)
        else (st, Nothing);
      if !e1.FlushError? {
        var st2 := st1.(buf := st1.buf + [log[n]]);
        AddRecord(c, log, start, st1, n);
        FlushIsLaid(c, f, st2, log, start);
        FlushKeepsAll(c, f, st2);
        assert st2.buf != [];
        var (st3, e3) := if Full(c, st2.buf) then FlushOne(c, f, st2) else (st2, Nothing);
        assert OnRecord(c, f, st, log[n]) == (st3, !e3.FlushError?);
      }
    }
  }

  lemma AddRecord(c: Config, log: seq<Record>, start: nat, st: State, n: nat)
    requires Usable(c) && Laid(c, start, st) && Contiguous(log, start, st) && |st.buf| < c.maxRows
    requires n < |log| && n == start + |All(st)|
    requires st.buf == [] || BucketOf(c, log[n].sequence) == BucketOf(c, st.buf[0].sequence)
    ensures var st' := st.(buf := st.buf + [log[n]]);
            Laid(c, start, st') && Contiguous(log, start, st') && |All(st')| == |All(st)| + 1
  {
    hide Rows, BucketOf, FileOk;
    OneBucketAdd(c, st.buf, log[n]);
    assert Contiguous(log, start, st.(buf := st.buf + [log[n]])) by {
      ContiguousAdd(log, start, st, n);
    }
  }

  lemma OneBucketAdd(c: Config, buf: seq<Record>, r: Record)
    requires Usable(c) && OneBucket(c, buf)
    requires buf == [] || BucketOf(c, r.sequence) == BucketOf(c, buf[0].sequence)
    ensures OneBucket(c, buf + [r])
  {
    hide BucketOf;
  }

  lemma ContiguousAdd(log: seq<Record>, start: nat, st: State, n: nat)
    requires Contiguous(log, start, st) && n < |log| && n == start + |All(st)|
    ensures Contiguous(log, start, st.(buf := st.buf + [log[n]]))
  {
    hide Rows;
    var st' := st.(buf := st.buf + [log[n]]);
    assert All(st') == All(st) + [log[n]];
    assert Slice(log, start, n) + [log[n]] == Slice(log, start, n + 1);
  }

  // ---------------------------------------------------------------- runs of polls

  /** The cursor store, if there is one, holds the sink's cursor once a file has been written. */
  predicate Saved(c: Config, st: State) { c.persistent && st.files != [] ==> st.saved == Some(st.nextCursor) }

  /** Between records of a run without failures. */
  predicate Orderly(c: Config, log: seq<Record>, start: nat, st: State)
    requires Usable(c)
  {
    Laid(c, start, st) && Contiguous(log, start, st) && |st.buf| < c.maxRows && Saved(c, st)
  }

  lemma {:induction false} RecordsAreLaid(c: Config, f: Faults, st: State, log: seq<Record>, start: nat, n: nat, end: nat)
    requires Usable(c) && InSequence(log) && Orderly(c, log, start, st) && n <= end <= |log| && n == start + |All(st)|
    ensures var (st', ok) := Deliver(c, f, st, log, n, end);
            && Laid(c, start, st') && Contiguous(log, start, st')
            && (ok ==> Orderly(c, log, start, st') && end == start + |All(st')|)
    decreases end - n
  {
    hide OnRecord, All, Laid, Contiguous;
    if n < end {
      RecordIsLaid(c, f, st, log, start, n);
      var (st1, ok) := OnRecord(c, f, st, log[n]);
      if ok {
        RecordsAreLaid(c, f, st1, log, start, n + 1, end);
      }
    }
  }

  lemma {:induction false} SegmentsAreLaid(c: Config, f: Faults, st: State, log: seq<Record>, start: nat,
    ends: seq<nat>, i: nat, resumeAt: nat, applied: nat)
    requires Usable(c) && InSequence(log) && Orderly(c, log, start, st)
    requires Segmented(ends, |log|) && i <= |ends| && (i < |ends| ==> resumeAt < ends[i])
    requires st.next == Max(resumeAt, StartOf(ends, i)) == start + |All(st)|
    ensures var (st', ok) := Tail(c, f, st, log, ends, i, resumeAt, applied);
            && Laid(c, start, st') && Contiguous(log, start, st')
            && (ok ==> Orderly(c, log, start, st') && st'.next == start + |All(st')|)
    decreases |ends| - i
  {
    hide Deliver, All, Laid, Contiguous;
    if i < |ends| && f.fetches(i) {
      var from := st.next;
      RecordsAreLaid(c, f, st, log, start, from, ends[i]);
      var (st1, ok) := Deliver(c, f, st, log, from, ends[i]);
      if ok {
        var st2, count := st1.(next := ends[i]), applied + (ends[i] - from);
        MovedOnly(st1, ends[i]);
        MovedIsOrderly(c, log, start, st1, ends[i]);
        if !(c.maxRecords > 0 && count >= c.maxRecords) {
          SegmentsAreLaid(c, f, st2, log, start, ends, i + 1, resumeAt, count);
        }
      }
    }
  }

  lemma MovedIsOrderly(c: Config, log: seq<Record>, start: nat, st: State, next: nat)
    requires Usable(c) && Orderly(c, log, start, st)
    ensures Orderly(c, log, start, st.(next := next))
  {
    hide Rows, FileOk, OneBucket;
  }

  lemma {:induction false} DrainIsLaid(c: Config, f: Faults, st: State, log: seq<Record>, start: nat)
    requires Usable(c) && InSequence(log) && Orderly(c, log, start, st)
    ensures var (st', ok) := Drain(c, f, st);
            && Laid(c, start, st') && Contiguous(log, start, st')
            && (ok ==> Orderly(c, log, start, st'))
    decreases |st.buf|
  {
    hide All, FlushOne, Laid, Contiguous;
    FlushIsLaid(c, f, st, log, start);
    var (st1, e) := FlushOne(c, f, st);
    if e.Flushed? {
      FlushShrinks(c, f, st);
      DrainIsLaid(c, f, st1, log, start);
    }
  }

  /** At rest after a run without failures: everything up to the replica's position is in files. */
  predicate AtRest(c: Config, log: seq<Record>, start: nat, st: State)
    requires Usable(c)
  {
    Orderly(c, log, start, st) && st.buf == [] && st.nextCursor == st.next
  }

  /** A poll that succeeds leaves the files holding the log from start up to visibleHigh, once each. A poll that fails
      leaves them holding it up to the sink's own cursor, wherever the replica has got to. */
  lemma PollIsLaid(c: Config, f: Faults, st: State, log: seq<Record>, ends: seq<nat>, start: nat)
    requires Usable(c) && InSequence(log) && Segmented(ends, |log|) && AtRest(c, log, start, st)
    ensures var (st', ok) := Poll(c, f, st, log, ends);
            && st.next <= st'.next
            && (ok ==> AtRest(c, log, start, st'))
            && Rows(st'.files) == Slice(log, start, st'.nextCursor)
            && (st'.nextCursor <= |log| || st'.nextCursor == start)
            && Laid(c, start, st')
  {
    hide Tail, Drain, Laid, Contiguous;
    var i := FirstBeyond(ends, st.next);
    assert |All(st)| == |Rows(st.files)| && st.next == start + |All(st)| by {
      RestCounts(c, start, st);
    }
    if f.loads {
      SegmentsAreLaid(c, f, st, log, start, ends, i, st.next, 0);
      var m := SegmentsAreAdded(c, f, st, log, ends, i, st.next, 0);
      var (st1, ok) := Tail(c, f, st, log, ends, i, st.next, 0);
      if ok {
        DrainIsLaid(c, f, st1, log, start);
        DrainKeepsAll(c, f, st1);
        var (st2, ok2) := Drain(c, f, st1);
        LaidRows(c, log, start, st2);
      } else {
        DroppedIsLaid(c, log, start, st1);
        LaidRows(c, log, start, st1.(buf := []));
      }
    } else {
      DroppedIsLaid(c, log, start, st);
      LaidRows(c, log, start, st.(buf := []));
    }
  }

  lemma RestCounts(c: Config, start: nat, st: State)
    requires Usable(c) && Laid(c, start, st) && st.buf == [] && st.nextCursor == st.next
    ensures |All(st)| == |Rows(st.files)| && st.next == start + |All(st)|
  {
    hide Rows, FileOk;
  }

  /** Dropping the buffer keeps the layout. */
  lemma DroppedIsLaid(c: Config, log: seq<Record>, start: nat, st: State)
    requires Usable(c) && Laid(c, start, st) && Contiguous(log, start, st)
    ensures Laid(c, start, st.(buf := [])) && Contiguous(log, start, st.(buf := []))
  {
    hide Rows, FileOk;
    var all, rows := All(st), Rows(st.files);
    assert All(st.(buf := [])) == rows && rows == all[..|rows|];
    if rows != [] {
      assert Slice(log, start, start + |all|)[..|rows|] == Slice(log, start, start + |rows|);
    }
  }

  lemma LaidRows(c: Config, log: seq<Record>, start: nat, st: State)
    requires Usable(c) && Laid(c, start, st) && Contiguous(log, start, st)
    ensures Rows(st.files) == Slice(log, start, st.nextCursor) && (st.nextCursor <= |log| || st.nextCursor == start)
    ensures st.buf == [] ==> st.nextCursor == start + |All(st)|
  {
    hide Rows, FileOk;
    var all, rows := All(st), Rows(st.files);
    assert rows == all[..|rows|];
    if rows != [] {
      assert Slice(log, start, start + |all|)[..|rows|] == Slice(log, start, start + |rows|);
    }
  }

  // ---------------------------------------------------------------- what a scan of the directory finds

  /** The scan over file names finds the sink's own visibleHigh. */
  lemma ScanFindsHigh(c: Config, log: seq<Record>, start: nat, st: State)
    requires Usable(c) && InSequence(log) && Laid(c, start, st) && Contiguous(log, start, st)
    ensures HighestLast(st.files) == st.high
  {
    hide Rows;
    LaidRows(c, log, start, st);
    forall k | 0 <= k < |st.files|
      ensures st.files[k].rows != []
    {
      assert FileOk(c, st.files[k]);
    }
    if st.files != [] {
      HasRows(c, start, st);
      LastIsHighest(log, start, st.nextCursor, st.files);
    }
  }

  lemma {:induction false} LastIsHighest(log: seq<Record>, start: nat, end: nat, files: seq<File>)
    requires InSequence(log) && start < end <= |log| && files != [] && Rows(files) == log[start..end]
    requires forall k :: 0 <= k < |files| ==> files[k].rows != []
    ensures HighestLast(files) == Some(end - 1)
    decreases |files|
  {
    var k := |files| - 1;
    var front, rows := files[..k], files[k].rows;
    var mid := end - |rows|;
    assert Rows(files) == Rows(front) + rows;
    assert rows[|rows| - 1] == Rows(files)[|Rows(files)| - 1];
    if front != [] {
      assert Rows(front) != [] by {
        var f := front[|front| - 1];
        assert f == files[k - 1] && f.rows != [];
      }
      assert Rows(front) == Rows(files)[..|Rows(front)|];
      LastIsHighest(log, start, mid, front);
    }
  }

  lemma HasRows(c: Config, start: nat, st: State)
    requires Usable(c) && Laid(c, start, st) && st.files != []
    ensures st.nextCursor > start
  {
    var k := |st.files| - 1;
    assert FileOk(c, st.files[k]);
  }
}
