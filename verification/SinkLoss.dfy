/** When the sink loses rows: whole runs of polls, with and without failures. */
module SinkLoss {
  import opened SinkLayout
  import opened SinkSpec
  import opened TailLog
  import opened Wrappers

  /** One poll of a run: the segments the manifest shows and what fails. */
  datatype Pass = Pass(ends: seq<nat>, f: Faults)

  function Fresh(start: nat): State { State([], [], None, start, None, start, 0) }

  predicate Proper(log: seq<Record>, passes: seq<Pass>) {
    InSequence(log) && forall k :: 0 <= k < |passes| ==> Segmented(passes[k].ends, |log|)
  }

  function Run(c: Config, st: State, log: seq<Record>, passes: seq<Pass>): State
    requires Usable(c) && Proper(log, passes)
    decreases |passes|
  {
    if passes == [] then st else Run(c, Poll(c, passes[0].f, st, log, passes[0].ends).0, log, passes[1..])
  }

  predicate Succeeds(c: Config, st: State, log: seq<Record>, passes: seq<Pass>)
    requires Usable(c) && Proper(log, passes)
    decreases |passes|
  {
    passes == [] ||
    var (st', ok) := Poll(c, passes[0].f, st, log, passes[0].ends);
    ok && Succeeds(c, st', log, passes[1..])
  }

  // ---------------------------------------------------------------- runs without failures

  lemma {:induction false} SuccessfulRunKeeps(c: Config, st: State, log: seq<Record>, passes: seq<Pass>, start: nat)
    requires Usable(c) && Proper(log, passes) && AtRest(c, log, start, st) && Succeeds(c, st, log, passes)
    ensures AtRest(c, log, start, Run(c, st, log, passes))
    decreases |passes|
  {
    hide Poll, AtRest;
    if passes != [] {
      PollIsLaid(c, passes[0].f, st, log, passes[0].ends, start);
      SuccessfulRunKeeps(c, Poll(c, passes[0].f, st, log, passes[0].ends).0, log, passes[1..], start);
    }
  }

  /** Over polls that succeed, the files in flush order hold exactly records start to visibleHigh, once each; every
      file is non-empty, in one bucket and within the row cap; the buffer is empty; and the cursor, saved if there is
      a store for it, is visibleHigh + 1. */
  lemma SuccessfulRun(c: Config, log: seq<Record>, passes: seq<Pass>, start: nat)
    requires Usable(c) && Proper(log, passes) && Succeeds(c, Fresh(start), log, passes)
    ensures var st := Run(c, Fresh(start), log, passes);
            && st.buf == [] && st.nextCursor == st.next
            && Rows(st.files) == Slice(log, start, st.nextCursor)
            && (forall k :: 0 <= k < |st.files| ==> FileOk(c, st.files[k]))
            && (if st.files == [] then st.high == None && st.nextCursor == start
                else st.nextCursor > 0 && st.high == Some(st.nextCursor - 1) && st.nextCursor <= |log| &&
                     (c.persistent ==> st.saved == Some(st.nextCursor)))
  {
    hide Succeeds, Run, FileOk;
    SuccessfulRunKeeps(c, Fresh(start), log, passes, start);
    var st := Run(c, Fresh(start), log, passes);
    LaidRows(c, log, start, st);
    assert st.files != [] ==> Rows(st.files) != [] by {
      SomeRows(c, st.files);
    }
  }

  lemma SomeRows(c: Config, files: seq<File>)
    requires Usable(c) && forall k :: 0 <= k < |files| ==> FileOk(c, files[k])
    ensures files != [] ==> Rows(files) != []
  {
  }

  /** A new process over the same directory and cursor store: the buffer is gone, visibleHigh is read off the files, and
      reading starts at the cursor. */
  function Reopened(c: Config, st: State, startAt: nat): State {
    var start := if c.persistent && st.saved.Some? then st.saved.value else startAt;
    State([], st.files, HighestLast(st.files), start, st.saved, start, 0)
  }

  /** A crash between any two records of a run without failures neither loses nor repeats a row, if the cursor is
      persisted. */
  lemma RestartResumes(c: Config, log: seq<Record>, start: nat, st: State)
    requires Usable(c) && InSequence(log) && Orderly(c, log, start, st) && c.persistent
    requires st.files == [] ==> st.saved == None
    ensures AtRest(c, log, start, Reopened(c, st, start))
  {
    hide FileOk, HighestLast;
    DroppedIsLaid(c, log, start, st);
    ScanFindsHigh(c, log, start, st);
    var st' := Reopened(c, st, start);
    assert st'.nextCursor == st.nextCursor by {
      if st.files == [] {
        assert Rows([]) == [];
      }
    }
    assert All(st') == All(st.(buf := []));
  }

  // ---------------------------------------------------------------- loss

  /** The replica has passed n, and the sink has no row for it. */
  predicate Lost(st: State, start: nat, n: nat) { start <= n < st.next && !HasSeq(All(st), n) }

  lemma HasSeqConcat(a: seq<Record>, b: seq<Record>, n: nat)
    ensures HasSeq(a + b, n) <==> HasSeq(a, n) || HasSeq(b, n)
  {
    if HasSeq(a, n) {
      var i :| 0 <= i < |a| && a[i].sequence == n;
      assert (a + b)[i].sequence == n;
    }
    if HasSeq(b, n) {
      var i :| 0 <= i < |b| && b[i].sequence == n;
      assert (a + b)[|a| + i].sequence == n;
    }
  }

  lemma SliceHas(log: seq<Record>, a: nat, b: nat, n: nat)
    requires InSequence(log) && (a <= b <= |log| || a == b)
    ensures HasSeq(Slice(log, a, b), n) <==> a <= n < b
  {
    if a <= n < b {
      assert Slice(log, a, b)[n - a].sequence == n;
    }
  }

  /** A row that is lost stays lost through a poll, whatever happens in it. */
  lemma LostThroughPoll(c: Config, f: Faults, st: State, log: seq<Record>, ends: seq<nat>, start: nat, n: nat)
    requires Usable(c) && InSequence(log) && Segmented(ends, |log|) && Lost(st, start, n)
    ensures Lost(Poll(c, f, st, log, ends).0, start, n)
  {
    hide Tail, Drain, Rows, HasSeq;
    HasSeqConcat(Rows(st.files), st.buf, n);
    if f.loads {
      var i := FirstBeyond(ends, st.next);
      var m := SegmentsAreAdded(c, f, st, log, ends, i, st.next, 0);
      var (st1, ok) := Tail(c, f, st, log, ends, i, st.next, 0);
      HasSeqConcat(All(st), Slice(log, st.next, m), n);
      SliceHas(log, st.next, m, n);
      if ok {
        DrainKeepsAll(c, f, st1);
      } else {
        HasSeqConcat(Rows(st1.files), st1.buf, n);
        assert All(st1.(buf := [])) == Rows(st1.files);
      }
    } else {
      assert All(st.(buf := [])) == Rows(st.files);
    }
  }

  /** A row that is lost stays lost over any run of polls of the same process. */
  lemma {:induction false} LostForever(c: Config, st: State, log: seq<Record>, passes: seq<Pass>, start: nat, n: nat)
    requires Usable(c) && Proper(log, passes) && Lost(st, start, n)
    ensures Lost(Run(c, st, log, passes), start, n)
    decreases |passes|
  {
    hide Poll, Lost;
    if passes != [] {
      LostThroughPoll(c, passes[0].f, st, log, passes[0].ends, start, n);
      LostForever(c, Poll(c, passes[0].f, st, log, passes[0].ends).0, log, passes[1..], start, n);
    }
  }

  /** The cursor store would make a new process start beyond n. */
  predicate SavedPast(c: Config, st: State, n: nat) { c.persistent && st.saved.Some? && st.saved.value > n }

  /** A lost row, after any further polls, is out of reach of a new process exactly when a cursor beyond it has been saved
      by then; otherwise the new process reads it again. */
  lemma LostAcrossRestartIff(c: Config, st: State, log: seq<Record>, passes: seq<Pass>, start: nat, n: nat)
    requires Usable(c) && Proper(log, passes) && Lost(st, start, n)
    ensures var last := Run(c, st, log, passes);
            Lost(Reopened(c, last, start), start, n) <==> SavedPast(c, last, n)
  {
    hide Run, Rows, HasSeq;
    LostForever(c, st, log, passes, start, n);
    var last := Run(c, st, log, passes);
    HasSeqConcat(Rows(last.files), last.buf, n);
    assert All(Reopened(c, last, start)) == Rows(last.files);
  }

  /** What a single poll from a state at rest loses, a restart right after it recovers. */
  lemma RestartRecovers(c: Config, f: Faults, st: State, log: seq<Record>, ends: seq<nat>, start: nat, n: nat)
    requires Usable(c) && InSequence(log) && Segmented(ends, |log|) && AtRest(c, log, start, st)
    requires Lost(Poll(c, f, st, log, ends).0, start, n)
    ensures !Lost(Reopened(c, Poll(c, f, st, log, ends).0, start), start, n)
  {
    hide Poll, Rows, HasSeq;
    PollLoses(c, f, st, log, ends, start, n);
    PollIsLaid(c, f, st, log, ends, start);
  }

  /** What a new process hands over again: exactly the rows in files at or beyond the cursor it starts from, that is,
      those flushed since the last cursor save that landed. */
  lemma RestartRepeats(c: Config, log: seq<Record>, start: nat, st: State, n: nat)
    requires Usable(c) && InSequence(log) && Laid(c, start, st) && Contiguous(log, start, st) && start <= n
    ensures var again := Reopened(c, st, start);
            && Rows(again.files) == Slice(log, start, st.nextCursor)
            && (HasSeq(Rows(again.files), n) && again.next <= n <==> again.next <= n < st.nextCursor)
            && again.next <= st.nextCursor
  {
    hide FileOk, HasSeq;
    LaidRows(c, log, start, st);
    SliceHas(log, start, st.nextCursor, n);
  }

  /** What a poll from a state at rest loses: exactly the records between what the sink still has and where the replica
      stands. None if it succeeds. */
  lemma PollLoses(c: Config, f: Faults, st: State, log: seq<Record>, ends: seq<nat>, start: nat, n: nat)
    requires Usable(c) && InSequence(log) && Segmented(ends, |log|) && AtRest(c, log, start, st) && start <= n
    ensures var (st', ok) := Poll(c, f, st, log, ends);
            && (Lost(st', start, n) <==> st'.nextCursor + |st'.buf| <= n < st'.next)
            && (ok ==> !Lost(st', start, n))
  {
    hide Poll, Rows, HasSeq, Laid;
    PollContiguous(c, f, st, log, ends, start);
    PollIsLaid(c, f, st, log, ends, start);
    var (st', ok) := Poll(c, f, st, log, ends);
    SliceHas(log, start, start + |All(st')|, n);
    LaidCounts(c, start, st');
  }

  lemma LaidCounts(c: Config, start: nat, st: State)
    requires Usable(c) && Laid(c, start, st)
    ensures start + |All(st)| == st.nextCursor + |st.buf|
  {
    hide Rows, FileOk;
  }

  lemma PollContiguous(c: Config, f: Faults, st: State, log: seq<Record>, ends: seq<nat>, start: nat)
    requires Usable(c) && InSequence(log) && Segmented(ends, |log|) && AtRest(c, log, start, st)
    ensures Contiguous(log, start, Poll(c, f, st, log, ends).0)
  {
    hide Tail, Drain, Laid, Contiguous, Rows;
    var i := FirstBeyond(ends, st.next);
    RestCounts(c, start, st);
    if f.loads {
      SegmentsAreLaid(c, f, st, log, start, ends, i, st.next, 0);
      var (st1, ok) := Tail(c, f, st, log, ends, i, st.next, 0);
      if ok {
        DrainIsLaid(c, f, st1, log, start);
      } else {
        DroppedIsLaid(c, log, start, st1);
      }
    } else {
      DroppedIsLaid(c, log, start, st);
    }
  }

  // ---------------------------------------------------------------- a row cap of one never loses

  lemma OneRowRecord(c: Config, f: Faults, st: State, r: Record)
    requires Usable(c) && c.maxRows == 1 && st.buf == []
    ensures var (st', ok) := OnRecord(c, f, st, r);
            ok ==> st'.buf == []
  {
  }

  lemma {:induction false} OneRowRecords(c: Config, f: Faults, st: State, log: seq<Record>, n: nat, end: nat)
    requires Usable(c) && c.maxRows == 1 && st.buf == [] && n <= end <= |log|
    ensures var (st', ok) := Deliver(c, f, st, log, n, end);
            ok ==> st'.buf == []
    decreases end - n
  {
    hide OnRecord;
    if n < end {
      OneRowRecord(c, f, st, log[n]);
      var (st1, ok) := OnRecord(c, f, st, log[n]);
      if ok {
        OneRowRecords(c, f, st1, log, n + 1, end);
      }
    }
  }

  lemma {:induction false} RowsPrefix(a: seq<File>, b: seq<File>)
    requires a <= b
    ensures Rows(a) <= Rows(b)
    decreases |b|
  {
    if |a| < |b| {
      RowsPrefix(a, b[..|b| - 1]);
    } else {
      assert a == b;
    }
  }

  /** Every record the replica has passed is in a file. */
  predicate Complete(st: State, start: nat) {
    forall n :: start <= n < st.next ==> HasSeq(Rows(st.files), n)
  }

  lemma CompleteStill(st: State, st': State, start: nat)
    requires Complete(st, start) && Rows(st.files) <= Rows(st'.files) && st'.next == st.next
    ensures Complete(st', start)
  {
    hide Rows, HasSeq;
    forall n | start <= n < st'.next
      ensures HasSeq(Rows(st'.files), n)
    {
      var a, b := Rows(st.files), Rows(st'.files);
      assert b == a + b[|a|..];
      HasSeqConcat(a, b[|a|..], n);
    }
  }

  lemma {:induction false} OneRowSegments(c: Config, f: Faults, st: State, log: seq<Record>, start: nat, ends: seq<nat>,
    i: nat, resumeAt: nat, applied: nat)
    requires Usable(c) && c.maxRows == 1 && InSequence(log) && st.buf == [] && Complete(st, start)
    requires Segmented(ends, |log|) && i <= |ends| && (i < |ends| ==> resumeAt < ends[i])
    requires st.next == Max(resumeAt, StartOf(ends, i))
    ensures var (st', ok) := Tail(c, f, st, log, ends, i, resumeAt, applied);
            Complete(st', start) && (ok ==> st'.buf == [])
    decreases |ends| - i
  {
    hide Deliver, Rows, HasSeq;
    if i < |ends| && f.fetches(i) {
      var from := st.next;
      var (st1, ok) := Deliver(c, f, st, log, from, ends[i]);
      OneRowRecords(c, f, st, log, from, ends[i]);
      RecordsKeepFiles(c, f, st, log, from, ends[i]);
      var m := RecordsAreAdded(c, f, st, log, from, ends[i]);
      RowsPrefix(st.files, st1.files);
      if !ok {
        CompleteStill(st, st1, start);
      } else {
        var st2, count := st1.(next := ends[i]), applied + (ends[i] - from);
        assert All(st1) == Rows(st1.files) && All(st) == Rows(st.files);
        forall n | start <= n < st2.next
          ensures HasSeq(Rows(st2.files), n)
        {
          HasSeqConcat(Rows(st.files), Slice(log, from, ends[i]), n);
          SliceHas(log, from, ends[i], n);
        }
        if !(c.maxRecords > 0 && count >= c.maxRecords) {
          OneRowSegments(c, f, st2, log, start, ends, i + 1, resumeAt, count);
        }
      }
    }
  }

  lemma OneRowPoll(c: Config, f: Faults, st: State, log: seq<Record>, ends: seq<nat>, start: nat)
    requires Usable(c) && c.maxRows == 1 && InSequence(log) && Segmented(ends, |log|)
    requires st.buf == [] && Complete(st, start)
    ensures var st' := Poll(c, f, st, log, ends).0;
            st'.buf == [] && Complete(st', start)
  {
    hide Tail, Rows, HasSeq;
    if f.loads {
      OneRowSegments(c, f, st, log, start, ends, FirstBeyond(ends, st.next), st.next, 0);
    }
  }

  lemma {:induction false} OneRowRun(c: Config, st: State, log: seq<Record>, passes: seq<Pass>, start: nat)
    requires Usable(c) && c.maxRows == 1 && Proper(log, passes) && st.buf == [] && Complete(st, start)
    ensures Complete(Run(c, st, log, passes), start)
    decreases |passes|
  {
    hide Poll, Complete;
    if passes != [] {
      OneRowPoll(c, passes[0].f, st, log, passes[0].ends, start);
      OneRowRun(c, Poll(c, passes[0].f, st, log, passes[0].ends).0, log, passes[1..], start);
    }
  }

  // ---------------------------------------------------------------- exactly when rows can be lost

  /** A run of the sink from sequence 0 after which record n is gone. */
  ghost predicate Loses(c: Config, log: seq<Record>, passes: seq<Pass>, n: nat)
    requires Usable(c)
  {
    Proper(log, passes) && Lost(Run(c, Fresh(0), log, passes), 0, n)
  }

  function Broken(loads: bool, fetches: nat, writes: bool): Faults {
    Faults(loads, i => i < fetches, _ => true, _ => writes, _ => true, _ => true)
  }

  /** A poll whose last flush fails keeps its buffer, and a failed load drops it: the row in it is lost. */
  lemma WriteThenLoadFails(c: Config)
    requires Usable(c) && c.maxRows > 1
    ensures Loses(c, [Record(0, [], [])], [Pass([1], Broken(true, 1, false)), Pass([1], Broken(false, 0, true))], 0)
  {
    var r, f, g := Record(0, [], []), Broken(true, 1, false), Broken(false, 0, true);
    var log, st := [r], Fresh(0);
    var st1 := st.(buf := [r]);
    assert Bulk([r]) == 0 by {
      assert [r][..0] == [];
    }
    assert st.buf + [r] == [r] && !Full(c, [r]);
    assert OnRecord(c, f, st, r) == (st1, true);
    assert Deliver(c, f, st1, log, 1, 1) == (st1, true);
    assert Deliver(c, f, st, log, 0, 1) == (st1, true);
    var st2 := st1.(next := 1);
    assert Tail(c, f, st2, log, [1], 1, 0, 1) == (st2, true);
    assert Tail(c, f, st, log, [1], 0, 0, 0) == (st2, true);
    var st3 := st2.(flushes := 1);
    assert Drain(c, f, st2) == (st3, false);
    assert Poll(c, f, st, log, [1]) == (st3, false);
    var st4 := st3.(buf := []);
    assert Poll(c, g, st3, log, [1]) == (st4, false);
    var passes := [Pass([1], f), Pass([1], g)];
    assert passes[1..] == [Pass([1], g)] && passes[1..][1..] == [];
    assert Run(c, st3, log, passes[1..]) == st4;
    assert Run(c, st, log, passes) == st4;
    assert All(st4) == [];
  }

  /** Some run loses a row exactly when the row cap is above one. */
  lemma LosesIff(c: Config)
    requires Usable(c)
    ensures (exists log, passes, n: nat :: Loses(c, log, passes, n)) <==> c.maxRows > 1
  {
    hide Run, Proper;
    if c.maxRows > 1 {
      WriteThenLoadFails(c);
    } else {
      forall log, passes, n: nat
        ensures !Loses(c, log, passes, n)
      {
        if Proper(log, passes) {
          NotLost(c, log, passes, n);
        }
      }
    }
  }

  lemma NotLost(c: Config, log: seq<Record>, passes: seq<Pass>, n: nat)
    requires Usable(c) && c.maxRows == 1 && Proper(log, passes)
    ensures !Lost(Run(c, Fresh(0), log, passes), 0, n)
  {
    hide Run, Rows, HasSeq;
    OneRowRun(c, Fresh(0), log, passes, 0);
    var st := Run(c, Fresh(0), log, passes);
    HasSeqConcat(Rows(st.files), st.buf, n);
  }

  // ---------------------------------------------------------------- a single failed poll

  /** A poll from a state at rest that completes a segment and then fails to read the next. */
  lemma FailedPollSkips(c: Config)
    requires Usable(c) && c.maxRows > 1 && c.maxRecords != 1
    ensures var log, f := [Record(0, [], []), Record(1, [], [])], Broken(true, 1, true);
            && InSequence(log) && Segmented([1, 2], |log|) && AtRest(c, log, 0, Fresh(0))
            && var (st, ok) := Poll(c, f, Fresh(0), log, [1, 2]);
               !ok && Lost(st, 0, 0) && st.nextCursor == 0 && st.next == 1
  {
    var r, f := Record(0, [], []), Broken(true, 1, true);
    var log, st := [r, Record(1, [], [])], Fresh(0);
    var st1 := st.(buf := [r]);
    assert Bulk([r]) == 0 by {
      assert [r][..0] == [];
    }
    assert st.buf + [r] == [r] && !Full(c, [r]);
    assert OnRecord(c, f, st, r) == (st1, true);
    assert Deliver(c, f, st1, log, 1, 1) == (st1, true);
    assert Deliver(c, f, st, log, 0, 1) == (st1, true);
    var st2 := st1.(next := 1);
    assert Tail(c, f, st2, log, [1, 2], 1, 0, 1) == (st2, false);
    assert Tail(c, f, st, log, [1, 2], 0, 0, 0) == (st2, false);
    assert All(st2.(buf := [])) == [];
    assert Rows([]) == [] && All(st) == [];
  }

  /** With a record budget of one a poll completes at most one segment, and then it does not fail before its flush. */
  lemma OneSegmentPerPoll(c: Config, f: Faults, st: State, log: seq<Record>, ends: seq<nat>)
    requires Usable(c) && Segmented(ends, |log|) && c.maxRecords == 1
    ensures var i := FirstBeyond(ends, st.next);
            var (st', ok) := Tail(c, f, st, log, ends, i, st.next, 0);
            !ok ==> st'.next == st.next
  {
    var i := FirstBeyond(ends, st.next);
    if i < |ends| && f.fetches(i) {
      var m := RecordsAreAdded(c, f, st, log, Max(st.next, StartOf(ends, i)), ends[i]);
    }
  }

  /** A single failed poll after a run without failures loses a row. */
  ghost predicate LosesAtOnce(c: Config, f: Faults, st: State, log: seq<Record>, ends: seq<nat>, start: nat, n: nat)
    requires Usable(c)
  {
    && InSequence(log) && Segmented(ends, |log|) && AtRest(c, log, start, st)
    && Lost(Poll(c, f, st, log, ends).0, start, n)
  }

  /** One failed poll can lose rows exactly when the row cap is above one and the record budget is not one. */
  lemma LosesAtOnceIff(c: Config)
    requires Usable(c)
    ensures (exists f, st, log, ends, start: nat, n: nat :: LosesAtOnce(c, f, st, log, ends, start, n)) <==>
            c.maxRows > 1 && c.maxRecords != 1
  {
    hide Poll;
    if c.maxRows > 1 && c.maxRecords != 1 {
      FailedPollSkips(c);
      assert LosesAtOnce(c, Broken(true, 1, true), Fresh(0), [Record(0, [], []), Record(1, [], [])], [1, 2], 0, 0);
    } else {
      forall f, st, log, ends, start: nat, n: nat
        ensures !LosesAtOnce(c, f, st, log, ends, start, n)
      {
        if InSequence(log) && Segmented(ends, |log|) && AtRest(c, log, start, st) {
          KeepsAtOnce(c, f, st, log, ends, start, n);
        }
      }
    }
  }

  lemma KeepsAtOnce(c: Config, f: Faults, st: State, log: seq<Record>, ends: seq<nat>, start: nat, n: nat)
    requires Usable(c) && (c.maxRows == 1 || c.maxRecords == 1)
    requires InSequence(log) && Segmented(ends, |log|) && AtRest(c, log, start, st)
    ensures !Lost(Poll(c, f, st, log, ends).0, start, n)
  {
    if start <= n {
      hide Tail, Drain, Rows, HasSeq, Laid;
      PollLoses(c, f, st, log, ends, start, n);
      if c.maxRecords == 1 {
        OneSegmentPerPoll(c, f, st, log, ends);
        PollKeepsUp(c, f, st, log, ends, start);
      } else {
        RestIsComplete(c, log, start, st);
        OneRowPoll(c, f, st, log, ends, start);
        var st' := Poll(c, f, st, log, ends).0;
        HasSeqConcat(Rows(st'.files), st'.buf, n);
      }
    }
  }

  lemma RestIsComplete(c: Config, log: seq<Record>, start: nat, st: State)
    requires Usable(c) && InSequence(log) && AtRest(c, log, start, st)
    ensures Complete(st, start)
  {
    hide Rows, HasSeq, FileOk;
    LaidRows(c, log, start, st);
    forall n | start <= n < st.next
      ensures HasSeq(Rows(st.files), n)
    {
      SliceHas(log, start, st.nextCursor, n);
    }
  }

  /** A poll from rest never loses anything below where the replica stood before it. */
  lemma PollKeepsUp(c: Config, f: Faults, st: State, log: seq<Record>, ends: seq<nat>, start: nat)
    requires Usable(c) && InSequence(log) && Segmented(ends, |log|) && AtRest(c, log, start, st)
    ensures var (st', ok) := Poll(c, f, st, log, ends);
            && st.next <= st'.nextCursor + |st'.buf|
            && (f.loads && Tail(c, f, st, log, ends, FirstBeyond(ends, st.next), st.next, 0).1 ==>
                  st'.next <= st'.nextCursor + |st'.buf|)
  {
    hide Tail, Drain, Rows, HasSeq, Laid;
    var i := FirstBeyond(ends, st.next);
    var (st', ok) := Poll(c, f, st, log, ends);
    PollIsLaid(c, f, st, log, ends, start);
    LaidCounts(c, start, st');
    RestCounts(c, start, st);
    if f.loads {
      var (st1, ok1) := Tail(c, f, st, log, ends, i, st.next, 0);
      SegmentsAreLaid(c, f, st, log, start, ends, i, st.next, 0);
      if ok1 {
        DrainKeepsAll(c, f, st1);
        var m := SegmentsAreAdded(c, f, st, log, ends, i, st.next, 0);
      } else {
        SegmentsKeepFiles(c, f, st, log, ends, i, st.next, 0);
        RowsPrefix(st.files, st1.files);
      }
    }
  }
}
