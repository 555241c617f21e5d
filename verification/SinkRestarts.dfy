/** The sink as it is run: polls until one fails, then a new process from the saved cursor. */
module SinkRestarts {
  import opened SinkLayout
  import opened SinkLoss
  import opened SinkSpec
  import opened TailLog
  import opened Wrappers

  // ---------------------------------------------------------------- a process over files it finds

  /** The state with files in front of its own. */
  function Behind(files: seq<File>, high: Option<nat>, st: State): State {
    st.(files := files + st.files, high := if st.files == [] then high else st.high)
  }

  lemma FlushBehind(c: Config, f: Faults, files: seq<File>, high: Option<nat>, st: State)
    requires Usable(c)
    ensures SinkSpec.FlushOne(c, f, Behind(files, high, st)) ==
            (Behind(files, high, FlushOne(c, f, st).0), FlushOne(c, f, st).1)
  {
    hide Leading, BucketOf;
    if st.buf != [] {
      var file := File(BucketOf(c, st.buf[0].sequence), st.buf[..Leading(c, st.buf)]);
      assert (files + st.files) + [file] == files + (st.files + [file]);
    }
  }

  lemma RecordBehind(c: Config, f: Faults, files: seq<File>, high: Option<nat>, st: State, r: Record)
    requires Usable(c)
    ensures OnRecord(c, f, Behind(files, high, st), r) ==
            (Behind(files, high, OnRecord(c, f, st, r).0), OnRecord(c, f, st, r).1)
  {
    hide FlushOne, BucketOf;
    FlushBehind(c, f, files, high, st);
    var (st1, e1) :=
      if st.buf != [] && BucketOf(c, r.sequence) != BucketOf(c, st.buf[0].sequence) then FlushOne(c, f, st)
      else (st, Nothing);
    FlushBehind(c, f, files, high, st1.(buf := st1.buf + [r]));
  }

  lemma {:induction false} RecordsBehind(c: Config, f: Faults, files: seq<File>, high: Option<nat>, st: State,
    log: seq<Record>, n: nat, end: nat)
    requires Usable(c) && n <= end <= |log|
    ensures Deliver(c, f, Behind(files, high, st), log, n, end) ==
            (Behind(files, high, Deliver(c, f, st, log, n, end).0), Deliver(c, f, st, log, n, end).1)
    decreases end - n
  {
    hide OnRecord, Behind;
    if n < end {
      RecordBehind(c, f, files, high, st, log[n]);
      RecordsBehind(c, f, files, high, OnRecord(c, f, st, log[n]).0, log, n + 1, end);
    }
  }

  lemma {:induction false} SegmentsBehind(c: Config, f: Faults, files: seq<File>, high: Option<nat>, st: State,
    log: seq<Record>, ends: seq<nat>, i: nat, resumeAt: nat, applied: nat)
    requires Usable(c) && Segmented(ends, |log|) && i <= |ends| && (i < |ends| ==> resumeAt < ends[i])
    ensures Tail(c, f, Behind(files, high, st), log, ends, i, resumeAt, applied) ==
            (Behind(files, high, Tail(c, f, st, log, ends, i, resumeAt, applied).0),
             Tail(c, f, st, log, ends, i, resumeAt, applied).1)
    decreases |ends| - i
  {
    hide Deliver;
    if i < |ends| {
      var from := Max(resumeAt, StartOf(ends, i));
      RecordsBehind(c, f, files, high, st, log, from, ends[i]);
      var st1 := Deliver(c, f, st, log, from, ends[i]).0;
      SegmentsBehind(c, f, files, high, st1.(next := ends[i]), log, ends, i + 1, resumeAt, applied + (ends[i] - from));
    }
  }

  lemma {:induction false} DrainBehind(c: Config, f: Faults, files: seq<File>, high: Option<nat>, st: State)
    requires Usable(c)
    ensures Drain(c, f, Behind(files, high, st)) ==
            (Behind(files, high, Drain(c, f, st).0), Drain(c, f, st).1)
    decreases |st.buf|
  {
    hide FlushOne;
    FlushBehind(c, f, files, high, st);
    if FlushOne(c, f, st).1.Flushed? {
      FlushShrinks(c, f, st);
      DrainBehind(c, f, files, high, FlushOne(c, f, st).0);
    }
  }

  /** A poll does not look at the files that are there. */
  lemma PollBehind(c: Config, f: Faults, files: seq<File>, high: Option<nat>, st: State, log: seq<Record>, ends: seq<nat>)
    requires Usable(c) && Segmented(ends, |log|)
    ensures Poll(c, f, Behind(files, high, st), log, ends) ==
            (Behind(files, high, Poll(c, f, st, log, ends).0), Poll(c, f, st, log, ends).1)
  {
    hide Tail, Drain;
    var i := FirstBeyond(ends, st.next);
    SegmentsBehind(c, f, files, high, st, log, ends, i, st.next, 0);
    DrainBehind(c, f, files, high, Tail(c, f, st, log, ends, i, st.next, 0).0);
  }

  // ---------------------------------------------------------------- one process

  /** Sink.Run: polls until one fails. */
  function Session(c: Config, st: State, log: seq<Record>, passes: seq<Pass>): (State, bool)
    requires Usable(c) && Proper(log, passes)
    decreases |passes|
  {
    if passes == [] then (st, true)
    else
      var (st', ok) := Poll(c, passes[0].f, st, log, passes[0].ends);
      if ok then Session(c, st', log, passes[1..]) else (st', false)
  }

  lemma {:induction false} SessionBehind(c: Config, files: seq<File>, high: Option<nat>, st: State, log: seq<Record>,
    passes: seq<Pass>)
    requires Usable(c) && Proper(log, passes)
    ensures Session(c, Behind(files, high, st), log, passes) ==
            (Behind(files, high, Session(c, st, log, passes).0), Session(c, st, log, passes).1)
    decreases |passes|
  {
    hide Poll, Behind;
    if passes != [] {
      PollBehind(c, passes[0].f, files, high, st, log, passes[0].ends);
      SessionBehind(c, files, high, Poll(c, passes[0].f, st, log, passes[0].ends).0, log, passes[1..]);
    }
  }

  /** A process that started at rest leaves its files holding the log from there up to its cursor, however it ended. */
  lemma {:induction false} SessionIsLaid(c: Config, st: State, log: seq<Record>, passes: seq<Pass>, start: nat)
    requires Usable(c) && Proper(log, passes) && AtRest(c, log, start, st)
    ensures var (st', ok) := Session(c, st, log, passes);
            && Laid(c, start, st') && Rows(st'.files) == Slice(log, start, st'.nextCursor)
            && (st'.nextCursor <= |log| || st'.nextCursor == start)
            && (ok ==> AtRest(c, log, start, st'))
    decreases |passes|
  {
    hide Poll, Laid, Contiguous, Rows;
    if passes == [] {
      LaidRows(c, log, start, st);
    } else {
      PollIsLaid(c, passes[0].f, st, log, passes[0].ends, start);
      var (st', ok) := Poll(c, passes[0].f, st, log, passes[0].ends);
      if ok {
        SessionIsLaid(c, st', log, passes[1..], start);
      }
    }
  }

  // ---------------------------------------------------------------- one process after another

  /** Each process but the last ends, with a failed poll or without, and the next starts from the cursor store. */
  function Lives(c: Config, start: nat, log: seq<Record>, sessions: seq<seq<Pass>>): State
    requires Usable(c) && forall k :: 0 <= k < |sessions| ==> Proper(log, sessions[k])
    decreases |sessions|
  {
    if sessions == [] then Fresh(start)
    else
      var k := |sessions| - 1;
      Reopened(c, Session(c, Lives(c, start, log, sessions[..k]), log, sessions[k]).0, start)
  }

  /** A process has just started, and every record before its position is in a file. */
  predicate Begun(c: Config, start: nat, st: State) {
    && st.buf == [] && st.nextCursor == st.next && Complete(st, start)
    && (st.saved.Some? ==> c.persistent && st.saved.value == st.next)
  }

  /** The process seen without the files it found. */
  lemma OwnFiles(c: Config, log: seq<Record>, start: nat, st: State)
    requires Usable(c) && Begun(c, start, st)
    ensures var own := st.(files := [], high := None);
            AtRest(c, log, st.next, own) && Behind(st.files, st.high, own) == st
  {
    hide HasSeq;
    var own := st.(files := [], high := None);
    assert st.files + [] == st.files;
    assert Rows([]) == [] && All(own) == [];
  }

  lemma SessionKeepsAll(c: Config, log: seq<Record>, start: nat, st: State, passes: seq<Pass>)
    requires Usable(c) && Proper(log, passes) && Begun(c, start, st)
    ensures var (st', ok) := Session(c, st, log, passes);
            && Begun(c, start, Reopened(c, st', start))
            && (ok ==> Complete(st', start) && st'.buf == [] && st'.nextCursor == st'.next)
  {
    hide Session, HasSeq, Laid, Contiguous;
    var own := st.(files := [], high := None);
    OwnFiles(c, log, start, st);
    SessionBehind(c, st.files, st.high, own, log, passes);
    SessionIsLaid(c, own, log, passes, st.next);
    var (mine, ok) := Session(c, own, log, passes);
    var st' := Session(c, st, log, passes).0;
    assert st' == Behind(st.files, st.high, mine);
    LaidSaved(c, st.next, mine);
    RowsConcat(st.files, mine.files);
    forall n | start <= n && (n < st.next || n < mine.nextCursor)
      ensures HasSeq(Rows(st'.files), n)
    {
      HasSeqConcat(Rows(st.files), Rows(mine.files), n);
      if n >= st.next {
        SliceHas(log, st.next, mine.nextCursor, n);
      }
    }
    SessionSaves(c, own, log, passes);
  }

  lemma LaidSaved(c: Config, start: nat, st: State)
    requires Usable(c) && Laid(c, start, st)
    ensures st.saved.Some? ==> st.saved.value <= st.nextCursor
  {
  }

  lemma {:induction false} RowsConcat(a: seq<File>, b: seq<File>)
    ensures Rows(a + b) == Rows(a) + Rows(b)
    decreases |b|
  {
    if b == [] {
      assert a + b == a;
    } else {
      assert (a + b)[..|a + b| - 1] == a + b[..|b| - 1];
      RowsConcat(a, b[..|b| - 1]);
    }
  }

  // ---------------------------------------------------------------- without a cursor store nothing is saved

  predicate SavedOnlyIf(c: Config, st: State) { st.saved.Some? ==> c.persistent }

  lemma RecordSaves(c: Config, f: Faults, st: State, r: Record)
    requires Usable(c) && SavedOnlyIf(c, st)
    ensures SavedOnlyIf(c, OnRecord(c, f, st, r).0)
  {
    hide Leading, BucketOf, Full;
  }

  lemma {:induction false} RecordsSave(c: Config, f: Faults, st: State, log: seq<Record>, n: nat, end: nat)
    requires Usable(c) && n <= end <= |log| && SavedOnlyIf(c, st)
    ensures SavedOnlyIf(c, Deliver(c, f, st, log, n, end).0)
    decreases end - n
  {
    hide OnRecord;
    if n < end {
      RecordSaves(c, f, st, log[n]);
      RecordsSave(c, f, OnRecord(c, f, st, log[n]).0, log, n + 1, end);
    }
  }

  lemma {:induction false} SegmentsSave(c: Config, f: Faults, st: State, log: seq<Record>, ends: seq<nat>, i: nat,
    resumeAt: nat, applied: nat)
    requires Usable(c) && Segmented(ends, |log|) && i <= |ends| && (i < |ends| ==> resumeAt < ends[i])
    requires SavedOnlyIf(c, st)
    ensures SavedOnlyIf(c, Tail(c, f, st, log, ends, i, resumeAt, applied).0)
    decreases |ends| - i
  {
    hide Deliver;
    if i < |ends| {
      var from := Max(resumeAt, StartOf(ends, i));
      RecordsSave(c, f, st, log, from, ends[i]);
      var st1 := Deliver(c, f, st, log, from, ends[i]).0;
      SegmentsSave(c, f, st1.(next := ends[i]), log, ends, i + 1, resumeAt, applied + (ends[i] - from));
    }
  }

  lemma {:induction false} DrainSaves(c: Config, f: Faults, st: State)
    requires Usable(c) && SavedOnlyIf(c, st)
    ensures SavedOnlyIf(c, Drain(c, f, st).0)
    decreases |st.buf|
  {
    hide Leading, BucketOf;
    if FlushOne(c, f, st).1.Flushed? {
      DrainSaves(c, f, FlushOne(c, f, st).0);
    }
  }

  lemma {:induction false} SessionSaves(c: Config, st: State, log: seq<Record>, passes: seq<Pass>)
    requires Usable(c) && Proper(log, passes) && SavedOnlyIf(c, st)
    ensures SavedOnlyIf(c, Session(c, st, log, passes).0)
    decreases |passes|
  {
    hide Tail, Drain;
    if passes != [] {
      var f, ends := passes[0].f, passes[0].ends;
      var i := FirstBeyond(ends, st.next);
      SegmentsSave(c, f, st, log, ends, i, st.next, 0);
      DrainSaves(c, f, Tail(c, f, st, log, ends, i, st.next, 0).0);
      SessionSaves(c, Poll(c, f, st, log, ends).0, log, passes[1..]);
    }
  }

  // ---------------------------------------------------------------- the guarantee

  lemma {:induction false} LivesBegin(c: Config, start: nat, log: seq<Record>, sessions: seq<seq<Pass>>)
    requires Usable(c) && forall k :: 0 <= k < |sessions| ==> Proper(log, sessions[k])
    ensures Begun(c, start, Lives(c, start, log, sessions))
    decreases |sessions|
  {
    hide Session, HasSeq, Begun;
    if sessions == [] {
      FreshBegins(c, start);
    } else {
      var k := |sessions| - 1;
      LivesBegin(c, start, log, sessions[..k]);
      SessionKeepsAll(c, log, start, Lives(c, start, log, sessions[..k]), sessions[k]);
    }
  }

  lemma FreshBegins(c: Config, start: nat)
    ensures Begun(c, start, Fresh(start))
  {
  }

  /** A sink that is restarted after its first failed poll, as Run leaves it to be, never loses a row, for any
      configuration, any failures and any number of restarts: whatever the last process has passed, by polls that
      succeeded, is in a file. */
  lemma RestartedSinkKeepsAll(c: Config, start: nat, log: seq<Record>, sessions: seq<seq<Pass>>, last: seq<Pass>, n: nat)
    requires Usable(c) && (forall k :: 0 <= k < |sessions| ==> Proper(log, sessions[k])) && Proper(log, last)
    requires Session(c, Lives(c, start, log, sessions), log, last).1
    ensures var st := Session(c, Lives(c, start, log, sessions), log, last).0;
            start <= n < st.next ==> HasSeq(Rows(st.files), n)
  {
    hide Session, Lives, HasSeq, Rows;
    LivesBegin(c, start, log, sessions);
    SessionKeepsAll(c, log, start, Lives(c, start, log, sessions), last);
  }
}
