/** A sink around which nothing fails makes progress: its polls succeed, get as far as their cap allows, and in the end
    file everything. */
module SinkProgress {
  import opened SinkLayout
  import opened SinkLoss
  import opened SinkSpec
  import opened TailLog
  import opened Wrappers

  ghost predicate Faultless(f: Faults) {
    && f.loads && (forall i: nat :: f.fetches(i)) && (forall n: nat :: f.decodes(n))
    && (forall k: nat :: f.writes(k)) && forall k: nat :: f.saves(k)
  }

  lemma FlushWorks(c: Config, f: Faults, st: State)
    requires Usable(c) && Faultless(f)
    ensures var (st', e) := FlushOne(c, f, st);
            !e.FlushError? && st'.next == st.next
  {
    hide Leading;
  }

  lemma RecordWorks(c: Config, f: Faults, st: State, r: Record)
    requires Usable(c) && Faultless(f)
    ensures OnRecord(c, f, st, r).1 && OnRecord(c, f, st, r).0.next == st.next
  {
    hide FlushOne, Full, Faultless;
    assert f.decodes(r.sequence) by {
      DecodesAll(f, r.sequence);
    }
    FlushWorks(c, f, st);
    var st1 :=
      if st.buf != [] && BucketOf(c, r.sequence) != BucketOf(c, st.buf[0].sequence) then FlushOne(c, f, st).0 else st;
    FlushWorks(c, f, st1.(buf := st1.buf + [r]));
  }

  lemma DecodesAll(f: Faults, n: nat)
    requires Faultless(f)
    ensures f.loads && f.decodes(n) && f.fetches(n)
  {
  }

  lemma {:induction false} RecordsWork(c: Config, f: Faults, st: State, log: seq<Record>, n: nat, end: nat)
    requires Usable(c) && Faultless(f) && n <= end <= |log|
    ensures Deliver(c, f, st, log, n, end).1 && Deliver(c, f, st, log, n, end).0.next == st.next
    decreases end - n
  {
    hide OnRecord, Faultless;
    if n < end {
      RecordWorks(c, f, st, log[n]);
      RecordsWork(c, f, OnRecord(c, f, st, log[n]).0, log, n + 1, end);
    }
  }

  /** The cap is reached at the end of segment j of a poll that resumed at n. */
  predicate Capped(c: Config, ends: seq<nat>, n: nat, j: nat)
    requires j < |ends|
  {
    c.maxRecords > 0 && ends[j] >= n + c.maxRecords
  }

  /** A poll that resumed at n, before segment i, got to next: the end of the first segment from i on that reaches the
      cap, or else of the last one. */
  predicate GetsTo(c: Config, ends: seq<nat>, n: nat, i: nat, next: nat) {
    exists j :: i <= j < |ends| && next == ends[j] && (j == |ends| - 1 || Capped(c, ends, n, j)) &&
                forall k :: i <= k < j ==> !Capped(c, ends, n, k)
  }

  lemma {:induction false} SegmentsWork(c: Config, f: Faults, st: State, log: seq<Record>, ends: seq<nat>, i: nat,
    n: nat, applied: nat)
    requires Usable(c) && Faultless(f) && Segmented(ends, |log|) && i <= |ends| && (i < |ends| ==> n < ends[i])
    requires applied == Max(n, StartOf(ends, i)) - n
    ensures var (st', ok) := Tail(c, f, st, log, ends, i, n, applied);
            ok && if i == |ends| then st'.next == st.next else GetsTo(c, ends, n, i, st'.next)
    decreases |ends| - i
  {
    hide Deliver, Faultless;
    if i < |ends| {
      DecodesAll(f, i);
      var from := Max(n, StartOf(ends, i));
      RecordsWork(c, f, st, log, from, ends[i]);
      var st2 := Deliver(c, f, st, log, from, ends[i]).0.(next := ends[i]);
      if !Capped(c, ends, n, i) {
        SegmentsWork(c, f, st2, log, ends, i + 1, n, applied + (ends[i] - from));
        if i + 1 < |ends| {
          var next := Tail(c, f, st2, log, ends, i + 1, n, applied + (ends[i] - from)).0.next;
          var j :| i + 1 <= j < |ends| && next == ends[j] && (j == |ends| - 1 || Capped(c, ends, n, j)) &&
                   forall k :: i + 1 <= k < j ==> !Capped(c, ends, n, k);
          assert GetsTo(c, ends, n, i, next);
        }
      }
    }
  }

  lemma {:induction false} DrainWorks(c: Config, f: Faults, st: State)
    requires Usable(c) && Faultless(f)
    ensures Drain(c, f, st).1 && Drain(c, f, st).0.next == st.next
    decreases |st.buf|
  {
    hide Faultless;
    FlushWorks(c, f, st);
    var (st', e) := FlushOne(c, f, st);
    if e.Flushed? {
      FlushShrinks(c, f, st);
      DrainWorks(c, f, st');
    }
  }

  /** A poll in which nothing fails succeeds, whatever the sink's state, and stops where its cap is reached, not
      before. */
  lemma FaultlessPoll(c: Config, f: Faults, st: State, log: seq<Record>, ends: seq<nat>)
    requires Usable(c) && Faultless(f) && Segmented(ends, |log|)
    ensures var (st', ok) := Poll(c, f, st, log, ends);
            var i := FirstBeyond(ends, st.next);
            ok && if i == |ends| then st'.next == st.next else GetsTo(c, ends, st.next, i, st'.next)
  {
    hide Tail, Drain, Faultless;
    DecodesAll(f, 0);
    var i := FirstBeyond(ends, st.next);
    SegmentsWork(c, f, st, log, ends, i, st.next, 0);
    DrainWorks(c, f, Tail(c, f, st, log, ends, i, st.next, 0).0);
  }

  /** Each such poll passes one more segment at least. */
  lemma {:induction false} PollsAdvance(c: Config, st: State, log: seq<Record>, ends: seq<nat>, passes: seq<Pass>, k: nat)
    requires Usable(c) && Proper(log, passes) && Segmented(ends, |log|)
    requires forall i :: 0 <= i < |passes| ==> passes[i].ends == ends && Faultless(passes[i].f)
    requires forall j :: 0 <= j < |ends| && j < k ==> ends[j] <= st.next
    ensures Succeeds(c, st, log, passes)
    ensures forall j :: 0 <= j < |ends| && j < k + |passes| ==> ends[j] <= Run(c, st, log, passes).next
    decreases |passes|
  {
    hide Poll, Faultless;
    if passes != [] {
      var f := passes[0].f;
      FaultlessPoll(c, f, st, log, ends);
      var st' := Poll(c, f, st, log, ends).0;
      var i := FirstBeyond(ends, st.next);
      if i < |ends| {
        var j :| i <= j < |ends| && st'.next == ends[j];
      }
      PollsAdvance(c, st', log, ends, passes[1..], k + 1);
    }
  }

  /** After as many such polls as there are segments, the files hold exactly the log from start on, once each. */
  lemma EverythingIsFiled(c: Config, log: seq<Record>, ends: seq<nat>, passes: seq<Pass>, start: nat)
    requires Usable(c) && Proper(log, passes) && Segmented(ends, |log|) && ends != [] && ends[|ends| - 1] == |log|
    requires forall i :: 0 <= i < |passes| ==> passes[i].ends == ends && Faultless(passes[i].f)
    requires |passes| >= |ends| && start <= |log|
    ensures var st := Run(c, Fresh(start), log, passes);
            Rows(st.files) == log[start..] && st.buf == [] && (start < |log| ==> st.high == Some(|log| - 1))
  {
    hide Run, Succeeds, Faultless, Rows, FileOk, Proper;
    PollsAdvance(c, Fresh(start), log, ends, passes, 0);
    var st := Run(c, Fresh(start), log, passes);
    assert ends[|ends| - 1] <= st.next;
    SuccessfulRun(c, log, passes, start);
    if st.files == [] {
      assert st.nextCursor == start;
    } else {
      assert st.nextCursor == |log|;
    }
  }
}
