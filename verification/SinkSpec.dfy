/** What the sink does with the records it is handed, as a function, and what follows for its files. */
module SinkSpec {
  import opened TailLog
  import opened Wrappers

  datatype Config = Config(bucketSize: nat, maxRows: nat, maxBytes: nat, maxRecords: nat, persistent: bool)

  /** withDefaults leaves neither at zero. */
  predicate Usable(c: Config) { c.bucketSize > 0 && c.maxRows > 0 }

  /** A finalized file: its partition and its rows in order. */
  datatype File = File(bucket: nat, rows: seq<Record>)

  datatype State = State(
    buf: seq<Record>,
    files: seq<File>,        // in flush order
    high: Option<nat>,       // visibleHigh, once there is data
    nextCursor: nat,
    saved: Option<nat>,      // the cursor store
    next: nat,               // the replica's position
    flushes: nat)            // how many file writes have been tried

  /** What fails: the manifest load, reading segment i, decoding sequence n, the k-th file write, the k-th cursor save
      (which may land even when it fails). */
  datatype Faults = Faults(
    loads: bool,
    fetches: nat -> bool,
    decodes: nat -> bool,
    writes: nat -> bool,
    saves: nat -> bool,
    landsAnyway: nat -> bool)

  function BucketOf(c: Config, n: nat): nat
    requires Usable(c)
  {
    n / c.bucketSize
  }

  /** Length of the leading run of rows in the bucket of the first. */
  function Leading(c: Config, buf: seq<Record>): (k: nat)
    requires Usable(c)
    ensures k <= |buf| && (buf != [] ==> k > 0)
    ensures forall i :: 0 <= i < k ==> BucketOf(c, buf[i].sequence) == BucketOf(c, buf[0].sequence)
    ensures k < |buf| ==> BucketOf(c, buf[k].sequence) != BucketOf(c, buf[0].sequence)
  {
    if buf == [] then 0 else 1 + Same(c, BucketOf(c, buf[0].sequence), buf[1..])
  }

  function Same(c: Config, bucket: nat, rest: seq<Record>): (k: nat)
    requires Usable(c)
    ensures k <= |rest|
    ensures forall i :: 0 <= i < k ==> BucketOf(c, rest[i].sequence) == bucket
    ensures k < |rest| ==> BucketOf(c, rest[k].sequence) != bucket
  {
    if rest == [] || BucketOf(c, rest[0].sequence) != bucket then 0 else 1 + Same(c, bucket, rest[1..])
  }

  /** approxBytes. */
  function Bulk(buf: seq<Record>): nat {
    if buf == [] then 0 else Bulk(buf[..|buf| - 1]) + |buf[|buf| - 1].data|
  }

  // ---------------------------------------------------------------- flushOne, onRecord, Poll

  datatype Flush = Nothing | Flushed | FlushError

  function FlushOne(c: Config, f: Faults, st: State): (State, Flush)
    requires Usable(c)
  {
    if st.buf == [] then (st, Nothing)
    else if !f.writes(st.flushes) then (st.(flushes := st.flushes + 1), FlushError)
    else
      var k := Leading(c, st.buf);
      var last := st.buf[k - 1].sequence;
      var landed := c.persistent && (f.saves(st.flushes) || f.landsAnyway(st.flushes));
      var st' := State(st.buf[k..], st.files + [File(BucketOf(c, st.buf[0].sequence), st.buf[..k])], Some(last), last + 1,
                       if landed then Some(last + 1) else st.saved, st.next, st.flushes + 1);
      (st', if c.persistent && !f.saves(st.flushes) then FlushError else Flushed)
  }

  predicate Full(c: Config, buf: seq<Record>) {
    |buf| >= c.maxRows || (c.maxBytes > 0 && Bulk(buf) >= c.maxBytes)
  }

  function OnRecord(c: Config, f: Faults, st: State, r: Record): (State, bool)
    requires Usable(c)
  {
    if !f.decodes(r.sequence) then (st, false)
    else
      var (st1, e1) :=
        if st.buf != [] && BucketOf(c, r.sequence) != BucketOf(c, st.buf[0].sequence) then FlushOne(c, f, st)
        else (st, Nothing);
      if e1.FlushError? then (st1, false)
      else
        var st2 := st1.(buf := st1.buf + [r]);
        var (st3, e3) := if Full(c, st2.buf) then FlushOne(c, f, st2) else (st2, Nothing);
        (st3, !e3.FlushError?)
  }

  /** Records n to end in turn, until one fails. */
  function Deliver(c: Config, f: Faults, st: State, log: seq<Record>, n: nat, end: nat): (State, bool)
    requires Usable(c) && n <= end <= |log|
    decreases end - n
  {
    if n == end then (st, true)
    else
      var (st1, ok) := OnRecord(c, f, st, log[n]);
      if ok then Deliver(c, f, st1, log, n + 1, end) else (st1, false)
  }

  /** Segment i holds the records from the previous end up to ends[i]. */
  predicate Segmented(ends: seq<nat>, total: nat) {
    && (forall i :: 0 <= i < |ends| ==> 0 < ends[i] <= total)
    && (forall i, j :: 0 <= i < j < |ends| ==> ends[i] < ends[j])
  }

  function StartOf(ends: seq<nat>, i: nat): nat
    requires i <= |ends|
  {
    if i == 0 then 0 else ends[i - 1]
  }

  function Max(a: nat, b: nat): nat { if a < b then b else a }

  /** Segments i and on, as the replica's poll goes through them. */
  function Tail(c: Config, f: Faults, st: State, log: seq<Record>, ends: seq<nat>, i: nat, resumeAt: nat, applied: nat)
    : (State, bool)
    requires Usable(c) && Segmented(ends, |log|) && i <= |ends| && (i < |ends| ==> resumeAt < ends[i])
    decreases |ends| - i
  {
    if i == |ends| then (st, true)
    else if !f.fetches(i) then (st, false)
    else
      var from := Max(resumeAt, StartOf(ends, i));
      var (st1, ok) := Deliver(c, f, st, log, from, ends[i]);
      if !ok then (st1, false)
      else
        var st2, count := st1.(next := ends[i]), applied + (ends[i] - from);
        if c.maxRecords > 0 && count >= c.maxRecords then (st2, true)
        else Tail(c, f, st2, log, ends, i + 1, resumeAt, count)
  }

  /** The first segment that ends beyond n. */
  function FirstBeyond(ends: seq<nat>, n: nat): (i: nat)
    ensures i <= |ends| && (forall j :: 0 <= j < i ==> ends[j] <= n) && (i < |ends| ==> n < ends[i])
  {
    if ends == [] || n < ends[0] then 0 else 1 + FirstBeyond(ends[1..], n)
  }

  /** Flushes until the buffer is empty or a flush fails. */
  function Drain(c: Config, f: Faults, st: State): (State, bool)
    requires Usable(c)
    decreases |st.buf|
  {
    var (st', e) := FlushOne(c, f, st);
    if e.Flushed? then Drain(c, f, st') else (st', e.Nothing?)
  }

  /** Sink.Poll. */
  function Poll(c: Config, f: Faults, st: State, log: seq<Record>, ends: seq<nat>): (State, bool)
    requires Usable(c) && Segmented(ends, |log|)
  {
    var (st1, ok) :=
      if f.loads then Tail(c, f, st, log, ends, FirstBeyond(ends, st.next), st.next, 0) else (st, false);
    if ok then Drain(c, f, st1) else (st1.(buf := []), false)
  }

  // ---------------------------------------------------------------- files found in the directory

  /** The largest last sequence among the files, as read off their names; a file without rows has no name. */
  function HighestLast(files: seq<File>): Option<nat> {
    if files == [] then None
    else
      var k := |files| - 1;
      var before := HighestLast(files[..k]);
      if files[k].rows == [] then before
      else
        var last := files[k].rows[|files[k].rows| - 1].sequence;
        match before
        case None => Some(last)
        case Some(h) => Some(if last > h then last else h)
  }
}
