/** The sink as the object it is, against its specification. */
module Sinks {
  import opened SinkSpec
  import opened TailLog
  import opened Wrappers

  class Sink {
    const cfg: Config

    var buf: seq<Record>
    var approxBytes: nat
    var catalog: seq<File>
    var visibleHigh: nat
    var haveData: bool
    var nextCursor: nat
    var saved: Option<nat>     // the cursor store
    var next: nat              // the replica's position
    var flushes: nat

    ghost predicate Valid()
      reads this
    {
      Usable(cfg) && approxBytes == Bulk(buf)
    }

    ghost function View(): State
      reads this
    {
      State(buf, catalog, if haveData then Some(visibleHigh) else None, nextCursor, saved, next, flushes)
    }

    /** A sink over the files it finds; a persisted cursor wins over startAt. */
    constructor (cfg: Config, startAt: nat, cursor: Option<nat>, existing: seq<File>)
      requires Usable(cfg)
      ensures Valid() && this.cfg == cfg
      ensures var start := if cfg.persistent && cursor.Some? then cursor.value else startAt;
              View() == State([], existing, HighestLast(existing), start, cursor, start, 0)
    {
      var high, have := ScanExisting(existing);
      this.cfg := cfg;
      buf, approxBytes, catalog, visibleHigh, haveData := [], 0, existing, high, have;
      var start := if cfg.persistent && cursor.Some? then cursor.value else startAt;
      nextCursor, next, saved, flushes := start, start, cursor, 0;
    }

    /** Finalizes the leading run of the buffer that lies in one bucket. */
    method FlushOne(f: Faults) returns (e: Flush)
      requires Valid()
      modifies this
      ensures Valid() && (View(), e) == SinkSpec.FlushOne(cfg, f, old(View()))
    {
      hide Leading, BucketOf, Bulk;
      if buf == [] {
        return Nothing;
      }
      var end := LeadingRun(cfg, buf);
      var rest := Weigh(buf[end..]);
      flushes := flushes + 1;
      if !f.writes(flushes - 1) {
        return FlushError;
      }
      Finalize(end, rest);
      e := SaveCursor(f.saves(flushes - 1), f.landsAnyway(flushes - 1));
    }

    /** The commit of a flush: the file is in place, so buffer, catalog, watermark and cursor move on together. */
    method Finalize(end: nat, rest: nat)
      requires Usable(cfg) && 0 < end <= |buf|
      modifies this`buf, this`approxBytes, this`catalog, this`visibleHigh, this`haveData, this`nextCursor
      ensures catalog == old(catalog) + [File(BucketOf(cfg, old(buf)[0].sequence), old(buf)[..end])]
      ensures buf == old(buf)[end..] && approxBytes == rest
      ensures haveData && visibleHigh == old(buf)[end - 1].sequence && nextCursor == visibleHigh + 1
    {
      catalog := catalog + [File(BucketOf(cfg, buf[0].sequence), buf[..end])];
      visibleHigh, haveData, nextCursor := buf[end - 1].sequence, true, buf[end - 1].sequence + 1;
      buf, approxBytes := buf[end..], rest;
    }

    /** Saves the cursor if there is a store for it; a save that fails may have landed. */
    method SaveCursor(works: bool, landsAnyway: bool) returns (e: Flush)
      modifies this`saved
      ensures e == if cfg.persistent && !works then FlushError else Flushed
      ensures saved == if cfg.persistent && (works || landsAnyway) then Some(nextCursor) else old(saved)
    {
      e := Flushed;
      if cfg.persistent {
        if works || landsAnyway {
          saved := Some(nextCursor);
        }
        if !works {
          e := FlushError;
        }
      }
    }

    /** Adds a row to the buffer. */
    method Buffer(r: Record)
      requires Valid()
      modifies this`buf, this`approxBytes
      ensures Valid() && buf == old(buf) + [r]
    {
      assert (buf + [r])[..|buf|] == buf;
      buf, approxBytes := buf + [r], approxBytes + |r.data|;
    }

    /** Decodes and buffers a record, flushing at a bucket boundary and at the size caps. */
    method OnRecord(f: Faults, r: Record) returns (ok: bool)
      requires Valid()
      modifies this
      ensures Valid() && (View(), ok) == SinkSpec.OnRecord(cfg, f, old(View()), r)
    {
      hide SinkSpec.FlushOne, BucketOf, Bulk;
      if !f.decodes(r.sequence) {
        return false;
      }
      if |buf| > 0 && BucketOf(cfg, r.sequence) != BucketOf(cfg, buf[0].sequence) {
        var e := FlushOne(f);
        if e.FlushError? {
          return false;
        }
      }
      Buffer(r);
      if |buf| >= cfg.maxRows || (cfg.maxBytes > 0 && approxBytes >= cfg.maxBytes) {
        var e := FlushOne(f);
        if e.FlushError? {
          return false;
        }
      }
      ok := true;
    }

    /** The replica's poll, with this sink as its Applier. */
    method PollReplica(f: Faults, log: seq<Record>, ends: seq<nat>) returns (ok: bool)
      requires Valid() && Segmented(ends, |log|)
      modifies this
      ensures Valid()
      ensures (View(), ok) ==
              if f.loads then Tail(cfg, f, old(View()), log, ends, FirstBeyond(ends, old(next)), old(next), 0)
              else (old(View()), false)
    {
      hide SinkSpec.OnRecord, FirstBeyond, Bulk;
      if !f.loads {
        return false;
      }
      var i := 0;
      while i < |ends| && ends[i] <= next
        invariant i <= |ends| && unchanged(this) && forall j :: 0 <= j < i ==> ends[j] <= next
      {
        i := i + 1;
      }
      assert i == FirstBeyond(ends, next);
      var resumeAt: nat, applied: nat := next, 0;
      while i < |ends|
        invariant i <= |ends| && Valid() && (i < |ends| ==> resumeAt < ends[i])
        invariant Tail(cfg, f, old(View()), log, ends, FirstBeyond(ends, old(next)), old(next), 0) ==
                  Tail(cfg, f, View(), log, ends, i, resumeAt, applied)
      {
        if !f.fetches(i) {
          return false;
        }
        var from := Max(resumeAt, StartOf(ends, i));
        ok := HandOver(f, log, from, ends[i]);
        if !ok {
          return false;
        }
        next, applied := ends[i], applied + (ends[i] - from);
        if cfg.maxRecords > 0 && applied >= cfg.maxRecords {
          return true;
        }
        i := i + 1;
      }
      ok := true;
    }

    /** Hands records n to end over in turn. */
    method HandOver(f: Faults, log: seq<Record>, n: nat, end: nat) returns (ok: bool)
      requires Valid() && n <= end <= |log|
      modifies this
      ensures Valid() && (View(), ok) == Deliver(cfg, f, old(View()), log, n, end)
    {
      hide SinkSpec.OnRecord, Bulk;
      for k := n to end
        invariant Valid() && Deliver(cfg, f, old(View()), log, n, end) == Deliver(cfg, f, View(), log, k, end)
      {
        ok := OnRecord(f, log[k]);
        if !ok {
          return false;
        }
      }
      ok := true;
    }

    /** One ingest cycle. */
    method Poll(f: Faults, log: seq<Record>, ends: seq<nat>) returns (ok: bool)
      requires Valid() && Segmented(ends, |log|)
      modifies this
      ensures Valid() && (View(), ok) == SinkSpec.Poll(cfg, f, old(View()), log, ends)
    {
      hide Tail, SinkSpec.FlushOne;
      ok := PollReplica(f, log, ends);
      if !ok {
        buf, approxBytes := [], 0;
        return false;
      }
      ghost var st := View();
      var flushed := true;
      while flushed
        invariant Valid() && (flushed ==> Drain(cfg, f, st) == Drain(cfg, f, View()))
        invariant !flushed ==> Drain(cfg, f, st) == (View(), true)
        decreases |buf|, flushed
      {
        Shrinks(cfg, f, View());
        var e := FlushOne(f);
        if e.FlushError? {
          return false;
        }
        flushed := e.Flushed?;
      }
      ok := true;
    }
  }

  lemma Shrinks(c: Config, f: Faults, st: State)
    requires Usable(c)
    ensures var (st', e) := SinkSpec.FlushOne(c, f, st);
            if e.Flushed? then |st'.buf| < |st.buf| else |st'.buf| <= |st.buf|
  {
  }

  /** scanExisting: the highest sequence named by a file in the directory. */
  method ScanExisting(files: seq<File>) returns (high: nat, have: bool)
    ensures HighestLast(files) == if have then Some(high) else None
  {
    high, have := 0, false;
    for k := 0 to |files|
      invariant HighestLast(files[..k]) == if have then Some(high) else None
    {
      assert files[..k + 1][..k] == files[..k];
      if files[k].rows != [] {
        var last := files[k].rows[|files[k].rows| - 1].sequence;
        if !have || last > high {
          high, have := last, true;
        }
      }
    }
    assert files[..|files|] == files;
  }

  /** How many leading rows share the first row's bucket. */
  method LeadingRun(c: Config, buf: seq<Record>) returns (end: nat)
    requires Usable(c) && buf != []
    ensures end == Leading(c, buf)
  {
    var bucket := BucketOf(c, buf[0].sequence);
    end := 1;
    while end < |buf| && BucketOf(c, buf[end].sequence) == bucket
      invariant 1 <= end <= |buf|
      invariant Leading(c, buf) == end + Same(c, bucket, buf[end..])
    {
      assert buf[end..][1..] == buf[end + 1..];
      end := end + 1;
    }
  }

  method Weigh(buf: seq<Record>) returns (total: nat)
    ensures total == Bulk(buf)
  {
    total := 0;
    for k := 0 to |buf|
      invariant total == Bulk(buf[..k])
    {
      assert buf[..k + 1][..k] == buf[..k];
      total := total + |buf[k].data|;
    }
    assert buf[..|buf|] == buf;
  }
}
