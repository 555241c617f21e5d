/** The tailing reader, across failed gets, failed applies, failed cursor saves and restarts. */
module Replicas {
  import opened Bytes
  import opened Entries
  import opened ManifestIndex
  import opened Packing
  import opened Segment
  import opened TailLog
  import opened Wrappers

  /** A segment read: it fails, or returns the object, or returns damaged bytes. */
  datatype Fetch = Failed | Intact | Damaged(data: bytes)

  /** A cursor save; one that fails may have landed all the same. */
  datatype Save = Saved | Refused(landed: bool)

  /** What goes wrong during a poll: whether the cursor loads, how many entries the manifest shows if it loads, the
      fate of reading entry i, of applying the k-th record, and of the k-th cursor save. */
  datatype Trouble = Trouble(
    cursorLoads: bool,
    view: Option<nat>,
    fetch: nat -> Fetch,
    accepts: nat -> bool,
    save: nat -> Save)

  /** Damage is refused by decodeSegment; for checksummed segments FlipIsRejected says so of every flipped byte. */
  ghost predicate Detected(z: Zstd, t: Trouble) {
    forall i :: t.fetch(i).Damaged? ==> ParseSegment(z, t.fetch(i).data).Err?
  }

  /** Nothing fails: the cursor and the manifest load, every segment is read, every record accepted, every save works. */
  ghost predicate Smooth(t: Trouble) {
    && t.cursorLoads && t.view.Some? && (forall i: nat :: t.fetch(i).Intact?)
    && (forall k: nat :: t.accepts(k)) && SavesWork(t)
  }

  ghost predicate SavesWork(t: Trouble) { forall k: nat :: t.save(k).Saved? }

  /** The records number lo to hi of a poll are all accepted. */
  predicate AllAccepted(accepts: nat -> bool, lo: nat, hi: nat) {
    forall k: nat :: lo <= k < hi ==> accepts(k)
  }

  lemma SmoothWorks(t: Trouble, i: nat, lo: nat, hi: nat, k: nat)
    ensures Smooth(t) ==> t.fetch(i).Intact? && AllAccepted(t.accepts, lo, hi) && t.save(k).Saved?
    ensures SavesWork(t) ==> t.save(k).Saved?
  {
  }

  datatype Event = Commits(more: seq<Logged>, end: nat) | Polled(env: Trouble) | Restarted

  /** A poll in which nothing fails, of a manifest with at least that many entries. */
  ghost predicate ShowsAll(e: Event, total: nat) {
    e.Polled? && Smooth(e.env) && e.env.view.value >= total
  }

  /** The log and its end after the commits among the events; a commit that does not continue the log is none. */
  function Grown(z: Zstd, log: seq<Logged>, hi: nat, events: seq<Event>): (seq<Logged>, nat)
    decreases |events|
  {
    if events == [] then (log, hi)
    else
      var last, (log', hi') := events[|events| - 1], Grown(z, log, hi, events[..|events| - 1]);
      if last.Commits? && LogOk(z, last.more, hi', last.end) then (log' + last.more, last.end) else (log', hi')
  }

  class Replica {
    const z: Zstd
    const startAt: nat
    const persistent: bool          // a cursor store is configured
    const saveInterval: nat
    const maxRecords: nat

    var next: nat
    var restored: bool
    var persisted: Option<nat>      // the cursor store
    var log: seq<Logged>         // the manifest's entries with their objects
    var delivered: seq<Record>      // what the Applier has accepted, in order
    var hi: nat                     // the manifest's next sequence
    ghost var lo: nat
    ghost var origin: nat           // the sequence this reader began at
    ghost var trace: seq<nat>       // where in the visible log each delivery is

    ghost predicate Valid()
      reads this
    {
      && saveInterval > 0
      && LogOk(z, log, lo, hi)
      && Delivers(Visible(z, log, origin), delivered, trace)
      && (match persisted
          case Some(n) => persistent && Passed(z, log, hi, origin, n, trace)
          case None => origin == startAt)
      && (if persistent && !restored then next == startAt else Passed(z, log, hi, origin, next, trace))
    }

    /** A new reader over an empty log, with whatever cursor an earlier one left. */
    constructor (z: Zstd, startAt: nat, cursor: Option<Option<nat>>, saveInterval: nat, maxRecords: nat, first: nat)
      requires saveInterval > 0
      ensures Valid() && log == [] && delivered == [] && lo == hi == first
      ensures this.z == z && this.startAt == startAt && persistent == cursor.Some?
      ensures origin == (if cursor.Some? && cursor.value.Some? then cursor.value.value else startAt)
    {
      this.z, this.startAt, this.saveInterval, this.maxRecords := z, startAt, saveInterval, maxRecords;
      persistent, persisted := cursor.Some?, if cursor.Some? then cursor.value else None;
      next, restored, log, delivered := startAt, false, [], [];
      hi, lo, trace := first, first, [];
      origin := if cursor.Some? && cursor.value.Some? then cursor.value.value else startAt;
    }

    /** Producers commit more segments. */
    method Grow(more: seq<Logged>, end: nat)
      requires Valid() && LogOk(z, more, hi, end)
      modifies this`log, this`hi
      ensures Valid() && log == old(log) + more && hi == end
    {
      hide LogOk, Visible, Position, InOrder, High;
      LogGrows(z, log, more, lo, hi, end, origin, next);
      if persisted.Some? {
        LogGrows(z, log, more, lo, hi, end, origin, persisted.value);
      }
      FlattenWithin(z, more, hi, end);
      log := log + more;
      hi := end;
    }

    /** The process is replaced; the cursor store and what was applied remain. */
    method Restart()
      requires Valid()
      modifies this`next, this`restored
      ensures Valid() && next == startAt && !restored
    {
      hide LogOk, Visible, Position, InOrder, High;
      next, restored := startAt, false;
      if !persistent {
        PassedStart(z, log, hi, origin, trace);
      }
    }

    // -------------------------------------------------------------- poll

    /** Inside a poll that resumed at n after d and t: part has been handed over, and next is safe to persist. */
    ghost predicate During(n: nat, d: seq<Record>, t: seq<nat>, part: seq<Record>)
      reads this
    {
      && saveInterval > 0 && (persistent ==> restored)
      && Serving(z, log, lo, hi, origin, n, d, t, part)
      && delivered == d + part && trace == Traced(z, log, origin, n, t, part)
      && Passed(z, log, hi, origin, next, trace)
      && (match persisted
          case Some(c) => persistent && Passed(z, log, hi, origin, c, trace)
          case None => origin == startAt)
    }

    /** Saves the cursor, if there is a store for it. */
    method SaveCursor(fate: Save, ghost n: nat, ghost d: seq<Record>, ghost t: seq<nat>, ghost part: seq<Record>)
      returns (ok: bool)
      requires During(n, d, t, part)
      modifies this`persisted
      ensures During(n, d, t, part)
      ensures ok <==> !persistent || fate.Saved?
      ensures if persistent && (fate.Saved? || fate.landed) then persisted == Some(next) else persisted == old(persisted)
    {
      hide Serving, Traced, Passed;
      if !persistent {
        return true;
      }
      ok := fate.Saved?;
      if fate.Saved? || fate.landed {
        persisted := Some(next);
      }
    }

    /** Offers record j of entry i to the Applier, unless the reader has passed it. */
    method Offer(i: nat, j: nat, data: bytes, resumeAt: nat, count: nat, accepts: nat -> bool, ghost d: seq<Record>,
      ghost t: seq<nat>)
      returns (applied: nat, ok: bool)
      requires Handing(i, j + 1) && data == Contents(z, log[i])[j]
      requires During(resumeAt, d, t, Handed(z, log, resumeAt, i, j)) && |delivered| == |d| + count
      modifies this`delivered, this`trace
      ensures |delivered| == |d| + applied && old(delivered) <= delivered
      ensures if ok then
                && During(resumeAt, d, t, Handed(z, log, resumeAt, i, j + 1))
                && (applied == count || (applied == count + 1 && accepts(count)))
              else
                && During(resumeAt, d, t, Handed(z, log, resumeAt, i, j)) && applied == count && !accepts(count)
                && count < |Handed(z, log, resumeAt, i, j + 1)|
    {
      hide ParseSegment, Handed, From, Flatten, Serving, Traced, Passed, Contents;
      applied, ok := count, true;
      var e := log[i].entry;
      var recSeq := if e.count > 0 then e.sequence + j else e.sequence;
      HandedNext(z, log, resumeAt, i, j);
      if recSeq >= resumeAt {
        var meta := GroupMetaFor(e.metadata, j);
        if !accepts(count) {
          return count, false;
        }
        ghost var part := Handed(z, log, resumeAt, i, j + 1);
        HandedServes(z, log, lo, hi, origin, resumeAt, d, t, Handed(z, log, resumeAt, i, j), i, j + 1);
        HandOver(Record(recSeq, meta, data), resumeAt, d, t, Handed(z, log, resumeAt, i, j), part);
        applied := count + 1;
      }
    }

    /** Hands over the records of entry i that the reader has not passed. */
    method ApplySegment(i: nat, records: seq<bytes>, resumeAt: nat, count: nat, accepts: nat -> bool,
      ghost d: seq<Record>, ghost t: seq<nat>)
      returns (applied: nat, ok: bool)
      requires i < |log| && ParseSegment(z, log[i].stored) == Ok(records)
      requires During(resumeAt, d, t, Handed(z, log, resumeAt, i, 0)) && |delivered| == |d| + count
      modifies this`delivered, this`trace
      ensures |delivered| == |d| + applied && count <= applied && old(delivered) <= delivered
      ensures exists j: nat :: Handing(i, j) && During(resumeAt, d, t, Handed(z, log, resumeAt, i, j))
      ensures ok ==> During(resumeAt, d, t, From(Flatten(z, log[..i + 1]), resumeAt))
      ensures ok <==> AllAccepted(accepts, count, |From(Flatten(z, log[..i + 1]), resumeAt)|)
      ensures !ok ==> !accepts(applied) && AllAccepted(accepts, count, applied)
    {
      hide ParseSegment, Handed, From, Flatten, Serving, Traced, Passed, During, Numbered;
      assert Handing(i, 0) && Contents(z, log[i]) == records && |RecordsOf(z, log[i])| == |records|;
      applied := count;
      for j := 0 to |records|
        invariant |delivered| == |d| + applied && count <= applied && old(delivered) <= delivered
        invariant During(resumeAt, d, t, Handed(z, log, resumeAt, i, j)) && AllAccepted(accepts, count, applied)
      {
        assert Handing(i, j) && Handing(i, j + 1);
        HandedWithin(z, log, resumeAt, i, j + 1);
        applied, ok := Offer(i, j, records[j], resumeAt, applied, accepts, d, t);
        if !ok {
          return;
        }
      }
      HandedEnds(z, log, resumeAt, i);
      DuringDelivers(resumeAt, d, t, From(Flatten(z, log[..i + 1]), resumeAt));
      assert Handing(i, |records|);
      ok := true;
    }

    ghost predicate Handing(i: nat, j: nat)
      reads this
    {
      i < |log| && j <= |RecordsOf(z, log[i])|
    }

    /** The Applier accepts one more record. */
    method HandOver(r: Record, ghost n: nat, ghost d: seq<Record>, ghost t: seq<nat>, ghost part: seq<Record>,
      ghost more: seq<Record>)
      requires During(n, d, t, part) && more == part + [r] && Serving(z, log, lo, hi, origin, n, d, t, more)
      modifies this`delivered, this`trace
      ensures During(n, d, t, more) && delivered == old(delivered) + [r]
    {
      hide Serving, Traced, Passed;
      TracedGrows(z, log, lo, hi, origin, n, d, t, part, more);
      PassedStill(z, log, hi, origin, next, trace, Traced(z, log, origin, n, t, more));
      if persisted.Some? {
        PassedStill(z, log, hi, origin, persisted.value, trace, Traced(z, log, origin, n, t, more));
      }
      delivered := delivered + [r];
      trace := Traced(z, log, origin, n, t, more);
    }

    /** Reads the cursor store once per process. */
    method Restore(loads: bool) returns (ok: bool)
      requires Valid()
      modifies this`next, this`restored
      ensures Valid() && (ok ==> (persistent ==> restored)) && (ok <==> !persistent || old(restored) || loads)
      ensures next == if persistent && !old(restored) && loads && persisted.Some? then persisted.value else old(next)
    {
      hide LogOk, Visible, Position, InOrder, High;
      if persistent && !restored {
        if !loads {
          return false;
        }
        if persisted.Some? {
          next := persisted.value;
        } else {
          PassedStart(z, log, hi, origin, trace);
        }
        restored := true;
      }
      ok := true;
    }

    lemma DuringDelivers(n: nat, d: seq<Record>, t: seq<nat>, part: seq<Record>)
      requires During(n, d, t, part)
      ensures delivered == d + part && saveInterval > 0
    {
    }

    lemma DuringIsValid(n: nat, d: seq<Record>, t: seq<nat>, part: seq<Record>)
      requires During(n, d, t, part)
      ensures Valid()
    {
      hide LogOk, Visible, Passed, Delivers, Traced;
      ServingDelivers(z, log, lo, hi, origin, n, d, t, part);
    }

    /** Reads, decodes and hands over entry i, and moves past it. */
    method TailEntry(i: nat, resumeAt: nat, count: nat, env: Trouble, ghost d: seq<Record>, ghost t: seq<nat>)
      returns (applied: nat, ok: bool)
      requires i < |log| && resumeAt < log[i].entry.End() && Detected(z, env)
      requires During(resumeAt, d, t, From(Flatten(z, log[..i]), resumeAt)) && |delivered| == |d| + count
      modifies this`next, this`delivered, this`trace
      ensures |delivered| == |d| + applied && old(delivered) <= delivered
      ensures ok ==> During(resumeAt, d, t, From(Flatten(z, log[..i + 1]), resumeAt)) && next == log[i].entry.End()
      ensures !ok ==> Valid() && next == old(next)
      ensures ok <==> env.fetch(i).Intact? && AllAccepted(env.accepts, count, |From(Flatten(z, log[..i + 1]), resumeAt)|)
    {
      hide AllAccepted, LogOk, ParseSegment, Handed, From, Flatten, Serving, Traced, Passed, Delivers, Visible;
      HandedEnds(z, log, resumeAt, i);
      DuringIsValid(resumeAt, d, t, From(Flatten(z, log[..i]), resumeAt));
      var fetch := env.fetch(i);
      if fetch.Failed? {
        return count, false;
      }
      assert Whole(z, log[i]) by {
        WholeAt(z, log, lo, hi, i);
      }
      var decoded := DecodeSegment(z, if fetch.Damaged? then fetch.data else log[i].stored);
      if decoded.Err? {
        return count, false;
      }
      assert fetch.Intact?;
      applied, ok := ApplySegment(i, decoded.value, resumeAt, count, env.accepts, d, t);
      if !ok {
        ghost var j: nat :| Handing(i, j) && During(resumeAt, d, t, Handed(z, log, resumeAt, i, j));
        DuringIsValid(resumeAt, d, t, Handed(z, log, resumeAt, i, j));
        return;
      }
      MovedPast(z, log, lo, hi, origin, resumeAt, d, t, i + 1);
      next := log[i].entry.End();
    }

    /** Goes through entries k to v, saving the cursor on the way and at the end, and stopping early at an entry
        boundary once maxRecords have been handed over. */
    method TailFrom(k: nat, v: nat, resumeAt: nat, env: Trouble, ghost d: seq<Record>, ghost t: seq<nat>)
      returns (applied: nat, ok: bool, last: nat, ghost savedAt: nat)
      requires Detected(z, env) && k <= v <= |log| && next == resumeAt && delivered == d
      requires During(resumeAt, d, t, From(Flatten(z, log[..k]), resumeAt))
      requires forall i :: k <= i < v ==> resumeAt < log[i].entry.End()
      requires k > 0 ==> log[k - 1].entry.End() <= resumeAt
      modifies this`next, this`persisted, this`delivered, this`trace
      ensures k <= last <= v && |delivered| == |d| + applied && d <= delivered
      ensures ok ==> delivered == d + From(Flatten(z, log[..last]), resumeAt)
      ensures (ok && last < v ==> 0 < maxRecords <= applied) && (ok ==> Short(z, log, resumeAt, maxRecords, k, last))
      ensures next == StandsAt(log, resumeAt, last) && (ok && last == k ==> applied == 0)
      ensures ok && persistent && last > k ==> persisted == Some(next)
      ensures persistent && SavesWork(env) ==>
                && savedAt <= last && last - savedAt < saveInterval && (ok ==> savedAt == last)
                && SavedBehind(log, resumeAt, savedAt, old(persisted), persisted)
      ensures Valid() && (Smooth(env) ==> ok)
    {
      hide LogOk, From, Flatten, Serving, Traced, Passed, Delivers, Visible, Detected, StandsAt, SavedBehind, During, Valid, Short,
        Smooth, SavesWork, AllAccepted;
      DuringDelivers(resumeAt, d, t, From(Flatten(z, log[..k]), resumeAt));
      ShortNone(z, log, resumeAt, maxRecords, k);
      NotSavedYet(log, resumeAt, k, persisted);
      var saves, sinceSave := 0, 0;
      applied, last, ok, savedAt := 0, k, true, k;
      while last < v
        invariant k <= last <= v && ok && |delivered| == |d| + applied && d <= delivered
        invariant During(resumeAt, d, t, From(Flatten(z, log[..last]), resumeAt))
        invariant next == StandsAt(log, resumeAt, last)
        invariant Short(z, log, resumeAt, maxRecords, k, last)
        invariant maxRecords > 0 ==> applied < maxRecords
        invariant sinceSave > 0 ==> last > k
        invariant persistent ==> savedAt <= last && last - savedAt == sinceSave < saveInterval
        invariant persistent ==> SavedBehind(log, resumeAt, savedAt, old(persisted), persisted)
        invariant if last == k then applied == 0 else persistent && sinceSave == 0 ==> persisted == Some(next)
      {
        DuringDelivers(resumeAt, d, t, From(Flatten(z, log[..last]), resumeAt));
        ShortMore(z, log, resumeAt, maxRecords, k, last);
        SmoothWorks(env, last, applied, |From(Flatten(z, log[..last + 1]), resumeAt)|, saves);
        applied, ok := TailEntry(last, resumeAt, applied, env, d, t);
        if !ok {
          return;
        }
        last, sinceSave := last + 1, sinceSave + 1;
        SavedNow(log, resumeAt, last, old(persisted));
        if sinceSave >= saveInterval {
          ok := SaveCursor(env.save(saves), resumeAt, d, t, From(Flatten(z, log[..last]), resumeAt));
          saves, sinceSave := saves + 1, if persistent then 0 else sinceSave;
          if !ok {
            DuringIsValid(resumeAt, d, t, From(Flatten(z, log[..last]), resumeAt));
            return;
          }
          savedAt := last;
        }
        if maxRecords > 0 && applied >= maxRecords {
          break;
        }
      }
      DuringDelivers(resumeAt, d, t, From(Flatten(z, log[..last]), resumeAt));
      if sinceSave > 0 {
        SavedNow(log, resumeAt, last, old(persisted));
        SmoothWorks(env, 0, 0, 0, saves);
        ok := SaveCursor(env.save(saves), resumeAt, d, t, From(Flatten(z, log[..last]), resumeAt));
        savedAt := last;
      }
      DuringIsValid(resumeAt, d, t, From(Flatten(z, log[..last]), resumeAt));
    }

    /** Where the next poll resumes. */
    ghost function Resumed(): nat
      reads this
    {
      if persistent && !restored && persisted.Some? then persisted.value else next
    }

    /** How many entries the manifest shows. */
    function Shown(env: Trouble): nat
      requires env.view.Some?
      reads this
    {
      if env.view.value <= |log| then env.view.value else |log|
    }

    /** One pass over the manifest. */
    method Poll(env: Trouble) returns (applied: nat, ok: bool, ghost last: nat, ghost savedAt: nat)
      requires Valid() && Detected(z, env)
      modifies this`next, this`restored, this`persisted, this`delivered, this`trace
      ensures Valid() && old(delivered) <= delivered && |delivered| == |old(delivered)| + applied
      ensures ok && env.view.Some? && (maxRecords == 0 || applied < maxRecords) ==>
                forall i :: 0 <= i < |log| && i < env.view.value ==> log[i].entry.End() <= next
      ensures ok && persistent && applied > 0 ==> persisted == Some(next)
      ensures (Smooth(env) ==> ok) && (ok && persistent ==> restored)
      ensures ok ==>
                && env.view.Some?
                && CaughtUp(z, log, maxRecords, old(Resumed()), Shown(env), last, delivered[|old(delivered)|..], next)
      ensures persistent && SavesWork(env) && env.cursorLoads && env.view.Some? ==>
                && savedAt <= last <= |log| && last - savedAt < saveInterval && next == StandsAt(log, old(Resumed()), last)
                && SavedBehind(log, old(Resumed()), savedAt, old(persisted), persisted)
    {
      hide LogOk, From, Flatten, Serving, Traced, Passed, Delivers, Visible, Detected, EntriesOf;
      ok := Restore(env.cursorLoads);
      if !ok || env.view.None? {
        return 0, false, 0, 0;
      }
      var v := Shown(env);
      ghost var n, d := next, delivered;
      var entries := SelectContaining(EntriesOf(log[..v]), next);
      assert n == old(Resumed());
      PollStarts(z, log, lo, hi, origin, next, delivered, trace, v, entries);
      ghost var k := v - |entries|;
      var end;
      applied, ok, end, savedAt := TailFrom(v - |entries|, v, next, env, delivered, trace);
      last := end;
      if ok {
        if last == v {
          AllPassed(z, log, lo, hi, v, next);
        }
        PollEnds(z, log, lo, hi, maxRecords, n, k, v, last, d, delivered, next);
      }
    }

    /** Any mix of commits, polls and restarts; one last poll in which nothing fails, of the whole log and without a cap,
        leaves nothing undelivered. */
    method Drive(events: seq<Event>)
      requires Valid() && forall i :: 0 <= i < |events| && events[i].Polled? ==> Detected(z, events[i].env)
      modifies this
      ensures Valid() && old(delivered) <= delivered && origin == old(origin)
      ensures (log, hi) == Grown(z, old(log), old(hi), events)
      ensures events != [] && ShowsAll(events[|events| - 1], |log|) && maxRecords == 0 ==>
                forall r :: r in Visible(z, log, origin) ==> r in delivered
    {
      hide LogOk, Visible, Delivers, Passed, Detected, CaughtUp, Smooth;
      for i := 0 to |events|
        invariant Valid() && old(delivered) <= delivered && origin == old(origin)
        invariant (log, hi) == Grown(z, old(log), old(hi), events[..i])
        invariant i > 0 && ShowsAll(events[i - 1], |log|) && maxRecords == 0 ==>
                    forall r :: r in Visible(z, log, origin) ==> r in delivered
      {
        assert events[..i + 1][..i] == events[..i];
        match events[i] {
          case Commits(more, end) =>
            if LogOk(z, more, hi, end) {
              Grow(more, end);
            }
          case Polled(env) =>
            ghost var n, d := Resumed(), delivered;
            var _, ok, last, _ := Poll(env);
            if ok && ShowsAll(events[i], |log|) && maxRecords == 0 {
              WholeLogPassed(z, log, n, last, delivered[|d|..], next);
              AllDelivered(z, log, lo, hi, origin, next, delivered, trace);
            }
          case Restarted => Restart();
        }
      }
      assert events[..|events|] == events;
    }

    /** Polls in which nothing fails, as many as the log has entries, deliver all of it whatever the cap. */
    method CatchUp(envs: seq<Trouble>)
      requires Valid() && |envs| >= |log|
      requires forall i :: 0 <= i < |envs| ==> Detected(z, envs[i]) && ShowsAll(Polled(envs[i]), |log|)
      modifies this`next, this`restored, this`persisted, this`delivered, this`trace
      ensures Valid() && old(delivered) <= delivered
      ensures forall r :: r in Visible(z, log, origin) ==> r in delivered
    {
      hide LogOk, Visible, Delivers, Passed, Detected, CaughtUp, Smooth;
      for i := 0 to |envs|
        invariant Valid() && old(delivered) <= delivered
        invariant i > 0 ==> Ahead(log, next, i) && (persistent ==> restored)
      {
        ghost var n, d := Resumed(), delivered;
        assert ShowsAll(Polled(envs[i]), |log|);
        var _, ok, last, _ := Poll(envs[i]);
        StepAhead(z, log, lo, hi, maxRecords, n, last, delivered[|d|..], next, i);
      }
      if envs == [] {
        NothingVisible(z, origin);
      } else {
        AllDelivered(z, log, lo, hi, origin, next, delivered, trace);
      }
    }
  }

  /** The first k entries, if there are that many, are passed. */
  predicate Ahead(log: seq<Logged>, n: nat, k: nat) {
    forall i :: 0 <= i < |log| && i < k ==> log[i].entry.End() <= n
  }

  /** A poll that succeeds passes at least one entry more. */
  lemma StepAhead(z: Zstd, log: seq<Logged>, lo: nat, hi: nat, maxRecords: nat, n: nat, last: nat, got: seq<Record>,
    next: nat, k: nat)
    requires LogOk(z, log, lo, hi) && CaughtUp(z, log, maxRecords, n, |log|, last, got, next) && Ahead(log, n, k)
    ensures Ahead(log, next, k + 1)
  {
    hide LogOk, From, Flatten;
    if last <= k && last < |log| {
      NothingBelow(z, log, lo, hi, n, last);
      assert false;
    }
    AllPassed(z, log, lo, hi, last, next);
  }

  lemma NothingVisible(z: Zstd, s: nat)
    ensures Visible(z, [], s) == []
  {
  }

  lemma WholeLogPassed(z: Zstd, log: seq<Logged>, n: nat, last: nat, got: seq<Record>, next: nat)
    requires CaughtUp(z, log, 0, n, |log|, last, got, next)
    ensures log != [] ==> log[|log| - 1].entry.End() <= next
  {
  }

  lemma PassedStill(z: Zstd, log: seq<Logged>, hi: nat, s: nat, n: nat, t: seq<nat>, t': seq<nat>)
    requires Passed(z, log, hi, s, n, t) && High(t) <= High(t')
    ensures Passed(z, log, hi, s, n, t')
  {
  }

  lemma TracedGrows(z: Zstd, log: seq<Logged>, lo: nat, hi: nat, s: nat, n: nat, d: seq<Record>, t: seq<nat>,
    part: seq<Record>, more: seq<Record>)
    requires Serving(z, log, lo, hi, s, n, d, t, part) && Serving(z, log, lo, hi, s, n, d, t, more)
    requires |more| == |part| + 1
    ensures High(Traced(z, log, s, n, t, part)) <= High(Traced(z, log, s, n, t, more))
  {
    hide LogOk, Visible, Position, InOrder;
    RestOfVisible(z, log, lo, hi, s, n);
    var p := Position(z, log, s, n);
    ContinueInOrder(t, p, |part|);
    ContinueInOrder(t, p, |more|);
  }

  lemma HandedServes(z: Zstd, log: seq<Logged>, lo: nat, hi: nat, s: nat, n: nat, d: seq<Record>, t: seq<nat>,
    part: seq<Record>, i: nat, j: nat)
    requires Serving(z, log, lo, hi, s, n, d, t, part) && i < |log| && j <= |RecordsOf(z, log[i])|
    ensures Serving(z, log, lo, hi, s, n, d, t, Handed(z, log, n, i, j))
  {
    hide LogOk, Visible, Passed, Delivers, Handed;
    HandedIsVisible(z, log, n, i, j);
  }

  /** Having handed over entries up to i, the cursor may move to the end of the last one. */
  lemma MovedPast(z: Zstd, log: seq<Logged>, lo: nat, hi: nat, s: nat, n: nat, d: seq<Record>, t: seq<nat>, i: nat)
    requires 0 < i <= |log| && n < log[i - 1].entry.End()
    requires Serving(z, log, lo, hi, s, n, d, t, From(Flatten(z, log[..i]), n))
    ensures Passed(z, log, hi, s, log[i - 1].entry.End(), Traced(z, log, s, n, t, From(Flatten(z, log[..i]), n)))
  {
    hide LogOk, From, Flatten, Visible, Delivers, Traced;
    EndPosition(z, log, lo, hi, s, n, i);
    ServingDelivers(z, log, lo, hi, s, n, d, t, From(Flatten(z, log[..i]), n));
  }

  /** Where a poll starts: the entries it selects are those not wholly passed, and nothing is handed over yet. */
  lemma PollStarts(z: Zstd, log: seq<Logged>, lo: nat, hi: nat, s: nat, n: nat, d: seq<Record>, t: seq<nat>, v: nat,
    entries: seq<Entry>)
    requires LogOk(z, log, lo, hi) && v <= |log| && entries == Containing(EntriesOf(log[..v]), n)
    requires Delivers(Visible(z, log, s), d, t) && Passed(z, log, hi, s, n, t)
    ensures |entries| <= v
    ensures var k := v - |entries|;
            && From(Flatten(z, log[..k]), n) == []
            && Serving(z, log, lo, hi, s, n, d, t, []) && d + [] == d && Traced(z, log, s, n, t, []) == t
            && (forall i :: 0 <= i < k ==> log[i].entry.End() <= n)
            && (forall i :: k <= i < v ==> log[i].entry.End() > n)
  {
    hide From, Flatten, Visible, Delivers, Tiles, EntriesOf, ParseSegment, Containing, Before;
    SplitAt(z, log, lo, hi, v);
    var es := EntriesOf(log[..v]);
    ContainingIsSuffix(es, lo, Boundary(log, hi, v), n);
    var k := v - |entries|;
    assert k == Before(es, n);
    forall i | 0 <= i < v
      ensures log[i].entry.End() <= n <==> i < k
    {
      BeforeIsExact(es, lo, Boundary(log, hi, v), n, i);
    }
    NothingBelow(z, log, lo, hi, n, k);
  }

  lemma PollEnds(z: Zstd, log: seq<Logged>, lo: nat, hi: nat, maxRecords: nat, n: nat, k: nat, v: nat, last: nat,
    d: seq<Record>, delivered: seq<Record>, next: nat)
    requires LogOk(z, log, lo, hi) && k <= last <= v <= |log| && (k > 0 ==> log[k - 1].entry.End() <= n)
    requires last > k ==> log[last - 1].entry.End() > n
    requires delivered == d + From(Flatten(z, log[..last]), n)
    requires next == StandsAt(log, n, last)
    requires last < v ==> 0 < maxRecords <= |delivered| - |d|
    requires Short(z, log, n, maxRecords, k, last)
    ensures CaughtUp(z, log, maxRecords, n, v, last, delivered[|d|..], next)
  {
    hide LogOk, From, Flatten;
    forall l | 0 <= l < k
      ensures From(Flatten(z, log[..l]), n) == []
    {
      if l > 0 {
        EndsGrow(z, log, lo, hi, l, k);
      }
      NothingBelow(z, log, lo, hi, n, l);
    }
  }

  lemma EndsGrow(z: Zstd, log: seq<Logged>, lo: nat, hi: nat, i: nat, j: nat)
    requires LogOk(z, log, lo, hi) && 0 < i < j <= |log|
    ensures log[i - 1].entry.End() <= log[j - 1].entry.End()
  {
    hide ParseSegment, EntriesOf, Tiles;
    TilesOrdered(EntriesOf(log), lo, hi, i - 1, j - 1);
  }

  lemma AllPassed(z: Zstd, log: seq<Logged>, lo: nat, hi: nat, v: nat, n: nat)
    requires LogOk(z, log, lo, hi) && v <= |log| && (v > 0 ==> log[v - 1].entry.End() <= n)
    ensures forall i :: 0 <= i < v ==> log[i].entry.End() <= n
  {
    hide ParseSegment, EntriesOf, Tiles;
    forall i | 0 <= i < v
      ensures log[i].entry.End() <= n
    {
      if i < v - 1 {
        TilesOrdered(EntriesOf(log), lo, hi, i, v - 1);
      }
    }
  }
}
