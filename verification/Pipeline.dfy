/** From Append to file: what a producer was told about an Append is what a sink over the same log writes. */
module Pipeline {
  import opened Accounting
  import opened Bytes
  import opened Correspondence
  import opened EndToEnd
  import opened Protocol
  import opened Provenance
  import opened Segment
  import opened SinkLayout
  import opened SinkLoss
  import opened SinkProgress
  import opened TailLog
  import S = SinkSpec

  /** The log every reachable state shows is one that a sink can poll: numbered without gap and cut into segments. */
  lemma EveryLogCanBePolled(z: Zstd, w: World, name: Location -> bytes)
    requires Reachable(z, w) && Lossless(z)
    ensures InSequence(Flatten(z, Rendered(name, w))) && |Flatten(z, Rendered(name, w))| == Cur(w).next
    ensures S.Segmented(Ends(Rendered(name, w)), Cur(w).next)
  {
    hide Reachable, Lossless, Flatten, Render, LogOk, Counted;
    ReadersSeeWholeLog(z, w, name);
    SinkSeesTheLog(z, Rendered(name, w), Cur(w).next);
  }

  /** Record j of an Append that was resolved to first sequence f is, once polls that succeeded have carried the sink
      past f + j, in its files exactly once, as row f + j with the Append's own data and metadata. */
  lemma AppendReachesFiles(z: Zstd, w: World, name: Location -> bytes, p: Run, outcomes: map<nat, Resolution>, id: nat,
    j: nat, c: S.Config, passes: seq<Pass>, start: nat)
    requires Reachable(z, w) && Lossless(z) && p in w.producers && Truthful(w.producers[p], outcomes)
    requires id in outcomes && outcomes[id].At? && id < |w.producers[p].admitted|
    requires j < |w.producers[p].admitted[id].records|
    requires S.Usable(c) && Proper(Flatten(z, Rendered(name, w)), passes)
    requires Succeeds(c, Fresh(start), Flatten(z, Rendered(name, w)), passes)
    ensures var st := SinkLoss.Run(c, Fresh(start), Flatten(z, Rendered(name, w)), passes);
            var item, n, rows := w.producers[p].admitted[id], outcomes[id].first + j, Rows(st.files);
            && (start <= n < st.nextCursor ==>
                  n - start < |rows| && rows[n - start] == Record(n, item.meta, item.records[j]))
            && forall k :: 0 <= k < |rows| && rows[k].sequence == n ==> k == n - start && n < st.nextCursor
  {
    hide Reachable, Lossless, Truthful, Flatten, Render, Succeeds, SinkLoss.Run, Rows, Originates, FileOk;
    var n := outcomes[id].first + j;
    ResolvedIsInLog(z, w, p, outcomes, id, j);
    HandedIsLogged(z, w, name, n, Origin(p, id, j));
    SuccessfulRun(c, Flatten(z, Rendered(name, w)), passes, start);
  }

  /** Where the segments of the log end, the last one ends the log. */
  lemma EndsEndTheLog(z: Zstd, w: World, name: Location -> bytes)
    requires Reachable(z, w) && Lossless(z) && Cur(w).next > 0
    ensures var ends := Ends(Rendered(name, w));
            ends != [] && ends[|ends| - 1] == Cur(w).next
  {
    hide Reachable, Lossless, Flatten, Render;
    var log := Rendered(name, w);
    ReadersSeeWholeLog(z, w, name);
    SplitAt(z, log, 0, Cur(w).next, |log|);
    assert log != [] by {
      NothingTiles(z, log, Cur(w).next);
    }
  }

  lemma NothingTiles(z: Zstd, log: seq<Logged>, hi: nat)
    requires LogOk(z, log, 0, hi) && hi > 0
    ensures log != []
  {
  }

  /** And such polls do come about: once nothing fails around it, a sink that has polled as often as the log has segments
      has filed every acknowledged Append, exactly once. */
  lemma AppendIsFiled(z: Zstd, w: World, name: Location -> bytes, p: Run, outcomes: map<nat, Resolution>, id: nat,
    j: nat, c: S.Config, passes: seq<Pass>, start: nat)
    requires Reachable(z, w) && Lossless(z) && p in w.producers && Truthful(w.producers[p], outcomes)
    requires id in outcomes && outcomes[id].At? && id < |w.producers[p].admitted|
    requires j < |w.producers[p].admitted[id].records| && start <= outcomes[id].first + j
    requires S.Usable(c) && |passes| >= |Ends(Rendered(name, w))|
    requires forall i :: 0 <= i < |passes| ==> passes[i].ends == Ends(Rendered(name, w)) && Faultless(passes[i].f)
    ensures Proper(Flatten(z, Rendered(name, w)), passes)
    ensures var st := SinkLoss.Run(c, Fresh(start), Flatten(z, Rendered(name, w)), passes);
            var item, n, rows := w.producers[p].admitted[id], outcomes[id].first + j, Rows(st.files);
            && n - start < |rows| && rows[n - start] == Record(n, item.meta, item.records[j])
            && forall k :: 0 <= k < |rows| && rows[k].sequence == n ==> k == n - start
  {
    hide Reachable, Lossless, Truthful, Flatten, Render, SinkLoss.Run, Rows, Originates, Faultless, S.Segmented, LogRecord;
    var n := outcomes[id].first + j;
    ResolvedIsInLog(z, w, p, outcomes, id, j);
    HandedIsLogged(z, w, name, n, Origin(p, id, j));
    EveryLogCanBePolled(z, w, name);
    EndsEndTheLog(z, w, name);
    EverythingIsFiled(c, Flatten(z, Rendered(name, w)), Ends(Rendered(name, w)), passes, start);
  }
}
