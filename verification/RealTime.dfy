/** The order of the log against the order of the calls: an Append that begins after another has been answered comes
    after it, whichever producers made them. */
module RealTime {
  import opened Accounting
  import opened CommitLoop
  import opened EndToEnd
  import opened Invariant
  import opened Landing
  import opened Packing
  import opened Protocol
  import opened Provenance
  import opened Segment
  import opened Slots

  /** The Append had not been admitted yet: its producer had admitted fewer, or had not even started. */
  predicate NotAdmitted(w: World, run: Run, id: nat) {
    run in w.producers ==> |w.producers[run].admitted| <= id
  }

  /** A record of the log comes from an Append that was admitted before. */
  lemma OriginIsAdmitted(z: Zstd, w: World, n: nat, o: Origin)
    requires Reachable(z, w) && Originates(w, n, o)
    ensures !NotAdmitted(w, o.run, o.append) && n < Cur(w).next
  {
    hide Reachable, Chain, Objects, Puts, Versions, Tiled, Ordered, ItemsBefore, StartOf, JoinBatches, Counters, WaitOk,
      LandedOk, AcksOk;
    var x: nat, g: nat :| IsOrigin(w, n, o, x, g);
    ReachableHolds(z, w);
    assert ProducerOk(w, o.run);
    JoinAt(w.producers[o.run].plans, Cur(w).slots[x].loc.ordinal, g);
    BelowNext(Cur(w), n, x);
  }

  /** What a sequence of the log was, it stays. */
  lemma OriginStays(z: Zstd, w: World, w': World, n: nat, o: Origin)
    requires Reachable(z, w) && Reaches(z, w, w') && Originates(w, n, o)
    ensures Originates(w', n, o)
  {
    hide Reachable, Reaches, Chain, Objects, Puts, Versions, Producers, Ordered, ItemsBefore, StartOf, Tiled;
    var x: nat, g: nat :| IsOrigin(w, n, o, x, g);
    ReachableFrom(z, w, w');
    ReachableHolds(z, w');
    ReachesFollows(z, w, w');
    SlotsGrow(z, w, w');
    var q, q', k := w.producers[o.run], w'.producers[o.run], Cur(w).slots[x].loc.ordinal;
    assert Remembers(q, q');
    assert q'.plans == q.plans + q'.plans[|q.plans|..];
    ItemsBeforePrefix(q.plans, q'.plans[|q.plans|..], k);
    assert IsOrigin(w', n, o, x, g);
  }

  /** In every run, whatever was in the log at some moment comes before every record, acknowledged or not, of every
      Append that was not yet admitted at that moment. */
  lemma LaterAppendsComeAfter(z: Zstd, w: World, w': World, n: nat, o: Origin)
    requires Reachable(z, w) && Reaches(z, w, w') && Originates(w', n, o) && NotAdmitted(w, o.run, o.append)
    ensures Cur(w).next <= n
  {
    hide Reachable, Reaches, Originates, NotAdmitted;
    if n < Cur(w).next {
      var o' := OriginExists(z, w, n);
      OriginIsAdmitted(z, w, n, o');
      OriginStays(z, w, w', n, o');
      ReachableFrom(z, w, w');
      OriginsAreDistinct(z, w', n, n, o, o');
    }
  }

  /** Real-time order: if an Append of any producer had been answered when an Append of any producer was admitted, all
      the sequences of the first answer lie below all those of the second. */
  lemma AnsweredComesFirst(z: Zstd, w: World, w': World, p: Run, outcomes: map<nat, Resolution>, id: nat, j: nat,
    q: Run, outcomes': map<nat, Resolution>, id': nat, j': nat)
    requires Reachable(z, w) && Reaches(z, w, w')
    requires p in w.producers && Truthful(w.producers[p], outcomes) && id in outcomes && outcomes[id].At?
    requires id < |w.producers[p].admitted| && j < |w.producers[p].admitted[id].records|
    requires q in w'.producers && Truthful(w'.producers[q], outcomes') && id' in outcomes' && outcomes'[id'].At?
    requires id' < |w'.producers[q].admitted| && j' < |w'.producers[q].admitted[id'].records|
    requires NotAdmitted(w, q, id')
    ensures outcomes[id].first + j < outcomes'[id'].first + j'
  {
    hide Reachable, Reaches, Truthful, Originates, NotAdmitted, LogRecord, Lossless;
    ReachableFrom(z, w, w');
    ResolvedIsInLog(z, w, p, outcomes, id, j);
    OriginIsAdmitted(z, w, outcomes[id].first + j, Origin(p, id, j));
    ResolvedIsInLog(z, w', q, outcomes', id', j');
    LaterAppendsComeAfter(z, w, w', outcomes'[id'].first + j', Origin(q, id', j'));
  }
}
