/** What a producer achieves when nobody gets in its way: the loops' conditions for success can be met from every
    reachable state in which no other claim has landed since its own. */
module Alone {
  import opened CommitLoop
  import opened Protocol
  import opened Segment
  import opened Slots
  import opened Wrappers

  /** Nobody else acts; the load shows the current version, and the put lands and is answered so. */
  function Quietly(w: World, answer: Answer): Turn {
    Turn([], Some(|w.history|), true, true, [Land(|w.sent|)], answer, false)
  }

  lemma NobodyActs(z: Zstd, w: World, p: Run)
    ensures Ran(z, w, p, []) == w
  {
  }

  /** The put just sent against the current version lands if it is the next thing to happen. */
  lemma LandsNext(z: Zstd, w: World, p: Run, id: nat)
    requires id < |w.sent| == |w.status| && w.status[id].InFlight? && w.sent[id].onto == |w.history|
    ensures var w' := Ran(z, w, p, [Land(id)]);
            && w'.status == w.status[id := Landed]
            && w'.history == w.history + [Version(w.sent[id].man, w.sent[id].owner, w.sent[id].kind.Claim?)]
  {
    assert [Land(id)][..0] == [];
    NobodyActs(z, w, p);
  }

  /** A group of which nothing has landed is sent, and lands. */
  lemma QuietPutLands(z: Zstd, w: World, p: Run, answer: Answer)
    requires |w.sent| == |w.status| && Enabled(w, CommitAttempt(p, |w.history|))
    requires Cur(w).epoch == w.producers[p].epoch
    requires !w.producers[p].phase.unknown || Absent(Cur(w), p, w.producers[p].done, w.producers[p].phase.n)
    ensures var turn := Quietly(w, answer);
            && Shown(z, w, p, turn) == Cur(w) && PutLands(z, w, p, turn)
            && |Answering(z, w, p, turn).history| == |w.history| + 1
            && Cur(Answering(z, w, p, turn)).epoch == Cur(w).epoch
  {
    hide Decide, AppendGroup, Absent, Ran;
    var q, m, s := w.producers[p], Cur(w), CommitAttempt(p, |w.history|);
    NobodyActs(z, w, p);
    AbsentIsSent(q, p, q.phase.n, q.phase.unknown, m);
    var w2 := Apply(z, w, s);
    var put := w2.sent[|w.sent|];
    assert put.onto == |w2.history| && put.man == AppendGroup(m, p, q.plans[q.done..q.done + q.phase.n], q.done);
    GroupFacts(m, p, q.plans[q.done..q.done + q.phase.n], q.done);
    LandsNext(z, w2, p, |w.sent|);
  }

  /** A producer whose epoch is current commits its group in one turn if nobody gets in its way. */
  lemma QuietTurnIsSmooth(z: Zstd, w: World, p: Run)
    requires Reachable(z, w) && p in w.producers && w.producers[p].phase.Committing? && !w.producers[p].phase.unknown
    requires Cur(w).epoch == w.producers[p].epoch
    ensures Smooth(z, w, p, Quietly(w, Clean))
  {
    hide Reachable, Shown, Answering, Enabled, Ran, Absent;
    BalancedAlways(z, w, p);
    CommitEnabled(w, p, |w.history|);
    QuietPutLands(z, w, p, Clean);
  }

  /** If the answer is lost, and again nobody gets in its way, the next turn recovers the group. */
  lemma QuietLossIsRecovered(z: Zstd, w0: World, p: Run, worlds: seq<World>, ends: seq<TurnEnd>, env: nat -> Turn,
    maxAttempts: nat, maxConflicts: nat, out: Outcome)
    requires Reachable(z, w0) && p in w0.producers && w0.producers[p].phase.Committing?
    requires !w0.producers[p].phase.unknown && Cur(w0).epoch == w0.producers[p].epoch
    requires Turns(z, w0, p, worlds, ends, env) && Stopped(out, ends, env, maxAttempts, maxConflicts)
    requires maxAttempts > 1 && maxConflicts > 0 && env(0) == Quietly(w0, Unclear)
    requires env(1).before == [] && env(1).load == Some(|w0.history| + 1) && env(1).readable
    ensures out.Committed? && |ends| == 2
  {
    hide Reachable, Reaches, Shown, Answering, Enabled, Ran, Absent, PutLands, Stopped, Right, Observed;
    BalancedAlways(z, w0, p);
    CommitEnabled(w0, p, |w0.history|);
    QuietPutLands(z, w0, p, Unclear);
    FirstTurnDecides(z, w0, p, worlds, ends, env, maxAttempts, maxConflicts, out);
    assert Took(z, w0, p, worlds, ends, env, 1) && Took(z, w0, p, worlds, ends, env, 0) && Next(z, p, worlds, ends, env, 0);
    FirstEndsInDoubt(z, w0, p, env(0), ends[0]);
    SameHistory(z, worlds[1], Answering(z, w0, p, env(0)), p, env(1));
  }

  lemma FirstEndsInDoubt(z: Zstd, w: World, p: Run, turn: Turn, end: TurnEnd)
    requires p in w.producers && w.producers[p].phase.Committing? && !w.producers[p].phase.unknown
    requires Right(z, w, p, turn, end) && AnswerLost(z, w, p, turn)
    ensures end == Again(Unclear)
  {
    hide Shown, PutLands, Reachable, Absent, AllAt;
  }

  lemma SameHistory(z: Zstd, w: World, w': World, p: Run, turn: Turn)
    requires w.history == w'.history && turn.before == [] && turn.load.Some? && turn.load.value >= |w.history|
    ensures Shown(z, w, p, turn) == Cur(w') && Ran(z, w, p, turn.before) == w
  {
    NobodyActs(z, w, p);
  }

  /** A producer that claims an epoch gets the next one, if nobody gets in its way. */
  lemma QuietClaim(z: Zstd, w: World, p: Run)
    requires Reachable(z, w) && p in w.producers && w.producers[p].phase.Unclaimed?
    ensures Claims(z, w, p, Quietly(w, Clean)) && Shown(z, w, p, Quietly(w, Clean)) == Cur(w)
  {
    hide Reachable, Ran;
    BalancedAlways(z, w, p);
    NobodyActs(z, w, p);
    var w2 := Apply(z, w, ClaimAttempt(p, |w.history|));
    LandsNext(z, w2, p, |w.sent|);
  }
}
