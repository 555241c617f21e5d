/** The two retry loops of a producer, run against any environment: what they do is a run of the protocol, they stop
    within their budgets, and their answers are right. */
module CommitLoop {
  import Commits
  import opened Guarantees
  import opened Invariant
  import opened Landing
  import opened Packing
  import opened Protocol
  import opened Provenance
  import opened Segment
  import opened Slots
  import opened Wrappers

  // ---------------------------------------------------------------- the environment

  /** How the store answers a conditional put: success, 412 (or an existing object), 409, or anything else. */
  datatype Answer = Clean | Precondition | Conflict | Unclear

  /** What happens around one turn of a loop: steps of others before the load, the version loaded if the load works,
      whether its last entries decode and the new ones can be encoded, steps of others while the put is out, the
      store's answer, and whether the context ends during the backoff. */
  datatype Turn = Turn(
    before: seq<Step>,
    load: Option<nat>,
    readable: bool,
    encodable: bool,
    during: seq<Step>,
    answer: Answer,
    cancelled: bool)

  /** Steps that are not producer p's: those of other producers and of the store. */
  predicate Foreign(s: Step, p: Run) {
    s.Land? || s.Lose? || s.UploadLands? || s.p != p
  }

  /** Whose step it is; the store's own are nobody's. */
  function Actor(s: Step): Option<Run> {
    match s
    case Land(_) => None
    case Lose(_) => None
    case UploadLands(_, _) => None
    case Spawn(q, _, _) => Some(q)
    case ClaimAttempt(q, _) => Some(q)
    case AnswerOk(q) => Some(q)
    case AnswerRefused(q) => Some(q)
    case AnswerUnknown(q) => Some(q)
    case Halt(q) => Some(q)
    case Admit(q, _) => Some(q)
    case StartFlush(q, _, _, _) => Some(q)
    case FinishUploads(q, _) => Some(q)
    case BeginGroup(q, _) => Some(q)
    case CommitAttempt(q, _) => Some(q)
    case EndFlush(q) => Some(q)
  }

  /** Around a turn, everything may happen but the producer's own steps. */
  lemma EveryoneElseActs(s: Step, p: Run)
    ensures Foreign(s, p) <==> Actor(s) != Some(p)
  {
  }

  ghost predicate Reaches(z: Zstd, w: World, w': World) {
    exists steps :: Leads(z, w, steps, w')
  }

  lemma ReachesSelf(z: Zstd, w: World)
    ensures Reaches(z, w, w)
  {
    assert Leads(z, w, [], w);
  }

  lemma {:induction false} LeadsConcat(z: Zstd, a: World, s: seq<Step>, b: World, t: seq<Step>, c: World)
    requires Leads(z, a, s, b) && Leads(z, b, t, c)
    ensures Leads(z, a, s + t, c)
    decreases |s|
  {
    hide Enabled, Apply;
    if s == [] {
      assert s + t == t;
    } else {
      assert (s + t)[0] == s[0] && (s + t)[1..] == s[1..] + t;
      LeadsConcat(z, Apply(z, a, s[0]), s[1..], b, t, c);
    }
  }

  lemma ReachesStep(z: Zstd, a: World, b: World, s: Step)
    requires Reaches(z, a, b) && Enabled(b, s)
    ensures Reaches(z, a, Apply(z, b, s))
  {
    hide Enabled, Apply;
    var steps :| Leads(z, a, steps, b);
    assert Leads(z, b, [s], Apply(z, b, s)) by {
      assert [s][1..] == [];
    }
    LeadsConcat(z, a, steps, b, [s], Apply(z, b, s));
  }

  lemma ReachesTransitive(z: Zstd, a: World, b: World, c: World)
    requires Reaches(z, a, b) && Reaches(z, b, c)
    ensures Reaches(z, a, c)
  {
    hide Leads;
    var s :| Leads(z, a, s, b);
    var t :| Leads(z, b, t, c);
    LeadsConcat(z, a, s, b, t, c);
  }

  lemma ReachableFrom(z: Zstd, w: World, w': World)
    requires Reachable(z, w) && Reaches(z, w, w')
    ensures Reachable(z, w')
  {
    hide Leads;
    var s :| Leads(z, INITIAL, s, w);
    var t :| Leads(z, w, t, w');
    LeadsConcat(z, INITIAL, s, w, t, w');
  }

  lemma ForeignKeeps(z: Zstd, w: World, s: Step, p: Run)
    requires Enabled(w, s) && Foreign(s, p) && p in w.producers && |w.sent| == |w.status|
    ensures var w' := Apply(z, w, s);
            && p in w'.producers && w'.producers[p] == w.producers[p]
            && |w.history| <= |w'.history| && w.sent <= w'.sent && |w'.sent| == |w'.status|
            && w.objects.Keys <= w'.objects.Keys
  {
    hide IsPacking, AppendGroup, Decide, SegmentBytes, Flat, RecordsFit, Batches, LastSequences, Metas, Total;
  }

  /** Everyone else acts: each offered step that is enabled and not p's own is taken. */
  function Ran(z: Zstd, w: World, p: Run, offered: seq<Step>): World
    decreases |offered|
  {
    if offered == [] then w
    else
      var last, w' := offered[|offered| - 1], Ran(z, w, p, offered[..|offered| - 1]);
      if Foreign(last, p) && Enabled(w', last) then Apply(z, w', last) else w'
  }

  lemma {:induction false} RanReaches(z: Zstd, w: World, p: Run, offered: seq<Step>)
    requires p in w.producers && |w.sent| == |w.status|
    ensures var w' := Ran(z, w, p, offered);
            && Reaches(z, w, w') && p in w'.producers && w'.producers[p] == w.producers[p]
            && w.sent <= w'.sent && |w'.sent| == |w'.status|
    decreases |offered|
  {
    hide Enabled, Apply, Foreign, Reaches;
    if offered == [] {
      ReachesSelf(z, w);
    } else {
      var front, last := offered[..|offered| - 1], offered[|offered| - 1];
      RanReaches(z, w, p, front);
      var w' := Ran(z, w, p, front);
      if Foreign(last, p) && Enabled(w', last) {
        ForeignKeeps(z, w', last, p);
        ReachesStep(z, w, w', last);
      }
    }
  }

  /** Any run of the others alone can be what happens around a turn. */
  lemma {:induction false} OthersAct(z: Zstd, w: World, p: Run, steps: seq<Step>, w': World)
    requires Leads(z, w, steps, w') && forall i :: 0 <= i < |steps| ==> Foreign(steps[i], p)
    ensures Ran(z, w, p, steps) == w'
    decreases |steps|
  {
    hide Enabled, Apply, Foreign;
    if steps != [] {
      var k := |steps| - 1;
      LeadsSplit(z, w, steps, w', k);
      var mid :| Leads(z, w, steps[..k], mid) && Leads(z, mid, steps[k..], w');
      OthersAct(z, w, p, steps[..k], mid);
      assert steps[k..] == [steps[k]] && [steps[k]][1..] == [];
      assert Leads(z, Apply(z, mid, steps[k]), [], w');
    }
  }

  lemma {:induction false} LeadsSplit(z: Zstd, w: World, steps: seq<Step>, w': World, k: nat)
    requires Leads(z, w, steps, w') && k <= |steps|
    ensures exists mid :: Leads(z, w, steps[..k], mid) && Leads(z, mid, steps[k..], w')
    decreases k
  {
    hide Enabled, Apply;
    if k == 0 {
      assert steps[..0] == [] && steps[0..] == steps && Leads(z, w, [], w);
    } else {
      var w1 := Apply(z, w, steps[0]);
      LeadsSplit(z, w1, steps[1..], w', k - 1);
      var mid :| Leads(z, w1, steps[1..][..k - 1], mid) && Leads(z, mid, steps[1..][k - 1..], w');
      assert steps[..k][1..] == steps[1..][..k - 1] && steps[1..][k - 1..] == steps[k..];
      assert Leads(z, w, steps[..k], mid);
    }
  }

  method RunOthers(z: Zstd, w0: World, p: Run, offered: seq<Step>) returns (w: World)
    requires p in w0.producers && |w0.sent| == |w0.status|
    ensures w == Ran(z, w0, p, offered)
    ensures Reaches(z, w0, w)
    ensures p in w.producers && w.producers[p] == w0.producers[p]
    ensures |w0.history| <= |w.history| && w0.sent <= w.sent && |w.sent| == |w.status|
    ensures w0.objects.Keys <= w.objects.Keys
  {
    hide Enabled, Apply, Foreign, Reaches;
    w := w0;
    ReachesSelf(z, w0);
    for i := 0 to |offered|
      invariant w == Ran(z, w0, p, offered[..i]) && Reaches(z, w0, w)
      invariant p in w.producers && w.producers[p] == w0.producers[p]
      invariant |w0.history| <= |w.history| && w0.sent <= w.sent && |w.sent| == |w.status|
      invariant w0.objects.Keys <= w.objects.Keys
    {
      assert offered[..i + 1][..i] == offered[..i];
      if Foreign(offered[i], p) && Enabled(w, offered[i]) {
        ForeignKeeps(z, w, offered[i], p);
        ReachesStep(z, w0, w, offered[i]);
        w := Apply(z, w, offered[i]);
      }
    }
    assert offered[..|offered|] == offered;
  }

  /** The answer that reaches the producer: success only for a put that landed, a refusal only for one that has not. */
  function Received(w: World, id: nat, a: Answer): Answer
    requires id < |w.status|
  {
    if a.Clean? && !w.status[id].Landed? then Unclear
    else if (a.Precondition? || a.Conflict?) && w.status[id].Landed? then Unclear
    else a
  }

  function Clip(ver: nat, w: World): nat { if ver <= |w.history| then ver else |w.history| }

  // ---------------------------------------------------------------- commitEntries

  /** Why a commit gives up. */
  datatype Why = FencedOff | PartialGroup | Exhausted | Cancelled | Unencodable | Unreadable

  datatype Outcome = Committed(seqs: seq<nat>) | Rejected(why: Why)

  /** The producer either counts the group as committed under the reported sequences, or has halted. */
  predicate Answered(q0: Producer, q: Producer, n: nat, out: Outcome) {
    match out
    case Committed(seqs) => |seqs| == n && q == q0.(done := q0.done + n, acks := q0.acks + seqs, phase := Flushing)
    case Rejected(_) => q == q0.(phase := Halted(n))
  }

  /** What one load leads to, by decision. */
  lemma AttemptFacts(z: Zstd, w: World, p: Run, ver: nat)
    requires Enabled(w, CommitAttempt(p, ver)) && |w.sent| == |w.status|
    ensures var q, m := w.producers[p], ManAt(w, ver);
            var n, w' := q.phase.n, Apply(z, w, CommitAttempt(p, ver));
            && p in w'.producers && |w'.sent| == |w'.status| && w'.history == w.history
            && match Decide(q, p, n, q.phase.unknown, m)
               case Send =>
                 && w'.producers[p] == q.(phase := Waiting(n, q.phase.unknown, |w.sent|))
                 && |w'.sent| == |w.sent| + 1 && w'.sent[|w.sent|].kind == Append(q.done, n)
                 && w'.sent[|w.sent|].owner == p
                 && n <= |w'.sent[|w.sent|].man.slots|
               case Harvested(seqs) =>
                 && |seqs| == n
                 && w'.producers[p] == q.(done := q.done + n, acks := q.acks + seqs, phase := Flushing)
               case _ => w'.producers[p] == q.(phase := Halted(n))
  {
    hide AppendGroup, Found, CountFound;
    var q := w.producers[p];
    GroupFacts(ManAt(w, ver), p, q.plans[q.done..q.done + q.phase.n], q.done);
  }

  predicate Balanced(w: World) { |w.sent| == |w.status| }

  predicate KeepsSent(w: World, w': World) {
    w'.sent == w.sent && |w'.sent| == |w'.status| && w'.history == w.history
  }

  /** What an answer to a commit put leads to. */
  lemma AnswerFacts(z: Zstd, w: World, p: Run, id: nat)
    requires p in w.producers && id < |w.sent| == |w.status| && w.producers[p].phase.Waiting?
    requires w.producers[p].phase.id == id && w.sent[id].kind == Append(w.producers[p].done, w.producers[p].phase.n)
    requires w.producers[p].phase.n <= |w.sent[id].man.slots|
    ensures var q := w.producers[p];
            var n, u := q.phase.n, q.phase.unknown;
            && (w.status[id].Landed? ==>
                 && Enabled(w, AnswerOk(p))
                 && p in Apply(z, w, AnswerOk(p)).producers && KeepsSent(w, Apply(z, w, AnswerOk(p)))
                 && Apply(z, w, AnswerOk(p)).status == w.status
                 && Apply(z, w, AnswerOk(p)).producers[p] ==
                      q.(done := q.done + n, acks := q.acks + LastSequences(w.sent[id].man, n), phase := Flushing))
            && (!w.status[id].Landed? ==>
                 && Enabled(w, AnswerRefused(p))
                 && p in Apply(z, w, AnswerRefused(p)).producers && KeepsSent(w, Apply(z, w, AnswerRefused(p)))
                 && Apply(z, w, AnswerRefused(p)).producers[p] == q.(phase := Committing(n, u)))
            && Enabled(w, AnswerUnknown(p))
            && p in Apply(z, w, AnswerUnknown(p)).producers && KeepsSent(w, Apply(z, w, AnswerUnknown(p)))
            && Apply(z, w, AnswerUnknown(p)).producers[p] == q.(phase := Committing(n, true))
  {
    hide LastSequences;
  }

  lemma SentPrefix(w: World, w': World, id: nat)
    requires w.sent <= w'.sent && id < |w.sent|
    ensures w'.sent[id] == w.sent[id]
  {
  }

  /** Waits for the answer to commit put id while others act, and takes it. */
  method AwaitCommit(z: Zstd, w0: World, p: Run, id: nat, during: seq<Step>, offered: Answer)
    returns (w: World, answer: Answer)
    requires p in w0.producers && id < |w0.sent| == |w0.status| && w0.producers[p].phase.Waiting?
    requires w0.producers[p].phase.id == id
    requires w0.sent[id].kind == Append(w0.producers[p].done, w0.producers[p].phase.n)
    requires w0.producers[p].phase.n <= |w0.sent[id].man.slots|
    ensures Reaches(z, w0, w) && p in w.producers && |w.sent| == |w.status|
    ensures answer == ReceivedAfter(z, w0, p, id, during, offered) && w.history == Ran(z, w0, p, during).history
    ensures id < |Ran(z, w0, p, during).status|
    ensures id < |w.sent| && w.sent[id] == w0.sent[id] && (answer.Clean? ==> w.status[id].Landed?)
    ensures var q, n := w0.producers[p], w0.producers[p].phase.n;
            if answer.Clean? then
              w.producers[p] ==
                q.(done := q.done + n, acks := q.acks + LastSequences(w0.sent[id].man, n), phase := Flushing)
            else w.producers[p] == q.(phase := Committing(n, q.phase.unknown || answer.Unclear?))
  {
    hide Reaches, Enabled, Apply, LastSequences, Ran;
    w := RunOthers(z, w0, p, during);
    SentPrefix(w0, w, id);
    AnswerFacts(z, w, p, id);
    answer := Received(w, id, offered);
    var s := if answer.Clean? then AnswerOk(p) else if answer.Unclear? then AnswerUnknown(p) else AnswerRefused(p);
    ReachesStep(z, w0, w, s);
    w := Apply(z, w, s);
  }

  function ReceivedAfter(z: Zstd, w: World, p: Run, id: nat, during: seq<Step>, offered: Answer): Answer {
    var w' := Ran(z, w, p, during);
    if id < |w'.status| then Received(w', id, offered) else Unclear
  }

  // ---------------------------------------------------------------- what a turn has to come to

  /** The manifest a turn loads: some version, once the others have acted. */
  function Shown(z: Zstd, w: World, p: Run, turn: Turn): Man
    requires turn.load.Some?
  {
    var w1 := Ran(z, w, p, turn.before);
    ManAt(w1, Clip(turn.load.value, w1))
  }

  /** The state in which the answer to the put of a turn that sends one arrives. */
  function Answering(z: Zstd, w: World, p: Run, turn: Turn): World
    requires turn.load.Some?
  {
    var w1 := Ran(z, w, p, turn.before);
    var s := CommitAttempt(p, Clip(turn.load.value, w1));
    if Enabled(w1, s) then Ran(z, Apply(z, w1, s), p, turn.during) else w1
  }

  /** That put has landed by then. */
  predicate PutLands(z: Zstd, w: World, p: Run, turn: Turn)
    requires turn.load.Some?
  {
    var id, w3 := |Ran(z, w, p, turn.before).sent|, Answering(z, w, p, turn);
    id < |w3.status| && w3.status[id].Landed?
  }

  /** The answer the producer gets: success exactly if the put landed and nothing came between, a refusal only if it has
      not landed, and otherwise nothing it can rely on. */
  function Reply(z: Zstd, w: World, p: Run, turn: Turn): Answer
    requires turn.load.Some?
  {
    if turn.answer.Clean? == PutLands(z, w, p, turn) then turn.answer else Unclear
  }

  /** No entry of m is a segment of the group. */
  predicate Absent(m: Man, p: Run, lo: nat, n: nat) {
    forall x :: 0 <= x < |m.slots| ==> m.slots[x].loc.run == p ==> !(lo <= m.slots[x].loc.ordinal < lo + n)
  }

  predicate InLogAt(m: Man, loc: Location, sequence: nat) {
    exists x :: 0 <= x < |m.slots| && m.slots[x].loc == loc && m.slots[x].sequence == sequence
  }

  /** The segments of the group are entries of m, at those sequences. */
  predicate AllAt(m: Man, p: Run, lo: nat, n: nat, seqs: seq<nat>) {
    |seqs| == n && forall i :: 0 <= i < n ==> InLogAt(m, Location(p, lo + i), seqs[i])
  }

  /** How a turn has to end: fenced exactly if what it loaded is under another epoch; once an outcome was unknown,
      committed if the group is there; and otherwise as the store answers the put. */
  ghost predicate Right(z: Zstd, w: World, p: Run, turn: Turn, end: TurnEnd)
    requires p in w.producers && w.producers[p].phase.Committing?
  {
    var q := w.producers[p];
    var n, unknown := q.phase.n, q.phase.unknown;
    if turn.load.None? then end == LoadFailed
    else
      var m := Shown(z, w, p, turn);
      if m.epoch != q.epoch then end == Done(Rejected(FencedOff))
      else if unknown && !turn.readable then end == Done(Rejected(Unreadable))
      else if !unknown || Absent(m, p, q.done, n) then
        if !turn.encodable then end == Done(Rejected(Unencodable))
        else if Reply(z, w, p, turn).Clean? then end.Done? && end.out.Committed?
        else end == Again(Reply(z, w, p, turn))
      else
        && end != Done(Rejected(FencedOff))
        && (Reachable(z, w) ==> end.Done? && end.out.Committed? && AllAt(m, p, q.done, n, end.out.seqs))
  }

  /** A turn in which nothing goes wrong: the load shows the producer's own epoch, and the put lands and is answered. */
  predicate Smooth(z: Zstd, w: World, p: Run, turn: Turn) {
    && p in w.producers && turn.load.Some? && turn.encodable
    && Shown(z, w, p, turn).epoch == w.producers[p].epoch && Reply(z, w, p, turn).Clean?
  }

  /** With nothing of the group in m, the group is sent. */
  lemma AbsentIsSent(q: Producer, p: Run, n: nat, unknown: bool, m: Man)
    requires m.epoch == q.epoch && (!unknown || Absent(m, p, q.done, n))
    ensures Decide(q, p, n, unknown, m).Send?
  {
    hide CountFound;
    if unknown {
      var f := Found(m, p, q.done, n);
      forall i | 0 <= i < n
        ensures f[i] == None
      {
        NotListed(m.slots, 4 * n, Location(p, q.done + i));
      }
      CountAll(f);
    }
  }

  lemma NotListed(slots: seq<Slot>, limit: nat, loc: Location)
    requires forall x :: 0 <= x < |slots| ==> slots[x].loc != loc
    ensures LastWith(TailOf(slots, limit), loc) == None
  {
    var tail := TailOf(slots, limit);
    forall y | 0 <= y < |tail|
      ensures tail[y].loc != loc
    {
      TailIndex(slots, limit, y);
    }
    LastWithNone(tail, loc);
  }

  /** In a reachable state, a group of which anything is in a version under the own epoch is harvested from it, whole. */
  lemma PresentIsHarvested(z: Zstd, w: World, p: Run, ver: nat)
    requires Reachable(z, w) && p in w.producers && w.producers[p].phase.Committing? && ver <= |w.history|
    requires ManAt(w, ver).epoch == w.producers[p].epoch
    requires !Absent(ManAt(w, ver), p, w.producers[p].done, w.producers[p].phase.n)
    ensures var q, m := w.producers[p], ManAt(w, ver);
            var d := Decide(q, p, q.phase.n, true, m);
            d.Harvested? && AllAt(m, p, q.done, q.phase.n, d.seqs)
  {
    hide Reachable, Own, Found, CountFound, ManOk, Chain, Objects, Puts, Versions, PlansOk, WaitOk, LandedOk, AcksOk,
      Ordered;
    ReachableHolds(z, w);
    assert ProducerOk(w, p);
    var q, m := w.producers[p], ManAt(w, ver);
    var n := q.phase.n;
    if ver == 0 {
      assert false;
    }
    Commits.WholeOrNothing(w, p, ver, n);
    var x :| 0 <= x < |m.slots| && m.slots[x].loc.run == p && q.done <= m.slots[x].loc.ordinal < q.done + n;
    OrdinalBound(m.slots, x);
    var d := Decide(q, p, n, true, m);
    forall i | 0 <= i < n
      ensures InLogAt(m, Location(p, q.done + i), d.seqs[i])
    {
      assert HarvestedAt(m, p, q.done, n, i);
    }
  }

  /** The last entries of a manifest by location, later ones winning. */
  method TailLocations(slots: seq<Slot>, limit: nat) returns (tail: map<Location, nat>)
    ensures forall loc :: IndexedAs(tail, TailOf(slots, limit), loc)
  {
    var last := TailOf(slots, limit);
    tail := map[];
    for i := 0 to |last|
      invariant forall loc :: IndexedAs(tail, last[..i], loc)
    {
      ghost var before, upTo := tail, last[..i + 1];
      tail := tail[last[i].loc := last[i].sequence];
      assert upTo[..i] == last[..i];
      forall loc
        ensures IndexedAs(tail, upTo, loc)
      {
        assert IndexedAs(before, last[..i], loc);
      }
    }
    assert last[..|last|] == last;
  }

  predicate IndexedAs(tail: map<Location, nat>, slots: seq<Slot>, loc: Location) {
    match LastWith(slots, loc)
    case Some(s) => loc in tail && tail[loc] == s
    case None => loc !in tail
  }

  /** harvestCommitted: how many of the n segments from ordinal lo on the manifest's tail holds, and where. */
  method HarvestCommitted(m: Man, p: Run, lo: nat, n: nat) returns (found: nat, seqs: seq<nat>)
    ensures found == CountFound(Found(m, p, lo, n)) && |seqs| == n
    ensures forall i :: 0 <= i < n ==>
              seqs[i] == if Found(m, p, lo, n)[i].Some? then Found(m, p, lo, n)[i].value else 0
  {
    hide LastWith, TailOf;
    var tail := TailLocations(m.slots, 4 * n);
    ghost var f := Found(m, p, lo, n);
    found, seqs := 0, [];
    for i := 0 to n
      invariant |seqs| == i && found == CountFound(f[..i])
      invariant forall k :: 0 <= k < i ==> seqs[k] == if f[k].Some? then f[k].value else 0
    {
      assert IndexedAs(tail, TailOf(m.slots, 4 * n), Location(p, lo + i));
      CountSnoc(f[..i], f[i]);
      assert f[..i] + [f[i]] == f[..i + 1];
      if Location(p, lo + i) in tail {
        seqs, found := seqs + [tail[Location(p, lo + i)]], found + 1;
      } else {
        seqs := seqs + [0];
      }
    }
    assert f[..n] == f;
  }

  lemma {:induction false} CountSnoc(f: seq<Option<nat>>, x: Option<nat>)
    ensures CountFound(f + [x]) == CountFound(f) + if x.Some? then 1 else 0
  {
    if f == [] {
      assert f + [x] == [x] && [x][1..] == [];
    } else {
      assert (f + [x])[0] == f[0] && (f + [x])[1..] == f[1..] + [x];
      CountSnoc(f[1..], x);
    }
  }

  /** What the loop does with a manifest it has loaded. */
  method Choose(q: Producer, p: Run, n: nat, unknown: bool, m: Man) returns (d: Decision)
    ensures d == Decide(q, p, n, unknown, m)
  {
    hide Found, CountFound;
    if m.epoch != q.epoch {
      return Fenced;
    }
    if unknown {
      var found, seqs := HarvestCommitted(m, p, q.done, n);
      if found == 0 {
        return Send;
      } else if found == n {
        return Harvested(seqs);
      } else {
        return Partial;
      }
    }
    d := Send;
  }

  /** Put id of producer p carried the group of n segments from lo on, and landed. */
  predicate LandedWith(w: World, id: nat, p: Run, lo: nat, n: nat, seqs: seq<nat>) {
    && id < |w.sent| == |w.status| && w.status[id].Landed?
    && w.sent[id].owner == p && w.sent[id].kind == Append(lo, n)
    && n <= |w.sent[id].man.slots| && seqs == LastSequences(w.sent[id].man, n)
  }

  /** Version ver, under the producer's own epoch, holds the whole group at those sequences. */
  predicate HarvestedFrom(w: World, ver: nat, p: Run, epoch: nat, lo: nat, n: nat, seqs: seq<nat>) {
    && ver <= |w.history| && ManAt(w, ver).epoch == epoch && |seqs| == n
    && forall i :: 0 <= i < n ==> Found(ManAt(w, ver), p, lo, n)[i] == Some(seqs[i])
  }

  /** A commit is answered with success only on a clean swap or a full harvest. */
  ghost predicate Justified(w: World, p: Run, epoch: nat, lo: nat, n: nat, seqs: seq<nat>) {
    || (exists id: nat :: LandedWith(w, id, p, lo, n, seqs))
    || (exists ver: nat :: HarvestedFrom(w, ver, p, epoch, lo, n, seqs))
  }

  /** What one turn of the loop comes to: an outcome, or a reason to go round again. */
  datatype TurnEnd = Done(out: Outcome) | LoadFailed | Again(answer: Answer)

  /** The producer after a turn. */
  predicate TurnTaken(q0: Producer, q: Producer, n: nat, end: TurnEnd)
    requires q0.phase.Committing?
  {
    match end
    case Done(out) => Answered(q0, q, n, out)
    case LoadFailed => q == q0
    case Again(answer) => !answer.Clean? && q == q0.(phase := Committing(n, q0.phase.unknown || answer.Unclear?))
  }

  /** What a turn comes to agrees with what happened around it. */
  predicate Observed(end: TurnEnd, turn: Turn) {
    match end
    case LoadFailed => turn.load.None?
    case Done(out) =>
      && turn.load.Some?
      && (out.Rejected? ==>
            match out.why
            case Unencodable => !turn.encodable
            case Unreadable => !turn.readable
            case why => why.FencedOff? || why.PartialGroup?)
    case Again(answer) =>
      && turn.load.Some? && !answer.Clean?
      && (answer.Precondition? || answer.Conflict? ==> turn.answer == answer)
  }

  /** How many turns used up the budget for transient errors, and how many the one for lost races. */
  function Transients(ends: seq<TurnEnd>): nat {
    if ends == [] then 0
    else
      var last := ends[|ends| - 1];
      Transients(ends[..|ends| - 1]) + if last.LoadFailed? || (last.Again? && !last.answer.Precondition?) then 1 else 0
  }

  function Conflicts(ends: seq<TurnEnd>): nat {
    if ends == [] then 0
    else
      var last := ends[|ends| - 1];
      Conflicts(ends[..|ends| - 1]) + if last.Again? && last.answer.Precondition? then 1 else 0
  }

  /** Some put may have landed without a reliable answer. */
  predicate Doubtful(ends: seq<TurnEnd>) { Again(Unclear) in ends }

  /** Turn t began in worlds[t], with what the earlier turns left, and ended as it had to. */
  ghost predicate Took(z: Zstd, w0: World, p: Run, worlds: seq<World>, ends: seq<TurnEnd>, env: nat -> Turn, t: nat)
    requires p in w0.producers && w0.producers[p].phase.Committing? && t < |worlds| == |ends|
  {
    var q0, w := w0.producers[p], worlds[t];
    && Reaches(z, w0, w) && p in w.producers
    && w.producers[p] == q0.(phase := Committing(q0.phase.n, Doubtful(ends[..t])))
    && Right(z, w, p, env(t), ends[t]) && Observed(ends[t], env(t))
  }

  /** Between two turns: the first was not final, and the second begins with the history the first left. */
  predicate Next(z: Zstd, p: Run, worlds: seq<World>, ends: seq<TurnEnd>, env: nat -> Turn, t: nat)
    requires t + 1 < |worlds| == |ends|
  {
    && !ends[t].Done?
    && (ends[t].Again? && env(t).load.Some? ==>
          worlds[t + 1].history == Answering(z, worlds[t], p, env(t)).history)
  }

  /** The turns so far, from w0 on. */
  ghost predicate Turns(z: Zstd, w0: World, p: Run, worlds: seq<World>, ends: seq<TurnEnd>, env: nat -> Turn)
    requires p in w0.producers && w0.producers[p].phase.Committing?
  {
    && |worlds| == |ends| && (worlds != [] ==> worlds[0] == w0)
    && (forall t :: 0 <= t < |ends| ==> Took(z, w0, p, worlds, ends, env, t))
    && forall t :: 0 <= t && t + 1 < |ends| ==> Next(z, p, worlds, ends, env, t)
  }

  /** After turn t the loop goes on: both budgets have something left and the context has not ended in the backoff. */
  predicate GoesOn(ends: seq<TurnEnd>, env: nat -> Turn, maxAttempts: nat, maxConflicts: nat, t: nat)
    requires t < |ends|
  {
    Transients(ends[..t + 1]) < maxAttempts && Conflicts(ends[..t + 1]) < maxConflicts && !env(t).cancelled
  }

  /** The loop stopped after exactly these turns: the answer is that of the last one if that was final, and else says
      which budget or whether the context ended it. */
  predicate Stopped(out: Outcome, ends: seq<TurnEnd>, env: nat -> Turn, maxAttempts: nat, maxConflicts: nat) {
    && ends != [] && (forall t :: 0 <= t < |ends| - 1 ==> GoesOn(ends, env, maxAttempts, maxConflicts, t))
    && var last := ends[|ends| - 1];
    if last.Done? then out == last.out
    else if Transients(ends) >= maxAttempts || Conflicts(ends) >= maxConflicts then out == Rejected(Exhausted)
    else env(|ends| - 1).cancelled && out == Rejected(Cancelled)
  }

  lemma NoPartialGroup(z: Zstd, w0: World, w: World, p: Run, ver: nat)
    requires Reaches(z, w0, w) && Enabled(w, CommitAttempt(p, ver))
    requires Decide(w.producers[p], p, w.producers[p].phase.n, w.producers[p].phase.unknown, ManAt(w, ver)).Partial?
    ensures !Reachable(z, w0)
  {
    hide Reaches, Reachable, Decide;
    if Reachable(z, w0) {
      ReachableFrom(z, w0, w);
      PartialGroupIsUnreachable(z, w, p, ver);
    }
  }

  /** What is decided about a version is what Right asks for. */
  lemma DecisionIsRight(z: Zstd, w0: World, w: World, p: Run, ver: nat)
    requires Reaches(z, w0, w) && Enabled(w, CommitAttempt(p, ver))
    ensures var q, m := w.producers[p], ManAt(w, ver);
            var d := Decide(q, p, q.phase.n, q.phase.unknown, m);
            && (d.Fenced? <==> m.epoch != q.epoch)
            && (m.epoch == q.epoch && (!q.phase.unknown || Absent(m, p, q.done, q.phase.n)) ==> d.Send?)
            && (m.epoch == q.epoch && q.phase.unknown && !Absent(m, p, q.done, q.phase.n) && Reachable(z, w0) ==>
                  d.Harvested? && AllAt(m, p, q.done, q.phase.n, d.seqs))
  {
    hide Reaches, Reachable, Absent, AllAt, Found, CountFound;
    var q, m := w.producers[p], ManAt(w, ver);
    if m.epoch == q.epoch {
      if !q.phase.unknown || Absent(m, p, q.done, q.phase.n) {
        AbsentIsSent(q, p, q.phase.n, q.phase.unknown, m);
      } else if Reachable(z, w0) {
        ReachableFrom(z, w0, w);
        PresentIsHarvested(z, w, p, ver);
      }
    }
  }

  lemma ReplyIs(z: Zstd, w: World, p: Run, turn: Turn)
    requires turn.load.Some?
    ensures var w1 := Ran(z, w, p, turn.before);
            var s := CommitAttempt(p, Clip(turn.load.value, w1));
            Enabled(w1, s) && |w1.sent| < |Ran(z, Apply(z, w1, s), p, turn.during).status| ==>
              && Answering(z, w, p, turn) == Ran(z, Apply(z, w1, s), p, turn.during)
              && Reply(z, w, p, turn) == ReceivedAfter(z, Apply(z, w1, s), p, |w1.sent|, turn.during, turn.answer)
  {
    hide Ran, Enabled, Apply;
  }

  /** One turn: reload, fence, harvest once an outcome was unknown, append and compare-and-swap. */
  method CommitTurn(z: Zstd, w0: World, p: Run, turn: Turn) returns (w: World, end: TurnEnd)
    requires |w0.sent| == |w0.status| && p in w0.producers && w0.producers[p].phase.Committing?
    requires w0.producers[p].done + w0.producers[p].phase.n <= |w0.producers[p].plans|
    ensures Reaches(z, w0, w) && p in w.producers && |w.sent| == |w.status|
    ensures TurnTaken(w0.producers[p], w.producers[p], w0.producers[p].phase.n, end)
    ensures Right(z, w0, p, turn, end) && Observed(end, turn)
    ensures end.Again? ==> turn.load.Some? && w.history == Answering(z, w0, p, turn).history
    ensures end.Done? && end.out.Committed? ==>
              Justified(w, p, w0.producers[p].epoch, w0.producers[p].done, w0.producers[p].phase.n, end.out.seqs)
    ensures end == Done(Rejected(PartialGroup)) ==> !Reachable(z, w0)
  {
    hide Reaches, Reachable, Enabled, Apply, AppendGroup, Found, CountFound, LastSequences, Ran, Decide, Absent, AllAt,
      ReceivedAfter;
    var n, unknown := w0.producers[p].phase.n, w0.producers[p].phase.unknown;
    w := RunOthers(z, w0, p, turn.before);
    if turn.load.None? {
      return w, LoadFailed;
    }
    var ver := Clip(turn.load.value, w);
    CommitEnabled(w, p, ver);
    if unknown && !turn.readable && ManAt(w, ver).epoch == w.producers[p].epoch {
      w := GiveUp(z, w0, w, p);
      return w, Done(Rejected(Unreadable));
    }
    DecisionIsRight(z, w0, w, p, ver);
    var decision := Choose(w.producers[p], p, n, unknown, ManAt(w, ver));
    if decision.Send? && !turn.encodable {
      w := GiveUp(z, w0, w, p);
      return w, Done(Rejected(Unencodable));
    }
    AttemptFacts(z, w, p, ver);
    ReachesStep(z, w0, w, CommitAttempt(p, ver));
    ghost var read := w;
    w := Apply(z, w, CommitAttempt(p, ver));
    if decision.Fenced? {
      return w, Done(Rejected(FencedOff));
    } else if decision.Partial? {
      NoPartialGroup(z, w0, read, p, ver);
      return w, Done(Rejected(PartialGroup));
    } else if decision.Harvested? {
      HarvestFacts(read, w, p, ver, n, unknown, decision.seqs);
      return w, Done(Committed(decision.seqs));
    }
    var id, sent := |w.sent| - 1, w;
    var answer;
    w, answer := AwaitCommit(z, w, p, id, turn.during, turn.answer);
    ReachesTransitive(z, w0, sent, w);
    ReplyIs(z, w0, p, turn);
    if answer.Clean? {
      var seqs := LastSequences(sent.sent[id].man, n);
      assert LandedWith(w, id, p, w0.producers[p].done, n, seqs);
      end := Done(Committed(seqs));
    } else {
      end := Again(answer);
    }
  }

  /** commitEntries: turns until one is final, one of the two budgets is used up, or the context ends in a backoff. */
  method CommitEntries(z: Zstd, w0: World, p: Run, maxAttempts: nat, maxConflicts: nat, env: nat -> Turn)
    returns (w: World, out: Outcome, turns: nat, ghost worlds: seq<World>, ghost ends: seq<TurnEnd>)
    requires |w0.sent| == |w0.status| && p in w0.producers && maxAttempts > 0 && maxConflicts > 0
    requires w0.producers[p].phase.Committing? && !w0.producers[p].phase.unknown
    requires w0.producers[p].done + w0.producers[p].phase.n <= |w0.producers[p].plans|
    ensures Reaches(z, w0, w) && p in w.producers
    ensures Answered(w0.producers[p], w.producers[p], w0.producers[p].phase.n, out)
    ensures 0 < turns <= maxAttempts + maxConflicts - 1 && |ends| == turns
    ensures Turns(z, w0, p, worlds, ends, env) && Stopped(out, ends, env, maxAttempts, maxConflicts)
    ensures out.Committed? ==>
              Justified(w, p, w0.producers[p].epoch, w0.producers[p].done, w0.producers[p].phase.n, out.seqs)
    ensures out == Rejected(PartialGroup) ==> !Reachable(z, w0)
    ensures out == Rejected(FencedOff) ==>
              && |worlds| == turns && env(turns - 1).load.Some?
              && Shown(z, worlds[turns - 1], p, env(turns - 1)).epoch != w0.producers[p].epoch
    ensures Smooth(z, w0, p, env(0)) ==> out.Committed? && turns == 1
    ensures Reachable(z, w0) && AnswerLost(z, w0, p, env(0)) && maxAttempts > 1 ==>
              && |worlds| == turns > 1
              && (Reloads(z, worlds[1], p, env(1)) ==> out.Committed? && turns == 2)
  {
    hide Reaches, Reachable, Smooth, Shown, AnswerLost, Reloads, Turns, Stopped, Justified, Transients, Conflicts;
    w, out, turns, worlds, ends := TurnAfterTurn(z, w0, p, maxAttempts, maxConflicts, env);
    FirstTurnDecides(z, w0, p, worlds, ends, env, maxAttempts, maxConflicts, out);
    LastTurnExplains(z, w0, p, worlds, ends, env, maxAttempts, maxConflicts, out);
  }

  /** The loop itself. */
  method TurnAfterTurn(z: Zstd, w0: World, p: Run, maxAttempts: nat, maxConflicts: nat, env: nat -> Turn)
    returns (w: World, out: Outcome, turns: nat, ghost worlds: seq<World>, ghost ends: seq<TurnEnd>)
    requires |w0.sent| == |w0.status| && p in w0.producers && maxAttempts > 0 && maxConflicts > 0
    requires w0.producers[p].phase.Committing? && !w0.producers[p].phase.unknown
    requires w0.producers[p].done + w0.producers[p].phase.n <= |w0.producers[p].plans|
    ensures Reaches(z, w0, w) && p in w.producers
    ensures Answered(w0.producers[p], w.producers[p], w0.producers[p].phase.n, out)
    ensures 0 < turns <= maxAttempts + maxConflicts - 1 && |ends| == turns
    ensures Turns(z, w0, p, worlds, ends, env) && Stopped(out, ends, env, maxAttempts, maxConflicts)
    ensures out.Committed? ==>
              Justified(w, p, w0.producers[p].epoch, w0.producers[p].done, w0.producers[p].phase.n, out.seqs)
    ensures out == Rejected(PartialGroup) ==> !Reachable(z, w0)
  {
    hide Reaches, Reachable, Smooth, Enabled, Apply, Leads, Observed, Transients, Conflicts, Justified, Right, Answering,
      Turns, Stopped, Doubtful, Running;
    ghost var q0 := w0.producers[p];
    ghost var n := q0.phase.n;
    var transient, conflicts := 0, 0;
    w, turns, worlds, ends := w0, 0, [], [];
    ReachesSelf(z, w0);
    NoTurns(z, w0, p, env, maxAttempts, maxConflicts);
    while transient < maxAttempts && conflicts < maxConflicts
      invariant Reaches(z, w0, w) && p in w.producers && |w.sent| == |w.status|
      invariant w.producers[p] == q0.(phase := Committing(n, Doubtful(ends)))
      invariant turns == transient + conflicts && transient <= maxAttempts && conflicts <= maxConflicts
      invariant transient < maxAttempts || conflicts < maxConflicts
      invariant |worlds| == |ends| == turns && transient == Transients(ends) && conflicts == Conflicts(ends)
      invariant Running(z, w0, p, w, worlds, ends, env, maxAttempts, maxConflicts)
      decreases maxAttempts - transient + maxConflicts - conflicts
    {
      ghost var w1 := w;
      var end;
      w, end := CommitTurn(z, w, p, env(turns));
      ReachesTransitive(z, w0, w1, w);
      ReachableBefore(z, w0, w1);
      OneMoreTurn(z, w0, p, w1, worlds, ends, env, maxAttempts, maxConflicts, end, w);
      turns, worlds, ends := turns + 1, worlds + [w1], ends + [end];
      match end {
        case Done(o) => return w, o, turns, worlds, ends;
        case LoadFailed => transient := transient + 1;
        case Again(answer) =>
          if answer.Precondition? {
            conflicts := conflicts + 1;
          } else {
            transient := transient + 1;
          }
      }
      if transient < maxAttempts && conflicts < maxConflicts && env(turns - 1).cancelled {
        w := GiveUp(z, w0, w, p);
        return w, Rejected(Cancelled), turns, worlds, ends;
      }
    }
    UsedUp(z, w0, p, w, worlds, ends, env, maxAttempts, maxConflicts);
    w := GiveUp(z, w0, w, p);
    out := Rejected(Exhausted);
  }

  /** The loop after some turns, none of them its last, about to begin another in w. */
  ghost predicate Running(z: Zstd, w0: World, p: Run, w: World, worlds: seq<World>, ends: seq<TurnEnd>, env: nat -> Turn,
    maxAttempts: nat, maxConflicts: nat)
    requires p in w0.producers && w0.producers[p].phase.Committing?
  {
    && Turns(z, w0, p, worlds, ends, env)
    && (ends == [] ==> w == w0)
    && (ends != [] ==>
          var t := |ends| - 1;
          && !ends[t].Done?
          && (ends[t].Again? && env(t).load.Some? ==> w.history == Answering(z, worlds[t], p, env(t)).history)
          && (Transients(ends) < maxAttempts && Conflicts(ends) < maxConflicts ==> !env(t).cancelled)
          && forall u :: 0 <= u < t ==> GoesOn(ends, env, maxAttempts, maxConflicts, u))
  }

  /** Why the loop gave up, by its last turn. */
  lemma LastTurnExplains(z: Zstd, w0: World, p: Run, worlds: seq<World>, ends: seq<TurnEnd>, env: nat -> Turn,
    maxAttempts: nat, maxConflicts: nat, out: Outcome)
    requires p in w0.producers && w0.producers[p].phase.Committing?
    requires Turns(z, w0, p, worlds, ends, env) && Stopped(out, ends, env, maxAttempts, maxConflicts)
    ensures |worlds| == |ends| > 0
    ensures var t := |ends| - 1;
            match out
            case Committed(_) => ends[t].Done?
            case Rejected(FencedOff) =>
              env(t).load.Some? && Shown(z, worlds[t], p, env(t)).epoch != w0.producers[p].epoch
            case Rejected(Unencodable) => !env(t).encodable
            case Rejected(Unreadable) => !env(t).readable
            case Rejected(Exhausted) => Transients(ends) >= maxAttempts || Conflicts(ends) >= maxConflicts
            case Rejected(Cancelled) => env(t).cancelled
            case Rejected(PartialGroup) => !Reachable(z, worlds[t])
  {
    hide Reachable, Reaches, Absent, AllAt, Answering, Shown, Reply, Transients, Conflicts;
    assert Took(z, w0, p, worlds, ends, env, |ends| - 1);
  }

  lemma NoTurns(z: Zstd, w0: World, p: Run, env: nat -> Turn, maxAttempts: nat, maxConflicts: nat)
    requires p in w0.producers && w0.producers[p].phase.Committing?
    ensures Transients([]) == 0 && Conflicts([]) == 0 && !Doubtful([])
    ensures Running(z, w0, p, w0, [], [], env, maxAttempts, maxConflicts)
  {
  }

  lemma UsedUp(z: Zstd, w0: World, p: Run, w: World, worlds: seq<World>, ends: seq<TurnEnd>, env: nat -> Turn,
    maxAttempts: nat, maxConflicts: nat)
    requires p in w0.producers && w0.producers[p].phase.Committing?
    requires Running(z, w0, p, w, worlds, ends, env, maxAttempts, maxConflicts) && ends != []
    requires Transients(ends) >= maxAttempts || Conflicts(ends) >= maxConflicts
    ensures Turns(z, w0, p, worlds, ends, env) && Stopped(Rejected(Exhausted), ends, env, maxAttempts, maxConflicts)
  {
    hide Turns, Answering, Transients, Conflicts;
  }

  lemma CountTurn(ends: seq<TurnEnd>, end: TurnEnd)
    ensures Transients(ends + [end]) ==
            Transients(ends) + if end.LoadFailed? || (end.Again? && !end.answer.Precondition?) then 1 else 0
    ensures Conflicts(ends + [end]) == Conflicts(ends) + if end.Again? && end.answer.Precondition? then 1 else 0
    ensures Doubtful(ends + [end]) <==> Doubtful(ends) || end == Again(Unclear)
  {
    assert (ends + [end])[..|ends|] == ends;
  }

  lemma GoesOnStill(ends: seq<TurnEnd>, end: TurnEnd, env: nat -> Turn, maxAttempts: nat, maxConflicts: nat, t: nat)
    requires t < |ends| && GoesOn(ends, env, maxAttempts, maxConflicts, t)
    ensures GoesOn(ends + [end], env, maxAttempts, maxConflicts, t)
  {
    assert (ends + [end])[..t + 1] == ends[..t + 1];
  }

  lemma MoreTurns(z: Zstd, w0: World, p: Run, w: World, worlds: seq<World>, ends: seq<TurnEnd>, env: nat -> Turn,
    end: TurnEnd)
    requires p in w0.producers && w0.producers[p].phase.Committing? && Turns(z, w0, p, worlds, ends, env)
    requires Reaches(z, w0, w) && p in w.producers
    requires w.producers[p] == w0.producers[p].(phase := Committing(w0.producers[p].phase.n, Doubtful(ends)))
    requires Right(z, w, p, env(|ends|), end) && Observed(end, env(|ends|))
    requires ends == [] ==> w == w0
    requires ends != [] ==> Next(z, p, worlds + [w], ends + [end], env, |ends| - 1)
    ensures Turns(z, w0, p, worlds + [w], ends + [end], env)
  {
    hide Reaches, Right, Observed, Answering, Doubtful;
    var ws, es, k := worlds + [w], ends + [end], |ends|;
    forall t | 0 <= t < |es|
      ensures Took(z, w0, p, ws, es, env, t)
    {
      assert es[..t] == ends[..t];
      if t < k {
        assert Took(z, w0, p, worlds, ends, env, t);
      } else {
        assert es[..k] == ends;
      }
    }
    forall t | 0 <= t && t + 1 < |es|
      ensures Next(z, p, ws, es, env, t)
    {
      if t + 1 < k {
        assert Next(z, p, worlds, ends, env, t);
      }
    }
  }

  /** One more turn, which began in w and left w'. */
  lemma OneMoreTurn(z: Zstd, w0: World, p: Run, w: World, worlds: seq<World>, ends: seq<TurnEnd>, env: nat -> Turn,
    maxAttempts: nat, maxConflicts: nat, end: TurnEnd, w': World)
    requires p in w0.producers && w0.producers[p].phase.Committing?
    requires Running(z, w0, p, w, worlds, ends, env, maxAttempts, maxConflicts) && |worlds| == |ends|
    requires Transients(ends) < maxAttempts && Conflicts(ends) < maxConflicts
    requires Reaches(z, w0, w) && p in w.producers
    requires w.producers[p] == w0.producers[p].(phase := Committing(w0.producers[p].phase.n, Doubtful(ends)))
    requires Right(z, w, p, env(|ends|), end) && Observed(end, env(|ends|))
    requires end.Again? ==> env(|ends|).load.Some? && w'.history == Answering(z, w, p, env(|ends|)).history
    ensures var es := ends + [end];
            && Turns(z, w0, p, worlds + [w], es, env)
            && Transients(es) == Transients(ends) + (if end.LoadFailed? || (end.Again? && !end.answer.Precondition?) then 1 else 0)
            && Conflicts(es) == Conflicts(ends) + (if end.Again? && end.answer.Precondition? then 1 else 0)
            && (Doubtful(es) <==> Doubtful(ends) || end == Again(Unclear))
            && (end.Done? ==> Stopped(end.out, es, env, maxAttempts, maxConflicts))
            && var left := Transients(es) < maxAttempts && Conflicts(es) < maxConflicts;
            && (!end.Done? && left && env(|ends|).cancelled ==>
                  Stopped(Rejected(Cancelled), es, env, maxAttempts, maxConflicts))
            && (!end.Done? && !(left && env(|ends|).cancelled) ==>
                  Running(z, w0, p, w', worlds + [w], es, env, maxAttempts, maxConflicts))
  {
    hide Reaches, Right, Observed, Answering, Doubtful, Transients, Conflicts, Turns;
    CountTurn(ends, end);
    MoreTurns(z, w0, p, w, worlds, ends, env, end);
    var es, k := ends + [end], |ends|;
    forall t | 0 <= t < k
      ensures GoesOn(es, env, maxAttempts, maxConflicts, t)
    {
      if t == k - 1 {
        assert ends[..k] == ends;
      }
      GoesOnStill(ends, end, env, maxAttempts, maxConflicts, t);
    }
  }

  // ---------------------------------------------------------------- when the loop succeeds

  /** A first turn in which nothing goes wrong is the only one. */
  lemma SmoothIsEnough(z: Zstd, w0: World, p: Run, worlds: seq<World>, ends: seq<TurnEnd>, env: nat -> Turn,
    maxAttempts: nat, maxConflicts: nat, out: Outcome)
    requires p in w0.producers && w0.producers[p].phase.Committing? && !w0.producers[p].phase.unknown
    requires Turns(z, w0, p, worlds, ends, env) && Stopped(out, ends, env, maxAttempts, maxConflicts)
    requires Smooth(z, w0, p, env(0))
    ensures out.Committed? && |ends| == 1
  {
    hide Reaches, Reply, Shown, Answering, Absent, AllAt, Reachable, Transients, Conflicts, Observed;
    assert Took(z, w0, p, worlds, ends, env, 0);
    assert |ends| > 1 ==> Next(z, p, worlds, ends, env, 0);
  }

  /** A turn loads the current manifest, can read it, and finds the producer's own epoch. */
  predicate Reloads(z: Zstd, w: World, p: Run, turn: Turn) {
    && p in w.producers && turn.load.Some? && turn.readable
    && turn.load.value >= |Ran(z, w, p, turn.before).history|
    && Shown(z, w, p, turn).epoch == w.producers[p].epoch
  }

  /** A commit put that has landed has its group in the current manifest. */
  lemma LandedIsPresent(z: Zstd, w: World, p: Run, id: nat)
    requires Reachable(z, w) && p in w.producers && w.producers[p].phase.Waiting? && w.producers[p].phase.id == id
    requires id < |w.status| && w.status[id].Landed?
    ensures !Absent(Cur(w), p, w.producers[p].done, w.producers[p].phase.n)
  {
    hide Reachable, Own, ManOk, Chain, Objects, Versions, PlansOk, LandedOk, AcksOk, Ordered, PutOk;
    ReachableHolds(z, w);
    assert ProducerOk(w, p);
    assert PutOk(w, id);
    Commits.LandedGroup(w, id);
    var q, man := w.producers[p], w.sent[id].man;
    var n := q.phase.n;
    assert Commits.GroupSlot(man, p, q.done, n, LastSequences(man, n), 0);
    var x := |man.slots| - n;
    assert Cur(w).slots[x] == man.slots[x];
  }

  /** The put of a turn is answered in a reachable state, by which the producer waits for exactly that put. */
  lemma AnsweringFacts(z: Zstd, w: World, p: Run, turn: Turn)
    requires Reachable(z, w) && p in w.producers && w.producers[p].phase.Committing? && turn.load.Some?
    requires Shown(z, w, p, turn).epoch == w.producers[p].epoch
    requires !w.producers[p].phase.unknown || Absent(Shown(z, w, p, turn), p, w.producers[p].done, w.producers[p].phase.n)
    ensures var q, w3, id := w.producers[p], Answering(z, w, p, turn), |Ran(z, w, p, turn.before).sent|;
            && Reachable(z, w3) && p in w3.producers
            && w3.producers[p] == q.(phase := Waiting(q.phase.n, q.phase.unknown, id))
  {
    hide Reachable, Reaches, Ran, Apply, Enabled, Absent, Decide, AppendGroup;
    BalancedAlways(z, w, p);
    RanReaches(z, w, p, turn.before);
    var w1 := Ran(z, w, p, turn.before);
    var ver := Clip(turn.load.value, w1);
    var q := w.producers[p];
    CommitEnabled(w1, p, ver);
    AbsentIsSent(q, p, q.phase.n, q.phase.unknown, ManAt(w1, ver));
    AttemptFacts(z, w1, p, ver);
    ReachesStep(z, w, w1, CommitAttempt(p, ver));
    var w2 := Apply(z, w1, CommitAttempt(p, ver));
    RanReaches(z, w2, p, turn.during);
    ReachesTransitive(z, w, w2, Ran(z, w2, p, turn.during));
    ReachableFrom(z, w, Ran(z, w2, p, turn.during));
  }

  lemma BalancedAlways(z: Zstd, w: World, p: Run)
    requires Reachable(z, w)
    ensures |w.sent| == |w.status|
    ensures p in w.producers ==> w.producers[p].done + Attempted(w.producers[p]) <= |w.producers[p].plans|
  {
    hide Reachable, Chain, ManOk, Objects, Versions, PlansOk, WaitOk, LandedOk, AcksOk;
    ReachableHolds(z, w);
    if p in w.producers {
      assert ProducerOk(w, p);
    }
  }

  lemma ReachesFollows(z: Zstd, w: World, w': World)
    requires Reaches(z, w, w')
    ensures Follows(w, w')
  {
    hide Leads, Follows;
    var steps :| Leads(z, w, steps, w');
    RunFollows(z, w, steps, w');
  }

  lemma SlotsGrow(z: Zstd, w: World, w': World)
    requires Follows(w, w') && Chain(w')
    ensures Cur(w).slots <= Cur(w').slots
  {
    hide Chain;
    ChainMonotone(w', |w.history|, |w'.history|);
  }

  /** What is in the current manifest stays there. */
  lemma PresentStays(z: Zstd, w: World, w': World, p: Run, lo: nat, n: nat)
    requires Reachable(z, w) && Reaches(z, w, w') && !Absent(Cur(w), p, lo, n)
    ensures !Absent(Cur(w'), p, lo, n)
  {
    hide Reachable, Reaches, Chain, Objects, Puts, Producers, Versions, Follows;
    ReachableFrom(z, w, w');
    ReachableHolds(z, w');
    ReachesFollows(z, w, w');
    SlotsGrow(z, w, w');
    var m := Cur(w);
    var x :| 0 <= x < |m.slots| && m.slots[x].loc.run == p && lo <= m.slots[x].loc.ordinal < lo + n;
    assert Cur(w').slots[x] == m.slots[x];
  }

  /** A turn that reloads the current manifest, with the group in it, commits. */
  lemma ReloadCommits(z: Zstd, w: World, p: Run, turn: Turn, end: TurnEnd)
    requires Reachable(z, w) && p in w.producers && w.producers[p].phase.Committing? && w.producers[p].phase.unknown
    requires Right(z, w, p, turn, end) && Reloads(z, w, p, turn)
    requires !Absent(Cur(w), p, w.producers[p].done, w.producers[p].phase.n)
    ensures end.Done? && end.out.Committed?
    ensures AllAt(Shown(z, w, p, turn), p, w.producers[p].done, w.producers[p].phase.n, end.out.seqs)
  {
    hide Reachable, Reaches, Ran, Absent, AllAt, Reply;
    BalancedAlways(z, w, p);
    RanReaches(z, w, p, turn.before);
    PresentStays(z, w, Ran(z, w, p, turn.before), p, w.producers[p].done, w.producers[p].phase.n);
  }

  /** If the put of a turn landed but its answer was lost, and the loop goes on, the next turn that reloads the current
      manifest under the own epoch commits, and is the last. */
  lemma LostAnswerIsRecovered(z: Zstd, w0: World, p: Run, worlds: seq<World>, ends: seq<TurnEnd>, env: nat -> Turn,
    maxAttempts: nat, maxConflicts: nat, out: Outcome, t: nat)
    requires Reachable(z, w0) && p in w0.producers && w0.producers[p].phase.Committing?
    requires Turns(z, w0, p, worlds, ends, env) && Stopped(out, ends, env, maxAttempts, maxConflicts)
    requires t < |ends| && ends[t].Again? && env(t).load.Some? && PutLands(z, worlds[t], p, env(t))
    requires GoesOn(ends, env, maxAttempts, maxConflicts, t)
    ensures t + 1 < |ends|
    ensures Reloads(z, worlds[t + 1], p, env(t + 1)) ==> |ends| == t + 2 && out.Committed?
  {
    hide Reachable, Reaches, Ran, Absent, AllAt, Transients, Conflicts, Observed, Answering, Shown, Reloads;
    assert Took(z, w0, p, worlds, ends, env, t);
    assert ends[..|ends|] == ends;
    assert Took(z, w0, p, worlds, ends, env, t + 1) && Next(z, p, worlds, ends, env, t);
    assert t + 2 < |ends| ==> Next(z, p, worlds, ends, env, t + 1);
    var w, w' := worlds[t], worlds[t + 1];
    ReachableFrom(z, w0, w);
    ReachableFrom(z, w0, w');
    assert ends[..t + 1][t] == Again(Unclear);
    AnsweringFacts(z, w, p, env(t));
    LandedIsPresent(z, Answering(z, w, p, env(t)), p, |Ran(z, w, p, env(t).before).sent|);
    if Reloads(z, w', p, env(t + 1)) {
      ReloadCommits(z, w', p, env(t + 1), ends[t + 1]);
    }
  }

  /** The first put lands but its answer is lost. */
  predicate AnswerLost(z: Zstd, w: World, p: Run, turn: Turn) {
    && p in w.producers && turn.load.Some? && turn.encodable && Shown(z, w, p, turn).epoch == w.producers[p].epoch
    && PutLands(z, w, p, turn) && !turn.answer.Clean? && !turn.cancelled
  }

  /** The two ways in which the first turn decides the rest. */
  lemma FirstTurnDecides(z: Zstd, w0: World, p: Run, worlds: seq<World>, ends: seq<TurnEnd>, env: nat -> Turn,
    maxAttempts: nat, maxConflicts: nat, out: Outcome)
    requires p in w0.producers && w0.producers[p].phase.Committing? && !w0.producers[p].phase.unknown
    requires Turns(z, w0, p, worlds, ends, env) && Stopped(out, ends, env, maxAttempts, maxConflicts)
    ensures Smooth(z, w0, p, env(0)) ==> out.Committed? && |ends| == 1
    ensures Reachable(z, w0) && AnswerLost(z, w0, p, env(0)) && maxAttempts > 1 && maxConflicts > 0 ==>
              && |worlds| == |ends| > 1
              && (Reloads(z, worlds[1], p, env(1)) ==> out.Committed? && |ends| == 2)
  {
    hide Reachable, Reaches, Ran, Absent, AllAt, Observed, Answering, Shown, Reloads, PutLands, Smooth;
    if Smooth(z, w0, p, env(0)) {
      SmoothIsEnough(z, w0, p, worlds, ends, env, maxAttempts, maxConflicts, out);
    }
    if Reachable(z, w0) && AnswerLost(z, w0, p, env(0)) && maxAttempts > 1 && maxConflicts > 0 {
      assert Took(z, w0, p, worlds, ends, env, 0);
      assert ends[0] == Again(Unclear);
      CountTurn([], ends[0]);
      assert ends[..1] == [] + [ends[0]];
      LostAnswerIsRecovered(z, w0, p, worlds, ends, env, maxAttempts, maxConflicts, out, 0);
    }
  }

  lemma ReachableBefore(z: Zstd, w0: World, w: World)
    requires Reaches(z, w0, w)
    ensures Reachable(z, w0) ==> Reachable(z, w)
  {
    hide Reaches, Reachable;
    if Reachable(z, w0) {
      ReachableFrom(z, w0, w);
    }
  }

  lemma HarvestFacts(w: World, w': World, p: Run, ver: nat, n: nat, unknown: bool, seqs: seq<nat>)
    requires p in w.producers && ver <= |w.history| && w'.history == w.history
    requires Decide(w.producers[p], p, n, unknown, ManAt(w, ver)) == Harvested(seqs)
    ensures HarvestedFrom(w', ver, p, w.producers[p].epoch, w.producers[p].done, n, seqs)
  {
    hide Found, CountFound;
    var f := Found(ManAt(w, ver), p, w.producers[p].done, n);
    AllFound(f);
  }

  lemma {:induction false} AllFound(f: seq<Option<nat>>)
    ensures CountFound(f) <= |f|
    ensures CountFound(f) == |f| ==> forall i :: 0 <= i < |f| ==> f[i].Some?
  {
    if f != [] {
      AllFound(f[1..]);
      if CountFound(f) == |f| {
        forall i | 0 <= i < |f|
          ensures f[i].Some?
        {
          if i > 0 {
            assert f[i] == f[1..][i - 1];
          }
        }
      }
    }
  }

  /** The error is returned and the producer halts. */
  method GiveUp(z: Zstd, ghost w0: World, w: World, p: Run) returns (w': World)
    requires Reaches(z, w0, w) && p in w.producers
    ensures Reaches(z, w0, w') && p in w'.producers
    ensures w'.producers[p] == w.producers[p].(phase := Halted(Attempted(w.producers[p])))
    ensures w'.sent == w.sent && w'.status == w.status
  {
    hide Reaches, Enabled, Apply;
    HaltFacts(z, w, p);
    ReachesStep(z, w0, w, Halt(p));
    w' := Apply(z, w, Halt(p));
  }

  lemma CommitEnabled(w: World, p: Run, ver: nat)
    requires p in w.producers && w.producers[p].phase.Committing? && ver <= |w.history|
    requires w.producers[p].done + w.producers[p].phase.n <= |w.producers[p].plans|
    ensures Enabled(w, CommitAttempt(p, ver))
  {
  }

  lemma HaltFacts(z: Zstd, w: World, p: Run)
    requires p in w.producers
    ensures Enabled(w, Halt(p))
    ensures Apply(z, w, Halt(p)) == Set(w, p, w.producers[p].(phase := Halted(Attempted(w.producers[p]))))
  {
  }

  /** An acknowledged segment is in the current manifest under the sequence it was acknowledged with. */
  lemma AcknowledgedAt(z: Zstd, w: World, p: Run, k: nat)
    requires Reachable(z, w) && p in w.producers && k < w.producers[p].done
    ensures k < |w.producers[p].acks| && InLogAt(Cur(w), Location(p, k), w.producers[p].acks[k])
  {
    hide Reachable, Chain, Objects, Puts, Versions, Own, Ordered, Tiled, OwnSlots, PlansOk, WaitOk;
    ReachableHolds(z, w);
    assert ProducerOk(w, p);
    OwnSlotsOrdered(Cur(w).slots, p, k);
    var x :| 0 <= x < |Cur(w).slots| && Cur(w).slots[x] == OwnSlots(Cur(w).slots, p)[k];
  }

  /** What commitEntries answers is right: sequences it returns are where the whole group is in the manifest, and when
      it fails the manifest holds the whole group or nothing of it. */
  lemma AnswerIsRight(z: Zstd, w0: World, w: World, p: Run, n: nat, out: Outcome)
    requires Reachable(z, w0) && Reaches(z, w0, w) && p in w0.producers && p in w.producers
    requires w0.producers[p].phase == Committing(n, false) && Answered(w0.producers[p], w.producers[p], n, out)
    ensures Reachable(z, w)
    ensures out.Committed? ==>
              forall i :: 0 <= i < n ==> InLogAt(Cur(w), Location(p, w0.producers[p].done + i), out.seqs[i])
    ensures out.Rejected? ==> Own(Cur(w).slots, p) in {w0.producers[p].done, w0.producers[p].done + n}
  {
    hide Reachable, Reaches, InLogAt, Own, OwnSlots, Carries, JoinBatches;
    ReachableFrom(z, w0, w);
    LandedIsPrefix(z, w, p);
    if out.Committed? {
      AcksCounted(z, w0, p);
      forall i | 0 <= i < n
        ensures InLogAt(Cur(w), Location(p, w0.producers[p].done + i), out.seqs[i])
      {
        AcknowledgedAt(z, w, p, w0.producers[p].done + i);
      }
    }
  }

  lemma AcksCounted(z: Zstd, w: World, p: Run)
    requires Reachable(z, w) && p in w.producers
    ensures |w.producers[p].acks| == w.producers[p].done
  {
    hide Reachable, Chain, ManOk, Objects, Puts, Versions, PlansOk, WaitOk, LandedOk, AcksOk;
    ReachableHolds(z, w);
    assert ProducerOk(w, p);
  }

  // ---------------------------------------------------------------- claim

  /** The answer to the claim put of an attempt that sends one. */
  function ClaimReply(z: Zstd, w: World, p: Run, turn: Turn): Answer
    requires turn.load.Some?
  {
    var w1 := Ran(z, w, p, turn.before);
    var s := ClaimAttempt(p, Clip(turn.load.value, w1));
    if !Enabled(w1, s) then Unclear
    else
      var id, w3 := |w1.sent|, Ran(z, Apply(z, w1, s), p, turn.during);
      if turn.answer.Clean? == (id < |w3.status| && w3.status[id].Landed?) then turn.answer else Unclear
  }

  /** The attempt loads a manifest, and its put lands and is answered. */
  predicate Claims(z: Zstd, w: World, p: Run, turn: Turn) {
    turn.load.Some? && ClaimReply(z, w, p, turn).Clean?
  }

  /** The context ends in the backoff that every failure but a lost race is followed by. */
  predicate Abandons(z: Zstd, w: World, p: Run, turn: Turn) {
    turn.cancelled && !(turn.load.Some? && ClaimReply(z, w, p, turn).Precondition?)
  }

  /** An attempt that began in w failed and was not the last one. */
  ghost predicate Failed(z: Zstd, w0: World, p: Run, w: World, turn: Turn)
    requires p in w0.producers
  {
    && Reaches(z, w0, w) && p in w.producers && w.producers[p] == w0.producers[p]
    && !Claims(z, w, p, turn) && !Abandons(z, w, p, turn)
  }

  /** claim: reload, raise the epoch, compare-and-swap; every failure is another attempt. The attempts before the last one
      failed. The last one claims the epoch after the one it loaded, or is followed by the end of the context, or is the
      last that is allowed. */
  method ClaimEpoch(z: Zstd, w0: World, p: Run, maxAttempts: nat, env: nat -> Turn)
    returns (w: World, claimed: Option<nat>, attempt: nat, ghost worlds: seq<World>)
    requires |w0.sent| == |w0.status| && p in w0.producers && w0.producers[p].phase.Unclaimed?
    ensures Reaches(z, w0, w) && p in w.producers && attempt <= maxAttempts
    ensures match claimed
            case Some(epoch) => epoch > 0 && w.producers[p] == w0.producers[p].(epoch := epoch, phase := Ready)
            case None => w.producers[p] == w0.producers[p].(phase := Halted(0))
    ensures |worlds| == attempt && (attempt > 0 ==> worlds[0] == w0)
    ensures forall t :: 0 <= t < attempt - 1 ==> Failed(z, w0, p, worlds[t], env(t))
    ensures match claimed
            case Some(epoch) =>
              && attempt > 0 && Reaches(z, w0, worlds[attempt - 1]) && Claims(z, worlds[attempt - 1], p, env(attempt - 1))
              && epoch == Shown(z, worlds[attempt - 1], p, env(attempt - 1)).epoch + 1
            case None =>
              && (attempt > 0 ==> !Claims(z, worlds[attempt - 1], p, env(attempt - 1)))
              && (attempt < maxAttempts ==> attempt > 0 && Abandons(z, worlds[attempt - 1], p, env(attempt - 1)))
  {
    hide Reaches, Enabled, Apply, Ran, ClaimReply, ReceivedAfter;
    w, claimed, attempt, worlds := w0, None, 0, [];
    ReachesSelf(z, w0);
    while attempt < maxAttempts
      invariant Reaches(z, w0, w) && p in w.producers && |w.sent| == |w.status| && attempt <= maxAttempts
      invariant w.producers[p] == w0.producers[p] && |worlds| == attempt
      invariant if attempt == 0 then w == w0 else worlds[0] == w0
      invariant forall t :: 0 <= t < attempt ==> Failed(z, w0, p, worlds[t], env(t))
    {
      ghost var w1 := w;
      worlds := worlds + [w];
      var turn := env(attempt);
      attempt := attempt + 1;
      w := RunOthers(z, w, p, turn.before);
      ReachesTransitive(z, w0, w1, w);
      var answer := Precondition;
      if turn.load.None? {
        answer := Unclear;
      } else {
        var ver := Clip(turn.load.value, w);
        ClaimFacts(z, w, p, ver);
        ReachesStep(z, w0, w, ClaimAttempt(p, ver));
        w := Apply(z, w, ClaimAttempt(p, ver));
        var id, w2 := |w.sent| - 1, w;
        w, answer := AwaitClaim(z, w, p, id, turn.during, turn.answer);
        ClaimReplyIs(z, w1, p, turn);
        assert answer == ClaimReply(z, w1, p, turn);
        ReachesTransitive(z, w0, w2, w);
        if answer.Clean? {
          return w, Some(w2.sent[id].man.epoch), attempt, worlds;
        }
      }
      assert !Claims(z, w1, p, turn);
      if !answer.Precondition? && turn.cancelled {
        assert Abandons(z, w1, p, turn);
        break;
      }
      assert Failed(z, w0, p, w1, turn);
    }
    w := GiveUp(z, w0, w, p);
  }

  lemma ClaimReplyIs(z: Zstd, w: World, p: Run, turn: Turn)
    requires turn.load.Some?
    ensures var w1 := Ran(z, w, p, turn.before);
            var s := ClaimAttempt(p, Clip(turn.load.value, w1));
            Enabled(w1, s) && |w1.sent| < |Ran(z, Apply(z, w1, s), p, turn.during).status| ==>
              ClaimReply(z, w, p, turn) == ReceivedAfter(z, Apply(z, w1, s), p, |w1.sent|, turn.during, turn.answer)
  {
    hide Ran, Enabled, Apply;
  }

  lemma ClaimFacts(z: Zstd, w: World, p: Run, ver: nat)
    requires p in w.producers && w.producers[p].phase.Unclaimed? && ver <= |w.history| && |w.sent| == |w.status|
    ensures Enabled(w, ClaimAttempt(p, ver))
    ensures var w' := Apply(z, w, ClaimAttempt(p, ver));
            && p in w'.producers && w'.producers[p] == w.producers[p].(phase := Claiming(|w.sent|))
            && |w'.sent| == |w'.status| == |w.sent| + 1
            && w'.sent[|w.sent|].kind == Claim && w'.sent[|w.sent|].man.epoch == ManAt(w, ver).epoch + 1
  {
  }

  /** Waits for the answer to claim put id while others act, and takes it. */
  method AwaitClaim(z: Zstd, w0: World, p: Run, id: nat, during: seq<Step>, offered: Answer)
    returns (w: World, answer: Answer)
    requires p in w0.producers && id < |w0.sent| == |w0.status|
    requires w0.producers[p].phase == Claiming(id) && w0.sent[id].kind == Claim
    ensures Reaches(z, w0, w) && p in w.producers && |w.sent| == |w.status|
    ensures answer == ReceivedAfter(z, w0, p, id, during, offered) && id < |Ran(z, w0, p, during).status|
    ensures w.producers[p] ==
              if answer.Clean? then w0.producers[p].(epoch := w0.sent[id].man.epoch, phase := Ready)
              else w0.producers[p].(phase := Unclaimed)
  {
    hide Reaches, Enabled, Apply;
    w := RunOthers(z, w0, p, during);
    SentPrefix(w0, w, id);
    ClaimAnswerFacts(z, w, p, id);
    answer := Received(w, id, offered);
    var s := if answer.Clean? then AnswerOk(p) else if answer.Unclear? then AnswerUnknown(p) else AnswerRefused(p);
    ReachesStep(z, w0, w, s);
    w := Apply(z, w, s);
  }

  lemma ClaimAnswerFacts(z: Zstd, w: World, p: Run, id: nat)
    requires p in w.producers && id < |w.sent| == |w.status|
    requires w.producers[p].phase == Claiming(id) && w.sent[id].kind == Claim
    ensures w.status[id].Landed? ==>
              && Enabled(w, AnswerOk(p)) && Balanced(Apply(z, w, AnswerOk(p)))
              && Apply(z, w, AnswerOk(p)).producers ==
                   w.producers[p := w.producers[p].(epoch := w.sent[id].man.epoch, phase := Ready)]
    ensures !w.status[id].Landed? ==>
              && Enabled(w, AnswerRefused(p)) && Balanced(Apply(z, w, AnswerRefused(p)))
              && Apply(z, w, AnswerRefused(p)).producers == w.producers[p := w.producers[p].(phase := Unclaimed)]
    ensures Enabled(w, AnswerUnknown(p)) && Balanced(Apply(z, w, AnswerUnknown(p)))
    ensures Apply(z, w, AnswerUnknown(p)).producers == w.producers[p := w.producers[p].(phase := Unclaimed)]
  {
  }

  /** A claim that succeeded holds an epoch no other producer has, and some version of the register records it. */
  lemma ClaimIsExclusive(z: Zstd, w0: World, w: World, p: Run, epoch: nat, r: Run)
    requires Reachable(z, w0) && Reaches(z, w0, w) && p in w.producers && w.producers[p].epoch == epoch > 0
    ensures exists v: nat :: IsClaim(w, v, p, epoch)
    ensures r != p && r in w.producers ==> w.producers[r].epoch != epoch
  {
    hide Reachable, Reaches, Chain, ManOk, Objects, Puts, Versions, PlansOk, WaitOk, LandedOk, AcksOk;
    ReachableFrom(z, w0, w);
    ReachableHolds(z, w);
    assert ProducerOk(w, p);
    if r != p && r in w.producers {
      ClaimsAreExclusive(z, w, p, r);
    }
  }
}
