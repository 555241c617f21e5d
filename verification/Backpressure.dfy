/** Blocking and waking of Append: a one-slot token passed between the flush goroutine and any number of callers,
    stepped at the granularity of lock sections and channel operations. */
module Backpressure {

  /** A call of Append: about to take the lock, waiting in the select, or admitted with room left and about to pass
      the token on. */
  datatype Caller = Checking(size: nat) | Waiting(size: nat) | Signalling

  datatype State = State(
    callers: map<nat, Caller>,
    inFlight: seq<nat>,      // sizes of the Appends admitted and not resolved, oldest first
    token: bool,             // the released channel holds its one element
    signal: bool,            // the flush goroutine has found room and is about to send
    busy: bool,              // a flush is under way
    halted: bool,
    closing: bool,
    stopped: bool)           // the run loop has ended

  datatype Budget = Budget(maxBytes: nat, maxBatches: nat)

  const INITIAL := State(map[], [], false, false, false, false, false, false)

  function Sum(sizes: seq<nat>): nat {
    if sizes == [] then 0 else sizes[0] + Sum(sizes[1..])
  }

  predicate Fits(l: Budget, inFlight: seq<nat>, size: nat) {
    inFlight == [] || (Sum(inFlight) + size <= l.maxBytes && |inFlight| + 1 <= l.maxBatches)
  }

  predicate HasRoom(l: Budget, inFlight: seq<nat>) {
    inFlight == [] || (Sum(inFlight) < l.maxBytes && |inFlight| < l.maxBatches)
  }

  // ---------------------------------------------------------------- steps

  datatype Step =
    | Arrive(c: nat, size: nat)
    | Check(c: nat)            // the lock section of Append
    | PassOn(c: nat)           // an admitted caller sends the token
    | Wake(c: nat)             // a waiting caller receives it
    | Cancel(c: nat)           // its context ends
    | Leave(c: nat)            // it sees that the run loop has ended
    | FlushBegins
    | Release(n: nat)          // the lock section of release
    | Send                     // and its send
    | FlushEnds
    | Tick                     // a flush of a halted producer: it fails whatever is in flight
    | Halt
    | Close
    | Stop

  predicate Enabled(s: State, step: Step) {
    match step
    case Arrive(c, _) => c !in s.callers
    case Check(c) => c in s.callers && s.callers[c].Checking?
    case PassOn(c) => c in s.callers && s.callers[c].Signalling?
    case Wake(c) => c in s.callers && s.callers[c].Waiting? && s.token
    case Cancel(c) => c in s.callers && s.callers[c].Waiting?
    case Leave(c) => c in s.callers && s.callers[c].Waiting? && s.stopped
    case FlushBegins => !s.busy && !s.signal && !s.halted
    case Release(n) => s.busy && !s.signal && n <= |s.inFlight|
    case Send => s.signal
    case FlushEnds => s.busy && !s.signal
    case Tick => !s.busy && !s.signal && s.halted && !s.stopped
    case Halt => true
    case Close => true
    case Stop => s.closing && !s.busy && !s.signal
  }

  function Freed(l: Budget, s: State, rest: seq<nat>): State { s.(inFlight := rest, signal := HasRoom(l, rest)) }

  function Apply(l: Budget, s: State, step: Step): State
    requires Enabled(s, step)
  {
    match step
    case Arrive(c, size) => s.(callers := s.callers[c := Checking(size)])
    case Check(c) =>
      var size := s.callers[c].size;
      if s.halted || s.closing then s.(callers := s.callers - {c})
      else if Fits(l, s.inFlight, size) then
        var after := s.inFlight + [size];
        if HasRoom(l, after) then s.(inFlight := after, callers := s.callers[c := Signalling])
        else s.(inFlight := after, callers := s.callers - {c})
      else s.(callers := s.callers[c := Waiting(size)])
    case PassOn(c) => s.(token := true, callers := s.callers - {c})
    case Wake(c) => s.(token := false, callers := s.callers[c := Checking(s.callers[c].size)])
    case Cancel(c) => s.(callers := s.callers - {c})
    case Leave(c) => s.(callers := s.callers - {c})
    case FlushBegins => s.(busy := true)
    case Release(n) => Freed(l, s, s.inFlight[n..])
    case Send => s.(token := true, signal := false)
    case FlushEnds => s.(busy := false)
    case Tick => Freed(l, s, [])
    case Halt => s.(halted := true)
    case Close => s.(closing := true)
    case Stop => s.(stopped := true)
  }

  ghost predicate Leads(l: Budget, s: State, steps: seq<Step>, s': State)
    decreases |steps|
  {
    if steps == [] then s' == s
    else Enabled(s, steps[0]) && Leads(l, Apply(l, s, steps[0]), steps[1..], s')
  }

  ghost predicate Reachable(l: Budget, s: State) {
    exists steps :: Leads(l, INITIAL, steps, s)
  }

  lemma ReachableStep(l: Budget, s: State, step: Step)
    requires Reachable(l, s) && Enabled(s, step)
    ensures Reachable(l, Apply(l, s, step))
  {
    hide Enabled, Apply;
    var steps :| Leads(l, INITIAL, steps, s);
    var s' := Apply(l, s, step);
    assert Leads(l, s, [step], s') by {
      assert [step][1..] == [];
    }
    LeadsConcat(l, INITIAL, steps, s, [step], s');
  }

  // ---------------------------------------------------------------- no wake-up is lost

  predicate SomeWaiting(s: State) {
    exists c :: c in s.callers && s.callers[c].Waiting?
  }

  predicate SomeActive(s: State) {
    exists c :: c in s.callers && !s.callers[c].Waiting?
  }

  /** If a caller waits while nothing is in flight, a wake-up is in the slot or on its way. */
  predicate Awake(s: State) {
    !s.halted && !s.closing && s.inFlight == [] && SomeWaiting(s) ==> s.token || s.signal || SomeActive(s)
  }

  lemma StepKeepsAwake(l: Budget, s: State, step: Step)
    requires Awake(s) && Enabled(s, step)
    ensures Awake(Apply(l, s, step))
  {
    var s' := Apply(l, s, step);
    if !s'.halted && !s'.closing && s'.inFlight == [] && SomeWaiting(s') {
      match step {
        case Arrive(c, _) => assert c in s'.callers && !s'.callers[c].Waiting?;
        case Wake(c) => assert c in s'.callers && !s'.callers[c].Waiting?;
        case Cancel(c) => StillWaiting(s, s', c);
        case Leave(c) => StillWaiting(s, s', c);
        case _ =>
      }
    }
  }

  /** One caller leaving the select does not take another's wake-up with it. */
  lemma StillWaiting(s: State, s': State, c: nat)
    requires c in s.callers && s.callers[c].Waiting? && s' == s.(callers := s.callers - {c})
    requires SomeWaiting(s') && Awake(s)
    ensures Awake(s')
  {
    var d :| d in s'.callers && s'.callers[d].Waiting?;
    assert d in s.callers && s.callers[d].Waiting?;
    if SomeActive(s) {
      var e :| e in s.callers && !s.callers[e].Waiting?;
      assert e in s'.callers && !s'.callers[e].Waiting?;
    }
  }

  lemma {:induction false} RunKeepsAwake(l: Budget, s: State, steps: seq<Step>, s': State)
    requires Awake(s) && Leads(l, s, steps, s')
    ensures Awake(s')
    decreases |steps|
  {
    hide Enabled, Apply, Awake;
    if steps != [] {
      StepKeepsAwake(l, s, steps[0]);
      RunKeepsAwake(l, Apply(l, s, steps[0]), steps[1..], s');
    }
  }

  /** In no reachable state of an open, unhalted producer is a caller left waiting with nothing in flight and no
      wake-up on its way. */
  lemma WakeUpIsNeverLost(l: Budget, s: State)
    requires Reachable(l, s) && !s.halted && !s.closing && s.inFlight == [] && SomeWaiting(s)
    ensures s.token || s.signal || SomeActive(s)
  {
    var steps :| Leads(l, INITIAL, steps, s);
    RunKeepsAwake(l, INITIAL, steps, s);
  }

  // ---------------------------------------------------------------- draining after a halt

  function WaitingSet(s: State): set<nat> { set c | c in s.callers && s.callers[c].Waiting? }

  /** How many sends of a run found the slot empty. */
  function Issued(l: Budget, s: State, steps: seq<Step>): nat
    decreases |steps|
  {
    if steps == [] || !Enabled(s, steps[0]) then 0
    else
      (if (steps[0].Send? || steps[0].PassOn?) && !s.token then 1 else 0) +
      Issued(l, Apply(l, s, steps[0]), steps[1..])
  }

  function Slot(s: State): nat { if s.token then 1 else 0 }

  /** One step of a halted producer: a caller stops waiting for every token taken, and nobody starts waiting. */
  lemma HaltedStep(l: Budget, s: State, step: Step)
    requires s.halted && Enabled(s, step)
    ensures var s' := Apply(l, s, step);
            && s'.halted
            && |WaitingSet(s')| + (if (step.Send? || step.PassOn?) && !s.token then 1 else 0) + Slot(s) <=
                 |WaitingSet(s)| + Slot(s')
  {
    hide WaitingSet, HasRoom, Fits;
    HaltedWaiting(l, s, step);
  }

  /** On a halted producer callers only ever stop waiting. */
  lemma HaltedWaiting(l: Budget, s: State, step: Step)
    requires s.halted && Enabled(s, step)
    ensures var w, w' := WaitingSet(s), WaitingSet(Apply(l, s, step));
            if step.Wake? || step.Cancel? || step.Leave? then step.c in w && w' == w - {step.c} else w' == w
  {
    hide HasRoom, Fits;
    var s' := Apply(l, s, step);
    forall c: nat
      ensures c in WaitingSet(s') <==>
                c in WaitingSet(s) && !((step.Wake? || step.Cancel? || step.Leave?) && c == step.c)
    {
      assert step.Check? && c != step.c && c in s.callers ==> c in s'.callers && s'.callers[c] == s.callers[c];
    }
  }

  /** After a halt every token issued lets one caller out, whatever else happens: n callers are gone once n tokens
      have been issued and taken. */
  lemma {:induction false} HaltedRunDrains(l: Budget, s: State, steps: seq<Step>, s': State)
    requires s.halted && Leads(l, s, steps, s')
    ensures s'.halted && |WaitingSet(s')| + Issued(l, s, steps) + Slot(s) <= |WaitingSet(s)| + Slot(s')
    decreases |steps|
  {
    hide Enabled, Apply, WaitingSet;
    if steps != [] {
      HaltedStep(l, s, steps[0]);
      HaltedRunDrains(l, Apply(l, s, steps[0]), steps[1..], s');
    }
  }

  /** A wake-up is in the slot or about to be sent by the flush goroutine. */
  function Rest(s: State): nat { if s.token || s.signal then 1 else 0 }

  /** How many ticks of a run found the slot empty. */
  function EmptyTicks(l: Budget, s: State, steps: seq<Step>): nat
    decreases |steps|
  {
    if steps == [] || !Enabled(s, steps[0]) then 0
    else (if steps[0].Tick? && !s.token then 1 else 0) + EmptyTicks(l, Apply(l, s, steps[0]), steps[1..])
  }

  /** One step of a halted producer: a tick that finds the slot empty puts a wake-up on its way, and a wake-up is used
      up only by a caller that stops waiting. */
  lemma HaltedTick(l: Budget, s: State, step: Step)
    requires s.halted && Enabled(s, step)
    ensures var s' := Apply(l, s, step);
            && s'.halted
            && |WaitingSet(s')| + (if step.Tick? && !s.token then 1 else 0) + Rest(s) <= |WaitingSet(s)| + Rest(s')
  {
    hide WaitingSet, Fits;
    HaltedWaiting(l, s, step);
  }

  /** Over every run of a halted producer, each tick that finds the slot empty lets one waiting caller out, but for a
      wake-up that is still on its way: n waiting callers are gone after n such ticks once that wake-up is taken. */
  lemma {:induction false} TicksDrainEveryRun(l: Budget, s: State, steps: seq<Step>, s': State)
    requires s.halted && Leads(l, s, steps, s')
    ensures s'.halted && |WaitingSet(s')| + EmptyTicks(l, s, steps) + Rest(s) <= |WaitingSet(s)| + Rest(s')
    decreases |steps|
  {
    hide Enabled, Apply, WaitingSet, Rest;
    if steps != [] {
      HaltedTick(l, s, steps[0]);
      TicksDrainEveryRun(l, Apply(l, s, steps[0]), steps[1..], s');
    }
  }

  /** Every tick of the run finds the slot empty. */
  predicate TicksFindEmpty(l: Budget, s: State, steps: seq<Step>)
    decreases |steps|
  {
    steps == [] || (Enabled(s, steps[0]) && (steps[0].Tick? ==> !s.token) &&
                    TicksFindEmpty(l, Apply(l, s, steps[0]), steps[1..]))
  }

  lemma {:induction false} AllTicksCount(l: Budget, s: State, steps: seq<Step>)
    requires TicksFindEmpty(l, s, steps)
    ensures EmptyTicks(l, s, steps) == TicksIn(steps)
    decreases |steps|
  {
    hide Enabled, Apply;
    if steps != [] {
      AllTicksCount(l, Apply(l, s, steps[0]), steps[1..]);
    }
  }

  /** Whatever the schedule, n waiting Appends are gone after n ticks, if each tick finds the previous token taken and
      the last one is taken too. */
  lemma DrainedAfterTicks(l: Budget, s: State, steps: seq<Step>, s': State)
    requires s.halted && Leads(l, s, steps, s') && TicksFindEmpty(l, s, steps) && TicksIn(steps) >= |WaitingSet(s)|
    ensures !s'.token && !s'.signal ==> WaitingSet(s') == {}
  {
    hide Leads, TicksFindEmpty, WaitingSet, EmptyTicks, TicksIn;
    TicksDrainEveryRun(l, s, steps, s');
    AllTicksCount(l, s, steps);
  }

  function Round(c: nat): seq<Step> { [Tick, Send, Wake(c), Check(c)] }

  /** One flush tick of a halted producer re-issues the token, and one waiting caller goes. */
  lemma TickFreesOne(l: Budget, s: State, c: nat)
    requires s.halted && !s.busy && !s.signal && !s.stopped && c in WaitingSet(s)
    ensures var s' := s.(inFlight := [], token := false, callers := s.callers - {c});
            Leads(l, s, Round(c), s') && WaitingSet(s') == WaitingSet(s) - {c}
  {
    var s1 := Apply(l, s, Tick);
    var s2 := Apply(l, s1, Send);
    var s3 := Apply(l, s2, Wake(c));
    var s4 := Apply(l, s3, Check(c));
    assert s4 == s.(inFlight := [], token := false, callers := s.callers - {c}) by {
      assert s.callers[c := Checking(s.callers[c].size)] - {c} == s.callers - {c};
    }
    assert Leads(l, s3, [Check(c)], s4) by {
      assert [Check(c)][1..] == [];
    }
    assert Leads(l, s2, [Wake(c), Check(c)], s4) by {
      assert [Wake(c), Check(c)][1..] == [Check(c)];
    }
    assert Leads(l, s1, [Send, Wake(c), Check(c)], s4) by {
      assert [Send, Wake(c), Check(c)][1..] == [Wake(c), Check(c)];
    }
    assert Round(c)[1..] == [Send, Wake(c), Check(c)];
  }

  function TicksIn(steps: seq<Step>): nat {
    if steps == [] then 0 else (if steps[0].Tick? then 1 else 0) + TicksIn(steps[1..])
  }

  lemma {:induction false} LeadsConcat(l: Budget, a: State, s: seq<Step>, b: State, t: seq<Step>, c: State)
    requires Leads(l, a, s, b) && Leads(l, b, t, c)
    ensures Leads(l, a, s + t, c) && TicksIn(s + t) == TicksIn(s) + TicksIn(t)
    decreases |s|
  {
    hide Enabled, Apply;
    if s == [] {
      assert s + t == t;
    } else {
      assert (s + t)[0] == s[0] && (s + t)[1..] == s[1..] + t;
      LeadsConcat(l, Apply(l, a, s[0]), s[1..], b, t, c);
    }
  }

  /** Such runs exist: n waiting callers of a halted producer can be let out by n ticks. */
  lemma {:induction false} TicksDrain(l: Budget, s: State) returns (steps: seq<Step>, s': State)
    requires s.halted && !s.busy && !s.signal && !s.stopped
    ensures Leads(l, s, steps, s') && WaitingSet(s') == {} && TicksIn(steps) == |WaitingSet(s)|
    decreases |WaitingSet(s)|
  {
    hide Enabled, Apply;
    if WaitingSet(s) == {} {
      steps, s' := [], s;
    } else {
      var c :| c in WaitingSet(s);
      TickFreesOne(l, s, c);
      var mid := s.(inFlight := [], token := false, callers := s.callers - {c});
      var rest;
      rest, s' := TicksDrain(l, mid);
      steps := Round(c) + rest;
      assert TicksIn(Round(c)) == 1 by {
        RoundTicks(c);
      }
      LeadsConcat(l, s, Round(c), mid, rest, s');
    }
  }

  lemma RoundTicks(c: nat)
    ensures TicksIn(Round(c)) == 1
  {
    assert Round(c)[1..] == [Send, Wake(c), Check(c)];
    assert [Send, Wake(c), Check(c)][1..] == [Wake(c), Check(c)];
    assert [Wake(c), Check(c)][1..] == [Check(c)];
    assert [Check(c)][1..] == [];
    assert TicksIn([Check(c)]) == 0;
    assert TicksIn([Wake(c), Check(c)]) == 0;
    assert TicksIn([Send, Wake(c), Check(c)]) == 0;
  }
}
