/** The producer object: admission, flushing, resolution and closing. Every method is a run of the protocol, and the
    object's counters and outcomes are kept exact throughout. */
module Primaries {
  import opened Accounting
  import opened Bytes
  import opened CommitLoop
  import opened Invariant
  import opened Landing
  import opened Packing
  import opened Protocol
  import opened Provenance
  import opened Segment

  /** Why a flush did not commit everything. */
  datatype Cause = Fine | WasHalted | UploadFailed(index: nat) | CommitFailed(why: Why)

  datatype Reply = Admitted(id: nat) | Blocked | Stopped | NoRecords

  /** One try at storing a segment: it succeeds, or fails with or without having landed. */
  datatype Try = Stored | Lost(landed: bool, cancelled: bool)

  /** The places where a flush lets go of the lock: around each upload, each manifest write, and each resolution. */
  datatype Site = Storing | Writing | Resolving | Failing

  /** What happens around a flush: the clock, the fate of each upload try (segment, try), the turns of the commit loop
      of each group, and what callers of Append and other producers do at each place the lock is free. */
  datatype Surroundings = Surroundings(
    nowMs: int,
    upload: (nat, nat) -> Try,
    commit: nat -> (nat -> Turn),
    arrivals: (Site, nat) -> seq<Item>,
    others: (Site, nat) -> seq<Step>)

  class Primary {
    const z: Zstd
    const p: Run
    const limits: Limits

    var world: World                     // the system this producer takes its steps in
    var pending: seq<Pending>
    var pendByte: int
    var inFlightBytes: int
    var inFlightCount: int
    var ordinal: nat
    var halted: bool
    var closing: bool
    var released: bool                   // the one-slot channel that wakes blocked Appends
    var flushNow: bool                   // the one-slot channel that asks for a flush
    var outcomes: map<nat, Resolution>   // Durabilities that are resolved
    ghost var taken: nat                 // Appends that have left the queue
    ghost var resolved: nat              // Appends that are resolved

    ghost function View(): Ledger
      reads this
    {
      Ledger(pending, pendByte, inFlightBytes, inFlightCount, ordinal, halted, closing, outcomes, taken, resolved)
    }

    ghost predicate Valid()
      reads this
    {
      Sound(z, p, limits, world, View())
    }

    /** No flush is running. */
    ghost predicate AtRest()
      reads this
    {
      Resting(z, p, limits, world, View())
    }

    // -------------------------------------------------------------- admission

    /** A producer whose claim has just succeeded. */
    constructor (z: Zstd, p: Run, limits: Limits, world: World)
      requires Usable(limits) && Reachable(z, world) && |world.sent| == |world.status| && p in world.producers
      requires world.producers[p].phase.Ready? && world.producers[p].epoch > 0
      requires world.producers[p].admitted == [] && world.producers[p].plans == [] && world.producers[p].taken == 0
      requires world.producers[p].done == 0
      ensures AtRest() && View() == Ledger([], 0, 0, 0, 0, false, false, map[], 0, 0)
      ensures this.z == z && this.p == p && this.limits == limits && this.world == world
    {
      this.z, this.p, this.limits, this.world := z, p, limits, world;
      pending, pendByte, inFlightBytes, inFlightCount, ordinal := [], 0, 0, 0, 0;
      halted, closing, released, flushNow, outcomes := false, false, false, false, map[];
      taken, resolved := 0, 0;
    }

    /** Admission proper: queue the Append and take its budget. */
    method Enlist(item: Item) returns (id: nat)
      requires Valid() && !halted && item.records != [] && Fits(limits, View(), Size(item.records))
      modifies this
      ensures Valid()
      ensures id == |old(world).producers[p].admitted| && world == Joined(old(world), p, item)
      ensures View() == Enqueue(old(View()), id, item) && Reaches(z, old(world), world)
      ensures released == old(released) && flushNow == old(flushNow)
    {
      hide Sound, Size, Fits, Enabled, Apply, Joined, Reaches;
      SoundHas(z, p, limits, world, View());
      EnlistFacts(z, p, limits, world, View(), item);
      var b := Size(item.records);
      id := |world.producers[p].admitted|;
      world, pending := Apply(z, world, Admit(p, item)), pending + [Pending(id, item)];
      pendByte, inFlightBytes, inFlightCount := pendByte + b, inFlightBytes + b, inFlightCount + 1;
    }

    /** With nothing in flight a wake-up is in the slot. */
    predicate Woken()
      reads this
    {
      inFlightCount == 0 ==> released
    }

    predicate RoomLeft()
      reads this
    {
      inFlightCount == 0 || (inFlightBytes < limits.maxBytes && inFlightCount < limits.maxBatches)
    }

    /** The bytes of an Append. */
    method Measure(records: seq<bytes>) returns (b: nat)
      ensures b == Size(records)
    {
      b := 0;
      for i := 0 to |records|
        invariant b + Size(records[i..]) == Size(records)
      {
        assert records[i..][1..] == records[i + 1..];
        b := b + |records[i]|;
      }
      assert records[|records|..] == [];
    }

    /** One pass of the Append loop under the lock. */
    method TryAppend(item: Item) returns (reply: Reply)
      requires Valid()
      modifies this
      ensures Valid()
      ensures old(Woken()) ==> Woken()
      ensures reply.NoRecords? <==> item.records == []
      ensures reply.Stopped? <==> item.records != [] && (old(halted) || old(closing))
      ensures reply.Admitted? <==>
                item.records != [] && !old(halted) && !old(closing) && Fits(limits, old(View()), Size(item.records))
      ensures Reaches(z, old(world), world)
      ensures reply.Admitted? ==>
                && reply.id == |old(world).producers[p].admitted| && world == Joined(old(world), p, item)
                && View() == Enqueue(old(View()), reply.id, item)
                && released == (old(released) || inFlightCount == 0 ||
                                (inFlightBytes < limits.maxBytes && inFlightCount < limits.maxBatches))
                && flushNow == (old(flushNow) || 0 < limits.flushBytes <= pendByte)
      ensures !reply.Admitted? ==>
                world == old(world) && View() == old(View()) && released == old(released) && flushNow == old(flushNow)
    {
      hide Sound, Size, Joined, Reaches;
      ReachesSelf(z, world);
      if item.records == [] {
        return NoRecords;
      }
      if halted || closing {
        return Stopped;
      }
      var b := Measure(item.records);
      if inFlightCount == 0 || (inFlightBytes + b <= limits.maxBytes && inFlightCount + 1 <= limits.maxBatches) {
        var id := Enlist(item);
        reply := Admitted(id);
        flushNow := flushNow || (limits.flushBytes > 0 && pendByte >= limits.flushBytes);
        released := released || RoomLeft();
      } else {
        reply := Blocked;
      }
    }

    // -------------------------------------------------------------- resolution

    /** Durability.resolve closes a channel, so a second call would panic. */
    method Resolve(id: nat, out: Resolution)
      requires id !in outcomes
      modifies this`outcomes
      ensures outcomes == old(outcomes)[id := out]
    {
      outcomes := outcomes[id := out];
    }

    /** Returns budget and wakes a blocked Append if that leaves room. */
    method Release(b: nat, c: nat)
      modifies this`inFlightBytes, this`inFlightCount, this`released
      ensures inFlightBytes == old(inFlightBytes) - b && inFlightCount == old(inFlightCount) - c
      ensures released == (old(released) || inFlightCount == 0 ||
                           (inFlightBytes < limits.maxBytes && inFlightCount < limits.maxBatches))
    {
      inFlightBytes, inFlightCount := inFlightBytes - b, inFlightCount - c;
      released := released || RoomLeft();
    }

    /** Resolves the Appends of a committed segment, the first of which is Append first. */
    method ResolvePlan(plan: Plan, base: nat, first: nat)
      requires |plan.metas| == |plan.items| && first == resolved
      requires forall id :: first <= id < first + |plan.items| ==> id !in outcomes
      modifies this`outcomes, this`inFlightBytes, this`inFlightCount, this`released, this`resolved
      ensures View() == Settle(old(View()), Positions(base, plan.metas), Weight(plan.items))
      ensures released == (old(released) || inFlightCount == 0 ||
                           (inFlightBytes < limits.maxBytes && inFlightCount < limits.maxBatches))
    {
      hide Positions, Extended, Weight, Size;
      var b := 0;
      NothingResolved(outcomes, first, base);
      assert plan.items[..0] == [] && plan.metas[..0] == [];
      for k := 0 to |plan.items|
        invariant b == Weight(plan.items[..k])
        invariant outcomes == Extended(old(outcomes), first, Positions(base, plan.metas[..k]))
        invariant resolved == old(resolved) && inFlightBytes == old(inFlightBytes)
        invariant inFlightCount == old(inFlightCount) && released == old(released)
      {
        ResolvedNext(old(outcomes), first, base, plan, k);
        Resolve(first + k, At(base + plan.metas[k].startIndex));
        b := b + Size(plan.items[k].records);
      }
      assert plan.items[..|plan.items|] == plan.items && plan.metas[..|plan.items|] == plan.metas;
      resolved := resolved + |plan.items|;
      Release(b, |plan.items|);
    }

    /** Resolves Appends as failed, the first of which is Append first. */
    method FailItems(items: seq<Item>, first: nat)
      requires first == resolved
      requires forall id :: first <= id < first + |items| ==> id !in outcomes
      modifies this`outcomes, this`inFlightBytes, this`inFlightCount, this`released, this`resolved
      ensures View() == Settle(old(View()), Failures(|items|), Weight(items))
      ensures released == (old(released) || inFlightCount == 0 ||
                           (inFlightBytes < limits.maxBytes && inFlightCount < limits.maxBatches))
    {
      hide Failures, Extended, Weight, Size;
      var b := 0;
      NothingResolved(outcomes, first, 0);
      assert items[..0] == [];
      for k := 0 to |items|
        invariant b == Weight(items[..k])
        invariant outcomes == Extended(old(outcomes), first, Failures(k))
        invariant resolved == old(resolved) && inFlightBytes == old(inFlightBytes)
        invariant inFlightCount == old(inFlightCount) && released == old(released)
      {
        FailedNext(old(outcomes), first, items, k);
        Resolve(first + k, Failed);
        b := b + Size(items[k].records);
      }
      assert items[..|items|] == items;
      resolved := resolved + |items|;
      Release(b, |items|);
    }

    // -------------------------------------------------------------- between critical sections

    /** Callers of Append get the lock, one after another. */
    method Admissions(arrivals: seq<Item>)
      requires Valid()
      modifies this
      ensures Valid() && Onward(z, old(world), old(View()), world, View(), p)
      ensures old(Woken()) ==> Woken()
      ensures Joins(old(world).producers[p], world.producers[p]) && outcomes == old(outcomes) && resolved == old(resolved)
      ensures world.history == old(world).history && Came(limits, p, old(world), old(View()), world, View(), arrivals)
    {
      hide Sound, Reaches, Came, Size, Fits, Enqueue, Joined, Onward;
      SoundHas(z, p, limits, world, View());
      OnwardSelf(z, world, View(), p);
      CameNone(limits, p, world, View());
      for i := 0 to |arrivals|
        invariant Valid() && Onward(z, old(world), old(View()), world, View(), p)
        invariant old(Woken()) ==> Woken()
        invariant p in world.producers && Joins(old(world).producers[p], world.producers[p]) && outcomes == old(outcomes)
        invariant resolved == old(resolved) && world.history == old(world).history
        invariant Came(limits, p, old(world), old(View()), world, View(), arrivals[..i])
      {
        ghost var w, l := world, View();
        assert arrivals[..i + 1] == arrivals[..i] + [arrivals[i]];
        var reply := TryAppend(arrivals[i]);
        CameNext(limits, p, old(world), old(View()), w, l, arrivals[..i], arrivals[i]);
        if reply.Admitted? {
          OnwardAdmits(z, p, old(world), old(View()), w, l, arrivals[i], reply.id);
          JoinedIs(p, w, l, arrivals[i], reply.id);
        }
      }
      assert arrivals[..|arrivals|] == arrivals;
    }

    /** Other producers and the store act, and callers of Append get the lock. */
    method Interfere(arrivals: seq<Item>, others: seq<Step>)
      requires Valid()
      modifies this
      ensures Valid() && Onward(z, old(world), old(View()), world, View(), p)
      ensures old(Woken()) ==> Woken()
      ensures Joins(old(world).producers[p], world.producers[p]) && outcomes == old(outcomes) && resolved == old(resolved)
      ensures Interfered(z, limits, p, old(world), old(View()), world, View(), arrivals, others)
    {
      hide Sound, Reaches, Queued, Size, Came, Ran;
      SoundHas(z, p, limits, world, View());
      var w := RunOthers(z, world, p, others);
      SoundMoves(z, p, limits, world, w, View());
      world := w;
      Admissions(arrivals);
      ReachesTransitive(z, old(world), w, world);
      CameAfter(limits, p, old(world), w, old(View()), world, View(), arrivals);
    }

    /** The producer takes a protocol step that leaves its accounts alone. */
    method Take(s: Step)
      requires Valid() && !halted && p in world.producers && Enabled(world, s) && Quiet(z, world, s, p)
      modifies this`world
      ensures Valid() && world == Apply(z, old(world), s) && Reaches(z, old(world), world)
    {
      hide Sound, Enabled, Apply, Reaches;
      ReachesSelf(z, world);
      ReachesStep(z, world, world, s);
      SoundMoves(z, p, limits, world, Apply(z, world, s), View());
      world := Apply(z, world, s);
    }

    // -------------------------------------------------------------- uploads

    /** Encodes segment k and stores it, trying again up to the attempt budget. */
    method UploadSegment(k: nat, fate: nat -> Try) returns (ok: bool)
      requires Valid() && !halted && p in world.producers && k < |world.producers[p].plans|
      modifies this`world
      ensures Valid() && world.producers == old(world).producers && old(world).objects.Keys <= world.objects.Keys
      ensures Reaches(z, old(world), world)
      ensures ok ==> Location(p, k) in world.objects
      ensures ok == (RecordsFit(Flat(old(world).producers[p].plans[k].items)) && Uploads(fate, 0, limits.uploadAttempts))
    {
      hide Sound, Enabled, Apply, Flat, RecordsFit, Reaches;
      ReachesSelf(z, world);
      if !RecordsFit(Flat(world.producers[p].plans[k].items)) {
        return false;
      }
      for attempt := 0 to limits.uploadAttempts
        invariant Valid() && world.producers == old(world).producers
        invariant old(world).objects.Keys <= world.objects.Keys && Reaches(z, old(world), world)
        invariant Uploads(fate, 0, limits.uploadAttempts) == Uploads(fate, attempt, limits.uploadAttempts)
      {
        var try := fate(attempt);
        if try.Stored? || try.landed {
          SoundHas(z, p, limits, world, View());
          UploadFacts(z, world, p, k);
          ghost var before := world;
          Take(UploadLands(p, k));
          ReachesTransitive(z, old(world), before, world);
        }
        if try.Stored? {
          return true;
        }
        if try.cancelled {
          return false;
        }
      }
      ok := false;
    }

    /** Uploads the n planned segments from ordinal base on. Uploads of different segments do not touch each other. */
    method UploadAll(base: nat, n: nat, env: Surroundings) returns (results: seq<bool>)
      requires Valid() && !halted && p in world.producers && base + n <= |world.producers[p].plans|
      modifies this
      ensures Valid() && Onward(z, old(world), old(View()), world, View(), p)
      ensures old(Woken()) ==> Woken()
      ensures Joins(old(world).producers[p], world.producers[p]) && resolved == old(resolved)
      ensures |results| == n && forall i :: 0 <= i < n && results[i] ==> StoredAt(world, p, base + i)
      ensures forall i :: 0 <= i < n ==>
                results[i] == Storable(world.producers[p], base + i, Fate(env, i), limits.uploadAttempts)
    {
      hide Interfered, Sound, Flat, RecordsFit, Uploads, Reaches;
      results := [];
      OnwardSelf(z, world, View(), p);
      for i := 0 to n
        invariant Valid() && Onward(z, old(world), old(View()), world, View(), p) && !halted
        invariant old(Woken()) ==> Woken()
        invariant Joins(old(world).producers[p], world.producers[p]) && resolved == old(resolved)
        invariant |results| == i && forall j :: 0 <= j < i && results[j] ==> StoredAt(world, p, base + j)
        invariant forall j :: 0 <= j < i ==>
                    results[j] == Storable(world.producers[p], base + j, Fate(env, j), limits.uploadAttempts)
      {
        ghost var w, l := world, View();
        Interfere(env.arrivals(Storing, i), env.others(Storing, i));
        ghost var w1 := world;
        var ok := UploadSegment(base + i, Fate(env, i));
        ReachesTransitive(z, w, w1, world);
        OnwardTransitive(z, old(world), old(View()), w, l, world, View(), p);
        results := results + [ok];
      }
    }

    // -------------------------------------------------------------- commits

    /** plans[i] is what was planned for ordinal base + i. */
    ghost predicate Planned(plans: seq<Plan>, base: nat)
      reads this
    {
      && p in world.producers && base + |plans| <= |world.producers[p].plans|
      && forall i :: 0 <= i < |plans| ==> PlannedAt(world.producers[p], plans, base, i)
    }

    /** Every Append before segment k is resolved, and no other. */
    ghost predicate ResolvedUpTo(k: nat)
      reads this
    {
      p in world.producers && k <= |world.producers[p].plans| && resolved == ItemsBefore(world.producers[p].plans, k)
    }

    /** Resolves segments lo to hi, which one commit acknowledged with seqs. */
    method ResolveGroup(plans: seq<Plan>, base: nat, lo: nat, hi: nat, seqs: seq<nat>, first: nat, env: Surroundings)
      returns (next: nat)
      requires Valid() && !halted && Planned(plans, base) && lo <= hi <= |plans| && |seqs| == hi - lo
      requires ResolvedUpTo(base + lo) && first == resolved && world.producers[p].done == base + hi
      requires |world.producers[p].acks| == base + hi && world.producers[p].acks[base + lo..] == seqs
      modifies this
      ensures Valid() && Onward(z, old(world), old(View()), world, View(), p)
      ensures old(Woken()) ==> Woken()
      ensures Joins(old(world).producers[p], world.producers[p])
      ensures ResolvedUpTo(base + hi) && next == resolved
    {
      hide Interfered, Sound, ItemsBefore, Positions, Metas, Weight, Extended, Flat, Onward, Keeps;
      OnwardSelf(z, world, View(), p);
      next := first;
      for i := lo to hi
        invariant Valid() && Onward(z, old(world), old(View()), world, View(), p)
        invariant old(Woken()) ==> Woken()
        invariant p in world.producers && Joins(old(world).producers[p], world.producers[p])
        invariant ResolvedUpTo(base + i) && next == resolved
      {
        ghost var w, l := world, View();
        Interfere(env.arrivals(Resolving, i), env.others(Resolving, i));
        ghost var l1 := View();
        OnwardPlans(z, w, l, world, l1, p);
        assert PlannedAt(old(world).producers[p], plans, base, i);
        SettleFacts(z, p, limits, world, View(), base + i, Positions(seqs[i - lo], plans[i].metas));
        ResolvePlan(plans[i], seqs[i - lo], next);
        OnwardSettles(z, w, l, world, l1, View(), p);
        OnwardTransitive(z, old(world), old(View()), w, l, world, View(), p);
        next := next + |plans[i].items|;
      }
    }

    /** Runs the commit loop for the next n segments. */
    method WriteManifest(n: nat, arrivals: seq<Item>, others: seq<Step>, turns: nat -> Turn)
      returns (out: Outcome, ghost begun: World)
      requires Valid() && !halted && p in world.producers && world.producers[p].phase.Flushing? && n > 0
      requires world.producers[p].done + n <= world.producers[p].limit && world.producers[p].limit <= |world.producers[p].plans|
      requires ResolvedUpTo(world.producers[p].done)
      modifies this
      ensures Valid() && Onward(z, old(world), old(View()), world, View(), p) && resolved == old(resolved)
      ensures old(Woken()) ==> Woken()
      ensures |old(world).producers[p].acks| == old(world).producers[p].done
      ensures var q, q' := old(world).producers[p], world.producers[p];
              match out
              case Committed(seqs) =>
                |seqs| == n && Joins(q.(done := q.done + n, acks := q.acks + seqs), q')
              case Rejected(why) => Joins(q.(phase := Phase.Halted(n)), q') && GaveUp(z, begun, p, why, limits, turns)
      ensures Between(z, old(world), begun, world) && Begins(begun, p, old(world).producers[p].done, n)
    {
      hide Interfered, Sound, ItemsBefore, Reaches, Reachable, Enabled, Apply, Smooth, Turns, CommitLoop.Stopped, Ran, Queued, Keeps;
      SoundHas(z, p, limits, world, View());
      BeginFacts(z, world, p, n);
      Take(BeginGroup(p, n));
      ghost var stepped := world;
      Interfere(arrivals, others);
      SoundHas(z, p, limits, world, View());
      ReachesTransitive(z, old(world), stepped, world);
      begun := world;
      var w, o, _, worlds, ends := CommitEntries(z, world, p, limits.manifestAttempts, limits.commitConflicts, turns);
      out := o;
      SoundReachable(z, p, limits, world, View());
      CommittedFacts(z, p, limits, world, w, View(), n, out);
      OnwardTransitive(z, old(world), old(View()), world, View(), w, View(), p);
      world := w;
    }

    /** Commits segments lo to hi in one manifest write and resolves them. */
    method CommitGroup(plans: seq<Plan>, base: nat, lo: nat, hi: nat, first: nat, env: Surroundings)
      returns (ok: bool, next: nat, why: Why, ghost begun: World)
      requires Valid() && !halted && Planned(plans, base) && lo < hi <= |plans|
      requires world.producers[p].phase.Flushing? && world.producers[p].done == base + lo
      requires base + hi <= world.producers[p].limit <= |world.producers[p].plans|
      requires ResolvedUpTo(base + lo) && first == resolved
      modifies this
      ensures Valid() && Onward(z, old(world), old(View()), world, View(), p)
      ensures old(Woken()) ==> Woken()
      ensures world.producers[p].limit == old(world).producers[p].limit
      ensures ResolvedUpTo(world.producers[p].done) && next == resolved
      ensures ok ==> world.producers[p].phase.Flushing? && world.producers[p].done == base + hi
      ensures !ok ==>
                && world.producers[p].phase.Halted? && world.producers[p].done == base + lo
                && GaveUp(z, begun, p, why, limits, env.commit(lo))
      ensures Between(z, old(world), begun, world) && Begins(begun, p, base + lo, hi - lo)
    {
      hide Sound, ItemsBefore, PlannedAt, Onward, GaveUp, Between;
      var out;
      out, begun := WriteManifest(hi - lo, env.arrivals(Writing, lo), env.others(Writing, lo), env.commit(lo));
      ghost var w, l := world, View();
      OnwardPlans(z, old(world), old(View()), w, l, p);
      match out {
        case Rejected(reason) => ok, next, why := false, first, reason;
        case Committed(seqs) =>
          PlannedStill(old(world).producers[p], world.producers[p], plans, base);
          next := ResolveGroup(plans, base, lo, hi, seqs, first, env);
          OnwardTransitive(z, old(world), old(View()), w, l, world, View(), p);
          OnwardPlans(z, w, l, world, View(), p);
          ok, why := true, Exhausted;
          ReachesSelf(z, old(world));
          BetweenWider(z, old(world), old(world), begun, w, world);
      }
    }

    /** Commits the first n planned segments in order, up to groupMax per manifest write, and stops at the first
        failure. */
    method CommitInOrder(plans: seq<Plan>, base: nat, n: nat, first: nat, env: Surroundings)
      returns (committed: nat, ok: bool, next: nat, why: Why, ghost begun: World, ghost groups: nat)
      requires Valid() && !halted && Planned(plans, base) && n <= |plans|
      requires world.producers[p].phase.Flushing? && world.producers[p].done == base
      requires base + n <= world.producers[p].limit <= |world.producers[p].plans|
      requires ResolvedUpTo(base) && first == resolved
      modifies this
      ensures Valid() && Onward(z, old(world), old(View()), world, View(), p)
      ensures old(Woken()) ==> Woken()
      ensures committed <= n && world.producers[p].done == base + committed
      ensures ResolvedUpTo(base + committed) && next == resolved
      ensures if ok then world.producers[p].phase.Flushing? && committed == n
              else world.producers[p].phase.Halted? && GaveUp(z, begun, p, why, limits, env.commit(committed))
      ensures !ok ==> committed < n && Begins(begun, p, base + committed, GroupSize(limits, n, committed))
      ensures InGroups(limits, n, groups, committed)
      ensures Between(z, old(world), begun, world)
    {
      hide Sound, ItemsBefore, PlannedAt, Onward, GaveUp, Between, InGroups, Begins;
      assert InGroups(limits, n, 0, 0) by {
        NoGroups(limits, n);
      }
      OnwardSelf(z, world, View(), p);
      var i := 0;
      ok, next, why, begun, groups := true, first, Exhausted, world, 0;
      BetweenSelf(z, world);
      while i < n
        invariant InGroups(limits, n, groups, i)
        invariant i <= n && ok && Valid() && !halted && Onward(z, old(world), old(View()), world, View(), p)
        invariant old(Woken()) ==> Woken()
        invariant Planned(plans, base) && world.producers[p].phase.Flushing? && world.producers[p].done == base + i
        invariant base + n <= world.producers[p].limit <= |world.producers[p].plans|
        invariant ResolvedUpTo(base + i) && next == resolved && Between(z, old(world), begun, world)
      {
        var end := if limits.groupMax > 0 && i + limits.groupMax < n then i + limits.groupMax else n;
        NextGroup(limits, n, groups, i, end);
        ghost var w, l := world, View();
        ok, next, why, begun := CommitGroup(plans, base, i, end, next, env);
        OnwardPlans(z, old(world), old(View()), w, l, p);
        ReachesSelf(z, world);
        BetweenWider(z, old(world), w, begun, world, world);
        OnwardTransitive(z, old(world), old(View()), w, l, world, View(), p);
        if !ok {
          return i, false, next, why, begun, groups;
        }
        OnwardPlans(z, w, l, world, View(), p);
        PlannedStill(w.producers[p], world.producers[p], plans, base);
        i, groups := end, groups + 1;
      }
      committed := n;
    }

    /** Fails the Appends of every planned segment from index lo on. */
    method FailRest(plans: seq<Plan>, base: nat, lo: nat, first: nat, env: Surroundings)
      requires Valid() && halted && Planned(plans, base) && lo <= |plans|
      requires world.producers[p].done <= base + lo && ResolvedUpTo(base + lo) && first == resolved
      modifies this
      ensures Valid() && Onward(z, old(world), old(View()), world, View(), p)
      ensures old(Woken()) ==> Woken()
      ensures Joins(old(world).producers[p], world.producers[p]) && ResolvedUpTo(base + |plans|)
    {
      hide Interfered, Sound, ItemsBefore, Failures, Metas, Weight, Extended, Flat, Onward, Keeps;
      OnwardSelf(z, world, View(), p);
      var next := first;
      for i := lo to |plans|
        invariant Valid() && Onward(z, old(world), old(View()), world, View(), p)
        invariant old(Woken()) ==> Woken()
        invariant p in world.producers && Joins(old(world).producers[p], world.producers[p])
        invariant ResolvedUpTo(base + i) && next == resolved
      {
        ghost var w, l := world, View();
        Interfere(env.arrivals(Failing, i), env.others(Failing, i));
        ghost var l1 := View();
        OnwardPlans(z, w, l, world, l1, p);
        assert PlannedAt(old(world).producers[p], plans, base, i);
        SettleFacts(z, p, limits, world, View(), base + i, Failures(|plans[i].items|));
        FailItems(plans[i].items, next);
        OnwardSettles(z, w, l, world, l1, View(), p);
        OnwardTransitive(z, old(world), old(View()), w, l, world, View(), p);
        next := next + |plans[i].items|;
      }
    }

    // -------------------------------------------------------------- flush and close

    /** Fails everything in the queue of a halted producer. */
    method FailQueue()
      requires AtRest() && halted
      modifies this
      ensures AtRest() && halted && world == old(world) && closing == old(closing) && ordinal == old(ordinal)
      ensures resolved == |world.producers[p].admitted| && Keeps(old(outcomes), outcomes)
      ensures released == (old(released) || inFlightCount == 0 ||
                           (inFlightBytes < limits.maxBytes && inFlightCount < limits.maxBatches))
    {
      hide Sound, Weight, Failures, Extended;
      SoundHas(z, p, limits, world, View());
      var items := ItemsOf(pending);
      var first := if pending == [] then |world.producers[p].admitted| else pending[0].id;
      FailQueueFacts(z, p, limits, world, View(), items);
      pending, pendByte, taken := [], 0, taken + |pending|;
      FailItems(items, first);
    }

    /** Takes the queue, plans its segments and reserves their ordinals. */
    method Begin(nowMs: int) returns (plans: seq<Plan>, base: nat, first: nat)
      requires AtRest() && !halted && pending != []
      modifies this
      ensures Valid() && !halted && closing == old(closing) && outcomes == old(outcomes) && Woken()
      ensures Planned(plans, base) && base + |plans| == |world.producers[p].plans|
      ensures world.producers[p].phase.Uploading? && world.producers[p].done == base
      ensures ResolvedUpTo(base) && first == resolved
      ensures old(world).producers[p].plans <= world.producers[p].plans && world.objects == old(world).objects
      ensures base == |old(world).producers[p].plans| && Reaches(z, old(world), world)
      ensures world.producers[p].admitted == old(world).producers[p].admitted
      ensures world.producers[p].taken == |old(world).producers[p].admitted|
    {
      hide Sound, Enabled, Apply, ItemsBefore, IsPacking, Flat, Weight, Metas, Reaches;
      SoundHas(z, p, limits, world, View());
      ReachesSelf(z, world);
      var items := ItemsOf(pending);
      first, base := pending[0].id, ordinal;
      ghost var found;
      plans, found := PlanSegments(limits.segmentMax, items, nowMs);
      var groups := GroupsOf(plans);
      assert groups == found;
      QueueItems(world.producers[p].admitted, taken, pending);
      SoundStart(z, p, limits, world, View(), groups, nowMs);
      PlannedNow(world.producers[p].plans, groups, nowMs, plans);
      ReachesStep(z, world, world, StartFlush(p, limits.segmentMax, groups, nowMs));
      world := Apply(z, world, StartFlush(p, limits.segmentMax, groups, nowMs));
      pending, pendByte, ordinal, taken := [], 0, ordinal + |plans|, taken + |pending|;
    }

    /** One flush: drain the queue into segments, upload them, commit the prefix before the first failed upload in
        order, and fail everything after it. */
    method Flush(env: Surroundings) returns (cause: Cause, ghost begun: World)
      requires AtRest()
      modifies this
      ensures AtRest() && closing == old(closing) && (cause.Fine? <==> !halted) && (cause.WasHalted? <==> old(halted))
      ensures cause.UploadFailed? ==>
                var k := |old(world).producers[p].plans| + cause.index;
                && k < |world.producers[p].plans| && world.producers[p].done == k
                && !Storable(world.producers[p], k, Fate(env, cause.index), limits.uploadAttempts)
      ensures cause.CommitFailed? ==>
                var base := |old(world).producers[p].plans|;
                && base <= world.producers[p].done
                && GaveUp(z, begun, p, cause.why, limits, env.commit(world.producers[p].done - base))
                && InGroup(limits, begun, p, |world.producers[p].plans| - base, world.producers[p].done - base, base)
      ensures Between(z, old(world), begun, world)
      ensures !halted ==> Succeeded(outcomes, |old(world).producers[p].admitted|)
      ensures Progress(z, old(world), world, p, closing)
      ensures |old(world).producers[p].admitted| <= resolved && Keeps(old(outcomes), outcomes)
      ensures (old(halted) || old(pending) != []) && inFlightCount == 0 ==> released
      ensures old(Woken()) ==> Woken()
    {
      hide Sound, ItemsBefore, PlannedAt, Queued, Onward, Enabled, Apply, Uploads, RecordsFit, Flat, GaveUp, Reaches,
        Between;
      SoundHas(z, p, limits, world, View());
      ReachesSelf(z, world);
      if halted {
        FailQueue();
        BetweenSelf(z, world);
        return WasHalted, world;
      }
      if pending == [] {
        NothingQueued(world.producers[p].admitted, taken);
        RestingSucceeds(z, p, limits, world, View(), |world.producers[p].admitted|);
        BetweenSelf(z, world);
        return Fine, world;
      }
      var plans, base, first := Begin(env.nowMs);
      SoundHas(z, p, limits, world, View());
      ghost var w1, l1 := world, View();
      cause, begun := Work(plans, base, first, env);
      OnwardPlans(z, w1, l1, world, View().(halted := false), p);
      ReachesSelf(z, world);
      BetweenWider(z, old(world), w1, begun, world, world);
      if !halted {
        RestingSucceeds(z, p, limits, world, View(), |old(world).producers[p].admitted|);
      }
      FlushProgress(z, old(world), w1, l1, world, View(), p);
    }

    /** Uploads, commits and resolves the planned segments. */
    method Work(plans: seq<Plan>, base: nat, first: nat, env: Surroundings) returns (cause: Cause, ghost begun: World)
      requires Valid() && !halted && Planned(plans, base) && base + |plans| == |world.producers[p].plans|
      requires world.producers[p].phase.Uploading? && world.producers[p].done == base && ResolvedUpTo(base)
      requires first == resolved
      modifies this
      ensures AtRest() && closing == old(closing) && resolved == old(taken) && !cause.WasHalted?
      ensures (cause.Fine? <==> !halted) && (old(Woken()) ==> Woken())
      ensures Onward(z, old(world), old(View()), world, View().(halted := false), p)
      ensures cause.UploadFailed? ==>
                var k := base + cause.index;
                && k < |world.producers[p].plans| && world.producers[p].done == k
                && !Storable(world.producers[p], k, Fate(env, cause.index), limits.uploadAttempts)
      ensures cause.CommitFailed? ==>
                && base <= world.producers[p].done
                && GaveUp(z, begun, p, cause.why, limits, env.commit(world.producers[p].done - base))
                && InGroup(limits, begun, p, |world.producers[p].plans| - base, world.producers[p].done - base, base)
      ensures Between(z, old(world), begun, world)
    {
      hide Sound, ItemsBefore, PlannedAt, Queued, Onward, Enabled, Apply, Uploads, RecordsFit, Flat, GaveUp, Reaches,
        Between;
      ghost var w1, l1 := world, View();
      var firstFail := Upload(plans, base, env);
      ghost var w2, l2 := world, View();
      OnwardPlans(z, w1, l1, w2, l2, p);
      var committed, done, next, why;
      ghost var groups;
      committed, done, next, why, begun, groups := CommitInOrder(plans, base, firstFail, first, env);
      ghost var w3, l3 := world, View();
      OnwardTransitive(z, w1, l1, w2, l2, w3, l3, p);
      OnwardPlans(z, w1, l1, w3, l3, p);
      PlannedStill(w1.producers[p], w3.producers[p], plans, base);
      var ok := Conclude(plans, base, committed, done, next, env);
      cause := if ok then Fine else if done then UploadFailed(firstFail) else CommitFailed(why);
      OnwardPlans(z, w3, l3, world, View().(halted := false), p);
      BetweenWider(z, w1, w2, begun, w3, world);
      OnwardTransitive(z, w1, l1, w3, l3, world, View().(halted := false), p);
    }

    /** Uploads all planned segments and clears the ones before the first failure for commit. */
    method Upload(plans: seq<Plan>, base: nat, env: Surroundings) returns (firstFail: nat)
      requires Valid() && !halted && Planned(plans, base) && base + |plans| == |world.producers[p].plans|
      requires world.producers[p].phase.Uploading? && world.producers[p].done == base && ResolvedUpTo(base)
      modifies this
      ensures Valid() && Onward(z, old(world), old(View()), world, View(), p) && Planned(plans, base)
      ensures old(Woken()) ==> Woken()
      ensures firstFail <= |plans| && world.producers[p].limit == base + firstFail
      ensures world.producers[p].phase.Flushing? && world.producers[p].done == base
      ensures ResolvedUpTo(base) && resolved == old(resolved)
      ensures firstFail < |plans| ==>
                !Storable(world.producers[p], base + firstFail, Fate(env, firstFail), limits.uploadAttempts)
    {
      hide Sound, ItemsBefore, PlannedAt, Enabled, Apply, Uploads, RecordsFit, Flat, Reaches;
      var results := UploadAll(base, |plans|, env);
      ghost var stored := world;
      firstFail := FirstFail(results);
      SoundHas(z, p, limits, world, View());
      forall k | base <= k < base + firstFail
        ensures StoredAt(world, p, k)
      {
        assert results[k - base];
      }
      FinishFacts(z, world, p, base, firstFail);
      Take(FinishUploads(p, base + firstFail));
      ReachesTransitive(z, old(world), stored, world);
      PlannedStill(old(world).producers[p], world.producers[p], plans, base);
    }

    /** The end of a flush: halt and fail what was not committed, or be ready for the next. */
    method Conclude(plans: seq<Plan>, base: nat, committed: nat, done: bool, next: nat, env: Surroundings)
      returns (ok: bool)
      requires Valid() && !halted && Planned(plans, base) && committed <= |plans|
      requires base + |plans| == |world.producers[p].plans|
      requires world.producers[p].done == base + committed && ResolvedUpTo(base + committed) && next == resolved
      requires if done then world.producers[p].phase.Flushing? else world.producers[p].phase.Halted?
      modifies this
      ensures AtRest() && ok == !halted && closing == old(closing) && resolved == old(taken)
      ensures old(Woken()) ==> Woken()
      ensures ok <==> done && committed == |plans|
      ensures Onward(z, old(world), old(View()), world, View().(halted := false), p)
      ensures world.producers[p].done == old(world).producers[p].done
    {
      hide Sound, ItemsBefore, PlannedAt, Queued, Enabled, Apply, Reaches;
      SoundHas(z, p, limits, world, View());
      ReachesSelf(z, world);
      ConcludeFacts(z, world, p, limits, View());
      ok := done && committed == |plans|;
      if ok {
        Take(EndFlush(p));
        return;
      }
      if done {
        Take(Halt(p));
      }
      HaltSound(z, p, limits, world, View());
      halted := true;
      PlannedStill(old(world).producers[p], world.producers[p], plans, base);
      ghost var stopped := world;
      FailRest(plans, base, committed, next, env);
      ReachesTransitive(z, old(world), stopped, world);
      RestFacts(z, p, limits, world, View());
    }

    /** Close, once the run loop has stopped: no further Append is admitted, the queue is drained, and the producer
        halts with every admitted Append resolved and no budget held. */
    method Close(env: Surroundings) returns (cause: Cause, ghost begun: World)
      requires AtRest()
      modifies this
      ensures AtRest() && halted && closing && Progress(z, old(world), world, p, true)
      ensures Keeps(old(outcomes), outcomes)
      ensures resolved == |world.producers[p].admitted| && pending == []
      ensures forall id :: 0 <= id < |world.producers[p].admitted| ==> id in outcomes
      ensures inFlightBytes == 0 && inFlightCount == 0
    {
      hide Sound, ItemsBefore, Queued, Enabled, Apply, Reaches, GaveUp, Storable;
      ClosingSound(z, p, limits, world, View());
      closing := true;
      cause, begun := Flush(env);
      if !halted {
        SoundHas(z, p, limits, world, View());
        ConcludeFacts(z, world, p, limits, View());
        ghost var flushed := world;
        Take(Halt(p));
        ReachesTransitive(z, old(world), flushed, world);
        HaltSound(z, p, limits, world, View());
        halted := true;
      }
      DrainedFacts(z, p, limits, world, View());
    }
  }

  /** The books after the given Appends are queued, the first as number id. */
  function EnqueueAll(l: Ledger, id: nat, items: seq<Item>): Ledger {
    if items == [] then l
    else
      var k := |items| - 1;
      Enqueue(EnqueueAll(l, id, items[..k]), id + k, items[k])
  }

  /** Which of the Appends that arrive one after another are admitted: those that have records and fit when their turn
      comes, unless the producer has stopped. */
  function LetIn(limits: Limits, l: Ledger, id: nat, arrivals: seq<Item>): seq<Item> {
    if arrivals == [] || l.halted || l.closing then []
    else
      var item, front := arrivals[|arrivals| - 1], LetIn(limits, l, id, arrivals[..|arrivals| - 1]);
      if item.records != [] && Fits(limits, EnqueueAll(l, id, front), Size(item.records)) then front + [item] else front
  }

  /** From w and l, exactly those of the arriving Appends were admitted that had to be. */
  predicate Came(limits: Limits, p: Run, w: World, l: Ledger, w': World, l': Ledger, arrivals: seq<Item>) {
    && p in w.producers && p in w'.producers
    && var before := w.producers[p].admitted;
    && var taken := LetIn(limits, l, |before|, arrivals);
    && w'.producers[p].admitted == before + taken && l' == EnqueueAll(l, |before|, taken)
  }

  /** The others have acted as offered, and then the arriving Appends were admitted that had to be. */
  ghost predicate Interfered(z: Zstd, limits: Limits, p: Run, w: World, l: Ledger, w': World, l': Ledger,
    arrivals: seq<Item>, others: seq<Step>)
  {
    w'.history == Ran(z, w, p, others).history && Came(limits, p, w, l, w', l', arrivals)
  }

  lemma CameNone(limits: Limits, p: Run, w: World, l: Ledger)
    requires p in w.producers
    ensures Came(limits, p, w, l, w, l, [])
  {
  }

  lemma CameAfter(limits: Limits, p: Run, w: World, w1: World, l: Ledger, w': World, l': Ledger, arrivals: seq<Item>)
    requires Came(limits, p, w1, l, w', l', arrivals) && p in w.producers && w1.producers[p] == w.producers[p]
    ensures Came(limits, p, w, l, w', l', arrivals)
  {
  }

  lemma CameNext(limits: Limits, p: Run, w: World, l: Ledger, w1: World, l1: Ledger, arrivals: seq<Item>, item: Item)
    requires Came(limits, p, w, l, w1, l1, arrivals)
    ensures l1.halted == l.halted && l1.closing == l.closing
    ensures if item.records != [] && !l.halted && !l.closing && Fits(limits, l1, Size(item.records)) then
              Came(limits, p, w, l, Joined(w1, p, item), Enqueue(l1, |w1.producers[p].admitted|, item), arrivals + [item])
            else Came(limits, p, w, l, w1, l1, arrivals + [item])
  {
    hide LetIn, EnqueueAll, Fits, Size, Enqueue;
    LetInNext(limits, l, |w.producers[p].admitted|, arrivals, item);
  }

  lemma JoinedIs(p: Run, w: World, l: Ledger, item: Item, id: nat)
    requires p in w.producers
    ensures var w', l', q := Joined(w, p, item), Enqueue(l, id, item), w.producers[p];
            && w'.history == w.history && l'.outcomes == l.outcomes && l'.resolved == l.resolved
            && p in w'.producers && w'.producers[p] == q.(admitted := q.admitted + [item])
  {
  }

  lemma OnwardAdmits(z: Zstd, p: Run, w: World, l: Ledger, w1: World, l1: Ledger, item: Item, id: nat)
    requires Onward(z, w, l, w1, l1, p) && Reaches(z, w1, Joined(w1, p, item)) && !l1.closing
    ensures Onward(z, w, l, Joined(w1, p, item), Enqueue(l1, id, item), p)
  {
    hide Reaches, Size;
    ReachesTransitive(z, w, w1, Joined(w1, p, item));
  }

  lemma LetInNext(limits: Limits, l: Ledger, id: nat, arrivals: seq<Item>, item: Item)
    ensures var taken := LetIn(limits, l, id, arrivals);
            var books := EnqueueAll(l, id, taken);
            && books.halted == l.halted && books.closing == l.closing
            && if item.records != [] && !l.halted && !l.closing && Fits(limits, books, Size(item.records)) then
                 && LetIn(limits, l, id, arrivals + [item]) == taken + [item]
                 && EnqueueAll(l, id, taken + [item]) == Enqueue(books, id + |taken|, item)
               else LetIn(limits, l, id, arrivals + [item]) == taken
  {
    hide Fits, Size;
    var taken := LetIn(limits, l, id, arrivals);
    assert (arrivals + [item])[..|arrivals|] == arrivals && (taken + [item])[..|taken|] == taken;
    SameFlags(l, id, taken);
  }

  lemma {:induction false} SameFlags(l: Ledger, id: nat, items: seq<Item>)
    ensures EnqueueAll(l, id, items).halted == l.halted && EnqueueAll(l, id, items).closing == l.closing
  {
    if items != [] {
      SameFlags(l, id, items[..|items| - 1]);
    }
  }

  /** What every part of a flush keeps: it is a run of the protocol, nothing admitted, planned, stored or resolved is lost
      or changed, and once closing nothing is admitted. */
  ghost predicate Onward(z: Zstd, w: World, l: Ledger, w': World, l': Ledger, p: Run) {
    && Reaches(z, w, w') && p in w.producers && p in w'.producers && w.objects.Keys <= w'.objects.Keys
    && var q, q' := w.producers[p], w'.producers[p];
    && q.admitted <= q'.admitted && (l.closing ==> q'.admitted == q.admitted)
    && q'.plans == q.plans && q'.taken == q.taken && q'.epoch == q.epoch
    && Keeps(l.outcomes, l'.outcomes)
    && l'.ordinal == l.ordinal && l'.closing == l.closing && l'.taken == l.taken && l'.halted == l.halted
  }

  predicate Keeps(m: map<nat, Resolution>, m': map<nat, Resolution>) {
    forall id :: id in m ==> id in m' && m'[id] == m[id]
  }

  lemma OnwardTransitive(z: Zstd, w: World, l: Ledger, w': World, l': Ledger, w2: World, l2: Ledger, p: Run)
    requires Onward(z, w, l, w', l', p) && Onward(z, w', l', w2, l2, p)
    ensures Onward(z, w, l, w2, l2, p)
  {
    hide Reaches;
    ReachesTransitive(z, w, w', w2);
  }

  /** Resolving Appends is onward too. */
  lemma OnwardSettles(z: Zstd, w: World, l: Ledger, w': World, l': Ledger, l2: Ledger, p: Run)
    requires Onward(z, w, l, w', l', p) && Keeps(l'.outcomes, l2.outcomes)
    requires l2 == l'.(outcomes := l2.outcomes, bytes := l2.bytes, count := l2.count, resolved := l2.resolved)
    ensures Onward(z, w, l, w', l2, p)
  {
    hide Reaches;
  }

  lemma OnwardSelf(z: Zstd, w: World, l: Ledger, p: Run)
    requires p in w.producers
    ensures Onward(z, w, l, w, l, p)
  {
    ReachesSelf(z, w);
  }

  lemma OnwardPlans(z: Zstd, w: World, l: Ledger, w': World, l': Ledger, p: Run)
    requires Onward(z, w, l, w', l', p)
    ensures p in w.producers && p in w'.producers && w'.producers[p].plans == w.producers[p].plans
    ensures l'.halted == l.halted && l'.taken == l.taken && l'.closing == l.closing
    ensures Reaches(z, w, w') && w'.producers[p].epoch == w.producers[p].epoch
  {
  }

  /** Only arrivals have changed the producer. */
  predicate Joins(q: Producer, q': Producer) { q' == q.(admitted := q'.admitted) }

  predicate Quiet(z: Zstd, w: World, s: Step, p: Run)
    requires Enabled(w, s) && p in w.producers
  {
    var w' := Apply(z, w, s);
    |w'.sent| == |w'.status| && p in w'.producers && SameAccounts(w.producers[p], w'.producers[p])
  }

  /** The system after producer p has admitted one more Append. */
  function Joined(w: World, p: Run, item: Item): World
    requires p in w.producers
  {
    Set(w, p, w.producers[p].(admitted := w.producers[p].admitted + [item]))
  }

  lemma EnlistFacts(z: Zstd, p: Run, limits: Limits, w: World, l: Ledger, item: Item)
    requires Sound(z, p, limits, w, l) && item.records != [] && Fits(limits, l, Size(item.records))
    ensures Enabled(w, Admit(p, item)) && Apply(z, w, Admit(p, item)) == Joined(w, p, item)
    ensures Reaches(z, w, Joined(w, p, item))
    ensures Sound(z, p, limits, Joined(w, p, item), Enqueue(l, |w.producers[p].admitted|, item))
  {
    hide Sound, Enabled, Apply, Enqueue, Size;
    SoundHas(z, p, limits, w, l);
    SoundEnqueue(z, p, limits, w, l, item);
    ReachesSelf(z, w);
    ReachesStep(z, w, w, Admit(p, item));
  }

  /** The commit loop of a group, begun in w0, gave up after turns that had to end as they did; its first turn was not
      one in which nothing goes wrong. */
  ghost predicate GaveUp(z: Zstd, w0: World, p: Run, why: Why, limits: Limits, turns: nat -> Turn) {
    && p in w0.producers && w0.producers[p].phase.Committing? && !why.PartialGroup? && !Smooth(z, w0, p, turns(0))
    && exists worlds, ends ::
         && Turns(z, w0, p, worlds, ends, turns)
         && CommitLoop.Stopped(Rejected(why), ends, turns, limits.manifestAttempts, limits.commitConflicts)
  }

  /** The commit loop was begun for n segments, of which the first is segment lo. */
  predicate Begins(w: World, p: Run, lo: nat, n: nat) {
    p in w.producers && w.producers[p].done == lo && w.producers[p].phase == Committing(n, false)
  }

  /** How many of n segments one manifest write takes, after the first committed ones. */
  function GroupSize(limits: Limits, n: nat, committed: nat): nat
    requires committed <= n
  {
    if 0 < limits.groupMax <= n - committed then limits.groupMax else n - committed
  }

  /** So many groups, each as large as it may be, are the first committed ones. */
  predicate InGroups(limits: Limits, n: nat, groups: nat, committed: nat) {
    var most := groups * limits.groupMax;
    committed <= n && committed == if most < n && (groups == 0 || limits.groupMax > 0) then most else n
  }

  lemma NoGroups(limits: Limits, n: nat)
    ensures InGroups(limits, n, 0, 0)
  {
    assert 0 * limits.groupMax == 0;
  }

  lemma NextGroup(limits: Limits, n: nat, groups: nat, i: nat, end: nat)
    requires InGroups(limits, n, groups, i) && i < n
    requires end == if limits.groupMax > 0 && i + limits.groupMax < n then i + limits.groupMax else n
    ensures end == i + GroupSize(limits, n, i) && InGroups(limits, n, groups + 1, end)
  {
    assert (groups + 1) * limits.groupMax == groups * limits.groupMax + limits.groupMax;
  }

  /** The commit loop was begun for the next group, in order and as large as it may be, after those committed. */
  ghost predicate InGroup(limits: Limits, begun: World, p: Run, n: nat, committed: nat, base: nat) {
    exists m: nat, groups: nat ::
      && committed <= m <= n && InGroups(limits, m, groups, committed)
      && Begins(begun, p, base + committed, GroupSize(limits, m, committed))
  }

  /** w was on the way from a to b. */
  ghost predicate Between(z: Zstd, a: World, w: World, b: World) { Reaches(z, a, w) && Reaches(z, w, b) }

  lemma BetweenSelf(z: Zstd, w: World)
    ensures Between(z, w, w, w)
  {
    ReachesSelf(z, w);
  }

  lemma BetweenWider(z: Zstd, a: World, b: World, w: World, c: World, d: World)
    requires Reaches(z, a, b) && Between(z, b, w, c) && Reaches(z, c, d)
    ensures Between(z, a, w, d)
  {
    hide Reaches;
    ReachesTransitive(z, a, b, w);
    ReachesTransitive(z, w, c, d);
  }

  /** The first n Appends were resolved to positions. */
  predicate Succeeded(outcomes: map<nat, Resolution>, n: nat) {
    forall id :: 0 <= id < n ==> id in outcomes && outcomes[id].At?
  }

  /** Between flushes a producer that has not halted has failed nothing. */
  lemma RestingSucceeds(z: Zstd, p: Run, limits: Limits, w: World, l: Ledger, n: nat)
    requires Resting(z, p, limits, w, l) && !l.halted && n <= l.resolved
    ensures Succeeded(l.outcomes, n)
  {
    hide Reachable, ItemsBefore, JoinBatches, Weight, Chain, ManOk, Objects, Puts, Versions, Counters, WaitOk, LandedOk,
      AcksOk;
    var q := w.producers[p];
    ReachableHolds(z, w);
    assert ProducerOk(w, p);
    AllTaken(q);
    forall id | 0 <= id < n
      ensures id in l.outcomes && l.outcomes[id].At?
    {
      SuccessIsPrefix(q, l.outcomes, id);
    }
  }

  lemma SoundReachable(z: Zstd, p: Run, limits: Limits, w: World, l: Ledger)
    requires Sound(z, p, limits, w, l)
    ensures Reachable(z, w)
  {
  }

  lemma SoundHas(z: Zstd, p: Run, limits: Limits, w: World, l: Ledger)
    requires Sound(z, p, limits, w, l)
    ensures p in w.producers && |w.sent| == |w.status| && Usable(limits)
    ensures l.halted ==> w.producers[p].phase.Halted?
    ensures !l.halted ==> w.producers[p].taken == l.taken
    ensures l.ordinal == |w.producers[p].plans| && l.resolved <= l.taken <= |w.producers[p].admitted|
    ensures Queued(w.producers[p].admitted, l.taken, l.pending)
    ensures forall id :: id in l.outcomes <==> 0 <= id < l.resolved
    ensures l.count == |w.producers[p].admitted| - l.resolved
  {
    hide Reachable, Truthful, Weight;
  }

  lemma NothingResolved(outcomes: map<nat, Resolution>, first: nat, base: nat)
    ensures Weight([]) == 0 && Positions(base, []) == [] && Failures(0) == []
    ensures Extended(outcomes, first, []) == outcomes
  {
  }

  lemma ResolvedNext(outcomes: map<nat, Resolution>, first: nat, base: nat, plan: Plan, k: nat)
    requires |plan.metas| == |plan.items| && k < |plan.items|
    ensures Weight(plan.items[..k + 1]) == Weight(plan.items[..k]) + Size(plan.items[k].records)
    ensures Extended(outcomes, first, Positions(base, plan.metas[..k + 1])) ==
            Extended(outcomes, first, Positions(base, plan.metas[..k]))[first + k := At(base + plan.metas[k].startIndex)]
  {
    hide Extended, Positions, Weight;
    assert plan.items[..k + 1] == plan.items[..k] + [plan.items[k]];
    WeightSnoc(plan.items[..k], plan.items[k]);
  }

  lemma FailedNext(outcomes: map<nat, Resolution>, first: nat, items: seq<Item>, k: nat)
    requires k < |items|
    ensures Weight(items[..k + 1]) == Weight(items[..k]) + Size(items[k].records)
    ensures Extended(outcomes, first, Failures(k + 1)) == Extended(outcomes, first, Failures(k))[first + k := Failed]
  {
    hide Extended, Failures, Weight;
    assert items[..k + 1] == items[..k] + [items[k]];
    WeightSnoc(items[..k], items[k]);
  }

  function Fate(env: Surroundings, i: nat): nat -> Try { (t: nat) => env.upload(i, t) }

  /** Whether one of the tries from t on succeeds before the budget or the context ends. */
  predicate Uploads(fate: nat -> Try, t: nat, attempts: nat)
    decreases attempts - t
  {
    t < attempts && (fate(t).Stored? || (!fate(t).cancelled && Uploads(fate, t + 1, attempts)))
  }

  /** Segment k can be encoded and is stored by one of its tries. */
  predicate Storable(q: Producer, k: nat, fate: nat -> Try, attempts: nat)
    requires k < |q.plans|
  {
    RecordsFit(Flat(q.plans[k].items)) && Uploads(fate, 0, attempts)
  }

  lemma UploadFacts(z: Zstd, w: World, p: Run, k: nat)
    requires p in w.producers && k < |w.producers[p].plans| && RecordsFit(Flat(w.producers[p].plans[k].items))
    requires |w.sent| == |w.status|
    ensures Enabled(w, UploadLands(p, k)) && Quiet(z, w, UploadLands(p, k), p)
    ensures var w' := Apply(z, w, UploadLands(p, k));
            && w'.producers == w.producers && w.objects.Keys <= w'.objects.Keys && Location(p, k) in w'.objects
  {
    hide SegmentBytes, RecordsFit, Flat;
  }

  /** The first upload that failed. */
  method FirstFail(results: seq<bool>) returns (f: nat)
    ensures f <= |results| && (forall i :: 0 <= i < f ==> results[i]) && (f < |results| ==> !results[f])
  {
    for i := 0 to |results|
      invariant forall j :: 0 <= j < i ==> results[j]
    {
      if !results[i] {
        return i;
      }
    }
    f := |results|;
  }

  predicate PlannedAt(q: Producer, plans: seq<Plan>, base: nat, i: nat)
    requires i < |plans| && base + i < |q.plans|
  {
    plans[i] == PlanOf(q.plans[base + i].items, q.plans[base + i].nowMs)
  }

  /** SoundSettle with what the caller of resolve needs. */
  lemma SettleFacts(z: Zstd, p: Run, limits: Limits, w: World, l: Ledger, k: nat, outs: seq<Resolution>)
    requires Sound(z, p, limits, w, l)
    requires k < |w.producers[p].plans| && l.resolved == ItemsBefore(w.producers[p].plans, k)
    requires k < |w.producers[p].acks| || k >= w.producers[p].done
    requires var b := w.producers[p].plans[k];
             outs == if k < w.producers[p].done then Positions(w.producers[p].acks[k], Metas(b.items, 0, b.nowMs))
                     else Failures(|b.items|)
    ensures var q := w.producers[p];
            var l' := Settle(l, outs, Weight(q.plans[k].items));
            && Sound(z, p, limits, w, l')
            && l'.resolved == ItemsBefore(q.plans, k + 1) && |outs| == |q.plans[k].items|
            && Keeps(l.outcomes, l'.outcomes)
            && forall id :: l.resolved <= id < l.resolved + |outs| ==> id !in l.outcomes
  {
    hide Reachable, Truthful, ItemsBefore, Weight, Positions, Failures, Metas, Extended;
    SoundSettle(z, p, limits, w, l, k, outs);
  }

  lemma BeginFacts(z: Zstd, w: World, p: Run, n: nat)
    requires p in w.producers && w.producers[p].phase.Flushing? && n > 0
    requires w.producers[p].done + n <= w.producers[p].limit && |w.sent| == |w.status|
    ensures Enabled(w, BeginGroup(p, n)) && Quiet(z, w, BeginGroup(p, n), p)
    ensures Apply(z, w, BeginGroup(p, n)) == Set(w, p, w.producers[p].(phase := Committing(n, false)))
  {
  }

  lemma PlannedStill(q: Producer, q': Producer, plans: seq<Plan>, base: nat)
    requires q'.plans == q.plans && base + |plans| <= |q.plans|
    requires forall i :: 0 <= i < |plans| ==> PlannedAt(q, plans, base, i)
    ensures forall i :: 0 <= i < |plans| ==> PlannedAt(q', plans, base, i)
  {
    forall i | 0 <= i < |plans|
      ensures PlannedAt(q', plans, base, i)
    {
      assert PlannedAt(q, plans, base, i);
    }
  }

  /** Steps keep what is stored and sent. */
  lemma ReachesKeeps(z: Zstd, w: World, w': World)
    requires Reachable(z, w) && Reaches(z, w, w')
    ensures |w'.sent| == |w'.status| && w.objects.Keys <= w'.objects.Keys
  {
    hide Reachable, Leads, Chain, ManOk, Objects, Producers, Versions;
    ReachableFrom(z, w, w');
    ReachableHolds(z, w');
    var steps :| Leads(z, w, steps, w');
    RunFollows(z, w, steps, w');
  }

  /** After the commit loop the object is sound, whatever the loop answered. */
  lemma CommittedFacts(z: Zstd, p: Run, limits: Limits, w: World, w': World, l: Ledger, n: nat, out: Outcome)
    requires Sound(z, p, limits, w, l) && !l.halted && Reaches(z, w, w') && p in w'.producers
    requires w.producers[p].phase == Committing(n, false) && Answered(w.producers[p], w'.producers[p], n, out)
    requires w.producers[p].done + n <= |w.producers[p].plans|
    requires w.producers[p].done <= |w.producers[p].plans|
    requires l.resolved == ItemsBefore(w.producers[p].plans, w.producers[p].done)
    ensures Sound(z, p, limits, w', l) && Onward(z, w, l, w', l, p)
    ensures |w.producers[p].acks| == w.producers[p].done
  {
    hide Reachable, Reaches, Books, Truthful, ItemsBefore;
    ReachesKeeps(z, w, w');
    PlansAreOk(z, w, p);
    if out.Committed? {
      SoundCommit(z, p, limits, w, w', l, n, out.seqs);
    } else {
      SoundMoves(z, p, limits, w, w', l);
    }
  }

  function ItemsOf(pending: seq<Pending>): (items: seq<Item>)
    ensures |items| == |pending| && forall i :: 0 <= i < |items| ==> items[i] == pending[i].item
  {
    if pending == [] then [] else [pending[0].item] + ItemsOf(pending[1..])
  }

  function GroupsOf(plans: seq<Plan>): (groups: seq<seq<Item>>)
    ensures |groups| == |plans| && forall i :: 0 <= i < |plans| ==> groups[i] == plans[i].items
  {
    if plans == [] then [] else [plans[0].items] + GroupsOf(plans[1..])
  }

  lemma QueueItems(admitted: seq<Item>, taken: nat, pending: seq<Pending>)
    requires taken <= |admitted| && Queued(admitted, taken, pending)
    ensures ItemsOf(pending) == admitted[taken..] && (pending != [] ==> pending[0].id == taken)
  {
    hide ItemsOf;
  }

  lemma PlannedNow(before: seq<Batch>, groups: seq<seq<Item>>, nowMs: int, plans: seq<Plan>)
    requires |plans| == |groups| && forall k :: 0 <= k < |plans| ==> plans[k] == PlanOf(groups[k], nowMs)
    ensures forall q: Producer, i :: q.plans == before + Batches(groups, nowMs) && 0 <= i < |plans| ==>
              PlannedAt(q, plans, |before|, i)
  {
    hide Flat, Weight, Metas;
  }

  lemma DrainFacts(z: Zstd, p: Run, limits: Limits, w: World, l: Ledger)
    requires Resting(z, p, limits, w, l) && l.halted
    ensures Sound(z, p, limits, w, Drain(l)) && Drain(l).taken == |w.producers[p].admitted|
    ensures w.producers[p].done <= |w.producers[p].plans|
    ensures ItemsBefore(w.producers[p].plans, w.producers[p].done) <= l.resolved
  {
    hide Reachable, Truthful, ItemsBefore, Weight;
    var q := w.producers[p];
    BooksDrain(q.admitted, l);
    PlansAreOk(z, w, p);
    AllTaken(q);
    ItemsMonotone(q.plans, q.done, |q.plans|);
  }

  lemma FailQueueFacts(z: Zstd, p: Run, limits: Limits, w: World, l: Ledger, items: seq<Item>)
    requires Resting(z, p, limits, w, l) && l.halted && items == ItemsOf(l.pending)
    ensures var d := Drain(l);
            var l' := Settle(d, Failures(|items|), Weight(items));
            && Resting(z, p, limits, w, l') && l'.resolved == |w.producers[p].admitted|
            && Keeps(l.outcomes, l'.outcomes)
            && d.resolved == (if l.pending == [] then |w.producers[p].admitted| else l.pending[0].id)
            && forall id :: d.resolved <= id < d.resolved + |items| ==> id !in d.outcomes
  {
    hide Sound, ItemsBefore, Weight, Failures, Extended, ItemsOf;
    SoundHas(z, p, limits, w, l);
    var q, d := w.producers[p], Drain(l);
    QueueItems(q.admitted, l.taken, l.pending);
    DrainFacts(z, p, limits, w, l);
    assert q.admitted[d.resolved..d.resolved + |items|] == items;
    SoundFail(z, p, limits, w, d, |items|);
  }

  /** What a whole flush keeps. */
  ghost predicate Progress(z: Zstd, w: World, w': World, p: Run, closing: bool) {
    && Reaches(z, w, w') && p in w.producers && p in w'.producers && w.objects.Keys <= w'.objects.Keys
    && var q, q' := w.producers[p], w'.producers[p];
    && q.admitted <= q'.admitted && (closing ==> q'.admitted == q.admitted) && q.plans <= q'.plans
  }

  lemma FlushProgress(z: Zstd, w: World, w1: World, l1: Ledger, w2: World, l2: Ledger, p: Run)
    requires p in w.producers && p in w1.producers && w1.objects == w.objects
    requires w.producers[p].plans <= w1.producers[p].plans && w1.producers[p].admitted == w.producers[p].admitted
    requires Onward(z, w1, l1, w2, l2.(halted := false), p) && Reaches(z, w, w1)
    ensures Progress(z, w, w2, p, l1.closing) && l2.closing == l1.closing && Keeps(l1.outcomes, l2.outcomes)
  {
    hide Reaches;
    ReachesTransitive(z, w, w1, w2);
  }

  lemma NothingQueued(admitted: seq<Item>, taken: nat)
    requires taken <= |admitted| && Queued(admitted, taken, [])
    ensures taken == |admitted|
  {
  }

  predicate StoredAt(w: World, p: Run, k: nat) { Location(p, k) in w.objects }

  lemma FinishFacts(z: Zstd, w: World, p: Run, base: nat, n: nat)
    requires p in w.producers && w.producers[p].phase.Uploading? && w.producers[p].done == base
    requires base + n <= |w.producers[p].plans| && |w.sent| == |w.status|
    requires forall k :: base <= k < base + n ==> StoredAt(w, p, k)
    ensures Enabled(w, FinishUploads(p, base + n)) && Quiet(z, w, FinishUploads(p, base + n), p)
    ensures Apply(z, w, FinishUploads(p, base + n)) ==
            Set(w, p, w.producers[p].(limit := base + n, phase := Flushing))
  {
    forall k | base <= k < base + n
      ensures Location(p, k) in w.objects
    {
      assert StoredAt(w, p, k);
    }
  }

  /** Both ways a flush can end with its segments resolved. */
  lemma ConcludeFacts(z: Zstd, w: World, p: Run, limits: Limits, l: Ledger)
    requires Sound(z, p, limits, w, l)
    ensures Enabled(w, Halt(p)) && Quiet(z, w, Halt(p), p)
    ensures Apply(z, w, Halt(p)) == Set(w, p, w.producers[p].(phase := Halted(Attempted(w.producers[p]))))
    ensures w.producers[p].phase.Flushing? && w.producers[p].done == |w.producers[p].plans| ==>
              && Enabled(w, EndFlush(p)) && Quiet(z, w, EndFlush(p), p)
              && Apply(z, w, EndFlush(p)) == Set(w, p, w.producers[p].(phase := Ready))
    ensures ItemsBefore(w.producers[p].plans, |w.producers[p].plans|) == w.producers[p].taken
  {
    hide Reachable, Books, Truthful, ItemsBefore;
    PlansAreOk(z, w, p);
    AllTaken(w.producers[p]);
  }

  lemma HaltSound(z: Zstd, p: Run, limits: Limits, w: World, l: Ledger)
    requires Sound(z, p, limits, w, l) && w.producers[p].phase.Halted?
    ensures Sound(z, p, limits, w, l.(halted := true))
    ensures !l.halted ==> w.producers[p].taken == l.taken
  {
    hide Reachable, Truthful, Weight;
  }

  lemma RestFacts(z: Zstd, p: Run, limits: Limits, w: World, l: Ledger)
    requires Sound(z, p, limits, w, l)
    ensures ItemsBefore(w.producers[p].plans, |w.producers[p].plans|) == w.producers[p].taken
  {
    hide Reachable, Books, Truthful, ItemsBefore;
    PlansAreOk(z, w, p);
    AllTaken(w.producers[p]);
  }

  lemma ClosingSound(z: Zstd, p: Run, limits: Limits, w: World, l: Ledger)
    requires Resting(z, p, limits, w, l)
    ensures Resting(z, p, limits, w, l.(closing := true))
  {
    hide Reachable, Truthful, Weight;
  }

  lemma DrainedFacts(z: Zstd, p: Run, limits: Limits, w: World, l: Ledger)
    requires Sound(z, p, limits, w, l) && |w.producers[p].admitted| <= l.resolved
    ensures l.resolved == |w.producers[p].admitted| && l.pending == [] && l.bytes == 0 && l.count == 0
    ensures forall id :: 0 <= id < |w.producers[p].admitted| ==> id in l.outcomes
  {
    hide Reachable, Truthful;
    assert w.producers[p].admitted[l.resolved..] == [];
  }
}
