/** The commit and fencing protocol as a step system: one manifest register changed by conditional put, segment
    objects, any number of producers, and puts that may be answered, refused, lost, or land after everyone
    stopped waiting for them. */
module Protocol {
  import opened Bytes
  import opened Entries
  import opened Packing
  import opened Segment
  import opened Wrappers

  /** A producer's run id. Run ids are ULIDs and taken to be distinct. */
  type Run = nat

  /** Segment number ordinal of a run; see Naming for the object key. */
  datatype Location = Location(run: Run, ordinal: nat)

  /** A manifest entry. */
  datatype Slot = Slot(loc: Location, sequence: nat, count: nat, metas: seq<RecordMeta>)

  datatype Man = Man(epoch: nat, next: nat, slots: seq<Slot>)

  const EMPTY := Man(0, 0, [])

  /** A landed manifest write. Its index in the history is its ETag. */
  datatype Version = Version(man: Man, writer: Run, claim: bool)

  datatype Kind = Claim | Append(lo: nat, n: nat)

  /** A conditional put: it may land only while exactly onto versions have landed before it. */
  datatype Put = Put(owner: Run, onto: nat, man: Man, kind: Kind)

  datatype Status = InFlight | Landed | Dead

  /** The Append groups of one segment and the time stamped on them. */
  datatype Batch = Batch(items: seq<Item>, nowMs: int)

  datatype Phase =
    | Unclaimed                                            // between claim attempts
    | Claiming(id: nat)                                    // waiting for the answer to claim put id
    | Ready                                                // primary, no flush under way
    | Uploading                                            // segments planned and being uploaded
    | Flushing                                             // between commit groups of a flush
    | Committing(n: nat, unknown: bool)                    // in commitEntries for n segments, before a load
    | Waiting(n: nat, unknown: bool, id: nat)              // commit put id sent
    | Halted(n: nat)                                       // stopped for good, n segments last attempted

  datatype Producer = Producer(
    epoch: nat,              // 0 until a claim succeeds
    phase: Phase,
    admitted: seq<Item>,     // every Append admitted, in order
    taken: nat,              // how many of them flushes have drained
    plans: seq<Batch>,       // every segment planned; plans[k] has ordinal k
    limit: nat,              // segments cleared for commit: uploads answered without a gap
    done: nat,               // segments resolved as committed
    acks: seq<nat>,          // the base sequences they were resolved to
    comp: byte,
    legacy: bool)

  datatype World = World(
    history: seq<Version>,
    sent: seq<Put>,
    status: seq<Status>,
    producers: map<Run, Producer>,
    objects: map<Location, bytes>)

  const INITIAL := World([], [], [], map[], map[])

  // ---------------------------------------------------------------- the manifest

  /** What a load of version ver returns; version 0 is the missing object. */
  function ManAt(w: World, ver: nat): Man
    requires ver <= |w.history|
  {
    if ver == 0 then EMPTY else w.history[ver - 1].man
  }

  function Cur(w: World): Man { ManAt(w, |w.history|) }

  function SlotFor(loc: Location, next: nat, b: Batch): Slot {
    Slot(loc, next, Total(b.items), Metas(b.items, 0, b.nowMs))
  }

  /** Manifest.Append for each segment of a group, the first with ordinal lo. */
  function AppendGroup(m: Man, run: Run, batches: seq<Batch>, lo: nat): Man
    decreases |batches|
  {
    if batches == [] then m
    else
      var s := SlotFor(Location(run, lo), m.next, batches[0]);
      AppendGroup(Man(m.epoch, m.next + s.count, m.slots + [s]), run, batches[1..], lo + 1)
  }

  // ---------------------------------------------------------------- harvesting

  /** The sequence of the last slot with that location. */
  function LastWith(slots: seq<Slot>, loc: Location): Option<nat> {
    if slots == [] then None
    else if slots[|slots| - 1].loc == loc then Some(slots[|slots| - 1].sequence)
    else LastWith(slots[..|slots| - 1], loc)
  }

  function TailOf(slots: seq<Slot>, limit: nat): seq<Slot> {
    if |slots| > limit then slots[|slots| - limit..] else slots
  }

  /** For each segment of a group, the sequence it has in the last 4n entries, if it is there. */
  function Found(m: Man, run: Run, lo: nat, n: nat): (f: seq<Option<nat>>)
    ensures |f| == n
  {
    seq(n, (i: nat) => LastWith(TailOf(m.slots, 4 * n), Location(run, lo + i)))
  }

  function CountFound(f: seq<Option<nat>>): nat {
    if f == [] then 0 else (if f[0].Some? then 1 else 0) + CountFound(f[1..])
  }

  datatype Decision = Fenced | Partial | Harvested(seqs: seq<nat>) | Send

  /** What commitEntries does with a manifest it has loaded. */
  function Decide(q: Producer, run: Run, n: nat, unknown: bool, m: Man): Decision {
    if m.epoch != q.epoch then Fenced
    else if !unknown then Send
    else
      var f := Found(m, run, q.done, n);
      if CountFound(f) == 0 then Send
      else if CountFound(f) == n then
        Harvested(seq(n, (i: nat) requires i < n => if f[i].Some? then f[i].value else 0))
      else Partial
  }

  // ---------------------------------------------------------------- steps

  datatype Step =
    | Spawn(p: Run, comp: byte, legacy: bool)
    | ClaimAttempt(p: Run, ver: nat)
    | Land(id: nat)
    | Lose(id: nat)
    | AnswerOk(p: Run)
    | AnswerRefused(p: Run)
    | AnswerUnknown(p: Run)
    | Halt(p: Run)
    | Admit(p: Run, item: Item)
    | StartFlush(p: Run, cap: nat, groups: seq<seq<Item>>, nowMs: int)
    | UploadLands(p: Run, ordinal: nat)
    | FinishUploads(p: Run, limit: nat)
    | BeginGroup(p: Run, n: nat)
    | CommitAttempt(p: Run, ver: nat)
    | EndFlush(p: Run)

  /** The put a producer is waiting for, if any. */
  function Awaited(q: Producer): Option<nat> {
    match q.phase
    case Claiming(id) => Some(id)
    case Waiting(_, _, id) => Some(id)
    case _ => None
  }

  predicate Working(q: Producer) {
    q.phase.Ready? || q.phase.Uploading? || q.phase.Flushing? || q.phase.Committing? || q.phase.Waiting?
  }

  predicate Enabled(w: World, s: Step) {
    match s
    case Spawn(p, comp, legacy) => p !in w.producers && (comp == COMPRESSION_NONE || comp == COMPRESSION_ZSTD)
    // A load may return any version that was ever current.
    case ClaimAttempt(p, ver) => p in w.producers && w.producers[p].phase.Unclaimed? && ver <= |w.history|
    // The store compares versions when the put reaches it, whenever that is.
    case Land(id) =>
      && id < |w.sent| == |w.status| && w.status[id].InFlight? && w.sent[id].onto == |w.history|
    case Lose(id) => id < |w.status| && w.status[id].InFlight?
    case AnswerOk(p) =>
      && p in w.producers && Awaited(w.producers[p]).Some?
      && var id := Awaited(w.producers[p]).value;
         id < |w.sent| == |w.status| && w.status[id].Landed?
    // 412 and 409: the write did not land.
    case AnswerRefused(p) =>
      && p in w.producers && Awaited(w.producers[p]).Some?
      && var id := Awaited(w.producers[p]).value;
         id < |w.status| && !w.status[id].Landed?
    case AnswerUnknown(p) => p in w.producers && Awaited(w.producers[p]).Some?
    case Halt(p) => p in w.producers
    case Admit(p, item) => p in w.producers && w.producers[p].epoch > 0 && item.records != []
    case StartFlush(p, cap, groups, nowMs) =>
      && p in w.producers && w.producers[p].phase.Ready?
      && w.producers[p].taken <= |w.producers[p].admitted|
      && IsPacking(cap, w.producers[p].admitted[w.producers[p].taken..], groups)
    case UploadLands(p, ordinal) =>
      && p in w.producers && ordinal < |w.producers[p].plans|
      && RecordsFit(Flat(w.producers[p].plans[ordinal].items))
    // An upload that was answered without an error has landed.
    case FinishUploads(p, limit) =>
      && p in w.producers && w.producers[p].phase.Uploading?
      && w.producers[p].done <= limit <= |w.producers[p].plans|
      && forall k :: w.producers[p].done <= k < limit ==> Location(p, k) in w.objects
    case BeginGroup(p, n) =>
      && p in w.producers && w.producers[p].phase.Flushing? && n > 0 && w.producers[p].done + n <= w.producers[p].limit
    case CommitAttempt(p, ver) =>
      && p in w.producers && w.producers[p].phase.Committing? && ver <= |w.history|
      && w.producers[p].done + w.producers[p].phase.n <= |w.producers[p].plans|
    case EndFlush(p) =>
      && p in w.producers && w.producers[p].phase.Flushing? && w.producers[p].done == |w.producers[p].plans|
  }

  /** The number of segments in the group last attempted. */
  function Attempted(q: Producer): nat {
    match q.phase
    case Committing(n, _) => n
    case Waiting(n, _, _) => n
    case Halted(n) => n
    case _ => 0
  }

  function Set(w: World, p: Run, q: Producer): World { w.(producers := w.producers[p := q]) }

  function SetStatus(w: World, id: nat, s: Status): World
    requires id < |w.status|
  {
    w.(status := w.status[id := s])
  }

  /** Sends a put and leaves its owner waiting for it. */
  function SendPut(w: World, put: Put, q: Producer): World {
    World(w.history, w.sent + [put], w.status + [InFlight], w.producers[put.owner := q], w.objects)
  }

  function Batches(groups: seq<seq<Item>>, nowMs: int): (bs: seq<Batch>)
    ensures |bs| == |groups|
  {
    seq(|groups|, (k: nat) requires k < |groups| => Batch(groups[k], nowMs))
  }

  function Sequences(slots: seq<Slot>): (r: seq<nat>)
    ensures |r| == |slots| && forall i :: 0 <= i < |r| ==> r[i] == slots[i].sequence
  {
    if slots == [] then [] else [slots[0].sequence] + Sequences(slots[1..])
  }

  /** The base sequences of the last n slots. */
  function LastSequences(m: Man, n: nat): (r: seq<nat>)
    requires n <= |m.slots|
    ensures |r| == n && forall i :: 0 <= i < n ==> r[i] == m.slots[|m.slots| - n + i].sequence
  {
    Sequences(m.slots[|m.slots| - n..])
  }

  function AfterOk(w: World, q: Producer, put: Put): Producer {
    match put.kind
    case Claim => q.(epoch := put.man.epoch, phase := Ready)
    case Append(lo, n) =>
      if n <= |put.man.slots| then
        q.(done := q.done + n, acks := q.acks + LastSequences(put.man, n), phase := Flushing)
      else q
  }

  function AfterNo(q: Producer, unknown: bool): Producer {
    match q.phase
    case Claiming(_) => q.(phase := Unclaimed)
    case Waiting(n, u, _) => q.(phase := Committing(n, u || unknown))
    case _ => q
  }

  /** One turn of the commitEntries loop with a successful load. */
  function AfterLoad(w: World, p: Run, ver: nat): World
    requires Enabled(w, CommitAttempt(p, ver))
  {
    var q := w.producers[p];
    var n, m := q.phase.n, ManAt(w, ver);
    match Decide(q, p, n, q.phase.unknown, m)
    case Fenced => Set(w, p, q.(phase := Halted(n)))
    case Partial => Set(w, p, q.(phase := Halted(n)))
    case Harvested(seqs) => Set(w, p, q.(done := q.done + n, acks := q.acks + seqs, phase := Flushing))
    case Send =>
      var put := Put(p, ver, AppendGroup(m, p, q.plans[q.done..q.done + n], q.done), Append(q.done, n));
      SendPut(w, put, q.(phase := Waiting(n, q.phase.unknown, |w.sent|)))
  }

  function Apply(z: Zstd, w: World, s: Step): World
    requires Enabled(w, s)
  {
    match s
    case Spawn(p, comp, legacy) => Set(w, p, Producer(0, Unclaimed, [], 0, [], 0, 0, [], comp, legacy))
    case ClaimAttempt(p, ver) =>
      var m := ManAt(w, ver);
      SendPut(w, Put(p, ver, m.(epoch := m.epoch + 1), Claim), w.producers[p].(phase := Claiming(|w.sent|)))
    case Land(id) =>
      var put := w.sent[id];
      SetStatus(w, id, Landed).(history := w.history + [Version(put.man, put.owner, put.kind.Claim?)])
    case Lose(id) => SetStatus(w, id, Dead)
    case AnswerOk(p) =>
      Set(w, p, AfterOk(w, w.producers[p], w.sent[Awaited(w.producers[p]).value]))
    case AnswerRefused(p) =>
      Set(SetStatus(w, Awaited(w.producers[p]).value, Dead), p, AfterNo(w.producers[p], false))
    case AnswerUnknown(p) => Set(w, p, AfterNo(w.producers[p], true))
    case Halt(p) => Set(w, p, w.producers[p].(phase := Halted(Attempted(w.producers[p]))))
    case Admit(p, item) => Set(w, p, w.producers[p].(admitted := w.producers[p].admitted + [item]))
    case StartFlush(p, cap, groups, nowMs) =>
      var q := w.producers[p];
      Set(w, p, q.(taken := |q.admitted|, plans := q.plans + Batches(groups, nowMs), phase := Uploading))
    case UploadLands(p, ordinal) =>
      var q := w.producers[p];
      w.(objects := w.objects[Location(p, ordinal) :=
        SegmentBytes(z, Flat(q.plans[ordinal].items), q.comp, q.legacy)])
    case FinishUploads(p, limit) => Set(w, p, w.producers[p].(limit := limit, phase := Flushing))
    case BeginGroup(p, n) => Set(w, p, w.producers[p].(phase := Committing(n, false)))
    case CommitAttempt(p, ver) => AfterLoad(w, p, ver)
    case EndFlush(p) => Set(w, p, w.producers[p].(phase := Ready))
  }

  /** A run: each step enabled in the state before it. */
  ghost predicate Leads(z: Zstd, w: World, steps: seq<Step>, w': World)
    decreases |steps|
  {
    if steps == [] then w' == w
    else Enabled(w, steps[0]) && Leads(z, Apply(z, w, steps[0]), steps[1..], w')
  }

  ghost predicate Reachable(z: Zstd, w: World) {
    exists steps :: Leads(z, INITIAL, steps, w)
  }
}
