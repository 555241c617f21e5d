/** The manifest object in the store: load it with its version, and swap it in against that version. */
module ManifestStores {
  import opened Bytes
  import opened Entries
  import opened ManifestCodec
  import opened Manifests
  import opened ObjectStores
  import opened Regions
  import opened Wrappers

  datatype Loaded = Loaded(m: Manifest, version: Option<nat>) | Unreadable(error: Error)

  datatype Swap = Swapped | Unencodable | Lost(why: Refusal)

  /** The manifest m holds what the raw form says. */
  ghost predicate Holds(m: Manifest, raw: Raw)
    reads m
  {
    && m.base == raw.region && m.baseCount == raw.count && m.appended == [] && m.appendedCount == 0
    && m.nextSequence == raw.nextSequence && m.epoch == raw.epoch && m.snapshot == raw.snapshot
  }

  /** The raw form that m is written as. */
  ghost function RawOf(m: Manifest): Raw
    reads m
  {
    Raw(m.base + m.appended, m.baseCount + m.appendedCount, m.nextSequence, m.epoch, m.snapshot)
  }

  /** The precondition a version stands for: no version is a missing object. */
  function ModeFor(version: Option<nat>): Mode {
    match version
    case None => Create
    case Some(etag) => Update(etag)
  }

  /** A load at that moment gave that version. */
  predicate SeenAt(history: seq<Write>, path: bytes, version: Option<nat>) {
    match Current(history, path)
    case None => version == None
    case Some(o) => version == Some(o.etag)
  }

  /** No version of the object was written between the two moments. */
  predicate Untouched(before: seq<Write>, after: seq<Write>, path: bytes) {
    VersionsOf(after, path) == VersionsOf(before, path)
  }

  /** The precondition sent with a version is met exactly as long as the object is untouched since it was seen. */
  lemma SwapsIfUntouched(before: seq<Write>, after: seq<Write>, path: bytes, version: Option<nat>)
    requires before <= after && SeenAt(before, path, version)
    ensures Lands(after, path, ModeFor(version)) <==> Untouched(before, after, path)
  {
    SwapIsExact(before, after, path);
    UnchangedIff(before, after, path);
  }

  class Store {
    const os: InMemory
    const path: bytes

    constructor (os: InMemory, path: bytes)
      ensures this.os == os && this.path == path
    {
      this.os, this.path := os, path;
    }

    /** The current manifest and its version; an empty one and no version if there is no object yet. */
    method Load() returns (r: Loaded)
      requires os.Valid()
      ensures match Current(os.history, path)
              case None =>
                r.Loaded? && r.version == None && fresh(r.m) && r.m.WellFormed(0) && r.m.Decoded() == Some([]) &&
                r.m.epoch == 0
              case Some(o) =>
                if Parse(o.data).Err? then r == Unreadable(Parse(o.data).error)
                else r.Loaded? && r.version == Some(o.etag) && fresh(r.m) && Holds(r.m, Parse(o.data).value)
    {
      hide Parse, ParseRegion;
      var o := os.Get(path);
      if o.None? {
        var m := new Manifest();
        return Loaded(m, None);
      }
      var m := ParseManifest(o.value.data);
      if m.Err? {
        return Unreadable(m.error);
      }
      r := Loaded(m.value, Some(o.value.etag));
    }

    /** Writes m if the object is still at the version it was loaded at. */
    method Commit(m: Manifest, version: Option<nat>) returns (r: Swap)
      requires os.Valid() && m.Typed()
      modifies os
      ensures os.Valid()
      ensures r.Unencodable? <==> m.baseCount + m.appendedCount > U32_MAX || |m.snapshot.location| > U16_MAX
      ensures forall before :: before <= old(os.history) && SeenAt(before, path, version) && !r.Unencodable? ==>
                (r.Swapped? <==> Untouched(before, old(os.history), path))
      ensures r.Lost? ==> r.why == if version.None? then AlreadyExists else PreconditionFailed
      ensures !r.Swapped? ==> os.history == old(os.history)
      ensures r.Swapped? ==>
                && |os.history| == |old(os.history)| + 1 && old(os.history) <= os.history
                && |VersionsOf(os.history, path)| == |VersionsOf(old(os.history), path)| + 1
                && Current(os.history, path).Some? && Current(os.history, path).value.etag == |os.history|
                && Parse(Current(os.history, path).value.data) == Ok(RawOf(m))
    {
      hide Parse, ParseRegion;
      var data := m.Serialized();
      if data.Err? {
        return Unencodable;
      }
      ghost var was := os.history;
      forall before | before <= was && SeenAt(before, path, version)
        ensures Lands(was, path, ModeFor(version)) <==> Untouched(before, was, path)
      {
        SwapsIfUntouched(before, was, path, version);
      }
      var refused := os.PutOpts(path, data.value, ModeFor(version));
      if refused.Some? {
        return Lost(refused.value);
      }
      WrittenShows(was, path, data.value, path);
      assert os.history[..|was|] == was;
      r := Swapped;
    }
  }

  /** A manifest that was swapped in is read back with the same entries, counters, epoch and snapshot. */
  method CommitThenLoad(store: Store, m: Manifest, version: Option<nat>) returns (r: Swap, l: Loaded)
    requires store.os.Valid() && m.Typed() && ParseRegion(m.base).Some?
    modifies store.os
    ensures r.Swapped? ==>
              && l.Loaded? && l.m.Decoded() == m.Decoded() && l.m.nextSequence == m.nextSequence
              && l.m.epoch == m.epoch && l.m.snapshot == m.snapshot
              && l.version == Some(|store.os.history|)
  {
    hide Parse, ParseRegion;
    r := store.Commit(m, version);
    l := store.Load();
    if r.Swapped? {
      RegionsInTurn(m.base, m.appended);
      EmptyRegion();
      NothingAfter(ParseRegion(l.m.base));
    }
  }

  /** Two writers that loaded the same version: once one has swapped its manifest in, the other is refused. */
  method CommitTwice(store: Store, m: Manifest, m': Manifest) returns (l: Loaded, r: Swap, r': Swap)
    requires store.os.Valid() && m.Typed() && m'.Typed()
    modifies store.os
    ensures l.Loaded? && !r.Unencodable? ==> r.Swapped?
    ensures l.Loaded? && r.Swapped? && !r'.Unencodable? ==> r'.Lost?
    ensures l.Loaded? && r.Swapped? ==>
              && Current(store.os.history, store.path).Some?
              && Parse(Current(store.os.history, store.path).value.data) == Ok(old(RawOf(m)))
  {
    hide Parse, ParseRegion, VersionsOf, LastWrite;
    l := store.Load();
    r, r' := Unencodable, Unencodable;
    if l.Loaded? {
      ghost var loaded := store.os.history;
      assert SeenAt(loaded, store.path, l.version);
      r := store.Commit(m, l.version);
      r' := store.Commit(m', l.version);
    }
  }

  lemma NothingAfter(r: Option<seq<Entry>>)
    ensures r.Some? ==> After(r.value, Some([])) == r
  {
    if r.Some? {
      assert r.value + [] == r.value;
    }
  }
}
