/** The in-memory manifest: parsed bytes in base, new entries in a side buffer. */
module Manifests {
  import opened Bytes
  import opened Entries
  import opened EntryCodec
  import opened ManifestCodec
  import opened ManifestIndex
  import opened Regions
  import opened Wrappers

  // ---------------------------------------------------------------- the class

  class Manifest {
    var base: bytes
    var baseCount: nat
    var appended: bytes
    var appendedCount: nat
    var nextSequence: nat
    var epoch: nat
    var snapshot: Snapshot

    /** What Entries decodes: the base region, then the side buffer. */
    ghost function Decoded(): Option<seq<Entry>>
      reads this
    {
      match ParseRegion(base)
      case None => None
      case Some(es) => After(es, ParseRegion(appended))
    }

    /** The fields are within their widths. */
    ghost predicate Typed()
      reads this
    {
      && nextSequence <= U64_MAX && epoch <= U64_MAX
      && snapshot.throughSeq <= U64_MAX && IsI64(snapshot.createdMs)
    }

    /** The counters agree with the regions and the entries tile [lo, nextSequence). */
    ghost predicate WellFormed(lo: nat)
      reads this
    {
      && Typed()
      && ParseRegion(base).Some? && |ParseRegion(base).value| == baseCount
      && ParseRegion(appended).Some? && |ParseRegion(appended).value| == appendedCount
      && Tiles(Decoded().value, lo, nextSequence)
    }

    constructor ()
      ensures WellFormed(0) && Decoded() == Some([]) && nextSequence == 0 && epoch == 0 && snapshot == NO_SNAPSHOT
    {
      base, baseCount, appended, appendedCount := [], 0, [], 0;
      nextSequence, epoch, snapshot := 0, 0, NO_SNAPSHOT;
    }

    constructor FromRaw(m: Raw)
      ensures base == m.region && baseCount == m.count && appended == [] && appendedCount == 0
      ensures nextSequence == m.nextSequence && epoch == m.epoch && snapshot == m.snapshot
    {
      base, baseCount, appended, appendedCount := m.region, m.count, [], 0;
      nextSequence, epoch, snapshot := m.nextSequence, m.epoch, m.snapshot;
    }

    /** Bytes: the current form, refused only when the entry count or the snapshot location is too long. */
    method Serialized() returns (r: Result<bytes>)
      requires Typed()
      ensures r.Ok? <==> baseCount + appendedCount <= U32_MAX && |snapshot.location| <= U16_MAX
      ensures r.Ok? ==>
                Parse(r.value) == Ok(Raw(base + appended, baseCount + appendedCount, nextSequence, epoch, snapshot))
      ensures r.Ok? && ParseRegion(base).Some? ==> ParseRegion(Parse(r.value).value.region) == Decoded()
    {
      hide ParseRegion, Parse, Serialize;
      if baseCount + appendedCount > U32_MAX || |snapshot.location| > U16_MAX {
        return Err(Malformed);
      }
      var m := Raw(base + appended, baseCount + appendedCount, nextSequence, epoch, snapshot);
      ParseSerialized(m);
      if ParseRegion(base).Some? {
        RegionsInTurn(base, appended);
      }
      r := Ok(Serialize(m, CHECKSUM_VERSION));
    }

    /** Append: the new entry takes the next count sequences; on an error nothing changes. */
    method Append(location: bytes, md: seq<RecordMeta>, count: nat) returns (r: Result<nat>)
      requires Typed() && nextSequence + count <= U64_MAX
      requires forall i :: 0 <= i < |md| ==> TypedMeta(md[i])
      modifies this`appended, this`appendedCount, this`nextSequence
      ensures r.Ok? <==> 1 <= count <= U32_MAX && Encodable(Entry(old(nextSequence), count, location, md), true)
      ensures r.Err? ==> unchanged(this)
      ensures r.Ok? ==>
                && r.value == old(nextSequence) && nextSequence == old(nextSequence) + count
                && appendedCount == old(appendedCount) + 1
      ensures r.Ok? && old(Decoded()).Some? ==>
                Decoded() == Some(old(Decoded()).value + [Entry(old(nextSequence), count, location, md)])
      ensures forall lo :: r.Ok? && old(WellFormed(lo)) ==> WellFormed(lo)
    {
      if count < 1 || count > U32_MAX {
        return Err(Malformed);
      }
      var e := Entry(nextSequence, count, location, md);
      var enc := EncodeEntry(appended, e);
      if enc.None? {
        return Err(Malformed);
      }
      ghost var was := Decoded();
      if ParseRegion(appended).Some? {
        SnocRegion(appended, e);
      }
      appended := enc.value;
      appendedCount := appendedCount + 1;
      nextSequence := nextSequence + count;
      r := Ok(e.sequence);
      if was.Some? {
        AfterAfter(ParseRegion(base).value, ParseRegion(old(appended)).value, Some([e]));
        forall lo | old(WellFormed(lo))
          ensures WellFormed(lo)
        {
          assert Tiles([e][1..], nextSequence, nextSequence);
          TilesConcat(was.value, [e], lo, old(nextSequence), nextSequence);
        }
      }
    }

    method SetEpoch(e: nat)
      requires Typed() && e <= U64_MAX
      modifies this`epoch
      ensures epoch == e && Typed() && Decoded() == old(Decoded())
    {
      epoch := e;
    }

    method Entries() returns (r: Option<seq<Entry>>)
      ensures r == Decoded()
    {
      var b := DecodeRegion(base);
      if b.None? {
        return None;
      }
      var a := DecodeRegion(appended);
      if a.None? {
        return None;
      }
      r := Some(b.value + a.value);
    }

    method EntriesContaining(s: nat) returns (r: Option<seq<Entry>>)
      ensures Decoded().None? ==> r == None
      ensures Decoded().Some? ==> r == Some(Containing(Decoded().value, s))
    {
      var all := Entries();
      if all.None? {
        return None;
      }
      var out := SelectContaining(all.value, s);
      r := Some(out);
    }

    /** Locate: the binary search finds what the linear scan finds; entries that do not decode hold nothing. */
    method Locate(s: nat, ghost lo: nat) returns (e: Option<(Entry, nat)>)
      requires Decoded().Some? ==> Tiles(Decoded().value, lo, nextSequence)
      ensures Decoded().None? ==> e == None
      ensures Decoded().Some? ==>
              match Scan(Decoded().value, s)
              case None => e == None
              case Some(i) => i < |Decoded().value| && Decoded().value[i].sequence <= s &&
                              e == Some((Decoded().value[i], s - Decoded().value[i].sequence))
    {
      var decoded := Entries();
      if decoded.None? {
        return None;
      }
      var all := decoded.value;
      ScanFindsOwner(all, lo, nextSequence, s);
      ContainingIsSuffix(all, lo, nextSequence, s);
      var k := SearchOwner(all, s, lo, nextSequence);
      if k < |all| {
        TilesWithin(all, lo, nextSequence, k);
      }
      if k < |all| && all[k].Contains(s) {
        e := Some((all[k], s - all[k].sequence));
      } else {
        e := None;
      }
    }

    /** Replaces all entries by the ones kept, encoded afresh into the base. */
    method Rebase(kept: seq<Entry>, ghost lo: nat)
      requires Typed() && AllEncodable(kept, true) && ParseRegion(RegionBytes(kept, true)) == Some(kept)
      requires Tiles(kept, lo, nextSequence)
      modifies this`base, this`baseCount, this`appended, this`appendedCount
      ensures base == RegionBytes(kept, true) && appended == [] && Decoded() == Some(kept) && WellFormed(lo)
    {
      hide ParseRegion, RegionBytes, Tiles;
      var enc := EncodeRegion(kept);
      KeptDecodes(kept, enc.value);
      base, baseCount := enc.value, |kept|;
      appended, appendedCount := [], 0;
    }

    /** TruncateThrough: what is kept is a suffix of the entries and, byte for byte, of their encoding. */
    method TruncateThrough(through: nat, ghost lo: nat) returns (r: Result<nat>)
      requires Decoded().Some? ==> WellFormed(lo)
      modifies this`base, this`baseCount, this`appended, this`appendedCount
      ensures r.Ok? <==> old(Decoded()).Some?
      ensures r.Ok? ==> r.value == Before(old(Decoded()).value, through + 1)
      ensures r.Err? || r.value == 0 ==> unchanged(this)
      ensures r.Ok? ==> Decoded() == Some(old(Decoded()).value[r.value..])
      ensures IsSuffix(base + appended, old(base + appended))
      ensures r.Ok? ==> WellFormed(if r.value == 0 then lo else old(Decoded()).value[r.value - 1].End())
    {
      hide ParseRegion, RegionBytes, Tiles, Before;
      var decoded := Entries();
      if decoded.None? {
        return Err(Malformed);
      }
      var all := decoded.value;
      var kept, removed := SelectKept(all, through, lo, nextSequence);
      if removed == 0 {
        assert all[0..] == all;
        return Ok(0);
      }
      TruncatedRegion(base, appended, removed);
      SuffixTiles(all, lo, nextSequence, removed);
      Rebase(kept, all[removed - 1].End());
      r := Ok(removed);
    }

    method TailLocations(limit: nat) returns (r: Option<map<bytes, Entry>>)
      ensures limit == 0 ==> r == Some(map[])
      ensures limit > 0 ==>
                match Decoded()
                case None => r == None
                case Some(all) => r == Some(ByLocation(Tail(all, limit))) && Indexes(r.value, Tail(all, limit))
    {
      if limit == 0 {
        return Some(map[]);
      }
      var decoded := Entries();
      if decoded.None? {
        return None;
      }
      var out := IndexLocations(Tail(decoded.value, limit));
      r := Some(out);
    }
  }

  /** A loaded manifest with more entries appended, up to next sequence hi. */
  function Extended(m: Raw, more: seq<Entry>, hi: nat): (r: Raw)
    requires AllEncodable(more, true)
    ensures r.epoch == m.epoch && r.snapshot == m.snapshot
  {
    m.(region := m.region + RegionBytes(more, true), count := m.count + |more|, nextSequence := hi)
  }

  /** A legacy manifest, loaded, appended to and saved, is read back with its old entries, one sequence each, and the
      new per-record ones tiling on from where the old ones ended. */
  lemma UpgradeThenAppend(entries: seq<Entry>, more: seq<Entry>, m: Raw, version: nat, lo: nat, hi: nat)
    requires Fits(m) && (version == BUFFER_VERSION || version == SNAPSHOT_VERSION)
    requires version == BUFFER_VERSION ==> m.snapshot == NO_SNAPSHOT
    requires AllEncodable(entries, false) && AllEncodable(entries, true) && Tiles(entries, lo, m.nextSequence)
    requires m.region == RegionBytes(entries, false) && m.count == |entries|
    requires AllEncodable(more, true) && Tiles(more, m.nextSequence, hi)
    requires |entries| + |more| <= U32_MAX && hi <= U64_MAX
    ensures Parse(Serialize(m, version)) == Ok(m.(region := RegionBytes(entries, true)))
    ensures var saved := Extended(m.(region := RegionBytes(entries, true)), more, hi);
            && Parse(Serialize(saved, CHECKSUM_VERSION)) == Ok(saved)
            && ParseRegion(saved.region) == Some(entries + more) && saved.count == |entries + more|
            && Tiles(entries + more, lo, saved.nextSequence)
    ensures forall i :: 0 <= i < |entries| ==> (entries + more)[i].End() == (entries + more)[i].sequence + 1
  {
    hide Parse, Serialize, ParseRegion, RegionBytes, AllEncodable, Tiles;
    LegacyUpgrade(entries, m, version);
    RegionReadBack(more);
    RegionsInTurn(RegionBytes(entries, true), RegionBytes(more, true));
    ParseSerialized(Extended(m.(region := RegionBytes(entries, true)), more, hi));
    TilesConcat(entries, more, lo, m.nextSequence, hi);
  }

  /** A freshly encoded region with nothing behind it. */
  lemma KeptDecodes(kept: seq<Entry>, enc: bytes)
    requires ParseRegion(enc) == Some(kept)
    ensures After(kept, ParseRegion([])) == Some(kept) && enc + [] == enc && ParseRegion([]) == Some([])
  {
    hide ParseRegion;
    EmptyRegion();
    assert kept + [] == kept;
  }

  predicate IsSuffix(a: bytes, b: bytes) { |a| <= |b| && b[|b| - |a|..] == a }

  /** Re-encoding the entries kept from two buffers gives a suffix of the buffers. */
  lemma TruncatedRegion(base: bytes, appended: bytes, k: nat)
    requires ParseRegion(base).Some? && ParseRegion(appended).Some?
    requires k <= |ParseRegion(base).value + ParseRegion(appended).value|
    ensures var kept := (ParseRegion(base).value + ParseRegion(appended).value)[k..];
            && AllEncodable(kept, true)
            && IsSuffix(RegionBytes(kept, true), base + appended)
            && ParseRegion(RegionBytes(kept, true)) == Some(kept)
  {
    var a, b := ParseRegion(base).value, ParseRegion(appended).value;
    RegionWriteBack(base);
    RegionWriteBack(appended);
    RegionConcat(a, b, true);
    RegionSuffix(a + b, k);
    Cut(RegionBytes((a + b)[..k], true), RegionBytes((a + b)[k..], true));
    RegionReadBack((a + b)[k..]);
  }

  lemma SnocRegion(region: bytes, e: Entry)
    requires ParseRegion(region).Some? && Encodable(e, true)
    ensures ParseRegion(region + EntryBytes(e, true)) == Some(ParseRegion(region).value + [e])
  {
    RegionsInTurn(region, EntryBytes(e, true));
    RegionCons(e, []);
    assert EntryBytes(e, true) + [] == EntryBytes(e, true);
    assert [e] + [] == [e];
  }

  /** An entry that does not fit the current encoding stops the upgrade, whatever follows it. */
  lemma UpgradeStops(region: bytes, count: nat, done: seq<Entry>, e: Entry, rest: Option<seq<Entry>>)
    requires ParseCount(region, count, false) == After(done + [e], rest) && !Encodable(e, true)
    ensures Upgrade(region, count) == Err(Malformed)
  {
    if rest.Some? {
      assert (done + [e] + rest.value)[|done|] == e;
    }
  }

  /** upgradeLegacyEntries: decode without a count, encode with one. */
  method UpgradeLegacyEntries(region: bytes, count: nat) returns (r: Result<bytes>)
    ensures r == Upgrade(region, count)
  {
    hide ParseEntry, EntryBytes;
    var out: bytes := [];
    var off := 0;
    ghost var done: seq<Entry> := [];
    assert region[0..] == region;
    AfterAfter([], [], ParseCount(region, count, false));
    for i := 0 to count
      invariant off <= |region|
      invariant AllEncodable(done, true) && out == RegionBytes(done, true)
      invariant ParseCount(region, count, false) == After(done, ParseCount(region[off..], count - i, false))
    {
      var d := DecodeEntry(region, off, false);
      if d.None? {
        return Err(Malformed);
      }
      var (e, next) := d.value;
      EntryWriteBack(region[off..], false);
      assert region[off..][next - off..] == region[next..];
      AfterAfter(done, [e], ParseCount(region[next..], count - i - 1, false));
      var enc := EncodeEntry(out, e);
      if enc.None? {
        UpgradeStops(region, count, done, e, ParseCount(region[next..], count - i - 1, false));
        return Err(Malformed);
      }
      SnocBytes(done, e);
      out := enc.value;
      done := done + [e];
      off := next;
    }
    assert done + [] == done;
    r := Ok(out);
  }

  /** ParseManifest: the in-memory form of what the bytes say, or their error. */
  method ParseManifest(data: bytes) returns (r: Result<Manifest>)
    ensures Parse(data).Err? ==> r == Err(Parse(data).error)
    ensures Parse(data).Ok? ==>
              && r.Ok? && fresh(r.value)
              && r.value.base == Parse(data).value.region && r.value.baseCount == Parse(data).value.count
              && r.value.appended == [] && r.value.appendedCount == 0
              && r.value.nextSequence == Parse(data).value.nextSequence
              && r.value.epoch == Parse(data).value.epoch && r.value.snapshot == Parse(data).value.snapshot
  {
    var frame := ParseFrame(data);
    if frame.Err? {
      return Err(frame.error);
    }
    var (raw, version) := frame.value;
    if version < RECORD_COUNT_VERSION {
      var upgraded := UpgradeLegacyEntries(raw.region, raw.count);
      if upgraded.Err? {
        return Err(upgraded.error);
      }
      raw := raw.(region := upgraded.value);
    }
    var m := new Manifest.FromRaw(raw);
    r := Ok(m);
  }
}
