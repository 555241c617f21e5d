/** Runs of encoded entries: the manifest's base and side buffers. */
module Regions {
  import opened Bytes
  import opened Entries
  import opened EntryCodec
  import opened Wrappers

  predicate AllEncodable(entries: seq<Entry>, hasCount: bool) {
    forall i :: 0 <= i < |entries| ==> Encodable(entries[i], hasCount)
  }

  function RegionBytes(entries: seq<Entry>, hasCount: bool): bytes
    requires AllEncodable(entries, hasCount)
  {
    if entries == [] then [] else EntryBytes(entries[0], hasCount) + RegionBytes(entries[1..], hasCount)
  }

  /** What follows, behind entries already decoded. */
  function After(done: seq<Entry>, rest: Option<seq<Entry>>): Option<seq<Entry>> {
    match rest
    case Some(es) => Some(done + es)
    case None => None
  }

  lemma AfterAfter(a: seq<Entry>, b: seq<Entry>, r: Option<seq<Entry>>)
    ensures After(a, After(b, r)) == After(a + b, r)
    ensures After([], r) == r
  {
    if r.Some? {
      assert a + (b + r.value) == (a + b) + r.value;
      assert [] + r.value == r.value;
    }
  }

  /** Entries until the region is used up. */
  function ParseRegion(region: bytes): Option<seq<Entry>>
    decreases |region|
  {
    if region == [] then Some([])
    else
      match ParseEntry(region, true)
      case None => None
      case Some((e, n)) =>
        EntryWriteBack(region, true);
        After([e], ParseRegion(region[n..]))
  }

  lemma EmptyRegion()
    ensures ParseRegion([]) == Some([])
  {
  }

  /** The first count entries of the region, whatever follows them. */
  function ParseCount(region: bytes, count: nat, hasCount: bool): Option<seq<Entry>>
    decreases count
  {
    if count == 0 then Some([])
    else
      match ParseEntry(region, hasCount)
      case None => None
      case Some((e, n)) =>
        EntryWriteBack(region, hasCount);
        After([e], ParseCount(region[n..], count - 1, hasCount))
  }

  lemma {:induction false} RegionConcat(a: seq<Entry>, b: seq<Entry>, hasCount: bool)
    requires AllEncodable(a, hasCount) && AllEncodable(b, hasCount)
    ensures AllEncodable(a + b, hasCount)
    ensures RegionBytes(a + b, hasCount) == RegionBytes(a, hasCount) + RegionBytes(b, hasCount)
  {
    if a == [] {
      assert a + b == b;
    } else {
      assert (a + b)[1..] == a[1..] + b;
      RegionConcat(a[1..], b, hasCount);
      ConcatAssociates(EntryBytes(a[0], hasCount), RegionBytes(a[1..], hasCount), RegionBytes(b, hasCount));
    }
  }

  /** A region that begins with an encoded entry is that entry and the rest. */
  lemma RegionCons(e: Entry, rest: bytes)
    requires Encodable(e, true)
    ensures ParseRegion(EntryBytes(e, true) + rest) == After([e], ParseRegion(rest))
  {
    EntryReadBack(e, true, rest);
    Cut(EntryBytes(e, true), rest);
  }

  lemma {:induction false} RegionReadBack(entries: seq<Entry>)
    requires AllEncodable(entries, true)
    ensures ParseRegion(RegionBytes(entries, true)) == Some(entries)
  {
    if entries != [] {
      RegionCons(entries[0], RegionBytes(entries[1..], true));
      RegionReadBack(entries[1..]);
      assert [entries[0]] + entries[1..] == entries;
    }
  }

  lemma CountNone(data: bytes, hasCount: bool)
    ensures ParseCount(data, 0, hasCount) == Some([])
  {
  }

  lemma CountStep(data: bytes, hasCount: bool, e: Entry, used: nat, rest: bytes, es: seq<Entry>)
    requires used <= |data| && ParseEntry(data, hasCount) == Some((e, used)) && data[used..] == rest
    requires ParseCount(rest, |es|, hasCount) == Some(es)
    ensures ParseCount(data, 1 + |es|, hasCount) == Some([e] + es)
  {
    hide ParseEntry;
  }

  lemma {:induction false} CountReadBack(entries: seq<Entry>, hasCount: bool, tail: bytes)
    requires AllEncodable(entries, hasCount)
    ensures ParseCount(RegionBytes(entries, hasCount) + tail, |entries|, hasCount) == Some(entries)
    decreases |entries|
  {
    hide ParseEntry, EntryBytes, ParseCount;
    if entries != [] {
      var head, rest := EntryBytes(entries[0], hasCount), RegionBytes(entries[1..], hasCount);
      ConcatAssociates(head, rest, tail);
      EntryReadBack(entries[0], hasCount, rest + tail);
      Cut(head, rest + tail);
      CountReadBack(entries[1..], hasCount, tail);
      CountStep(head + (rest + tail), hasCount, entries[0], |head|, rest + tail, entries[1..]);
      assert [entries[0]] + entries[1..] == entries;
    } else {
      CountNone(RegionBytes(entries, hasCount) + tail, hasCount);
    }
  }

  /** The first entry of a region that parses, and what follows it. */
  lemma RegionHead(region: bytes) returns (e: Entry, rest: bytes)
    requires region != [] && ParseRegion(region).Some?
    ensures Encodable(e, true) && region == EntryBytes(e, true) + rest && |rest| < |region|
    ensures ParseRegion(rest).Some? && ParseRegion(region).value == [e] + ParseRegion(rest).value
  {
    EntryWriteBack(region, true);
    e := ParseEntry(region, true).value.0;
    rest := region[ParseEntry(region, true).value.1..];
    Rejoin(region, ParseEntry(region, true).value.1);
  }

  /** A region has one reading only, and it re-encodes to the region. */
  lemma {:induction false} RegionWriteBack(region: bytes)
    requires ParseRegion(region).Some?
    ensures AllEncodable(ParseRegion(region).value, true)
    ensures RegionBytes(ParseRegion(region).value, true) == region
    decreases |region|
  {
    if region != [] {
      var e, rest := RegionHead(region);
      RegionWriteBack(rest);
      assert ParseRegion(region).value[1..] == ParseRegion(rest).value;
    }
  }

  /** Decoding two buffers one after the other is decoding their concatenation, errors included. */
  lemma {:induction false} RegionsInTurn(a: bytes, b: bytes)
    requires ParseRegion(a).Some?
    ensures ParseRegion(a + b) == After(ParseRegion(a).value, ParseRegion(b))
    decreases |a|
  {
    if a == [] {
      assert a + b == b;
      AfterAfter([], [], ParseRegion(b));
    } else {
      var e, rest := RegionHead(a);
      ConcatAssociates(EntryBytes(e, true), rest, b);
      RegionCons(e, rest + b);
      RegionsInTurn(rest, b);
      AfterAfter([e], ParseRegion(rest).value, ParseRegion(b));
    }
  }

  lemma RejoinEntries(entries: seq<Entry>, k: nat)
    requires k <= |entries|
    ensures entries[..k] + entries[k..] == entries
  {
  }

  /** Dropping leading entries drops leading bytes and nothing else. */
  lemma RegionSuffix(entries: seq<Entry>, k: nat)
    requires AllEncodable(entries, true) && k <= |entries|
    ensures AllEncodable(entries[..k], true) && AllEncodable(entries[k..], true)
    ensures RegionBytes(entries, true) == RegionBytes(entries[..k], true) + RegionBytes(entries[k..], true)
  {
    RejoinEntries(entries, k);
    RegionConcat(entries[..k], entries[k..], true);
  }

  lemma SnocBytes(entries: seq<Entry>, e: Entry)
    requires AllEncodable(entries, true) && Encodable(e, true)
    ensures AllEncodable(entries + [e], true)
    ensures RegionBytes(entries + [e], true) == RegionBytes(entries, true) + EntryBytes(e, true)
  {
    assert [e][1..] == [];
    assert EntryBytes(e, true) + [] == EntryBytes(e, true);
    RegionConcat(entries, [e], true);
  }

  /** The Entries loop over one region. */
  method DecodeRegion(region: bytes) returns (r: Option<seq<Entry>>)
    ensures r == ParseRegion(region)
  {
    var out: seq<Entry> := [];
    var off := 0;
    assert region[0..] == region;
    AfterAfter([], [], ParseRegion(region));
    while off < |region|
      invariant off <= |region|
      invariant ParseRegion(region) == After(out, ParseRegion(region[off..]))
    {
      var d := DecodeEntry(region, off, true);
      if d.None? {
        return None;
      }
      var (e, next) := d.value;
      EntryWriteBack(region[off..], true);
      assert region[off..][next - off..] == region[next..];
      AfterAfter(out, [e], ParseRegion(region[next..]));
      out := out + [e];
      off := next;
    }
    assert region[off..] == [] && out + [] == out;
    r := Some(out);
  }

  /** The re-encoding loop of TruncateThrough and of the legacy upgrade. */
  method EncodeRegion(entries: seq<Entry>) returns (r: Option<bytes>)
    requires forall i :: 0 <= i < |entries| ==> Typed(entries[i])
    ensures r.Some? <==> AllEncodable(entries, true)
    ensures r.Some? ==> r.value == RegionBytes(entries, true)
  {
    var out: bytes := [];
    for i := 0 to |entries|
      invariant AllEncodable(entries[..i], true)
      invariant out == RegionBytes(entries[..i], true)
    {
      var d := EncodeEntry(out, entries[i]);
      if d.None? {
        return None;
      }
      assert entries[..i + 1] == entries[..i] + [entries[i]];
      SnocBytes(entries[..i], entries[i]);
      out := d.value;
    }
    assert entries[..|entries|] == entries;
    r := Some(out);
  }
}
