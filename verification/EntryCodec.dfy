/** The binary form of one manifest entry, in the current encoding (with a count) and the legacy one (without). */
module EntryCodec {
  import opened Bytes
  import opened Entries
  import opened Wrappers

  const META_HEADER := 16

  // ---------------------------------------------------------------- the format

  predicate TypedMeta(md: RecordMeta) { md.startIndex <= U32_MAX && IsI64(md.ingestionMs) }

  /** The fields fit the integer types they are declared with. */
  predicate Typed(e: Entry) {
    && e.sequence <= U64_MAX
    && e.count <= U32_MAX
    && forall i :: 0 <= i < |e.metadata| ==> TypedMeta(e.metadata[i])
  }

  /** One annotation in front of tail. */
  function MetaBytes(md: RecordMeta, tail: bytes): (b: bytes)
    requires TypedMeta(md)
    ensures |b| == META_HEADER + |md.payload| + |tail|
  {
    ToLE(md.startIndex, 4) + (ToLE(ToU64(md.ingestionMs), 8) + (ToLE(|md.payload|, 4) + (md.payload + tail)))
  }

  function MetasBytes(mds: seq<RecordMeta>): bytes
    requires forall i :: 0 <= i < |mds| ==> TypedMeta(mds[i])
  {
    if mds == [] then [] else MetaBytes(mds[0], MetasBytes(mds[1..]))
  }

  /** The location behind its length, then the annotations behind their number. */
  function LocatedBytes(location: bytes, mds: seq<RecordMeta>): bytes
    requires forall i :: 0 <= i < |mds| ==> TypedMeta(mds[i])
  {
    ToLE(|location|, 2) + (location + (ToLE(|mds|, 4) + MetasBytes(mds)))
  }

  function BodyBytes(e: Entry, hasCount: bool): bytes
    requires Typed(e)
  {
    var located := LocatedBytes(e.location, e.metadata);
    ToLE(e.sequence, 8) + if hasCount then ToLE(e.count, 4) + located else located
  }

  /** Every length is within the width of the field that announces it; the legacy form cannot say a count. */
  predicate Encodable(e: Entry, hasCount: bool) {
    && Typed(e)
    && (forall i :: 0 <= i < |e.metadata| ==> |e.metadata[i].payload| <= U32_MAX)
    && |e.location| <= U16_MAX
    && |BodyBytes(e, hasCount)| <= U32_MAX
    && (hasCount || e.count == 0)
  }

  function EntryBytes(e: Entry, hasCount: bool): bytes
    requires Typed(e)
  {
    ToLE(|BodyBytes(e, hasCount)|, 4) + BodyBytes(e, hasCount)
  }

  // ---------------------------------------------------------------- reading it

  lemma FieldBounds(b: bytes)
    ensures |b| == 2 ==> FromLE(b) <= U16_MAX
    ensures |b| == 4 ==> FromLE(b) <= U32_MAX
    ensures |b| == 8 ==> FromLE(b) <= U64_MAX
  {
    FromLEBound(b);
    PowWidths();
  }

  /** The annotation at the front of b and what follows it. */
  function ParseMeta(b: bytes): Option<(RecordMeta, bytes)> {
    if |b| < META_HEADER then None
    else
      var b1 := b[4..];
      var b2 := b1[8..];
      var plen := FromLE(b2[..4]);
      var b3 := b2[4..];
      if plen > |b3| then None
      else
        FieldBounds(b1[..8]);
        Some((RecordMeta(FromLE(b[..4]), FromU64(FromLE(b1[..8])), b3[..plen]), b3[plen..]))
  }

  /** Exactly n annotations, using up all of b. */
  function ParseMetas(b: bytes, n: nat): Option<seq<RecordMeta>>
    decreases n
  {
    if n == 0 then
      if b == [] then Some([]) else None
    else
      match ParseMeta(b)
      case None => None
      case Some((md, rest)) =>
        match ParseMetas(rest, n - 1)
        case None => None
        case Some(mds) => Some([md] + mds)
  }

  function ParseLocated(b: bytes): Option<(bytes, seq<RecordMeta>)>
    requires |b| >= 2
  {
    var l := FromLE(b[..2]);
    var b1 := b[2..];
    if l > |b1| || |b1[l..]| < 4 then None
    else
      match ParseMetas(b1[l..][4..], FromLE(b1[l..][..4]))
      case None => None
      case Some(mds) => Some((b1[..l], mds))
  }

  function MinBody(hasCount: bool): nat { if hasCount then 18 else 14 }

  function ParseBody(body: bytes, hasCount: bool): Option<Entry>
    requires |body| >= MinBody(hasCount)
  {
    var b1 := body[8..];
    match ParseLocated(if hasCount then b1[4..] else b1)
    case None => None
    case Some((location, mds)) =>
      Some(Entry(FromLE(body[..8]), if hasCount then FromLE(b1[..4]) else 0, location, mds))
  }

  /** The entry at the front of data and the number of bytes it takes. */
  function ParseEntry(data: bytes, hasCount: bool): Option<(Entry, nat)> {
    if |data| < 4 then None
    else
      var n := FromLE(data[..4]);
      var d1 := data[4..];
      if n < MinBody(hasCount) || n > |d1| then None
      else
        match ParseBody(d1[..n], hasCount)
        case None => None
        case Some(e) => Some((e, 4 + n))
  }

  // ---------------------------------------------------------------- round trip

  lemma MetaReadBack(md: RecordMeta, tail: bytes)
    requires TypedMeta(md) && |md.payload| <= U32_MAX
    ensures ParseMeta(MetaBytes(md, tail)) == Some((md, tail))
  {
    PowWidths();
    var b3 := md.payload + tail;
    var b2 := ToLE(|md.payload|, 4) + b3;
    var b1 := ToLE(ToU64(md.ingestionMs), 8) + b2;
    FieldReadBack(md.startIndex, 4, b1);
    FieldReadBack(ToU64(md.ingestionMs), 8, b2);
    FieldReadBack(|md.payload|, 4, b3);
    Cut(md.payload, tail);
  }

  lemma {:induction false} MetasReadBack(mds: seq<RecordMeta>)
    requires forall i :: 0 <= i < |mds| ==> TypedMeta(mds[i]) && |mds[i].payload| <= U32_MAX
    ensures ParseMetas(MetasBytes(mds), |mds|) == Some(mds)
  {
    if mds != [] {
      MetasReadBack(mds[1..]);
      MetaReadBack(mds[0], MetasBytes(mds[1..]));
      assert [mds[0]] + mds[1..] == mds;
    }
  }

  lemma {:induction false} MetasBytesLength(mds: seq<RecordMeta>)
    requires forall i :: 0 <= i < |mds| ==> TypedMeta(mds[i])
    ensures |MetasBytes(mds)| >= META_HEADER * |mds|
  {
    if mds != [] {
      MetasBytesLength(mds[1..]);
    }
  }

  lemma LocatedReadBack(location: bytes, mds: seq<RecordMeta>)
    requires |location| <= U16_MAX && |mds| <= U32_MAX
    requires forall i :: 0 <= i < |mds| ==> TypedMeta(mds[i]) && |mds[i].payload| <= U32_MAX
    ensures |LocatedBytes(location, mds)| >= 6
    ensures ParseLocated(LocatedBytes(location, mds)) == Some((location, mds))
  {
    PowWidths();
    var b2 := ToLE(|mds|, 4) + MetasBytes(mds);
    FieldReadBack(|location|, 2, location + b2);
    Cut(location, b2);
    FieldReadBack(|mds|, 4, MetasBytes(mds));
    MetasReadBack(mds);
  }

  lemma BodyReadBack(e: Entry, hasCount: bool)
    requires Encodable(e, hasCount)
    ensures |BodyBytes(e, hasCount)| >= MinBody(hasCount)
    ensures ParseBody(BodyBytes(e, hasCount), hasCount) == Some(e)
  {
    PowWidths();
    MetasBytesLength(e.metadata);
    LocatedReadBack(e.location, e.metadata);
    var located := LocatedBytes(e.location, e.metadata);
    FieldReadBack(e.sequence, 8, if hasCount then ToLE(e.count, 4) + located else located);
    FieldReadBack(e.count, 4, located);
  }

  /** An encoded entry followed by anything parses to the entry and stops where it ends. */
  lemma EntryReadBack(e: Entry, hasCount: bool, rest: bytes)
    requires Encodable(e, hasCount)
    ensures ParseEntry(EntryBytes(e, hasCount) + rest, hasCount) == Some((e, |EntryBytes(e, hasCount)|))
  {
    PowWidths();
    BodyReadBack(e, hasCount);
    var body := BodyBytes(e, hasCount);
    ConcatAssociates(ToLE(|body|, 4), body, rest);
    FieldReadBack(|body|, 4, body + rest);
    Cut(body, rest);
  }

  // ---------------------------------------------------------------- only one form

  lemma MetaWriteBack(b: bytes)
    requires ParseMeta(b).Some?
    ensures var (md, rest) := ParseMeta(b).value;
            && TypedMeta(md) && |md.payload| <= U32_MAX
            && |rest| < |b|
            && MetaBytes(md, rest) == b
  {
    PowWidths();
    var b1 := b[4..];
    var b2 := b1[8..];
    var b3 := b2[4..];
    FieldWriteBack(b, 4);
    FieldWriteBack(b1, 8);
    FieldWriteBack(b2, 4);
    Rejoin(b3, FromLE(b2[..4]));
  }

  lemma {:induction false} MetasWriteBack(b: bytes, n: nat)
    requires ParseMetas(b, n).Some?
    ensures var mds := ParseMetas(b, n).value;
            && |mds| == n
            && (forall i :: 0 <= i < |mds| ==> TypedMeta(mds[i]) && |mds[i].payload| <= U32_MAX)
            && MetasBytes(mds) == b
    decreases n
  {
    hide ParseMeta, MetaBytes;
    if n > 0 {
      var (md, rest) := ParseMeta(b).value;
      MetaWriteBack(b);
      MetasWriteBack(rest, n - 1);
      assert ParseMetas(b, n).value[1..] == ParseMetas(rest, n - 1).value;
    }
  }

  lemma LocatedWriteBack(b: bytes)
    requires |b| >= 2 && ParseLocated(b).Some?
    ensures var (location, mds) := ParseLocated(b).value;
            && |location| <= U16_MAX
            && (forall i :: 0 <= i < |mds| ==> TypedMeta(mds[i]) && |mds[i].payload| <= U32_MAX)
            && LocatedBytes(location, mds) == b
  {
    PowWidths();
    var l := FromLE(b[..2]);
    var b1 := b[2..];
    FieldWriteBack(b, 2);
    Rejoin(b1, l);
    FieldWriteBack(b1[l..], 4);
    MetasWriteBack(b1[l..][4..], FromLE(b1[l..][..4]));
  }

  lemma BodyWriteBack(body: bytes, hasCount: bool)
    requires MinBody(hasCount) <= |body| <= U32_MAX && ParseBody(body, hasCount).Some?
    ensures Encodable(ParseBody(body, hasCount).value, hasCount)
    ensures BodyBytes(ParseBody(body, hasCount).value, hasCount) == body
  {
    PowWidths();
    var b1 := body[8..];
    FieldWriteBack(body, 8);
    FieldWriteBack(b1, 4);
    LocatedWriteBack(if hasCount then b1[4..] else b1);
  }

  /** The encoding is canonical: whatever bytes are accepted as an entry are the bytes that entry encodes to. */
  lemma EntryWriteBack(data: bytes, hasCount: bool)
    requires ParseEntry(data, hasCount).Some?
    ensures var (e, n) := ParseEntry(data, hasCount).value;
            && 4 < n <= |data|
            && Encodable(e, hasCount)
            && EntryBytes(e, hasCount) == data[..n]
  {
    hide ParseBody, BodyBytes, FromLE, ToLE;
    PowWidths();
    var n := FromLE(data[..4]);
    FieldWriteBack(data, 4);
    BodyWriteBack(data[4..][..n], hasCount);
    assert data[..4] + data[4..][..n] == data[..4 + n];
    WriteBack(data[..4]);
  }

  // ---------------------------------------------------------------- the loops

  lemma MetaTail(md: RecordMeta, tail: bytes)
    requires TypedMeta(md)
    ensures MetaBytes(md, tail) == MetaBytes(md, []) + tail
  {
    var a, b, c, p := ToLE(md.startIndex, 4), ToLE(ToU64(md.ingestionMs), 8), ToLE(|md.payload|, 4), md.payload;
    assert p + [] == p;
    ConcatAssociates(a, b + (c + p), tail);
    ConcatAssociates(b, c + p, tail);
    ConcatAssociates(c, p, tail);
  }

  /** Appends e to buf in the current encoding; refuses exactly the entries whose lengths do not fit. */
  method EncodeEntry(buf: bytes, e: Entry) returns (r: Option<bytes>)
    requires Typed(e)
    ensures r.Some? <==> Encodable(e, true)
    ensures r.Some? ==> r.value == buf + EntryBytes(e, true)
  {
    var metadataSize := 4;
    for i := 0 to |e.metadata|
      invariant metadataSize + |MetasBytes(e.metadata[i..])| == 4 + |MetasBytes(e.metadata)|
      invariant forall k :: 0 <= k < i ==> |e.metadata[k].payload| <= U32_MAX
    {
      if |e.metadata[i].payload| > U32_MAX {
        return None;
      }
      assert e.metadata[i..][1..] == e.metadata[i + 1..];
      metadataSize := metadataSize + META_HEADER + |e.metadata[i].payload|;
    }
    if |e.location| > U16_MAX {
      return None;
    }
    var bodyLen := 8 + 4 + 2 + |e.location| + metadataSize;
    assert bodyLen == |BodyBytes(e, true)|;
    if bodyLen > U32_MAX {
      return None;
    }
    var metas := [];
    for i := 0 to |e.metadata|
      invariant metas + MetasBytes(e.metadata[i..]) == MetasBytes(e.metadata)
    {
      ghost var rest := MetasBytes(e.metadata[i + 1..]);
      assert e.metadata[i..][1..] == e.metadata[i + 1..];
      MetaTail(e.metadata[i], rest);
      ConcatAssociates(metas, MetaBytes(e.metadata[i], []), rest);
      metas := metas + MetaBytes(e.metadata[i], []);
    }
    assert metas == MetasBytes(e.metadata) by {
      assert metas + [] == metas;
    }
    r := Some(buf + (ToLE(bodyLen, 4) + (ToLE(e.sequence, 8) + (ToLE(e.count, 4) +
      (ToLE(|e.location|, 2) + (e.location + (ToLE(|e.metadata|, 4) + metas)))))));
  }

  /** What is still to be read, behind the annotations already read. */
  function Behind(done: seq<RecordMeta>, rest: Option<seq<RecordMeta>>): Option<seq<RecordMeta>> {
    match rest
    case Some(mds) => Some(done + mds)
    case None => None
  }

  lemma BehindBehind(a: seq<RecordMeta>, b: seq<RecordMeta>, r: Option<seq<RecordMeta>>)
    ensures Behind(a, Behind(b, r)) == Behind(a + b, r)
    ensures Behind([], r) == r
  {
    if r.Some? {
      assert a + (b + r.value) == (a + b) + r.value;
      assert [] + r.value == r.value;
    }
  }

  /** The annotation loop: rest is the slice data[off:end] that is left to decode. */
  method DecodeMetas(b: bytes, count: nat) returns (r: Option<seq<RecordMeta>>)
    ensures r == ParseMetas(b, count)
  {
    var md: seq<RecordMeta> := [];
    var rest := b;
    BehindBehind([], [], ParseMetas(b, count));
    for i := 0 to count
      invariant ParseMetas(b, count) == Behind(md, ParseMetas(rest, count - i))
    {
      if |rest| < META_HEADER {
        return None;
      }
      var first := FromLE(rest[..4]);
      var r1 := rest[4..];
      FieldBounds(r1[..8]);
      var ingested := FromU64(FromLE(r1[..8]));
      var r2 := r1[8..];
      var plen := FromLE(r2[..4]);
      var r3 := r2[4..];
      if plen > |r3| {
        return None;
      }
      var item := RecordMeta(first, ingested, r3[..plen]);
      BehindBehind(md, [item], ParseMetas(r3[plen..], count - i - 1));
      md := md + [item];
      rest := r3[plen..];
    }
    if rest != [] {
      return None;
    }
    assert md + [] == md;
    r := Some(md);
  }

  /** decodeEntry: the entry at offset and the offset behind it. */
  method DecodeEntry(data: bytes, offset: nat, hasCount: bool) returns (r: Option<(Entry, nat)>)
    requires offset <= |data|
    ensures match ParseEntry(data[offset..], hasCount)
            case Some((e, n)) => r == Some((e, offset + n))
            case None => r == None
  {
    var d := data[offset..];
    if |d| < 4 {
      return None;
    }
    var bodyLen := FromLE(d[..4]);
    var d1 := d[4..];
    if bodyLen < MinBody(hasCount) || bodyLen > |d1| {
      return None;
    }
    var body := d1[..bodyLen];
    var sequence := FromLE(body[..8]);
    var rest := body[8..];
    var count := 0;
    if hasCount {
      count := FromLE(rest[..4]);
      rest := rest[4..];
    }
    var locLen := FromLE(rest[..2]);
    var r1 := rest[2..];
    if locLen > |r1| {
      return None;
    }
    var location := r1[..locLen];
    var r2 := r1[locLen..];
    if |r2| < 4 {
      return None;
    }
    var mds := DecodeMetas(r2[4..], FromLE(r2[..4]));
    var end: nat := offset + 4 + bodyLen;
    match mds {
      case None => r := None;
      case Some(metadata) => r := Some((Entry(sequence, count, location, metadata), end));
    }
  }
}
