/** Segment objects: a block of framed records behind a footer, with (v2) or without (v1) a checksum. */
module Segment {
  import opened Bytes
  import opened Crc32c
  import opened Footers
  import opened Wrappers

  const COMPRESSION_NONE: byte := 0
  const COMPRESSION_ZSTD: byte := 1
  const FORMAT_VERSION: nat := 2
  const LEGACY_VERSION: nat := 1

  /** The compressor, a library outside this model. */
  datatype Zstd = Zstd(encode: bytes -> bytes, decode: bytes -> Option<bytes>)

  /** What is assumed of it: decoding undoes encoding. */
  ghost predicate Lossless(z: Zstd) {
    forall b :: z.decode(z.encode(b)) == Some(b)
  }

  // ---------------------------------------------------------------- the format

  predicate RecordsFit(records: seq<bytes>) {
    && |records| <= U32_MAX
    && forall i :: 0 <= i < |records| ==> |records[i]| <= U32_MAX
  }

  /** Each record behind its length. */
  function Block(records: seq<bytes>): bytes {
    if records == [] then [] else ToLE(|records[0]|, 4) + (records[0] + Block(records[1..]))
  }

  function Stored(z: Zstd, block: bytes, comp: byte): bytes {
    if comp == COMPRESSION_ZSTD then z.encode(block) else block
  }

  /** The part a checksum covers. */
  function Covered(z: Zstd, records: seq<bytes>, comp: byte): bytes {
    (Stored(z, Block(records), comp) + [comp]) + ToLE(|records|, 4)
  }

  function SegmentBytes(z: Zstd, records: seq<bytes>, comp: byte, legacy: bool): bytes {
    var covered := Covered(z, records, comp);
    if legacy then covered + ToLE(LEGACY_VERSION, 2)
    else (covered + ToLE(Checksum(covered), 4)) + ToLE(FORMAT_VERSION, 2)
  }

  // ---------------------------------------------------------------- reading it

  /** The first n records of the block; what follows them is ignored. */
  function ParseRecords(b: bytes, n: nat): Option<seq<bytes>>
    decreases n
  {
    if n == 0 then Some([])
    else if |b| < 4 then None
    else
      var l := FromLE(b[..4]);
      var b1 := b[4..];
      if |b1| < l then None
      else
        match ParseRecords(b1[l..], n - 1)
        case None => None
        case Some(rest) => Some([b1[..l]] + rest)
  }

  /** The bytes in front of version and checksum, with the checksum verified. */
  function Unframe(d: bytes): Result<bytes> {
    if |d| < 7 then Err(Malformed)
    else
      var d1 := Front(d, 2);
      if Back(d, 2) == FORMAT_VERSION then
        if |d| < 11 then Err(Malformed)
        else if Checksum(Front(d1, 4)) != Back(d1, 4) then Err(Corrupt)
        else Ok(Front(d1, 4))
      else if Back(d, 2) == LEGACY_VERSION then Ok(d1)
      else Err(Malformed)
  }

  function Inflate(z: Zstd, stored: bytes, comp: byte): Option<bytes> {
    if comp == COMPRESSION_NONE then Some(stored)
    else if comp == COMPRESSION_ZSTD then z.decode(stored)
    else None
  }

  function ParseSegment(z: Zstd, d: bytes): Result<seq<bytes>> {
    match Unframe(d)
    case Err(x) => Err(x)
    case Ok(covered) =>
      var c := Front(covered, 4);
      match Inflate(z, c[..|c| - 1], c[|c| - 1])
      case None => Err(Malformed)
      case Some(body) =>
        match ParseRecords(body, Back(covered, 4))
        case None => Err(Malformed)
        case Some(records) => Ok(records)
  }

  // ---------------------------------------------------------------- round trip

  lemma {:induction false} BlockReadBack(records: seq<bytes>)
    requires RecordsFit(records)
    ensures ParseRecords(Block(records), |records|) == Some(records)
  {
    if records != [] {
      PowWidths();
      FieldReadBack(|records[0]|, 4, records[0] + Block(records[1..]));
      Cut(records[0], Block(records[1..]));
      BlockReadBack(records[1..]);
      assert [records[0]] + records[1..] == records;
    }
  }

  lemma UnframeFramed(z: Zstd, records: seq<bytes>, comp: byte, legacy: bool)
    ensures Unframe(SegmentBytes(z, records, comp, legacy)) == Ok(Covered(z, records, comp))
  {
    PowWidths();
    var covered := Covered(z, records, comp);
    FooterReadBack(covered, Checksum(covered), 4);
    FooterReadBack(covered, LEGACY_VERSION, 2);
    FooterReadBack(covered + ToLE(Checksum(covered), 4), FORMAT_VERSION, 2);
  }

  /** Decoding undoes encoding, for both footers and both codecs; any other codec byte is refused. */
  lemma SegmentReadBack(z: Zstd, records: seq<bytes>, comp: byte, legacy: bool)
    requires Lossless(z) && RecordsFit(records)
    ensures ParseSegment(z, SegmentBytes(z, records, comp, legacy)) ==
            if comp == COMPRESSION_NONE || comp == COMPRESSION_ZSTD then Ok(records) else Err(Malformed)
  {
    PowWidths();
    var stored := Stored(z, Block(records), comp);
    UnframeFramed(z, records, comp, legacy);
    FooterReadBack(stored + [comp], |records|, 4);
    Cut(stored, [comp]);
    BlockReadBack(records);
  }

  // ---------------------------------------------------------------- damage

  /** Any one byte outside the version word of a checksummed segment: the change is reported as corruption. */
  lemma DamageIsCorrupt(z: Zstd, d: bytes, bad: bytes, i: nat)
    requires Unframe(d).Ok? && Back(d, 2) == FORMAT_VERSION
    requires DifferAt(d, bad, i) && i < |d| - 2
    ensures ParseSegment(z, bad) == Err(Corrupt)
  {
    DifferHalves(d, bad, i, 2);
    ChecksumDamage(Front(d, 2), Front(bad, 2), i);
  }

  /** Inverting any byte at all makes a checksummed segment unreadable. */
  lemma FlipIsRejected(z: Zstd, d: bytes, bad: bytes, i: nat)
    requires Unframe(d).Ok? && Back(d, 2) == FORMAT_VERSION
    requires DifferAt(d, bad, i) && bad[i] == 255 - d[i]
    ensures ParseSegment(z, bad).Err?
  {
    if i < |d| - 2 {
      DamageIsCorrupt(z, d, bad, i);
    } else {
      VersionWordDamage(d, bad, i);
    }
  }

  // ---------------------------------------------------------------- relabelled segments

  /** Whether a checksummed segment would be accepted if its version word said 1: the high byte of its record count is
      then taken for the codec and its checksum for the record count. */
  predicate AcceptedAsLegacy(z: Zstd, d: bytes)
    requires |d| >= 11
  {
    var codec, count := d[|d| - 7], FromLE(d[|d| - 6..|d| - 2]);
    var body := Inflate(z, d[..|d| - 7], codec);
    body.Some? && ParseRecords(body.value, count).Some?
  }

  lemma LegacyFrame(z: Zstd, d: bytes, bad: bytes)
    requires |d| >= 11 && |bad| == |d| && Front(bad, 2) == Front(d, 2) && Back(bad, 2) != FORMAT_VERSION
    ensures ParseSegment(z, bad).Ok? <==> Back(bad, 2) == LEGACY_VERSION && AcceptedAsLegacy(z, d)
    ensures ParseSegment(z, bad).Ok? ==>
              Some(ParseSegment(z, bad).value) ==
                ParseRecords(Inflate(z, d[..|d| - 7], d[|d| - 7]).value, FromLE(d[|d| - 6..|d| - 2]))
  {
    hide FromLE, ParseRecords, Inflate;
    var covered := Front(bad, 2);
    assert covered[|covered| - 4..] == d[|d| - 6..|d| - 2];
    var c := Front(covered, 4);
    assert c[..|c| - 1] == d[..|d| - 7] && c[|c| - 1] == d[|d| - 7];
  }

  /** Exactly which changes of one byte of a checksummed segment go unnoticed. */
  lemma OneByteDamage(z: Zstd, d: bytes, bad: bytes, i: nat)
    requires Unframe(d).Ok? && Back(d, 2) == FORMAT_VERSION && DifferAt(d, bad, i)
    ensures |d| >= 11
    ensures ParseSegment(z, bad).Ok? <==> i >= |d| - 2 && Back(bad, 2) == LEGACY_VERSION && AcceptedAsLegacy(z, d)
  {
    hide ParseSegment, AcceptedAsLegacy;
    if i < |d| - 2 {
      DamageIsCorrupt(z, d, bad, i);
    } else {
      VersionWordDamage(d, bad, i);
      DifferHalves(d, bad, i, 2);
      LegacyFrame(z, d, bad);
    }
  }

  lemma {:induction false} BlockPrefix(records: seq<bytes>, tail: bytes, k: nat)
    requires RecordsFit(records) && k <= |records|
    ensures ParseRecords(Block(records) + tail, k) == Some(records[..k])
    decreases k
  {
    hide FromLE, ToLE;
    if k > 0 {
      PowWidths();
      var r, rest := records[0], Block(records[1..]);
      assert Block(records) + tail == ToLE(|r|, 4) + (r + (rest + tail));
      FieldReadBack(|r|, 4, r + (rest + tail));
      Cut(r, rest + tail);
      BlockPrefix(records[1..], tail, k - 1);
      assert [r] + records[1..][..k - 1] == records[..k];
    }
  }

  lemma {:induction false} BlockBeyond(records: seq<bytes>, tail: bytes, k: nat)
    requires RecordsFit(records) && k > |records| && |tail| == 4 && FromLE(tail) > 0
    ensures ParseRecords(Block(records) + tail, k) == None
    decreases |records|
  {
    hide FromLE, ToLE;
    if records == [] {
      assert Block(records) + tail == tail && tail[..4] == tail && tail[4..] == [];
    } else {
      PowWidths();
      var r, rest := records[0], Block(records[1..]);
      assert Block(records) + tail == ToLE(|r|, 4) + (r + (rest + tail));
      FieldReadBack(|r|, 4, r + (rest + tail));
      Cut(r, rest + tail);
      BlockBeyond(records[1..], tail, k - 1);
    }
  }

  /** An uncompressed segment of fewer than 2^24 records whose version word turns from 2 into 1 is accepted exactly when
      its checksum, as a number, is at most its record count, and then reads as that many of its records. */
  lemma RelabelledPlain(z: Zstd, records: seq<bytes>)
    requires RecordsFit(records) && 0 < |records| < 0x100_0000
    ensures var d, sum := SegmentBytes(z, records, COMPRESSION_NONE, false), Checksum(Covered(z, records, COMPRESSION_NONE));
            && |d| >= 11
            && (AcceptedAsLegacy(z, d) <==> sum <= |records|)
            && (sum <= |records| ==> ParseSegment(z, Front(d, 2) + ToLE(1, 2)) == Ok(records[..sum]))
  {
    hide ParseSegment, ParseRecords, ToLE, FromLE, Checksum;
    var block, n := Block(records), |records|;
    var covered := Covered(z, records, COMPRESSION_NONE);
    var sum, d := Checksum(covered), SegmentBytes(z, records, COMPRESSION_NONE, false);
    var tail := [COMPRESSION_NONE] + ToLE(n, 4)[..3];
    CountBytes(n);
    PowWidths();
    assert d == ((((block + [COMPRESSION_NONE]) + ToLE(n, 4)) + ToLE(sum, 4)) + ToLE(2, 2));
    assert d[..|d| - 7] == block + tail && d[|d| - 7] == ToLE(n, 4)[3];
    assert d[|d| - 6..|d| - 2] == ToLE(sum, 4);
    ReadBack(sum, 4);
    if sum <= n {
      BlockPrefix(records, tail, sum);
      var bad := Front(d, 2) + ToLE(1, 2);
      FooterReadBack(Front(d, 2), 1, 2);
      LegacyFrame(z, d, bad);
    } else {
      BlockBeyond(records, tail, sum);
    }
  }

  /** A number that fits k bytes, written in one more. */
  lemma {:induction false} SpareByte(n: nat, k: nat)
    requires n < Pow256(k)
    ensures ToLE(n, k + 1)[..k] == ToLE(n, k) && ToLE(n, k + 1)[k] == 0
    decreases k
  {
    if k > 0 {
      SpareByte(n / 256, k - 1);
      assert ToLE(n, k + 1)[1..] == ToLE(n / 256, k);
      assert ToLE(n, k + 1)[1..][..k - 1] == ToLE(n, k + 1)[..k][1..];
    }
  }

  lemma CountBytes(n: nat)
    requires 0 < n < 0x100_0000
    ensures ToLE(n, 4)[3] == 0 && FromLE([COMPRESSION_NONE] + ToLE(n, 4)[..3]) > 0
  {
    assert Pow256(3) == 0x100_0000;
    SpareByte(n, 3);
    ReadBack(n, 3);
    assert ([COMPRESSION_NONE] + ToLE(n, 3))[1..] == ToLE(n, 3);
  }

  // ---------------------------------------------------------------- the loops

  method EncodeSegment(z: Zstd, records: seq<bytes>, comp: byte, legacy: bool) returns (r: Option<bytes>)
    ensures r == if RecordsFit(records) then Some(SegmentBytes(z, records, comp, legacy)) else None
  {
    if |records| > U32_MAX {
      return None;
    }
    for i := 0 to |records|
      invariant forall k :: 0 <= k < i ==> |records[k]| <= U32_MAX
    {
      if |records[i]| > U32_MAX {
        return None;
      }
    }
    var block: bytes := [];
    for i := 0 to |records|
      invariant block + Block(records[i..]) == Block(records)
    {
      ghost var rest := Block(records[i + 1..]);
      var head, r := ToLE(|records[i]|, 4), records[i];
      assert records[i..][1..] == records[i + 1..];
      ConcatAssociates(head, r, rest);
      ConcatAssociates(block, head + r, rest);
      block := block + (head + r);
    }
    assert block + [] == block;
    var covered := (Stored(z, block, comp) + [comp]) + ToLE(|records|, 4);
    if legacy {
      return Some(covered + ToLE(LEGACY_VERSION, 2));
    }
    r := Some((covered + ToLE(Checksum(covered), 4)) + ToLE(FORMAT_VERSION, 2));
  }

  /** Records still to be read, behind those already read. */
  function Behind(done: seq<bytes>, rest: Option<seq<bytes>>): Option<seq<bytes>> {
    match rest
    case None => None
    case Some(rs) => Some(done + rs)
  }

  method DecodeSegment(z: Zstd, d: bytes) returns (r: Result<seq<bytes>>)
    ensures r == ParseSegment(z, d)
  {
    var framed := Unframe(d);
    if framed.Err? {
      return Err(framed.error);
    }
    var covered := framed.value;
    var c := Front(covered, 4);
    var inflated := Inflate(z, c[..|c| - 1], c[|c| - 1]);
    if inflated.None? {
      return Err(Malformed);
    }
    var count := Back(covered, 4);
    var rest := inflated.value;
    var records: seq<bytes> := [];
    ghost var all := ParseRecords(rest, count);
    assert all.Some? ==> [] + all.value == all.value;
    for i := 0 to count
      invariant all == Behind(records, ParseRecords(rest, count - i))
    {
      if |rest| < 4 {
        return Err(Malformed);
      }
      var l := FromLE(rest[..4]);
      var r1 := rest[4..];
      if |r1| < l {
        return Err(Malformed);
      }
      ghost var more := ParseRecords(r1[l..], count - i - 1);
      assert more.Some? ==> (records + [r1[..l]]) + more.value == records + ([r1[..l]] + more.value);
      records := records + [r1[..l]];
      rest := r1[l..];
    }
    assert records + [] == records;
    r := Ok(records);
  }
}
