/** The serialized manifest: entry region, snapshot block and a footer read from the end. */
module ManifestCodec {
  import opened Bytes
  import opened Crc32c
  import opened Entries
  import opened EntryCodec
  import opened Footers
  import opened Regions
  import opened Wrappers

  const BUFFER_VERSION: nat := 1
  const SNAPSHOT_VERSION: nat := 2
  const RECORD_COUNT_VERSION: nat := 3
  const CHECKSUM_VERSION: nat := 4

  datatype Snapshot = Snapshot(location: bytes, throughSeq: nat, createdMs: int)

  const NO_SNAPSHOT := Snapshot([], 0, 0)

  /** A manifest with its entries still in encoded form. */
  datatype Raw = Raw(region: bytes, count: nat, nextSequence: nat, epoch: nat, snapshot: Snapshot)

  /** Every field is within its width. */
  predicate Fits(m: Raw) {
    && m.count <= U32_MAX
    && m.nextSequence <= U64_MAX
    && m.epoch <= U64_MAX
    && |m.snapshot.location| <= U16_MAX
    && m.snapshot.throughSeq <= U64_MAX
    && IsI64(m.snapshot.createdMs)
  }

  // ---------------------------------------------------------------- writing

  function WithSnapshot(region: bytes, s: Snapshot): bytes
    requires IsI64(s.createdMs)
  {
    (((region + s.location) + ToLE(|s.location|, 2)) + ToLE(s.throughSeq, 8)) + ToLE(ToU64(s.createdMs), 8)
  }

  function WithCore(front: bytes, m: Raw): bytes {
    ((front + ToLE(m.count, 4)) + ToLE(m.nextSequence, 8)) + ToLE(m.epoch, 8)
  }

  function Sealed(core: bytes, version: nat): bytes {
    (if version == CHECKSUM_VERSION then core + ToLE(Checksum(core), 4) else core) + ToLE(version, 2)
  }

  /** The form a manifest has under a given footer version. */
  function Serialize(m: Raw, version: nat): bytes
    requires Fits(m)
  {
    Sealed(WithCore(if version == BUFFER_VERSION then m.region else WithSnapshot(m.region, m.snapshot), m), version)
  }

  // ---------------------------------------------------------------- reading

  predicate Supported(version: nat) {
    version in {BUFFER_VERSION, SNAPSHOT_VERSION, RECORD_COUNT_VERSION, CHECKSUM_VERSION}
  }

  /** The bytes in front of the version word, with the checksum verified and removed. */
  function Unseal(d: bytes): Result<(bytes, nat)> {
    if |d| < 22 then Err(Malformed)
    else
      var version := Back(d, 2);
      var d1 := Front(d, 2);
      if version != CHECKSUM_VERSION then Ok((d1, version))
      else if |d| < 26 then Err(Malformed)
      else if Checksum(Front(d1, 4)) != Back(d1, 4) then Err(Corrupt)
      else Ok((Front(d1, 4), version))
  }

  function ParseSnapshot(d: bytes): Result<(bytes, Snapshot)> {
    if |d| < 18 then Err(Malformed)
    else
      var d1 := Front(d, 8);
      var d2 := Front(d1, 8);
      var d3 := Front(d2, 2);
      if Back(d2, 2) > |d3| then Err(Malformed)
      else
        FieldBounds(d[|d| - 8..]);
        var l := Back(d2, 2);
        Ok((Front(d3, l), Snapshot(d3[|d3| - l..], Back(d1, 8), FromU64(Back(d, 8)))))
  }

  /** Footer, snapshot block and the undecoded region, with the version it was written under. */
  function ParseFrame(d: bytes): Result<(Raw, nat)> {
    match Unseal(d)
    case Err(x) => Err(x)
    case Ok((core, version)) =>
      var c1 := Front(core, 8);
      var c2 := Front(c1, 8);
      var c3 := Front(c2, 4);
      if version == BUFFER_VERSION then
        Ok((Raw(c3, Back(c2, 4), Back(c1, 8), Back(core, 8), NO_SNAPSHOT), version))
      else if !Supported(version) then Err(Malformed)
      else
        match ParseSnapshot(c3)
        case Err(x) => Err(x)
        case Ok((region, s)) => Ok((Raw(region, Back(c2, 4), Back(c1, 8), Back(core, 8), s), version))
  }

  /** Entries without a count, re-encoded with a count of 0. */
  function Upgrade(region: bytes, count: nat): Result<bytes> {
    match ParseCount(region, count, false)
    case None => Err(Malformed)
    case Some(entries) => if AllEncodable(entries, true) then Ok(RegionBytes(entries, true)) else Err(Malformed)
  }

  function Parse(d: bytes): Result<Raw> {
    match ParseFrame(d)
    case Err(x) => Err(x)
    case Ok((m, version)) =>
      if version >= RECORD_COUNT_VERSION then Ok(m)
      else
        match Upgrade(m.region, m.count)
        case Err(x) => Err(x)
        case Ok(region) => Ok(m.(region := region))
  }

  // ---------------------------------------------------------------- round trip

  lemma UnsealSealed(core: bytes, version: nat)
    requires |core| >= 20 && version <= U16_MAX
    ensures Unseal(Sealed(core, version)) == Ok((core, version))
  {
    PowWidths();
    FooterReadBack(core, Checksum(core), 4);
    FooterReadBack(if version == CHECKSUM_VERSION then core + ToLE(Checksum(core), 4) else core, version, 2);
  }

  lemma SnapshotReadBack(region: bytes, s: Snapshot)
    requires |s.location| <= U16_MAX && s.throughSeq <= U64_MAX && IsI64(s.createdMs)
    ensures ParseSnapshot(WithSnapshot(region, s)) == Ok((region, s))
  {
    PowWidths();
    var d3 := region + s.location;
    var d2 := d3 + ToLE(|s.location|, 2);
    var d1 := d2 + ToLE(s.throughSeq, 8);
    Cut(region, s.location);
    FooterReadBack(d3, |s.location|, 2);
    FooterReadBack(d2, s.throughSeq, 8);
    FooterReadBack(d1, ToU64(s.createdMs), 8);
  }

  /** Every supported footer is read back; the buffer's footer has no place for a snapshot. */
  lemma FrameReadBack(m: Raw, version: nat)
    requires Fits(m) && Supported(version) && (version == BUFFER_VERSION ==> m.snapshot == NO_SNAPSHOT)
    ensures ParseFrame(Serialize(m, version)) == Ok((m, version))
  {
    PowWidths();
    var front := if version == BUFFER_VERSION then m.region else WithSnapshot(m.region, m.snapshot);
    var c2 := front + ToLE(m.count, 4);
    var c1 := c2 + ToLE(m.nextSequence, 8);
    UnsealSealed(WithCore(front, m), version);
    FooterReadBack(front, m.count, 4);
    FooterReadBack(c2, m.nextSequence, 8);
    FooterReadBack(c1, m.epoch, 8);
    SnapshotReadBack(m.region, m.snapshot);
  }

  /** What is written is what is read: entries, counters, epoch and snapshot. */
  lemma ParseSerialized(m: Raw)
    requires Fits(m)
    ensures Parse(Serialize(m, CHECKSUM_VERSION)) == Ok(m)
  {
    FrameReadBack(m, CHECKSUM_VERSION);
  }

  /** Different manifests have different bytes. */
  lemma SerializeIsInjective(a: Raw, b: Raw)
    requires Fits(a) && Fits(b)
    requires Serialize(a, CHECKSUM_VERSION) == Serialize(b, CHECKSUM_VERSION)
    ensures a == b
  {
    ParseSerialized(a);
    ParseSerialized(b);
  }

  /** A legacy manifest parses exactly when its entries still fit with a count field added, and then re-serialized
      in the current form it parses back to the same entries, each with count 0. */
  lemma LegacyUpgrade(entries: seq<Entry>, m: Raw, version: nat)
    requires Fits(m) && AllEncodable(entries, false)
    requires version == BUFFER_VERSION || version == SNAPSHOT_VERSION
    requires version == BUFFER_VERSION ==> m.snapshot == NO_SNAPSHOT
    requires m.region == RegionBytes(entries, false) && m.count == |entries|
    ensures Parse(Serialize(m, version)).Ok? <==> AllEncodable(entries, true)
    ensures AllEncodable(entries, true) ==>
              var up := m.(region := RegionBytes(entries, true));
              && Parse(Serialize(m, version)) == Ok(up)
              && Parse(Serialize(up, CHECKSUM_VERSION)) == Ok(up)
              && ParseRegion(up.region) == Some(entries)
    ensures forall i :: 0 <= i < |entries| ==> entries[i].count == 0
  {
    hide ParseEntry, EntryBytes, ParseFrame, Serialize;
    FrameReadBack(m, version);
    CountReadBack(entries, false, []);
    assert RegionBytes(entries, false) + [] == RegionBytes(entries, false);
    if AllEncodable(entries, true) {
      ParseSerialized(m.(region := RegionBytes(entries, true)));
      RegionReadBack(entries);
    }
  }

  // ---------------------------------------------------------------- damage

  /** Any one byte outside the version word, in an object of any length: the change is reported as corruption. */
  lemma DamageIsCorrupt(d: bytes, bad: bytes, i: nat)
    requires Unseal(d).Ok? && Back(d, 2) == CHECKSUM_VERSION
    requires DifferAt(d, bad, i) && i < |d| - 2
    ensures Parse(bad) == Err(Corrupt)
  {
    DifferHalves(d, bad, i, 2);
    ChecksumDamage(Front(d, 2), Front(bad, 2), i);
  }

  /** The two bytes that an older footer takes for the length of the snapshot location: bits 16 to 31 of ThroughSeq. */
  function ShiftedLength(d: bytes): nat
    requires |d| >= 44
  {
    FromLE(d[|d| - 40..|d| - 38])
  }

  /** The four bytes that an older footer takes for the entry count: the low half of the next sequence. */
  function ShiftedCount(d: bytes): nat
    requires |d| >= 44
  {
    FromLE(d[|d| - 22..|d| - 18])
  }

  /** Whether a manifest of version 4 would be accepted if its version word said something else. Every field is then
      read four bytes too late, since the older footers have no checksum. */
  predicate AcceptedAs(d: bytes, version: nat)
    requires |d| >= 44
  {
    if version == BUFFER_VERSION then Upgrade(d[..|d| - 22], ShiftedCount(d)).Ok?
    else
      && Supported(version) && version != CHECKSUM_VERSION
      && ShiftedLength(d) <= |d| - 40
      && (version == SNAPSHOT_VERSION ==> Upgrade(d[..|d| - 40 - ShiftedLength(d)], ShiftedCount(d)).Ok?)
  }

  lemma ValidLength(d: bytes)
    requires Parse(d).Ok? && Back(d, 2) == CHECKSUM_VERSION
    ensures |d| >= 44
  {
    hide Checksum, FromLE;
  }

  lemma ShiftedSnapshot(d: bytes)
    requires |d| >= 44
    ensures var c3 := d[..|d| - 22];
            && (ParseSnapshot(c3).Ok? <==> ShiftedLength(d) <= |d| - 40)
            && (ParseSnapshot(c3).Ok? ==> ParseSnapshot(c3).value.0 == d[..|d| - 40 - ShiftedLength(d)])
  {
    hide FromLE, FromU64;
    var c3 := d[..|d| - 22];
    var d2 := Front(Front(c3, 8), 8);
    assert d2 == d[..|d| - 38];
    assert d2[|d2| - 2..] == d[|d| - 40..|d| - 38];
    assert Front(d2, 2) == d[..|d| - 40];
  }

  lemma ShiftedFrame(d: bytes, bad: bytes)
    requires |d| >= 44 && |bad| == |d| && Front(bad, 2) == Front(d, 2) && Back(bad, 2) != CHECKSUM_VERSION
    ensures Parse(bad).Ok? <==> AcceptedAs(d, Back(bad, 2))
    ensures Parse(bad).Ok? && Back(bad, 2) == RECORD_COUNT_VERSION ==>
              Parse(bad).value.region == d[..|d| - 40 - ShiftedLength(d)]
  {
    hide FromLE, Upgrade, ParseSnapshot;
    ShiftedSnapshot(d);
    var core := Front(bad, 2);
    assert Front(Front(core, 8), 8) == d[..|d| - 18];
    var c2 := d[..|d| - 18];
    assert c2[|c2| - 4..] == d[|d| - 22..|d| - 18];
    assert Front(c2, 4) == d[..|d| - 22];
  }

  /** Exactly which changes of one byte of a version 4 manifest go unnoticed: those that make the version word name an
      older format under which the shifted fields happen to fit. */
  lemma OneByteDamage(d: bytes, bad: bytes, i: nat)
    requires Parse(d).Ok? && Back(d, 2) == CHECKSUM_VERSION && DifferAt(d, bad, i)
    ensures |d| >= 44
    ensures Parse(bad).Ok? <==> i >= |d| - 2 && AcceptedAs(d, Back(bad, 2))
  {
    hide Parse, AcceptedAs;
    ValidLength(d);
    assert Unseal(d).Ok? by {
      SealIsWhole(d);
    }
    if i < |d| - 2 {
      DamageIsCorrupt(d, bad, i);
    } else {
      VersionWordDamage(d, bad, i);
      DifferHalves(d, bad, i, 2);
      ShiftedFrame(d, bad);
    }
  }

  lemma SealIsWhole(d: bytes)
    requires Parse(d).Ok?
    ensures Unseal(d).Ok?
  {
    hide Checksum, FromLE;
  }

  /** A change inside the version word is rejected unless it names one of the three older formats. */
  lemma VersionDamage(d: bytes, bad: bytes, i: nat)
    requires Unseal(d).Ok? && Back(d, 2) == CHECKSUM_VERSION
    requires DifferAt(d, bad, i) && i >= |d| - 2
    ensures Back(bad, 2) != CHECKSUM_VERSION
    ensures Back(bad, 2) !in {1, 2, 3} ==> Parse(bad) == Err(Malformed)
    ensures bad[i] == 255 - d[i] ==> Parse(bad) == Err(Malformed)
  {
    VersionWordDamage(d, bad, i);
  }

  /** Inverting any byte of a checksummed manifest, wherever it is, makes it unreadable. */
  lemma FlipIsRejected(d: bytes, bad: bytes, i: nat)
    requires Unseal(d).Ok? && Back(d, 2) == CHECKSUM_VERSION
    requires DifferAt(d, bad, i) && bad[i] == 255 - d[i]
    ensures Parse(bad).Err?
  {
    if i < |d| - 2 {
      DamageIsCorrupt(d, bad, i);
    } else {
      VersionDamage(d, bad, i);
    }
  }

  // ---------------------------------------------------------------- relabelled manifests

  lemma SliceOfLE(n: nat)
    ensures FromLE(ToLE(n, 8)[2..4]) == n / 65536 % 65536
  {
    var m := n / 256 / 256;
    assert ToLE(n, 8)[2..] == ToLE(m, 6);
    assert ToLE(n, 8)[2..4] == ToLE(n, 8)[2..][..2];
    var b := ToLE(m, 6)[..2];
    assert b[0] == m % 256 && b[1] == m / 256 % 256;
    TwoBytes(b);
    Quotients(n);
  }

  lemma Quotients(n: nat)
    ensures n / 256 / 256 == n / 65536
    ensures var m := n / 65536; m % 256 + 256 * (m / 256 % 256) == m % 65536
  {
  }

  /** Where ThroughSeq is in a serialized manifest, and what stands in front of it. */
  lemma ThroughField(m: Raw)
    requires Fits(m)
    ensures var d := Serialize(m, CHECKSUM_VERSION);
            && |d| == |m.region| + |m.snapshot.location| + 44
            && d[|d| - 42..|d| - 34] == ToLE(m.snapshot.throughSeq, 8)
            && d[..|d| - 42] == (m.region + m.snapshot.location) + ToLE(|m.snapshot.location|, 2)
  {
    hide Checksum, ToLE;
    var s := m.snapshot;
    var x := (m.region + s.location) + ToLE(|s.location|, 2);
    var y := ToLE(s.throughSeq, 8);
    var core := WithCore(WithSnapshot(m.region, s), m);
    var tail := ToLE(ToU64(s.createdMs), 8) + ToLE(m.count, 4) + ToLE(m.nextSequence, 8) + ToLE(m.epoch, 8) +
      ToLE(Checksum(core), 4) + ToLE(CHECKSUM_VERSION, 2);
    assert |tail| == 34;
    assert Serialize(m, CHECKSUM_VERSION) == (x + y) + tail;
  }

  /** A serialized manifest whose version word turns from 4 into 3 is accepted exactly when bits 16 to 31 of the
      snapshot's ThroughSeq, read as a length, fit in what is in front of them. */
  lemma RelabelledIff(m: Raw)
    requires Fits(m)
    ensures var d := Serialize(m, CHECKSUM_VERSION);
            && |d| >= 44
            && (AcceptedAs(d, RECORD_COUNT_VERSION) <==>
                  m.snapshot.throughSeq / 65536 % 65536 <= |m.region| + |m.snapshot.location| + 4)
  {
    hide Serialize, ToLE, FromLE;
    var d := Serialize(m, CHECKSUM_VERSION);
    ThroughField(m);
    assert d[|d| - 40..|d| - 38] == d[|d| - 42..|d| - 34][2..4];
    SliceOfLE(m.snapshot.throughSeq);
  }

  /** Every manifest without a snapshot, of any size, is accepted when its version word turns from 4 into 3: as a
      manifest with four zero bytes behind its entries, which therefore no longer decode. */
  lemma VersionWordIsUnprotected(m: Raw)
    requires Fits(m) && m.snapshot == NO_SNAPSHOT
    ensures var d := Serialize(m, CHECKSUM_VERSION);
            exists bad :: DifferAt(d, bad, |d| - 2) && Parse(bad).Ok? && Parse(bad).value.region == m.region + [0, 0, 0, 0]
    ensures ParseRegion(m.region).Some? ==> ParseRegion(m.region + [0, 0, 0, 0]).None?
  {
    hide Serialize, Parse, AcceptedAs, ParseRegion;
    var d := Serialize(m, CHECKSUM_VERSION);
    RelabelledIff(m);
    WordOf(m);
    var bad := Front(d, 2) + ToLE(3, 2);
    Relabelled(Front(d, 2));
    Rejoin(d, |d| - 2);
    ParseSerialized(m);
    OneByteDamage(d, bad, |d| - 2);
    ReadAsVersion3(m, d, bad);
    if ParseRegion(m.region).Some? {
      RegionsInTurn(m.region, [0, 0, 0, 0]);
      ZerosDoNotParse();
    }
  }

  lemma WordOf(m: Raw)
    requires Fits(m)
    ensures var d := Serialize(m, CHECKSUM_VERSION);
            |d| >= 2 && d[|d| - 2..] == ToLE(4, 2) && Back(d, 2) == CHECKSUM_VERSION
    ensures Back(Front(Serialize(m, CHECKSUM_VERSION), 2) + ToLE(3, 2), 2) == 3
  {
    hide Checksum;
    PowWidths();
    var core := WithCore(WithSnapshot(m.region, m.snapshot), m);
    FooterReadBack(core + ToLE(Checksum(core), 4), CHECKSUM_VERSION, 2);
    FooterReadBack(Front(Serialize(m, CHECKSUM_VERSION), 2), 3, 2);
  }

  lemma ReadAsVersion3(m: Raw, d: bytes, bad: bytes)
    requires Fits(m) && m.snapshot == NO_SNAPSHOT && d == Serialize(m, CHECKSUM_VERSION)
    requires |bad| == |d| >= 44 && Front(bad, 2) == Front(d, 2) && Back(bad, 2) == 3 && Parse(bad).Ok?
    ensures Parse(bad).value.region == m.region + [0, 0, 0, 0]
  {
    hide Serialize, FromLE, ToLE, Parse;
    ThroughField(m);
    ShiftedFrame(d, bad);
    SliceOfLE(0);
    assert d[|d| - 40..|d| - 38] == d[|d| - 42..|d| - 34][2..4];
    FourZeros();
    SliceJoin(d, |d| - 42, |d| - 40, |d| - 34);
    assert (m.region + []) + [0, 0] + [0, 0] == m.region + [0, 0, 0, 0];
  }

  lemma SliceJoin(d: bytes, i: nat, j: nat, k: nat)
    requires i <= j <= k <= |d|
    ensures d[..i] + d[i..k][..j - i] == d[..j]
  {
  }

  lemma FourZeros()
    ensures ToLE(0, 2) == [0, 0] && ToLE(0, 8)[..2] == [0, 0]
  {
  }

  lemma ZerosDoNotParse()
    ensures ParseRegion([0, 0, 0, 0]).None?
  {
    assert [0, 0, 0, 0][..4] == [0, 0, 0, 0];
    FourZeroField();
  }

  lemma FourZeroField()
    ensures FromLE([0, 0, 0, 0]) == 0
  {
    assert [0, 0, 0, 0][1..] == [0, 0, 0] && [0, 0, 0][1..] == [0, 0] && [0, 0][1..] == [0] && [0][1..] == [];
    assert FromLE([0]) == 0 && FromLE([0, 0]) == 0 && FromLE([0, 0, 0]) == 0;
  }

  lemma Relabelled(front: bytes)
    ensures DifferAt(front + ToLE(4, 2), front + ToLE(3, 2), |front|)
  {
    assert ToLE(4, 2)[1..] == ToLE(0, 1) == ToLE(3, 2)[1..];
    Cut(front, ToLE(4, 2));
    Cut(front, ToLE(3, 2));
    assert (front + ToLE(4, 2))[|front| + 1..] == ToLE(4, 2)[1..];
    assert (front + ToLE(3, 2))[|front| + 1..] == ToLE(3, 2)[1..];
  }
}
