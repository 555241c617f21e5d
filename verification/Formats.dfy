/** What the stored objects look like byte by byte, said by offsets and literal values. */
module Formats {
  import opened Bytes
  import opened Crc32c
  import opened Entries
  import opened EntryCodec
  import opened ManifestCodec
  import opened Segment

  /** The bytes of d at offset o are b. */
  predicate HasBytes(d: bytes, o: int, b: bytes) { 0 <= o && o + |b| <= |d| && d[o..o + |b|] == b }

  /** The k bytes of d at offset o are n, least significant byte first. */
  predicate HasField(d: bytes, o: int, k: nat, n: nat) { HasBytes(d, o, ToLE(n, k)) }

  lemma LittleEndian()
    ensures ToLE(0x0807_0605_0403_0201, 8) == [1, 2, 3, 4, 5, 6, 7, 8]
  {
    assert ToLE(0x0807_0605, 4) == [5, 6, 7, 8];
    assert ToLE(0x0807_0605_0403_0201, 8) == [1, 2, 3, 4] + ToLE(0x0807_0605, 4);
  }

  lemma VersionWords()
    ensures ToLE(1, 2) == [1, 0] && ToLE(2, 2) == [2, 0] && ToLE(3, 2) == [3, 0] && ToLE(4, 2) == [4, 0]
  {
  }

  /** What was appended to a is found behind a in everything that begins with both. */
  lemma Appended(a: bytes, x: bytes, d: bytes)
    requires a + x <= d
    ensures HasBytes(d, |a|, x)
  {
    assert d[|a|..|a| + |x|] == (a + x)[|a|..];
  }

  lemma Prefixes(a: bytes, b: bytes, c: bytes)
    requires a <= b && b <= c
    ensures a <= c
  {
  }

  lemma SnapshotLayout(region: bytes, s: Snapshot, d: bytes)
    requires IsI64(s.createdMs) && WithSnapshot(region, s) <= d
    ensures var o := |region| + |s.location|;
            && |WithSnapshot(region, s)| == o + 18
            && HasBytes(d, 0, region) && HasBytes(d, |region|, s.location)
            && HasField(d, o, 2, |s.location|) && HasField(d, o + 2, 8, s.throughSeq)
            && HasField(d, o + 10, 8, ToU64(s.createdMs))
  {
    hide ToLE, HasBytes;
    var a1 := region + s.location;
    var a2 := a1 + ToLE(|s.location|, 2);
    var a3 := a2 + ToLE(s.throughSeq, 8);
    Appended(a3, ToLE(ToU64(s.createdMs), 8), d);
    Prefixes(a3, WithSnapshot(region, s), d);
    Appended(a2, ToLE(s.throughSeq, 8), d);
    Prefixes(a2, a3, d);
    Appended(a1, ToLE(|s.location|, 2), d);
    Prefixes(a1, a2, d);
    Appended(region, s.location, d);
    Prefixes(region, a1, d);
    assert [] + region == region;
    Appended([], region, d);
  }

  lemma CoreLayout(front: bytes, m: Raw, d: bytes)
    requires WithCore(front, m) <= d
    ensures |WithCore(front, m)| == |front| + 20 && front <= d
    ensures HasField(d, |front|, 4, m.count) && HasField(d, |front| + 4, 8, m.nextSequence)
    ensures HasField(d, |front| + 12, 8, m.epoch)
  {
    hide ToLE, HasBytes;
    var a1 := front + ToLE(m.count, 4);
    var a2 := a1 + ToLE(m.nextSequence, 8);
    Appended(a2, ToLE(m.epoch, 8), d);
    Prefixes(a2, WithCore(front, m), d);
    Appended(a1, ToLE(m.nextSequence, 8), d);
    Prefixes(a1, a2, d);
    Appended(front, ToLE(m.count, 4), d);
    Prefixes(front, a1, d);
  }

  /** A version 4 manifest: the entries, the snapshot's location, its length in 2 bytes, ThroughSeq and CreatedMs in 8
      each, the entry count in 4, next sequence and epoch in 8 each, the checksum of all that in 4, and the word 4. */
  lemma ManifestLayout(m: Raw)
    requires Fits(m)
    ensures var d, s := Serialize(m, 4), m.snapshot;
            var o := |m.region| + |s.location|;
            && |d| == o + 44 && d[o + 42..] == [4, 0]
            && HasBytes(d, 0, m.region) && HasBytes(d, |m.region|, s.location)
            && HasField(d, o, 2, |s.location|) && HasField(d, o + 2, 8, s.throughSeq)
            && HasField(d, o + 10, 8, ToU64(s.createdMs))
            && HasField(d, o + 18, 4, m.count) && HasField(d, o + 22, 8, m.nextSequence)
            && HasField(d, o + 30, 8, m.epoch) && HasField(d, o + 38, 4, Checksum(d[..o + 38]))
  {
    hide Checksum, ToLE, HasBytes, HasField, WithSnapshot, WithCore;
    VersionWords();
    var front := WithSnapshot(m.region, m.snapshot);
    var core := WithCore(front, m);
    var d := Serialize(m, 4);
    SumLayout(core, [4, 0], d);
    CoreLayout(front, m, d);
    SnapshotLayout(m.region, m.snapshot, d);
  }

  lemma SumLayout(core: bytes, word: bytes, d: bytes)
    requires d == core + ToLE(Checksum(core), 4) + word
    ensures |d| == |core| + 4 + |word| && core <= d && d[..|core|] == core && d[|core| + 4..] == word
    ensures HasField(d, |core|, 4, Checksum(core))
  {
    hide Checksum, ToLE;
  }

  lemma CoreIs(front: bytes, m: Raw)
    ensures WithCore(front, m) == front + (ToLE(m.count, 4) + ToLE(m.nextSequence, 8) + ToLE(m.epoch, 8))
  {
    hide ToLE;
  }

  lemma Slices(a: bytes, b: bytes, d: bytes)
    requires a + b <= d
    ensures d[..|a| + |b|] == a + b && d[|a|..|a| + |b|] == b
  {
    assert d[|a|..|a| + |b|] == (a + b)[|a|..];
  }

  /** The older forms: version 3 has no checksum, version 2 is version 3 under another word, version 1 has no snapshot
      either. */
  lemma OlderManifests(m: Raw)
    requires Fits(m)
    ensures var d := Serialize(m, 4);
            && |d| >= 6 && Serialize(m, 3) == d[..|d| - 6] + [3, 0] && Serialize(m, 2) == d[..|d| - 6] + [2, 0]
            && Serialize(m, 1) == m.region + d[|d| - 26..|d| - 6] + [1, 0]
  {
    hide Checksum, ToLE, WithSnapshot, WithCore, HasField;
    VersionWords();
    var core, a, d := ToLE(m.count, 4) + ToLE(m.nextSequence, 8) + ToLE(m.epoch, 8), WithSnapshot(m.region, m.snapshot),
                      Serialize(m, 4);
    CoreIs(a, m);
    CoreIs(m.region, m);
    SumLayout(a + core, [4, 0], d);
    Slices(a, core, d);
  }

  /** An entry: the length of the rest in 4 bytes, sequence in 8, count in 4, the location behind its length in 2, and
      the annotations behind their number in 4. */
  lemma EntryLayout(e: Entry)
    requires EntryCodec.Typed(e)
    ensures var d, l := EntryBytes(e, true), |e.location|;
            && |d| >= 22 + l && HasField(d, 0, 4, |d| - 4) && HasField(d, 4, 8, e.sequence) && HasField(d, 12, 4, e.count)
            && HasField(d, 16, 2, l) && HasBytes(d, 18, e.location) && HasField(d, 18 + l, 4, |e.metadata|)
            && d[22 + l..] == MetasBytes(e.metadata)
  {
    hide ToLE, HasBytes, MetasBytes;
    var body, l := BodyBytes(e, true), |e.location|;
    var a1 := ToLE(|body|, 4);
    var a2 := a1 + ToLE(e.sequence, 8);
    var a3 := a2 + ToLE(e.count, 4);
    var a4 := a3 + ToLE(l, 2);
    var a5 := a4 + e.location;
    var a6 := a5 + ToLE(|e.metadata|, 4);
    var d := a6 + MetasBytes(e.metadata);
    assert d == EntryBytes(e, true);
    Appended(a5, ToLE(|e.metadata|, 4), d);
    Prefixes(a5, a6, d);
    Appended(a4, e.location, d);
    Prefixes(a4, a5, d);
    Appended(a3, ToLE(l, 2), d);
    Prefixes(a3, a4, d);
    Appended(a2, ToLE(e.count, 4), d);
    Prefixes(a2, a3, d);
    Appended(a1, ToLE(e.sequence, 8), d);
    Prefixes(a1, a2, d);
    assert [] + a1 == a1;
    Appended([], a1, d);
  }

  /** An annotation: start index in 4 bytes, ingestion time in 8, and the payload behind its length in 4. */
  lemma MetaLayout(md: RecordMeta, tail: bytes)
    requires TypedMeta(md)
    ensures var d := MetaBytes(md, tail);
            && HasField(d, 0, 4, md.startIndex) && HasField(d, 4, 8, ToU64(md.ingestionMs))
            && HasField(d, 12, 4, |md.payload|) && HasBytes(d, 16, md.payload) && d[16 + |md.payload|..] == tail
  {
    hide ToLE, HasBytes;
    var a1 := ToLE(md.startIndex, 4);
    var a2 := a1 + ToLE(ToU64(md.ingestionMs), 8);
    var a3 := a2 + ToLE(|md.payload|, 4);
    var a4 := a3 + md.payload;
    var d := a4 + tail;
    assert d == MetaBytes(md, tail);
    Appended(a3, md.payload, d);
    Prefixes(a3, a4, d);
    Appended(a2, ToLE(|md.payload|, 4), d);
    Prefixes(a2, a3, d);
    Appended(a1, ToLE(ToU64(md.ingestionMs), 8), d);
    Prefixes(a1, a2, d);
    assert [] + a1 == a1;
    Appended([], a1, d);
  }

  /** A segment: the block, compressed under codec 1 and plain under codec 0, the codec in one byte, the record count in
      4, the checksum of all that in 4, and the word 2; the legacy form has the word 1 and no checksum. */
  lemma SegmentLayout(z: Zstd, records: seq<bytes>, comp: byte)
    requires comp <= 1
    ensures var d, b := SegmentBytes(z, records, comp, false),
                        if comp == 1 then z.encode(Block(records)) else Block(records);
            && |d| == |b| + 11 && HasBytes(d, 0, b) && d[|b|] == comp && HasField(d, |b| + 1, 4, |records|)
            && HasField(d, |b| + 5, 4, Checksum(d[..|b| + 5])) && d[|b| + 9..] == [2, 0]
            && SegmentBytes(z, records, comp, true) == d[..|b| + 5] + [1, 0]
  {
    hide Checksum, ToLE, HasField, Block;
    VersionWords();
    var b := if comp == 1 then z.encode(Block(records)) else Block(records);
    var core, d := b + [comp] + ToLE(|records|, 4), SegmentBytes(z, records, comp, false);
    SumLayout(core, [2, 0], d);
    BlockLayout(b, comp, |records|, d);
  }

  lemma BlockLayout(b: bytes, comp: byte, n: nat, d: bytes)
    requires b + [comp] + ToLE(n, 4) <= d
    ensures HasBytes(d, 0, b) && d[|b|] == comp && HasField(d, |b| + 1, 4, n)
  {
    hide ToLE, HasBytes;
    var a := b + [comp];
    Appended(a, ToLE(n, 4), d);
    Prefixes(a, a + ToLE(n, 4), d);
    Prefixes(b, a, d);
    assert [] + b == b;
    Appended([], b, d);
    assert d[|b|] == a[|b|];
  }

  /** A record is framed by its length in 4 bytes. */
  lemma RecordLayout(r: bytes, rest: seq<bytes>)
    ensures var d := Block([r] + rest);
            HasField(d, 0, 4, |r|) && HasBytes(d, 4, r) && d[4 + |r|..] == Block(rest)
  {
    hide ToLE;
    assert ([r] + rest)[1..] == rest;
  }
}
