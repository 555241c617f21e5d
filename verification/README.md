# objwal, verified

objwal keeps a write-ahead log in an object store. One manifest object, changed only by conditional put, orders the
log; segments are objects of their own; producers claim the log by raising the manifest's epoch; replicas tail it; a
sink turns it into files that queries read in windows. This project models those five parts in Dafny 4.11 and proves
what they promise. `dafny verify dfyconfig.toml` checks all of it.

## How it is laid out

- **Bytes on disk.** `Bytes`, `Crc32c`, `CrcPolynomial` and `CrcCheckValue` (what the checksum is), `Formats`
  (offsets), `Footers`, `Entries`, `EntryCodec`, `Regions`, `ManifestCodec`, `ManifestIndex`, `Manifests` (class
  `Manifest`), `Segment`, `ObjectStores` (classes `InMemory`, `SimStore`), `ManifestStores` (class `Store`), `Naming`.
- **The commit and fencing protocol** as a step system: `Protocol` (state and steps), `Slots`, `Invariant`,
  `Preservation`, `Commits`, `Landing` (the invariant is kept by every step), `Guarantees`, `Provenance` (what
  follows). Any number of producers act; a put may be answered, refused, lost, or land after everyone has stopped
  waiting for it; a load may return any version that was ever current.
- **The producer**: `Packing` (segment planning), `CommitLoop` (the retry loops, run against any environment), `Alone`
  (what it achieves undisturbed), `Accounting` and `Primaries` (class `Primary`: admission, flush, resolution, close),
  `Backpressure` (blocking and waking, at the granularity of lock sections and channel operations).
- **Readers**: `TailLog` and `Replicas` (class `Replica`), `EndToEnd` (from `Append` to `Applier`), `RealTime` (the
  order of the log against the order of the calls).
- **Sink and queries**: `SinkSpec`, `SinkLayout`, `SinkLoss`, `SinkRestarts`, `SinkProgress`, `SinkFiles`, `Sinks`
  (class `Sink`), `Queries`; `Correspondence` and `Pipeline` tie them to the log (from `Append` to file).

Objects that the source updates in place are classes. Each such method is proved against a function or a predicate on
values: `Primary` against `Accounting.Sound` and the protocol's steps, `Sink` against `SinkSpec`, `Replica` against
`TailLog`. What the environment does (store answers, faults, other producers, callers) is a parameter, so a contract
speaks of every environment.

## What is assumed

- Run ids (ULIDs) are distinct and 26 characters long.
- A put that is answered 412 or 409 has not landed and will not: the meaning of If-Match and If-None-Match in sections
  13.1.1 and 13.1.2 of RFC 9110. A put that is answered without an error has landed.
- zstd (RFC 8878) is a pair of functions, the second undoing the first (`Segment.Lossless`).
- Sequences, epochs and ordinals stay below 2^64.
- `TruncateThrough` is not run beside producers; nothing in the repository calls it.
- The compare-and-swap of the watermark store is atomic, as that of `MemWatermarkStore` is. `FileWatermarkStore` promises
  it within one process only (`querystream/duckdbq/watermark.go:53-57`).

## Where the code does less than one might expect

- The version word of a manifest is outside its checksum. Changing one byte elsewhere is always reported as corruption
  and inverting any byte is always rejected. Changing the version word to 1, 2 or 3 is accepted exactly when the bytes,
  read with that older footer, are well formed (`ManifestCodec.OneByteDamage`). For 3 that is a condition on ThroughSeq
  (`ManifestCodec.RelabelledIff`), which every manifest without a snapshot meets: it is accepted with four bytes of entry
  data that were not there (`ManifestCodec.VersionWordIsUnprotected`). The same holds of segments relabelled 1
  (`Segment.OneByteDamage`, `Segment.RelabelledPlain`).
- `Sink.Poll` says that after a failed poll the replica delivers again from the last segment it had not advanced past.
  The replica may by then have advanced past segments whose rows were only in the buffer that is dropped. A single
  failed poll can lose rows exactly when `MaxRows` is above 1 and `MaxRecordsPerPoll` is not 1
  (`SinkLoss.LosesAtOnceIff`); over whole runs, where a failed final flush may be followed by a failed poll, exactly
  when `MaxRows` is above 1 (`SinkLoss.LosesIff`). While the same sink polls on, lost rows stay lost
  (`SinkLoss.LostForever`). A restart recovers them unless a cursor beyond them has been saved
  (`SinkLoss.LostAcrossRestartIff`); a sink that stops at its first failed poll, as `Sink.Run` does, and is restarted
  loses none (`SinkRestarts.RestartedSinkKeepsAll`).
- A stream moves its watermark before it hands a result over, so a result that is cancelled or lost in a crash is never
  read again: delivery is at most once, and exactly once if and only if no result was dropped
  (`Queries.ReadExactlyOnceIff`).
- The reader's `BucketSize` need not equal the sink's: pruning is safe exactly when it is at least as large
  (`Queries.PruningIsSafeIff`).

## Model

| member | source | states |
|---|---|---|
| `CrcPolynomial.ChecksumIsRemainder` | wal/segment.go:61-61 | the checksum is the unique remainder, bit-reversed and inverted, of the message polynomial times x^32, with its 32 highest coefficients inverted, on division by the Castagnoli polynomial given by its powers of x |
| `CrcCheckValue.ZerosCheck` | wal/segment.go:61-61 | the check value of section B.4 of RFC 3720: 32 zero bytes have checksum 0x8A9136AA |
| `Crc32c.StepIsInjective` | wal/segment.go:61-61 | one byte-step of CRC-32C (section 12.1 of RFC 3720) is injective in the register for a fixed byte and in the byte for a fixed register |
| `Crc32c.OneByteChangesChecksum` | wal/segment.go:61-61 | two byte strings of any length that differ in exactly one byte have different checksums |
| `Formats.ManifestLayout` | wal/manifest.go:246-273 | every field of a version 4 manifest at its offset, in its width, least significant byte first, with the literal version word |
| `Formats.OlderManifests` | wal/manifest.go:152-223 | versions 3, 2 and 1 differ from it by exactly the checksum, the version word and, for 1, the snapshot block |
| `Formats.EntryLayout` | wal/manifest.go:439-469 | every field of an entry at its offset |
| `Formats.MetaLayout` | wal/manifest.go:439-469 | every field of an annotation at its offset |
| `Formats.SegmentLayout` | wal/segment.go:70-100 | codec byte, record count, checksum and version word of a segment at their offsets, with the literal codec and version numbers, in both forms |
| `EntryCodec.EntryReadBack` | wal/manifest.go:439-533 | decoding an encoded entry followed by anything returns the entry and its length, with and without the count field |
| `EntryCodec.EntryWriteBack` | wal/manifest.go:471-533 | the encoding is canonical: whatever bytes are accepted as an entry are exactly the bytes that entry encodes to |
| `EntryCodec.EncodeEntry` | wal/manifest.go:439-469 | the loop appends the encoding to the buffer, and refuses exactly the entries whose lengths do not fit their fields |
| `EntryCodec.DecodeMetas` | wal/manifest.go:500-530 | the loop over annotations reads what the recursive reader reads, at any offset |
| `EntryCodec.DecodeEntry` | wal/manifest.go:471-533 | decoding at an offset equals parsing the rest of the buffer, including every error case |
| `Regions.RegionReadBack` | wal/manifest.go:312-327 | a region of encoded entries decodes to those entries |
| `Regions.RegionWriteBack` | wal/manifest.go:312-327 | a region has one reading only, and re-encoding it gives the region back |
| `Regions.RegionsInTurn` | wal/manifest.go:312-327 | decoding base and then side buffer equals decoding their concatenation |
| `Regions.DecodeRegion` | wal/manifest.go:312-327 | the offset loop decodes exactly what the region holds, or fails exactly when it is malformed |
| `Regions.EncodeRegion` | wal/manifest.go:423-431 | re-encoding kept entries one after another gives their region, or stops at the first that does not fit |
| `ManifestCodec.ParseSerialized` | wal/manifest.go:152-273 | parsing a serialized manifest of any size returns the same entries, count, next sequence, epoch and snapshot |
| `ManifestCodec.FrameReadBack` | wal/manifest.go:152-223 | the footer and snapshot of every supported version (1 to 4) read back, from the end |
| `ManifestCodec.SerializeIsInjective` | wal/manifest.go:246-273 | different manifests have different bytes |
| `ManifestCodec.LegacyUpgrade` | wal/manifest.go:184-243 | a well-formed version 1 or 2 manifest parses exactly when its entries fit the current encoding, then has the same entries with count 0, and re-serialized as version 4 parses back to them |
| `ManifestCodec.DamageIsCorrupt` | wal/manifest.go:157-170 | changing any one byte outside the version word of a version 4 manifest yields ErrCorrupt |
| `ManifestCodec.OneByteDamage` | wal/manifest.go:152-223 | for every accepted version 4 manifest and every change of one byte: the result is accepted if and only if the byte is in the version word, the word becomes 1, 2 or 3, and the bytes then read as that older footer and region are well formed |
| `ManifestCodec.RelabelledIff` | wal/manifest.go:157-170 | a serialized manifest whose version word becomes 3 is accepted if and only if bits 16 to 31 of ThroughSeq are at most the length of region and snapshot location plus 4 |
| `ManifestCodec.FlipIsRejected` | objectstore/sim.go:167-177 | inverting any byte of a version 4 manifest is rejected |
| `ManifestCodec.VersionWordIsUnprotected` | wal/manifest.go:157-170 | every manifest without a snapshot, of any size, is accepted after a change of one byte of its version word, with four zero bytes behind its region that make the entries undecodable |
| `ManifestIndex.ContainingIsSuffix` | wal/manifest.go:363-375 | under tiling, the entries ending beyond s are the suffix that starts at the entry covering s |
| `ManifestIndex.ScanFindsOwner` | wal/manifest.go:383-402 | a linear scan finds the covering entry exactly for sequences in the tiled range |
| `ManifestIndex.SelectContaining` | wal/manifest.go:363-375 | the filter loop of EntriesContaining |
| `ManifestIndex.SearchOwner` | wal/manifest.go:389-397 | the binary search ends at the first entry that ends beyond s |
| `ManifestIndex.SelectKept` | wal/manifest.go:408-422 | the filter loop of TruncateThrough keeps exactly the suffix of entries not wholly superseded, and counts the rest |
| `ManifestIndex.IndexLocations` | wal/manifest.go:539-555 | the map from location to entry: a location is present exactly if some entry has it, and then gives the last such entry |
| `Manifests.Manifest.constructor` | wal/manifest.go:137-137 | a new manifest is empty and well formed |
| `Manifests.Manifest.Serialized` | wal/manifest.go:246-273 | serializing fails exactly when the entry count or snapshot location is too long, and otherwise parses back to the same entries in base-then-side order |
| `Manifests.Manifest.Append` | wal/manifest.go:275-291 | appending assigns the next sequences, extends the decoded entries by exactly that entry, keeps the tiling, and changes nothing on an error |
| `Manifests.Manifest.Entries` | wal/manifest.go:312-327 | returns what base and side buffer decode to, or fails |
| `Manifests.Manifest.EntriesContaining` | wal/manifest.go:363-375 | exactly the entries ending beyond s, in order, or the decode error |
| `Manifests.Manifest.Locate` | wal/manifest.go:383-402 | the binary search returns what a linear scan returns, with the index within the entry; undecodable entries give not found |
| `Manifests.Manifest.TruncateThrough` | wal/manifest.go:408-437 | what is kept is a suffix of the entries and a literal byte suffix of their encoding, still tiled; nothing changes if nothing is removed or the entries do not decode |
| `Manifests.Manifest.TailLocations` | wal/manifest.go:539-555 | over the last limit entries, a location is present exactly if some entry has it and then gives the last such entry; the decode error otherwise |
| `Manifests.UpgradeLegacyEntries` | wal/manifest.go:228-243 | the decode-and-re-encode loop equals the specified upgrade, with its errors |
| `Manifests.ParseManifest` | wal/manifest.go:152-223 | the in-memory manifest is what the bytes say, or the same error |
| `Manifests.UpgradeThenAppend` | wal/manifest.go:184-291 | a version 1 or 2 manifest, loaded, appended to and saved, is read back with its old entries, one sequence each, and the new per-record ones tiling on without gap or overlap |
| `Segment.SegmentReadBack` | wal/segment.go:70-162 | decoding an encoded segment returns the records, for both footers and both codecs, and fails for an unknown codec |
| `Segment.DamageIsCorrupt` | wal/segment.go:109-135 | changing any one byte outside the version word of a version 2 segment yields ErrCorrupt |
| `Segment.FlipIsRejected` | objectstore/sim.go:167-177 | inverting any byte of a version 2 segment is rejected |
| `Segment.OneByteDamage` | wal/segment.go:104-162 | for every intact version 2 segment and every change of one byte: the result is accepted if and only if the version word becomes 1 and the bytes then read as the older footer are well formed |
| `Segment.RelabelledPlain` | wal/segment.go:104-162 | an uncompressed segment of fewer than 2^24 records, relabelled 1, is accepted if and only if its checksum is at most its record count, and then loses the records beyond that number |
| `Segment.EncodeSegment` | wal/segment.go:70-100 | the loops produce the specified bytes, refused exactly when a count or length exceeds 32 bits |
| `Segment.DecodeSegment` | wal/segment.go:104-162 | the offset loop returns exactly what parsing the object returns, errors included |
| `ObjectStores.SwapIsExact` | objectstore/memory.go:64-90 | a conditional update lands exactly when its object has had no new version since the read its ETag came from, whatever happened to other objects; a create exactly when there is none |
| `ObjectStores.InMemory.Get` | objectstore/memory.go:40-58 | returns the last version written and an ETag no other write has |
| `ObjectStores.InMemory.PutOpts` | objectstore/memory.go:64-90 | lands or is refused exactly by mode and ETag; a landed write extends the history by itself and nothing else changes |
| `ObjectStores.SimStore.PutOpts` | objectstore/sim.go:222-246 | success means landed, a refusal means not landed, an injected error means either |
| `ObjectStores.SimStore.Get` | objectstore/sim.go:185-199 | a read fails, or returns the object, or the object with exactly one byte inverted |
| `ObjectStores.FlipByte` | objectstore/sim.go:167-177 | one byte is inverted and no other changes |
| `ManifestStores.Store.Load` | wal/store.go:27-41 | the current manifest with its version; an empty one without a version if there is no object; the parse error otherwise |
| `ManifestStores.Store.Commit` | wal/store.go:45-68 | for every earlier moment at which a load gave the version passed in: swaps if and only if the object has had no new version since, and the stored bytes then parse to the manifest written |
| `ManifestStores.CommitThenLoad` | wal/store.go:27-68 | a manifest that was swapped in is loaded back with the same entries, next sequence, epoch and snapshot |
| `ManifestStores.CommitTwice` | wal/store.go:45-68 | of two writers that loaded the same version the first swaps its manifest in, the second is refused, and the first one's manifest stays |
| `Naming.KeysAreDistinct` | wal/producer.go:487-493 | segment keys under one prefix are equal only for equal run id and ordinal |
| `Naming.LocationsAreNamed` | wal/producer.go:487-493 | with distinct run ids the key identifies the pair of run and ordinal |
| `Naming.KeyText` | wal/producer.go:487-493 | a key in full: slashes between prefix, run id and ordinal, sixteen lower-case hexadecimal digits, most significant first |
| `Landing.StepKeeps` | wal/producer.go:317-725 | every step of the protocol keeps the invariant |
| `Landing.ReachableHolds` | wal/producer.go:317-725 | the invariant holds in every reachable state, for any number of producers and any fate of their puts |
| `Commits.WholeOrNothing` | wal/producer.go:730-751 | under a producer's own epoch, the lookup in the last 4n entries finds the whole group at its true sequences or nothing of it |
| `Guarantees.LocationsAreUnique` | wal/producer.go:619-751 | in every reachable state no segment location occurs twice, and entries tile the sequences from 0 |
| `Guarantees.EpochsNeverDecrease` | wal/producer.go:317-356 | along the history epochs never decrease, a claim raises them, and entries are never removed or moved |
| `Guarantees.EpochsOrderEntries` | wal/producer.go:650-682 | all entries written under one epoch precede those written under a later one |
| `Guarantees.ClaimsAreExclusive` | wal/producer.go:317-356 | no two producers ever hold the same epoch |
| `Guarantees.FencedAfterHigherClaim` | wal/producer.go:650-682 | a commit lands only under its writer's epoch, adds only its segments, and only if no higher claim has landed before, acknowledged or not |
| `Guarantees.WritesIncrease` | wal/producer.go:329-336 | every landed write strictly raises (epoch, next sequence) |
| `Guarantees.NoABA` | wal/producer.go:668-682 | a manifest value equals the current one exactly if it is the current version |
| `Guarantees.SerializedNeverRepeats` | wal/manifest.go:246-273 | serialized manifests of different versions have different bytes, so ETags derived from content are safe |
| `Guarantees.EntriesDecode` | wal/producer.go:484-531 | every entry names a stored object that decodes to exactly its count of records, those that were planned |
| `Guarantees.LandedIsPrefix` | wal/producer.go:469-585 | what a producer has in the log is a prefix of its admission order: all it acknowledged and at most one commit group more |
| `Guarantees.PartialGroupIsUnreachable` | wal/producer.go:747-750 | the partial atomic group branch is never taken |
| `Provenance.OriginExists` | wal/producer.go:589-614 | every sequence of the log comes from a record of an admitted Append |
| `Provenance.OriginsAreDistinct` | wal/producer.go:619-751 | a sequence has one origin, and no record of any Append, acknowledged or failed, is in the log twice |
| `Provenance.OriginIsRead` | wal/producer.go:589-614 | decoding the covering segment and looking up the annotation gives the record and its Append's own metadata |
| `Provenance.AcknowledgedIsInLog` | wal/producer.go:776-788 | record j of an acknowledged Append is in the log at the resolved sequence plus j |
| `Provenance.RunFollows` | wal/producer.go:317-725 | along any run, history, admissions, acknowledgements and stored segments only grow |
| `RealTime.OriginStays` | wal/producer.go:619-725 | along any run, the record at a sequence of the log stays the one it was |
| `RealTime.LaterAppendsComeAfter` | wal/linearizability_test.go:20-90 | along any run, whatever is in the log comes before every record, acknowledged or not, of every Append not yet admitted then |
| `RealTime.AnsweredComesFirst` | wal/linearizability_test.go:20-90 | real-time order across producers: if one Append was answered before another was admitted, every sequence of the first is below every sequence of the second |
| `Packing.PlanSegments` | wal/producer.go:589-614 | the loop packs Append groups whole, in order and greedily under the cap, with their records, annotations and sizes |
| `Packing.PackingIsUnique` | wal/producer.go:589-614 | a batch has exactly one greedy packing, so the contract of PlanSegments leaves no choice |
| `Packing.GroupMetaFor` | wal/replica.go:218-228 | the loop returns the payload of the last range starting at or before the record |
| `Packing.CoveringIsOwn` | wal/replica.go:218-228 | for annotations made by planSegments that payload is the metadata of the record's own Append |
| `CommitLoop.HarvestCommitted` | wal/producer.go:730-745 | the lookup loop counts and locates exactly the segments of the group in the tail it is given |
| `CommitLoop.TailLocations` | wal/manifest.go:539-555 | the index of the last entries returns the latest sequence for each location and holds no other location |
| `CommitLoop.CommitTurn` | wal/producer.go:633-723 | one turn is a run of the protocol that ends as it has to: fenced if and only if what it loaded is under another epoch; after an unknown outcome, committed at the entries' own sequences if anything of the group is there; otherwise as the store answers the put |
| `CommitLoop.PresentIsHarvested` | wal/producer.go:650-667 | in every reachable state, a group of which anything is in a version under the own epoch is harvested from it whole, at its entries' sequences |
| `CommitLoop.CommitEntries` | wal/producer.go:619-725 | for every environment the loop is a run of the protocol of exactly the turns it must take, within ManifestMaxAttempts + MaxCommitConflicts - 1; it answers what its last turn answers, or names the budget or the cancelled backoff that ended it; a first turn in which nothing goes wrong commits; the partial group error is impossible from a reachable state |
| `CommitLoop.LostAnswerIsRecovered` | wal/producer.go:650-667 | in every run of the loop, after a put that landed with its answer lost, the next turn that reloads the current manifest under the own epoch commits and is the last |
| `Alone.QuietTurnIsSmooth` | wal/producer.go:633-682 | from every reachable state in which its epoch is current, a producer that nobody gets in the way of commits in one turn |
| `Alone.QuietLossIsRecovered` | wal/producer.go:650-667 | the same if the first answer is lost: two turns |
| `Alone.QuietClaim` | wal/producer.go:317-341 | a producer that claims and that nobody gets in the way of gets the epoch after the current one |
| `CommitLoop.AnswerIsRight` | wal/producer.go:619-725 | sequences returned are where the whole group is in the current manifest; after a failure the manifest holds the whole group or nothing of it |
| `CommitLoop.ClaimEpoch` | wal/producer.go:317-356 | for every environment the claim loop is a run of the protocol in which every attempt but the last failed; it claims the epoch after the one its last attempt loaded exactly if that attempt's put lands and is answered, and gives up only after MaxClaimAttempts or a cancelled backoff |
| `CommitLoop.ClaimIsExclusive` | wal/producer.go:317-356 | a claimed epoch is recorded in some version and held by no other producer |
| `Accounting.SuccessIsPrefix` | wal/producer.go:531-554 | the Appends that succeed are a prefix of the admission order: no success follows a failure |
| `Accounting.ResolvedIsInLog` | wal/producer.go:776-788 | what Wait returned is where the records are and what a reader finds there |
| `Primaries.Primary.constructor` | wal/producer.go:281-305 | a producer whose claim succeeded starts with empty, exact books |
| `Primaries.Primary.TryAppend` | wal/producer.go:372-411 | one lock section of Append: exactly when it is admitted, blocked or refused, the new books, and exactly when flush and wake-up are signalled, in terms of the counters and caps |
| `Primaries.Primary.ResolvePlan` | wal/producer.go:776-788 | each Append of a committed segment resolves to base plus its own start index, the segment's budget is returned, and a waiter is woken exactly if nothing is left in flight or both caps have slack |
| `Primaries.Primary.FailItems` | wal/producer.go:790-798 | each Append resolves as failed, its budget is returned, and a waiter is woken exactly if nothing is left in flight or both caps have slack |
| `Primaries.Primary.UploadSegment` | wal/producer.go:499-518 | succeeds exactly when the records fit and some try succeeds before budget or context ends, and is then stored |
| `Primaries.FirstFail` | wal/producer.go:520-530 | the first failed upload, with all before it successful |
| `Primaries.Primary.Begin` | wal/producer.go:469-493 | takes the queue, plans it greedily and reserves one ordinal per segment; nothing is resolved |
| `Primaries.Primary.CommitInOrder` | wal/producer.go:564-585 | commits segments in order in groups as large as ManifestAppendBatchSize allows, resolves exactly the committed ones, and stops at the first failure |
| `Primaries.Primary.Flush` | wal/producer.go:469-558 | a run of the protocol from the old world to the new, after which everything queued before it is resolved once, truthfully, with exact budgets; without a failure every such Append has a position; an upload that failed was not storable, and a commit that failed is explained by the turns of its loop, the first of which did not go smoothly; a waiting Append is woken if nothing is left in flight |
| `Primaries.Primary.Close` | wal/producer.go:435-447 | a run of the protocol after which nothing more is admitted, every admitted Append is resolved, and both budgets are zero |
| `Backpressure.WakeUpIsNeverLost` | wal/producer.go:363-428 | in no reachable open, unhalted state does an Append wait with nothing in flight and no token, signal or other Append on its way |
| `Backpressure.HaltedRunDrains` | wal/producer.go:761-770 | over any run of a halted producer, every token issued lets one waiting Append out and none starts to wait |
| `Backpressure.TicksDrainEveryRun` | wal/producer.go:469-475 | over every run of a halted producer, the flush ticks that find the token slot empty each cost one waiting Append, but for a token still on its way |
| `Backpressure.DrainedAfterTicks` | wal/producer.go:469-475 | over every run in which each tick finds the slot empty, after as many ticks as there were waiting Appends none waits once the last token is taken |
| `Backpressure.TicksDrain` | wal/producer.go:469-475 | such runs exist: from every idle halted state, one with exactly n ticks lets all n waiting Appends out |
| `Correspondence.AppendIsAsked` | wal/producer.go:372-421 | Append on the producer object is the token protocol's: same decision, same books, and the token is set exactly when the protocol sets it |
| `Correspondence.ResolveIsFreed` | wal/producer.go:761-788 | resolving a segment on the producer object is the token protocol's release, and sets the token exactly when that does |
| `Correspondence.NobodySleeps` | wal/producer.go:363-428 | so on the producer object, while it is open, no Append waits with nothing in flight and an empty slot unless someone is on the way to fill it |
| `Replicas.Replica.constructor` | wal/replica.go:79-92 | a reader starts at the persisted cursor if there is one, else at StartAt |
| `Replicas.Replica.Restore` | wal/replica.go:106-115 | the cursor is read once per process, and a failed read changes nothing |
| `Replicas.Replica.SaveCursor` | wal/replica.go:133-142 | a save that fails may still have landed; what is persisted passes only applied records |
| `Replicas.Replica.ApplySegment` | wal/replica.go:154-166 | hands over exactly the records not yet passed, in order, with sequence and metadata, and fails exactly if one of them is refused |
| `Replicas.Replica.Poll` | wal/replica.go:103-192 | keeps delivery gapless and in order and the cursor safe under every failure; succeeds if nothing fails; a successful poll hands over exactly the records from its resume point up to the first entry boundary at which MaxRecordsPerPoll is reached, or the end of what it was shown, and stands and is persisted there; while saves work the cursor lags by fewer than CursorSaveInterval entries |
| `Replicas.Replica.Restart` | wal/replica.go:79-92 | a new process over the same cursor store keeps the invariant |
| `Replicas.Replica.Drive` | wal/replica.go:103-192 | any mix of commits, polls with any failures, and restarts keeps delivery gapless, in order and the cursor safe, and one last poll in which nothing fails, without a cap, leaves nothing undelivered |
| `Replicas.Replica.CatchUp` | wal/replica.go:103-192 | as many polls without failures as the log has entries deliver all of it, whatever the cap |
| `TailLog.FirstDeliveries` | wal/replica.go:103-192 | leaving repeats out, what was delivered is the beginning of the log from the start sequence, in order and without a gap |
| `TailLog.CursorIsSafe` | wal/replica.go:168-186 | no record below a persisted cursor is undelivered |
| `TailLog.LogGrows` | wal/replica.go:123-126 | more commits only add to the end of what a reader is to see, and move no position it has reached |
| `EndToEnd.ReadersSeeWholeLog` | wal/replica.go:116-126 | every reachable state shows a reader a tiled log whose objects all decode |
| `EndToEnd.ReadersSeeGrowth` | wal/replica.go:116-126 | whatever happens, a reader later sees the same entries and objects with more behind them |
| `EndToEnd.AppendIsDelivered` | wal/replica.go:152-166 | record j of an Append resolved to f reaches every reader that passed f + j, as sequence f + j with the Append's own metadata, and nothing else reaches it under that sequence |
| `Correspondence.SegmentsAreEntries` | wal/replica.go:116-166 | the segments a sink goes through are the entries the replica selects, with the same records from the same resume point |
| `Pipeline.EveryLogCanBePolled` | querystream/sink.go:96-115 | the log of every reachable state is numbered without gap and cut into segments, as the sink takes it to be |
| `Pipeline.AppendReachesFiles` | querystream/sink.go:96-211 | record j of an Append resolved to f is, once polls that succeeded have passed f + j, in the sink's files exactly once, as row f + j with the Append's own data and metadata |
| `Pipeline.AppendIsFiled` | querystream/sink.go:96-211 | once nothing fails around it, a sink that has polled as often as the log has segments has filed every record of every acknowledged Append from its start on, exactly once |
| `Sinks.Sink.constructor` | querystream/sink.go:60-90 | the start sequence is the persisted cursor, else StartAt; visibleHigh is the highest sequence among the files that are there |
| `Sinks.ScanExisting` | querystream/sink.go:261-281 | the scan returns the largest last sequence among the files, if there is one |
| `Sinks.LeadingRun` | querystream/sink.go:165-169 | the length of the leading run in one bucket |
| `Sinks.Sink.FlushOne` | querystream/sink.go:161-211 | the loops and updates equal the specified flush, with failed writes and saves |
| `Sinks.Sink.OnRecord` | querystream/sink.go:138-156 | equals the specified handling of a record: bucket boundary, caps, errors |
| `Sinks.Sink.PollReplica` | wal/replica.go:103-192 | equals the specified pass over the segments with the sink as Applier |
| `Sinks.Sink.Poll` | querystream/sink.go:96-115 | equals the specified poll: drain on success, drop the buffer when the replica fails, keep it when a flush fails |
| `SinkLayout.FlushKeepsAll` | querystream/sink.go:184-196 | a flush moves rows from buffer to file and loses, adds or reorders none |
| `SinkLayout.PollIsLaid` | querystream/sink.go:96-211 | after a poll from rest the files hold the log up to the sink's cursor, non-empty, one bucket each and within the cap, whether it failed or not; after success they hold all of it up to the replica's position |
| `SinkLayout.ScanFindsHigh` | querystream/sink.go:261-281 | the scan over the files of a sink finds its own visibleHigh |
| `SinkProgress.FaultlessPoll` | querystream/sink.go:96-115 | a poll in which nothing fails succeeds from every state, and gets to the first segment end that reaches MaxRecordsPerPoll, or the last |
| `SinkProgress.EverythingIsFiled` | querystream/sink.go:96-115 | as many such polls as there are segments file exactly the log from start on |
| `SinkFiles.SuccessHeeds` | querystream/sink.go:96-211 | a poll that succeeded had loaded the manifest, read every segment and decoded every record it passed, and written every file and saved every cursor it had to |
| `SinkFiles.PollCutsGreedily` | querystream/sink.go:138-156 | the files of a successful poll are closed with the row that reaches MaxRows or MaxBytes or is the last of its bucket, and at no other row but the poll's last |
| `SinkFiles.GreedyIsUnique` | querystream/sink.go:138-156 | rows have only one such cut |
| `SinkLoss.SuccessfulRun` | querystream/sink.go:96-211 | over polls that succeed, files in flush order hold exactly records start to visibleHigh once each, every file is non-empty, in one bucket and within MaxRows, the buffer is empty, and the saved cursor is visibleHigh + 1 |
| `SinkLoss.RestartResumes` | querystream/sink.go:67-76 | a crash between any two records of such a run neither loses nor repeats a row if the cursor is persisted |
| `SinkLoss.PollLoses` | querystream/sink.go:97-104 | a poll from rest loses exactly the records between what the sink still has and the replica's position, none if it succeeds |
| `SinkLoss.LostForever` | querystream/sink.go:97-104 | a lost row stays lost through any run of later polls of the same sink |
| `SinkLoss.LostAcrossRestartIff` | querystream/sink.go:67-76 | after any such run, reopening the sink leaves the row lost if and only if a cursor beyond it has been saved |
| `SinkLoss.RestartRecovers` | querystream/sink.go:97-104 | a restart right after the poll that lost a row recovers it, in every configuration |
| `SinkLoss.RestartRepeats` | querystream/sink.go:161-211 | after a crash or a failed save at any point of such a run, the rows a restart writes again are exactly those between its resume point and the end of the files |
| `SinkRestarts.RestartedSinkKeepsAll` | querystream/sink.go:117-136 | over any number of restarts, a sink that stops at its first failed poll, as Run does, never loses a row: after a last life without failure every sequence below its position is in a file |
| `SinkLoss.FailedPollSkips` | querystream/sink.go:97-104 | the failed poll that skips a row: one segment completed, the next unreadable |
| `SinkLoss.LosesAtOnceIff` | querystream/sink.go:97-104 | one failed poll after successful ones can lose rows if and only if MaxRows is above 1 and MaxRecordsPerPoll is not 1 |
| `SinkLoss.LosesIff` | querystream/sink.go:96-115 | some run loses a row if and only if MaxRows is above 1 |
| `Queries.PrunedIsPlain` | querystream/duckdbq/query.go:46-69 | the scan with the bucket bound returns the rows of the scan without it, in order, for files the sink laid out with a bucket size up to the reader's |
| `Queries.PruningIsSafeIff` | querystream/duckdbq/query.go:46-69 | the bucket bound excludes no row of any window if and only if the reader's bucket size is at least the writer's |
| `Queries.ScanView` | querystream/duckdbq/query.go:60-81 | the cursor loop returns exactly the rows that satisfy the view's predicate |
| `Queries.StreamTrigger` | querystream/duckdbq/stream.go:111-195 | incremental: reads the window from watermark to visibleHigh and moves the watermark behind it before the result is sent or discarded; a watermark moved by another runner is a conflict and emits nothing; cumulative: the watermark stays; nothing visible or nothing new emits nothing |
| `Queries.ReadAtMostOnce` | querystream/duckdbq/stream.go:120-195 | however many runners share a watermark, and whichever results are discarded, no sequence is in two delivered windows, and none at or above the watermark in any |
| `Queries.ReadExactlyOnceIff` | querystream/duckdbq/stream.go:120-195 | in every run, every sequence below the watermark, 0 included, is in a delivered window if and only if no committed window was dropped or is still to be sent |
| `Queries.DroppedWindow` | querystream/duckdbq/stream.go:166-195 | the run that commits a window, is cancelled, and so never delivers it |
| `Queries.IncrementalRead` | querystream/duckdbq/stream.go:120-170 | an incremental read over the files of a sink at any moment, between two flushes of a poll or after a failed one, returns exactly the records of its window, once each and in order |
| `Queries.CumulativeRead` | querystream/duckdbq/stream.go:120-170 | a cumulative read returns exactly the records from its start on, once each and in order |
| `Queries.TriggersRead` | querystream/duckdbq/stream.go:120-195 | over successive triggers at any such moments, the rows returned, put together, are exactly the records from start up to the watermark |
| `Queries.StreamFollowsSink` | querystream/duckdbq/stream.go:120-195 | triggers after each of any number of successful polls return together exactly the records the sink has made visible |

## Left out

- S3 and the AWS error classification; only the meaning of each outcome is kept, as an assumption.
- DuckDB, SQL text, Parquet and JSONL: the view is a filter over rows, and the optional deduplication is not modelled.
- zstd internals.
- Clocks, tickers, backoff durations and jitter: scheduling is free choice.
- Logging, metrics and default values; withDefaults appears as the condition that budgets are positive.
- The random generator and fault probabilities of `objectstore/sim.go`: faults are chosen freely.
- `cmd/`, scripts and benchmarks.
- File-system detail: writing a file and saving a cursor are atomic; a failed save may have landed.
- `List`, `Delete`, snapshots as such, `EntriesAfter`, `EntriesFrom` and `SeqRange`: they would add only easy members.
- `TruncateThrough` beside running producers: it is modelled on one manifest only.
- Legacy entries (Count 0) in the sink: its sequences are taken to be per record, as the sink's layout promises are.
- Primaries.Primary.UploadSegment: segments are uploaded one after another rather than concurrently; they write different objects, and other producers and callers act in between.
- Primaries.Primary.Flush: calls of Append take the lock between the flush's critical sections and between commit groups, not inside the commit loop, which does not touch what they touch; a Durability is identified by the Append's place in admission order.
- CommitLoop.CommitEntries: whether entries can be encoded and whether the tail decodes are choices of the environment here, since entry bytes are not part of the protocol state.
- CommitLoop.HarvestCommitted: takes a tail that has been decoded; one that does not decode ends the turn before it, as `Unreadable` in `CommitLoop.CommitTurn`.
- Replicas.Replica.Poll: damaged reads are those decodeSegment refuses, which for checksummed segments is proved of any inverted byte; undetected damage to unchecksummed segments is not modelled.
- Sinks.Sink.Poll: rows are the records themselves; what the decoder makes of them is not modelled.
