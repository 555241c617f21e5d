/** Manifest entries and the record-sequence ranges they own. */
module Entries {
  import opened Bytes

  /** Annotation of the run of records that begins at startIndex. */
  datatype RecordMeta = RecordMeta(startIndex: nat, ingestionMs: int, payload: bytes)

  /** One committed segment. A count of 0 is the legacy form: one sequence shared by all its records. */
  datatype Entry = Entry(sequence: nat, count: nat, location: bytes, metadata: seq<RecordMeta>) {

    function RangeSize(): nat { if count == 0 then 1 else count }

    function End(): nat { sequence + RangeSize() }

    predicate Contains(s: nat) { sequence <= s < End() }
  }

  /** The entries own [lo, hi) in order, with no gap and no overlap. */
  predicate Tiles(entries: seq<Entry>, lo: nat, hi: nat)
  {
    if entries == [] then lo == hi
    else entries[0].sequence == lo && Tiles(entries[1..], entries[0].End(), hi)
  }

  /** The same as Tiles, said of neighbours. */
  predicate Chained(entries: seq<Entry>)
  {
    forall i :: 0 < i < |entries| ==> entries[i - 1].End() == entries[i].sequence
  }

  lemma {:induction false} TilesIsChained(entries: seq<Entry>, lo: nat, hi: nat)
    ensures Tiles(entries, lo, hi) <==>
            && Chained(entries)
            && (if entries == [] then lo == hi
                else entries[0].sequence == lo && entries[|entries| - 1].End() == hi)
  {
    if entries != [] {
      var rest := entries[1..];
      TilesIsChained(rest, entries[0].End(), hi);
      if Chained(rest) && (rest != [] ==> rest[0].sequence == entries[0].End()) {
        forall i | 0 < i < |entries|
          ensures entries[i - 1].End() == entries[i].sequence
        {
          if i > 1 {
            assert rest[i - 2] == entries[i - 1] && rest[i - 1] == entries[i];
          } else {
            assert rest[0] == entries[1];
          }
        }
      }
      if Chained(entries) {
        forall i | 0 < i < |rest|
          ensures rest[i - 1].End() == rest[i].sequence
        {
          assert rest[i - 1] == entries[i] && rest[i] == entries[i + 1];
        }
      }
    }
  }

  lemma {:induction false} TilesConcat(a: seq<Entry>, b: seq<Entry>, lo: nat, mid: nat, hi: nat)
    requires Tiles(a, lo, mid) && Tiles(b, mid, hi)
    ensures Tiles(a + b, lo, hi)
  {
    if a == [] {
      assert a + b == b;
    } else {
      assert (a + b)[1..] == a[1..] + b;
      TilesConcat(a[1..], b, a[0].End(), mid, hi);
    }
  }

  /** Later entries begin no earlier than the end of earlier ones. */
  lemma {:induction false} TilesOrdered(entries: seq<Entry>, lo: nat, hi: nat, i: nat, j: nat)
    requires Tiles(entries, lo, hi) && i < j < |entries|
    ensures lo <= entries[i].sequence && entries[i].End() <= entries[j].sequence && entries[j].End() <= hi
    decreases j
  {
    TilesIsChained(entries, lo, hi);
    TilesWithin(entries, lo, hi, i);
    TilesWithin(entries, lo, hi, j);
    if i + 1 < j {
      TilesOrdered(entries, lo, hi, i, j - 1);
    }
    assert entries[j - 1].End() == entries[j].sequence;
  }

  lemma {:induction false} TilesWithin(entries: seq<Entry>, lo: nat, hi: nat, i: nat)
    requires Tiles(entries, lo, hi) && i < |entries|
    ensures lo <= entries[i].sequence && entries[i].End() <= hi
    decreases |entries|
  {
    var rest := entries[1..];
    if i > 0 {
      TilesWithin(rest, entries[0].End(), hi, i - 1);
    } else if rest != [] {
      TilesWithin(rest, entries[0].End(), hi, 0);
    }
  }
}
