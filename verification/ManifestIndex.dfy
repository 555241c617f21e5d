/** Looking records up by sequence in a manifest's entries. */
module ManifestIndex {
  import opened Bytes
  import opened Entries
  import opened Wrappers

  /** The entries with a record at or after s. */
  function Containing(entries: seq<Entry>, s: nat): seq<Entry> {
    if entries == [] then []
    else (if entries[0].End() > s then [entries[0]] else []) + Containing(entries[1..], s)
  }

  /** How many leading entries lie wholly before s. */
  function Before(entries: seq<Entry>, s: nat): (k: nat)
    ensures k <= |entries|
    ensures forall i :: 0 <= i < k ==> entries[i].End() <= s
    ensures k < |entries| ==> entries[k].End() > s
  {
    if entries == [] || entries[0].End() > s then 0
    else
      var k := Before(entries[1..], s);
      assert forall i :: 0 < i <= k ==> entries[i] == entries[1..][i - 1];
      1 + k
  }

  /** The index of the entry that owns s, by looking at each. */
  function Scan(entries: seq<Entry>, s: nat): Option<nat> {
    if entries == [] then None
    else if entries[0].Contains(s) then Some(0)
    else match Scan(entries[1..], s) case None => None case Some(i) => Some(i + 1)
  }

  lemma {:induction false} AllContain(entries: seq<Entry>, s: nat)
    requires forall i :: 0 <= i < |entries| ==> entries[i].End() > s
    ensures Containing(entries, s) == entries
  {
    if entries != [] {
      AllContain(entries[1..], s);
      assert [entries[0]] + entries[1..] == entries;
    }
  }

  /** Over tiled entries, what is needed to replay from s is a suffix that starts with the entry covering s. */
  lemma {:induction false} ContainingIsSuffix(entries: seq<Entry>, lo: nat, hi: nat, s: nat)
    requires Tiles(entries, lo, hi)
    ensures Containing(entries, s) == entries[Before(entries, s)..]
    ensures lo <= s < hi ==> Before(entries, s) < |entries| && entries[Before(entries, s)].Contains(s)
  {
    if entries != [] {
      if entries[0].End() > s {
        forall i | 0 <= i < |entries|
          ensures entries[i].End() > s
        {
          if i > 0 {
            TilesOrdered(entries, lo, hi, 0, i);
          }
        }
        AllContain(entries, s);
      } else {
        ContainingIsSuffix(entries[1..], entries[0].End(), hi, s);
        assert [] + Containing(entries[1..], s) == Containing(entries[1..], s);
      }
    }
  }

  /** Over tiled entries the owner of s is found by the scan exactly when s is in the tiled range, and it is the
      entry a binary search for the first End above s stops at. */
  lemma {:induction false} ScanFindsOwner(entries: seq<Entry>, lo: nat, hi: nat, s: nat)
    requires Tiles(entries, lo, hi)
    ensures Scan(entries, s) == (if lo <= s < hi then Some(Before(entries, s)) else None)
  {
    if entries == [] {
    } else if entries[0].Contains(s) {
      if entries[1..] != [] {
        TilesWithin(entries, lo, hi, 0);
      }
    } else {
      ScanFindsOwner(entries[1..], entries[0].End(), hi, s);
      TilesWithin(entries, lo, hi, 0);
    }
  }

  lemma {:induction false} SuffixTiles(entries: seq<Entry>, lo: nat, hi: nat, k: nat)
    requires Tiles(entries, lo, hi) && k <= |entries|
    ensures Tiles(entries[k..], if k == 0 then lo else entries[k - 1].End(), hi)
    decreases k
  {
    if k == 0 {
      assert entries[0..] == entries;
    } else {
      SuffixTiles(entries[1..], entries[0].End(), hi, k - 1);
      assert entries[1..][k - 1..] == entries[k..];
    }
  }

  /** Over tiled entries an entry ends at or before s exactly when it is one of the leading ones. */
  lemma BeforeIsExact(entries: seq<Entry>, lo: nat, hi: nat, s: nat, i: nat)
    requires Tiles(entries, lo, hi) && i < |entries|
    ensures entries[i].End() <= s <==> i < Before(entries, s)
  {
    var k := Before(entries, s);
    if k < i {
      TilesOrdered(entries, lo, hi, k, i);
    }
  }

  // ---------------------------------------------------------------- the loops

  /** The filter loop of EntriesContaining. */
  method SelectContaining(entries: seq<Entry>, s: nat) returns (out: seq<Entry>)
    ensures out == Containing(entries, s)
  {
    out := [];
    for i := 0 to |entries|
      invariant out + Containing(entries[i..], s) == Containing(entries, s)
    {
      var rest := Containing(entries[i + 1..], s);
      assert entries[i..][1..] == entries[i + 1..];
      if entries[i].End() > s {
        assert (out + [entries[i]]) + rest == out + ([entries[i]] + rest);
        out := out + [entries[i]];
      } else {
        assert [] + rest == rest;
      }
    }
    assert out + [] == out;
  }

  /** The binary search of Locate. */
  method SearchOwner(entries: seq<Entry>, s: nat, ghost lo: nat, ghost hi: nat) returns (k: nat)
    requires Tiles(entries, lo, hi)
    ensures k == Before(entries, s)
  {
    ghost var target := Before(entries, s);
    var l, h := 0, |entries|;
    while l < h
      invariant l <= target <= h <= |entries|
    {
      var mid := (l + h) / 2;
      BeforeIsExact(entries, lo, hi, s, mid);
      if entries[mid].End() <= s {
        l := mid + 1;
      } else {
        h := mid;
      }
    }
    k := l;
  }

  /** The filter loop of TruncateThrough. */
  method SelectKept(entries: seq<Entry>, through: nat, ghost lo: nat, ghost hi: nat)
    returns (kept: seq<Entry>, removed: nat)
    requires Tiles(entries, lo, hi)
    ensures removed == Before(entries, through + 1)
    ensures kept == entries[removed..]
  {
    kept, removed := [], 0;
    for i := 0 to |entries|
      invariant removed == if i <= Before(entries, through + 1) then i else Before(entries, through + 1)
      invariant kept == entries[removed..i]
    {
      BeforeIsExact(entries, lo, hi, through + 1, i);
      if entries[i].End() - 1 <= through {
        removed := removed + 1;
      } else {
        kept := kept + [entries[i]];
      }
    }
  }

  /** Entries by location; of two with one location the later wins. */
  function ByLocation(entries: seq<Entry>): map<bytes, Entry> {
    if entries == [] then map[]
    else
      var last := entries[|entries| - 1];
      ByLocation(entries[..|entries| - 1])[last.location := last]
  }

  /** Entry i is the last with its location, and it is e. */
  predicate IsLast(entries: seq<Entry>, e: Entry, i: nat) {
    i < |entries| && entries[i] == e && forall j :: i < j < |entries| ==> entries[j].location != e.location
  }

  /** A location is found exactly when some entry has it, and what is found is the last entry that has it. */
  ghost predicate Indexes(out: map<bytes, Entry>, entries: seq<Entry>) {
    && (forall i :: 0 <= i < |entries| ==> entries[i].location in out)
    && forall loc :: loc in out ==> out[loc].location == loc && exists i: nat :: IsLast(entries, out[loc], i)
  }

  lemma {:induction false} ByLocationIndexes(entries: seq<Entry>)
    ensures Indexes(ByLocation(entries), entries)
  {
    if entries != [] {
      var n := |entries| - 1;
      var front, out := ByLocation(entries[..n]), ByLocation(entries);
      ByLocationIndexes(entries[..n]);
      forall i | 0 <= i < |entries|
        ensures entries[i].location in out
      {
        assert i < n ==> entries[..n][i].location in front;
      }
      forall loc | loc in out
        ensures out[loc].location == loc && exists i: nat :: IsLast(entries, out[loc], i)
      {
        if loc == entries[n].location {
          assert IsLast(entries, out[loc], n);
        } else {
          var i: nat :| IsLast(entries[..n], front[loc], i);
          assert IsLast(entries, out[loc], i);
        }
      }
    }
  }

  /** The last limit entries. */
  function Tail(entries: seq<Entry>, limit: nat): (r: seq<Entry>)
    ensures |r| <= limit && (|r| < limit ==> r == entries)
    ensures |r| <= |entries| && entries[|entries| - |r|..] == r
  {
    if |entries| > limit then entries[|entries| - limit..] else entries
  }

  method IndexLocations(entries: seq<Entry>) returns (out: map<bytes, Entry>)
    ensures out == ByLocation(entries) && Indexes(out, entries)
  {
    out := map[];
    for n := 0 to |entries|
      invariant out == ByLocation(entries[..n])
    {
      assert entries[..n + 1][..n] == entries[..n];
      out := out[entries[n].location := entries[n]];
    }
    assert entries[..|entries|] == entries;
    ByLocationIndexes(entries);
  }
}
