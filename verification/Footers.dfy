/** Objects are read from their end: a fixed footer whose last word is the format version. */
module Footers {
  import opened Bytes
  import opened Crc32c

  function Front(d: bytes, k: nat): bytes
    requires k <= |d|
  {
    d[..|d| - k]
  }

  function Back(d: bytes, k: nat): nat
    requires k <= |d|
  {
    FromLE(d[|d| - k..])
  }

  lemma FooterReadBack(front: bytes, n: nat, k: nat)
    requires n < Pow256(k)
    ensures Front(front + ToLE(n, k), k) == front && Back(front + ToLE(n, k), k) == n
  {
    Cut(front, ToLE(n, k));
    ReadBack(n, k);
  }

  lemma DifferHalves(a: bytes, b: bytes, i: nat, k: nat)
    requires DifferAt(a, b, i) && k <= |a|
    ensures i < |a| - k ==> DifferAt(Front(a, k), Front(b, k), i) && a[|a| - k..] == b[|b| - k..]
    ensures i >= |a| - k ==> Front(a, k) == Front(b, k) && a[|a| - k..] != b[|b| - k..]
  {
    var h := |a| - k;
    if i < h {
      assert a[h..] == a[i + 1..][h - i - 1..] == b[i + 1..][h - i - 1..] == b[h..];
      assert a[..h][..i] == a[..i] && b[..h][..i] == b[..i];
      assert a[..h][i + 1..] == a[i + 1..][..h - i - 1] && b[..h][i + 1..] == b[i + 1..][..h - i - 1];
    } else {
      assert a[..h] == a[..i][..h] == b[..i][..h] == b[..h];
      assert a[h..][i - h] == a[i] && b[h..][i - h] == b[i];
    }
  }

  lemma TwoBytes(b: bytes)
    requires |b| == 2
    ensures FromLE(b) == (b[0] as int) + 256 * (b[1] as int)
  {
    assert b[1..][1..] == [];
    assert FromLE(b[1..]) == b[1] + 256 * FromLE(b[1..][1..]);
  }

  /** Damage inside the two-byte version word changes the version; inverting one of its bytes changes it to its
      complement in that byte. */
  lemma VersionWordDamage(d: bytes, bad: bytes, i: nat)
    requires DifferAt(d, bad, i) && 2 <= |d| && i >= |d| - 2
    ensures Back(bad, 2) != Back(d, 2)
    ensures bad[i] == 255 - d[i] && Back(d, 2) < 128 ==>
              Back(bad, 2) == 255 - Back(d, 2) || Back(bad, 2) == 0xFF00 + Back(d, 2)
  {
    var v, w := d[|d| - 2..], bad[|bad| - 2..];
    TwoBytes(v);
    TwoBytes(w);
    DifferHalves(d, bad, i, 2);
    if FromLE(v) == FromLE(w) {
      FromLEInjective(v, w);
    }
    if i == |d| - 2 {
      assert bad[|d| - 1] == bad[i + 1..][0] == d[i + 1..][0] == d[|d| - 1];
    } else {
      assert bad[|d| - 2] == bad[..i][|d| - 2] == d[..i][|d| - 2] == d[|d| - 2];
    }
  }

  /** The bytes under a checksum and the checksum: one changed byte in either makes them disagree. */
  lemma ChecksumDamage(d: bytes, bad: bytes, i: nat)
    requires DifferAt(d, bad, i) && 4 <= |d|
    requires Checksum(Front(d, 4)) == Back(d, 4)
    ensures Checksum(Front(bad, 4)) != Back(bad, 4)
  {
    DifferHalves(d, bad, i, 4);
    if i < |d| - 4 {
      OneByteChangesChecksum(Front(d, 4), Front(bad, 4), i);
    } else if Back(d, 4) == Back(bad, 4) {
      FromLEInjective(d[|d| - 4..], bad[|bad| - 4..]);
    }
  }
}
