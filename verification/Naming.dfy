/** Names of segment objects: no two segments of any producers share one. */
module Naming {
  import opened Bytes
  import opened Protocol

  /** Length of a ULID in its text form. */
  const RUN_ID_LENGTH := 26

  const SLASH: byte := 47

  /** The lower-case hexadecimal digit. */
  function Digit(d: nat): byte
    requires d < 16
  {
    if d < 10 then 48 + d else 87 + d
  }

  /** n in k hexadecimal digits, zero-padded, most significant first. */
  function Hex(n: nat, k: nat): (r: bytes)
    ensures |r| == k
    decreases k
  {
    if k == 0 then [] else Hex(n / 16, k - 1) + [Digit(n % 16)]
  }

  function Power16(k: nat): nat { if k == 0 then 1 else 16 * Power16(k - 1) }

  /** Different numbers of at most k digits are written differently. */
  lemma {:induction false} HexIsInjective(n: nat, m: nat, k: nat)
    requires n < Power16(k) && m < Power16(k) && Hex(n, k) == Hex(m, k)
    ensures n == m
    decreases k
  {
    if k > 0 {
      var a, b := Hex(n, k), Hex(m, k);
      assert a[k - 1] == Digit(n % 16) && b[k - 1] == Digit(m % 16);
      assert a[..k - 1] == Hex(n / 16, k - 1) && b[..k - 1] == Hex(m / 16, k - 1);
      HexIsInjective(n / 16, m / 16, k - 1);
    }
  }

  lemma Power16Is()
    ensures Power16(16) == U64_MAX + 1
  {
    assert Power16(4) == 65536;
    assert Power16(8) == 65536 * 65536;
    assert Power16(12) == 65536 * 65536 * 65536;
  }

  /** The key of a segment: prefix, run id and ordinal, with slashes between. */
  function Key(prefix: bytes, runId: bytes, ordinal: nat): bytes {
    prefix + [SLASH] + runId + [SLASH] + Hex(ordinal, 16)
  }

  /** "w/x/0123456789abcdef": slashes between, sixteen lower-case digits, the most significant first. */
  lemma KeyText()
    ensures Key([119], [120], 0x0123_4567_89AB_CDEF) ==
            [119, 47, 120, 47, 48, 49, 50, 51, 52, 53, 54, 55, 56, 57, 97, 98, 99, 100, 101, 102]
  {
    assert Hex(0, 0) == [];
    hide Hex;
    OneDigit(0x0, 0x0, 1);
    OneDigit(0x1, 0x0, 2);
    OneDigit(0x12, 0x1, 3);
    OneDigit(0x123, 0x12, 4);
    OneDigit(0x1234, 0x123, 5);
    OneDigit(0x12345, 0x1234, 6);
    OneDigit(0x123456, 0x12345, 7);
    OneDigit(0x1234567, 0x123456, 8);
    OneDigit(0x12345678, 0x1234567, 9);
    OneDigit(0x123456789, 0x12345678, 10);
    OneDigit(0x123456789A, 0x123456789, 11);
    OneDigit(0x123456789AB, 0x123456789A, 12);
    OneDigit(0x123456789ABC, 0x123456789AB, 13);
    OneDigit(0x123456789ABCD, 0x123456789ABC, 14);
    OneDigit(0x123456789ABCDE, 0x123456789ABCD, 15);
    OneDigit(0x123456789ABCDEF, 0x123456789ABCDE, 16);
  }

  lemma OneDigit(n: nat, rest: nat, k: nat)
    requires k > 0 && rest == n / 16
    ensures Hex(n, k) == Hex(rest, k - 1) + [Digit(n % 16)]
  {
  }

  /** Under one prefix, segments of different runs or with different ordinals have different keys. */
  lemma KeysAreDistinct(prefix: bytes, a: bytes, i: nat, b: bytes, j: nat)
    requires |a| == |b| == RUN_ID_LENGTH && i <= U64_MAX && j <= U64_MAX
    ensures Key(prefix, a, i) == Key(prefix, b, j) <==> a == b && i == j
  {
    hide Hex;
    if Key(prefix, a, i) == Key(prefix, b, j) {
      var k, l := Key(prefix, a, i), Key(prefix, b, j);
      var n := |prefix| + 1;
      assert k[n..n + RUN_ID_LENGTH] == a && l[n..n + RUN_ID_LENGTH] == b;
      assert k[n + RUN_ID_LENGTH + 1..] == Hex(i, 16) && l[n + RUN_ID_LENGTH + 1..] == Hex(j, 16);
      Power16Is();
      HexIsInjective(i, j, 16);
    }
  }

  /** With distinct run ids, the name is as good as the pair of run and ordinal. */
  lemma LocationsAreNamed(prefix: bytes, ids: map<Run, bytes>, x: Location, y: Location)
    requires x.run in ids && y.run in ids && |ids[x.run]| == |ids[y.run]| == RUN_ID_LENGTH
    requires ids[x.run] == ids[y.run] ==> x.run == y.run
    requires x.ordinal <= U64_MAX && y.ordinal <= U64_MAX
    ensures Key(prefix, ids[x.run], x.ordinal) == Key(prefix, ids[y.run], y.ordinal) <==> x == y
  {
    KeysAreDistinct(prefix, ids[x.run], x.ordinal, ids[y.run], y.ordinal);
  }
}
