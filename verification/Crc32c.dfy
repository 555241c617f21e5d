/** CRC-32C (section 12.1 of RFC 3720), and why a change to one byte never escapes it.
    Words are naturals below 2^32 and exclusive or is defined bit by bit. */
module Crc32c {
  import opened Bytes

  /** The Castagnoli polynomial, bit-reversed. */
  const POLYNOMIAL: nat := 0x82F6_3B78

  function Pow2(k: nat): (p: nat)
    ensures p > 0
  {
    if k == 0 then 1 else 2 * Pow2(k - 1)
  }

  lemma Pow2Widths()
    ensures Pow2(8) == 256 && Pow2(31) == 0x8000_0000 && Pow2(32) == U32_MAX + 1
  {
    assert Pow2(16) == 0x100 * Pow2(8);
    assert Pow2(24) == 0x100 * Pow2(16);
    assert Pow2(31) == 0x80 * Pow2(24);
  }

  function Xor(a: nat, b: nat): nat
    decreases a + b
  {
    if a == 0 && b == 0 then 0
    else (if a % 2 != b % 2 then 1 else 0) + 2 * Xor(a / 2, b / 2)
  }

  lemma {:induction false} XorBound(a: nat, b: nat, k: nat)
    requires a < Pow2(k) && b < Pow2(k)
    ensures Xor(a, b) < Pow2(k)
    decreases k
  {
    if k > 0 {
      XorBound(a / 2, b / 2, k - 1);
    }
  }

  /** A word is recovered from its exclusive or with a known word. */
  lemma {:induction false} XorCancel(a: nat, b: nat, c: nat)
    requires Xor(a, b) == Xor(a, c)
    ensures b == c
    decreases a + b + c
  {
    if a != 0 || b != 0 || c != 0 {
      assert Xor(a, b) == (if a % 2 != b % 2 then 1 else 0) + 2 * Xor(a / 2, b / 2);
      assert Xor(a, c) == (if a % 2 != c % 2 then 1 else 0) + 2 * Xor(a / 2, c / 2);
      XorCancel(a / 2, b / 2, c / 2);
    }
  }

  lemma {:induction false} XorCommutes(a: nat, b: nat)
    ensures Xor(a, b) == Xor(b, a)
    decreases a + b
  {
    if a != 0 || b != 0 {
      XorCommutes(a / 2, b / 2);
    }
  }

  lemma {:induction false} XorZero(a: nat)
    ensures Xor(a, 0) == a
  {
    if a != 0 {
      XorZero(a / 2);
    }
  }

  /** A bit set in one word only, above all bits of the other, survives. */
  lemma {:induction false} XorTop(a: nat, b: nat, k: nat)
    requires a < Pow2(k) <= b
    ensures Xor(a, b) >= Pow2(k)
    decreases k
  {
    if k == 0 {
      XorCommutes(a, b);
      XorZero(b);
    } else {
      XorTop(a / 2, b / 2, k - 1);
    }
  }

  /** One bit of the reflected shift register. */
  function Round(c: nat): nat {
    if c % 2 == 1 then Xor(c / 2, POLYNOMIAL) else c / 2
  }

  /** The polynomial's top bit is set, so the bit shifted out can be read back from the result. */
  lemma RoundIsInjective(c: nat, d: nat)
    requires c <= U32_MAX && d <= U32_MAX
    ensures Round(c) <= U32_MAX && Round(d) <= U32_MAX
    ensures Round(c) == Round(d) ==> c == d
  {
    Pow2Widths();
    XorBound(c / 2, POLYNOMIAL, 32);
    XorBound(d / 2, POLYNOMIAL, 32);
    XorTop(c / 2, POLYNOMIAL, 31);
    XorTop(d / 2, POLYNOMIAL, 31);
    if Round(c) == Round(d) && c % 2 == 1 && d % 2 == 1 {
      XorCommutes(c / 2, POLYNOMIAL);
      XorCommutes(d / 2, POLYNOMIAL);
      XorCancel(POLYNOMIAL, c / 2, d / 2);
    }
  }

  function Rounds(c: nat, n: nat): nat
    decreases n
  {
    if n == 0 then c else Rounds(Round(c), n - 1)
  }

  lemma {:induction false} RoundsAreInjective(c: nat, d: nat, n: nat)
    requires c <= U32_MAX && d <= U32_MAX
    ensures Rounds(c, n) <= U32_MAX && Rounds(d, n) <= U32_MAX
    ensures Rounds(c, n) == Rounds(d, n) ==> c == d
    decreases n
  {
    if n > 0 {
      RoundIsInjective(c, d);
      RoundsAreInjective(Round(c), Round(d), n - 1);
    }
  }

  /** The register after one more byte. */
  function Step(c: nat, b: byte): nat { Rounds(Xor(c, b), 8) }

  /** One step loses nothing: neither the register it started from nor the byte it consumed. */
  lemma StepIsInjective(c: nat, d: nat, x: byte, y: byte)
    requires c <= U32_MAX && d <= U32_MAX
    ensures Step(c, x) <= U32_MAX && Step(d, y) <= U32_MAX
    ensures Step(c, x) == Step(d, y) ==> (c == d <==> x == y)
  {
    Pow2Widths();
    XorBound(c, x, 32);
    XorBound(d, y, 32);
    RoundsAreInjective(Xor(c, x), Xor(d, y), 8);
    if Step(c, x) == Step(d, y) {
      if c == d {
        XorCancel(c, x, y);
      }
      if x == y {
        XorCommutes(c, x);
        XorCommutes(d, y);
        XorCancel(x, c, d);
      }
    }
  }

  /** The register after a whole byte string. */
  function Feed(c: nat, data: bytes): nat
    decreases |data|
  {
    if data == [] then c else Feed(Step(c, data[0]), data[1..])
  }

  lemma {:induction false} FeedIsInjective(c: nat, d: nat, data: bytes)
    requires c <= U32_MAX && d <= U32_MAX
    ensures Feed(c, data) <= U32_MAX && Feed(d, data) <= U32_MAX
    ensures Feed(c, data) == Feed(d, data) ==> c == d
    decreases |data|
  {
    if data != [] {
      StepIsInjective(c, d, data[0], data[0]);
      FeedIsInjective(Step(c, data[0]), Step(d, data[0]), data[1..]);
    }
  }

  lemma {:induction false} FeedConcat(c: nat, a: bytes, b: bytes)
    ensures Feed(c, a + b) == Feed(Feed(c, a), b)
    decreases |a|
  {
    if a == [] {
      assert a + b == b;
    } else {
      assert (a + b)[1..] == a[1..] + b;
      FeedConcat(Step(c, a[0]), a[1..], b);
    }
  }

  /** crc32.Checksum with the Castagnoli table: register preset to ones, result complemented. */
  function Checksum(data: bytes): (sum: nat)
    ensures sum <= U32_MAX
  {
    FeedIsInjective(U32_MAX, U32_MAX, data);
    Pow2Widths();
    XorBound(U32_MAX, Feed(U32_MAX, data), 32);
    Xor(U32_MAX, Feed(U32_MAX, data))
  }

  /** a and b have the same length and differ at index i only. */
  predicate DifferAt(a: bytes, b: bytes, i: nat) {
    && |a| == |b|
    && i < |a|
    && a[i] != b[i]
    && a[..i] == b[..i]
    && a[i + 1..] == b[i + 1..]
  }

  /** Changing exactly one byte, at any place in data of any length, changes the checksum. */
  lemma OneByteChangesChecksum(a: bytes, b: bytes, i: nat)
    requires DifferAt(a, b, i)
    ensures Checksum(a) != Checksum(b)
  {
    var p, q := a[..i], a[i + 1..];
    assert a == p + ([a[i]] + q) && b == p + ([b[i]] + q);
    var c := Feed(U32_MAX, p);
    FeedIsInjective(U32_MAX, U32_MAX, p);
    FeedConcat(U32_MAX, p, [a[i]] + q);
    FeedConcat(U32_MAX, p, [b[i]] + q);
    assert ([a[i]] + q)[1..] == q && ([b[i]] + q)[1..] == q;
    StepIsInjective(c, c, a[i], b[i]);
    FeedIsInjective(Step(c, a[i]), Step(c, b[i]), q);
    if Checksum(a) == Checksum(b) {
      XorCancel(U32_MAX, Feed(U32_MAX, a), Feed(U32_MAX, b));
    }
  }
}
