/** Bytes and the little-endian fixed-width integers every stored object is made of. */
module Bytes {

  type byte = x: int | 0 <= x < 256
  type bytes = seq<byte>

  const U16_MAX := 0xFFFF
  const U32_MAX := 0xFFFF_FFFF
  const U64_MAX := 0xFFFF_FFFF_FFFF_FFFF

  /** 256^k, the number of values a field of k bytes can hold. */
  function Pow256(k: nat): (p: nat)
    ensures p > 0
  {
    if k == 0 then 1 else 256 * Pow256(k - 1)
  }

  lemma PowWidths()
    ensures Pow256(2) == U16_MAX + 1
    ensures Pow256(4) == U32_MAX + 1
    ensures Pow256(8) == U64_MAX + 1
  {
    assert Pow256(4) == 256 * 256 * 256 * 256 * Pow256(0);
    assert Pow256(8) == 256 * 256 * 256 * 256 * Pow256(4);
  }

  /** The k low-order bytes of n, least significant first. */
  function ToLE(n: nat, k: nat): (b: bytes)
    ensures |b| == k
  {
    if k == 0 then [] else [n % 256] + ToLE(n / 256, k - 1)
  }

  /** The unsigned value of a little-endian byte string. */
  function FromLE(b: bytes): nat {
    if b == [] then 0 else b[0] + 256 * FromLE(b[1..])
  }

  lemma {:induction false} FromLEBound(b: bytes)
    ensures FromLE(b) < Pow256(|b|)
  {
    if b != [] {
      FromLEBound(b[1..]);
    }
  }

  /** Writing a value that fits and reading it back gives the value. */
  lemma {:induction false} ReadBack(n: nat, k: nat)
    requires n < Pow256(k)
    ensures FromLE(ToLE(n, k)) == n
  {
    if k > 0 {
      ReadBack(n / 256, k - 1);
      assert ToLE(n, k)[1..] == ToLE(n / 256, k - 1);
    }
  }

  /** Reading any field and writing it back gives the same bytes. */
  lemma {:induction false} WriteBack(b: bytes)
    ensures ToLE(FromLE(b), |b|) == b
  {
    if b != [] {
      WriteBack(b[1..]);
      assert FromLE(b) % 256 == b[0] && FromLE(b) / 256 == FromLE(b[1..]);
      assert [b[0]] + b[1..] == b;
    }
  }

  /** Two different strings of the same width have different values. */
  lemma FromLEInjective(a: bytes, b: bytes)
    requires |a| == |b| && FromLE(a) == FromLE(b)
    ensures a == b
  {
    WriteBack(a);
    WriteBack(b);
  }

  lemma ConcatAssociates(a: bytes, b: bytes, c: bytes)
    ensures (a + b) + c == a + (b + c)
  {
  }

  lemma Cut(a: bytes, b: bytes)
    ensures (a + b)[..|a|] == a && (a + b)[|a|..] == b
  {
  }

  lemma Rejoin(b: bytes, k: nat)
    requires k <= |b|
    ensures b[..k] + b[k..] == b
  {
  }

  /** A field that fits is read back from the front of what it was written to. */
  lemma FieldReadBack(n: nat, k: nat, rest: bytes)
    requires n < Pow256(k)
    ensures FromLE((ToLE(n, k) + rest)[..k]) == n
    ensures (ToLE(n, k) + rest)[k..] == rest
  {
    Cut(ToLE(n, k), rest);
    ReadBack(n, k);
  }

  /** A field taken off the front of b and put back restores b. */
  lemma FieldWriteBack(b: bytes, k: nat)
    requires k <= |b|
    ensures FromLE(b[..k]) < Pow256(k)
    ensures ToLE(FromLE(b[..k]), k) + b[k..] == b
  {
    FromLEBound(b[..k]);
    WriteBack(b[..k]);
    Rejoin(b, k);
  }

  /** The two's complement image of a signed 64-bit value in a u64 field. */
  function ToU64(i: int): nat
    requires IsI64(i)
  {
    if i < 0 then i + (U64_MAX + 1) else i
  }

  function FromU64(n: nat): (i: int)
    requires n <= U64_MAX
    ensures IsI64(i) && ToU64(i) == n
  {
    if n > I64_MAX then n - (U64_MAX + 1) else n
  }

  const I64_MAX := 0x7FFF_FFFF_FFFF_FFFF

  predicate IsI64(i: int) { -I64_MAX - 1 <= i <= I64_MAX }
}
