/** What the checksum is, said without the shift register: the remainder of the message, read as a polynomial over the
    field of two elements, on division by the Castagnoli polynomial (section 12.1 of RFC 3720). */
module CrcPolynomial {
  import opened Bytes
  import opened Crc32c

  /** A polynomial by its coefficients, highest power first. */
  type Poly = seq<bool>

  /** The powers of x in the Castagnoli polynomial, but for x^32. */
  predicate HasPower(k: int) { k in {28, 27, 26, 25, 23, 22, 20, 19, 18, 14, 13, 11, 10, 9, 8, 6, 0} }

  /** The Castagnoli polynomial without x^32. */
  function Castagnoli(): (p: Poly)
    ensures |p| == 32
  {
    seq(32, i => HasPower(31 - i))
  }

  function Zeros(k: nat): (p: Poly)
    ensures |p| == k
  {
    seq(k, _ => false)
  }

  /** Addition of b, lined up with the highest powers of a. */
  function Plus(a: Poly, b: Poly): (p: Poly)
    ensures |p| == |a|
  {
    seq(|a|, i requires 0 <= i < |a| => if i < |b| then a[i] != b[i] else a[i])
  }

  /** The product of q and the Castagnoli polynomial: the sum, over the terms of q, of the polynomial shifted. */
  function Times(q: Poly): (p: Poly)
    ensures |p| == |q| + 32
  {
    if q == [] then Zeros(32)
    else [q[0]] + (if q[0] then Plus(Times(q[1..]), Castagnoli()) else Times(q[1..]))
  }

  /** p is q times the Castagnoli polynomial plus r. */
  predicate Divided(p: Poly, q: Poly, r: Poly) {
    |r| == 32 && |p| == |q| + 32 && p == Plus(Times(q), Zeros(|q|) + r)
  }

  /** Quotient and remainder are unique. */
  lemma {:induction false} DivisionIsUnique(p: Poly, q: Poly, r: Poly, q': Poly, r': Poly)
    requires Divided(p, q, r) && Divided(p, q', r')
    ensures q == q' && r == r'
    decreases |q|
  {
    if q == [] {
      assert p == r && p == r';
    } else {
      assert p[0] == q[0] && p[0] == q'[0];
      var rest := if p[0] then Plus(p[1..], Castagnoli()) else p[1..];
      Shorter(p, q, r, rest);
      Shorter(p, q', r', rest);
      DivisionIsUnique(rest, q[1..], r, q'[1..], r');
      assert q == [q[0]] + q[1..] && q' == [q'[0]] + q'[1..];
    }
  }

  /** One line of the long division. */
  lemma Shorter(p: Poly, q: Poly, r: Poly, rest: Poly)
    requires q != [] && |p| == |q| + 32 && |r| == 32 && p[0] == q[0]
    requires rest == if p[0] then Plus(p[1..], Castagnoli()) else p[1..]
    ensures Divided(p, q, r) <==> Divided(rest, q[1..], r)
  {
    var a, b := Plus(Times(q), Zeros(|q|) + r), Plus(Times(q[1..]), Zeros(|q| - 1) + r);
    forall i | 0 <= i < |rest|
      ensures a[i + 1] == if q[0] && i < 32 then b[i] != Castagnoli()[i] else b[i]
    {
      assert (Zeros(|q|) + r)[i + 1] == (Zeros(|q| - 1) + r)[i];
    }
    if p == a {
      forall i | 0 <= i < |rest|
        ensures rest[i] == b[i]
      {
        assert p[i + 1] == a[i + 1];
      }
    }
    if rest == b {
      forall i | 0 <= i < |p|
        ensures p[i] == a[i]
      {
        if i > 0 {
          assert rest[i - 1] == b[i - 1];
        }
      }
    }
  }

  // ---------------------------------------------------------------- words as polynomials

  /** The k low bits of a word, lowest first: read as a polynomial, the word bit-reversed. */
  function Bits(n: nat, k: nat): (b: Poly)
    ensures |b| == k
    decreases k
  {
    if k == 0 then [] else [n % 2 == 1] + Bits(n / 2, k - 1)
  }

  lemma {:induction false} BitsInjective(a: nat, b: nat, k: nat)
    requires a < Pow2(k) && b < Pow2(k) && Bits(a, k) == Bits(b, k)
    ensures a == b
    decreases k
  {
    if k > 0 {
      assert Bits(a, k)[0] == Bits(b, k)[0] && Bits(a, k)[1..] == Bits(b, k)[1..];
      BitsInjective(a / 2, b / 2, k - 1);
    }
  }

  lemma {:induction false} BitsXor(a: nat, b: nat, k: nat)
    ensures Bits(Xor(a, b), k) == Plus(Bits(a, k), Bits(b, k))
    decreases k
  {
    if k > 0 {
      XorHalves(a, b);
      BitsXor(a / 2, b / 2, k - 1);
    }
  }

  lemma XorHalves(a: nat, b: nat)
    ensures Xor(a, b) % 2 == (if a % 2 != b % 2 then 1 else 0) && Xor(a, b) / 2 == Xor(a / 2, b / 2)
  {
  }

  lemma FourBits(n: nat, k: nat)
    requires k >= 4
    ensures Bits(n, k) == [n % 2 == 1, n / 2 % 2 == 1, n / 4 % 2 == 1, n / 8 % 2 == 1] + Bits(n / 16, k - 4)
  {
    assert Bits(n, k) == [n % 2 == 1] + Bits(n / 2, k - 1);
    assert Bits(n / 2, k - 1) == [n / 2 % 2 == 1] + Bits(n / 4, k - 2);
    assert Bits(n / 4, k - 2) == [n / 4 % 2 == 1] + Bits(n / 8, k - 3);
    assert Bits(n / 8, k - 3) == [n / 8 % 2 == 1] + Bits(n / 16, k - 4);
  }

  /** Four more coefficients. */
  lemma FourPowers(n: nat, j: nat)
    requires j <= 28 && Bits(n / 16, 28 - j) == Castagnoli()[j + 4..]
    requires (n % 2 == 1) == HasPower(31 - j) && (n / 2 % 2 == 1) == HasPower(30 - j)
    requires (n / 4 % 2 == 1) == HasPower(29 - j) && (n / 8 % 2 == 1) == HasPower(28 - j)
    ensures Bits(n, 32 - j) == Castagnoli()[j..]
  {
    hide Bits, HasPower;
    FourBits(n, 32 - j);
    var p := Castagnoli();
    assert p[j..] == [p[j], p[j + 1], p[j + 2], p[j + 3]] + p[j + 4..];
  }

  /** The register's polynomial is the Castagnoli polynomial, bit-reversed. */
  lemma PolynomialBits()
    ensures Bits(POLYNOMIAL, 32) == Castagnoli()
  {
    assert Bits(0, 0) == Castagnoli()[32..];
    hide Bits, Castagnoli;
    FourPowers(0x8, 28);
    FourPowers(0x82, 24);
    FourPowers(0x82f, 20);
    FourPowers(0x82f6, 16);
    FourPowers(0x82f63, 12);
    FourPowers(0x82f63b, 8);
    FourPowers(0x82f63b7, 4);
    FourPowers(0x82f63b78, 0);
    assert Castagnoli()[0..] == Castagnoli();
  }

  lemma {:induction false} BitsTop(n: nat, k: nat)
    requires n < Pow2(k)
    ensures Bits(n, k + 1) == Bits(n, k) + [false]
    decreases k
  {
    if k > 0 {
      BitsTop(n / 2, k - 1);
    }
  }

  lemma {:induction false} XorSwap(a: nat, b: nat, c: nat)
    ensures Xor(Xor(a, b), c) == Xor(Xor(a, c), b)
    decreases a + b + c
  {
    if a != 0 || b != 0 || c != 0 {
      XorHalves(a, b);
      XorHalves(a, c);
      XorHalves(Xor(a, b), c);
      XorHalves(Xor(a, c), b);
      XorSwap(a / 2, b / 2, c / 2);
    }
  }

  // ---------------------------------------------------------------- the shift register divides

  /** The register after one more bit of the message. */
  function Shift(r: Poly, b: bool): (r': Poly)
    requires |r| == 32
    ensures |r'| == 32
  {
    if r[0] != b then Plus(r[1..] + [false], Castagnoli()) else r[1..] + [false]
  }

  function Shifts(r: Poly, m: Poly): (r': Poly)
    requires |r| == 32
    ensures |r'| == 32
    decreases |m|
  {
    if m == [] then r else Shifts(Shift(r, m[0]), m[1..])
  }

  lemma {:induction false} ShiftsConcat(r: Poly, a: Poly, b: Poly)
    requires |r| == 32
    ensures Shifts(r, a + b) == Shifts(Shifts(r, a), b)
    decreases |a|
  {
    if a == [] {
      assert a + b == b;
    } else {
      assert (a + b)[1..] == a[1..] + b;
      ShiftsConcat(Shift(r, a[0]), a[1..], b);
    }
  }

  /** Shifting a message through a register that starts as r leaves the remainder of the message, followed by 32 zero
      coefficients and with r added to its highest ones. */
  lemma {:induction false} ShiftsDivide(r: Poly, m: Poly) returns (q: Poly)
    requires |r| == 32
    ensures Divided(Plus(m + Zeros(32), r), q, Shifts(r, m))
    decreases |m|
  {
    var p := Plus(m + Zeros(32), r);
    if m == [] {
      q := [];
      assert p == r && Plus(Times(q), Zeros(0) + r) == r;
    } else {
      var rest := Plus(m[1..] + Zeros(32), Shift(r, m[0]));
      q := ShiftsDivide(Shift(r, m[0]), m[1..]);
      ShiftedRest(r, m);
      var q' := [p[0]] + q;
      assert q'[1..] == q;
      Shorter(p, q', Shifts(r, m), rest);
      q := q';
    }
  }

  lemma ShiftedRest(r: Poly, m: Poly)
    requires |r| == 32 && m != []
    ensures var p := Plus(m + Zeros(32), r);
            Plus(m[1..] + Zeros(32), Shift(r, m[0])) == if p[0] then Plus(p[1..], Castagnoli()) else p[1..]
  {
    hide Castagnoli;
    var p := Plus(m + Zeros(32), r);
    assert (m + Zeros(32))[1..] == m[1..] + Zeros(32);
    assert p[0] == (m[0] != r[0]);
    assert p[1..] == Plus(m[1..] + Zeros(32), r[1..]);
  }

  // ---------------------------------------------------------------- the checksum

  /** The register after one more bit, as a word. */
  function Shifted(c: nat, b: bool): nat { if (c % 2 == 1) != b then Xor(c / 2, POLYNOMIAL) else c / 2 }

  lemma ShiftedIsShift(c: nat, b: bool)
    requires c <= U32_MAX
    ensures Shifted(c, b) <= U32_MAX && Bits(Shifted(c, b), 32) == Shift(Bits(c, 32), b)
  {
    hide Castagnoli, Xor;
    Pow2Widths();
    XorBound(c / 2, POLYNOMIAL, 32);
    BitsTop(c / 2, 31);
    assert Bits(c, 32)[1..] == Bits(c / 2, 31);
    BitsXor(c / 2, POLYNOMIAL, 32);
    PolynomialBits();
  }

  /** Adding the rest of the message before or after a round makes no difference. */
  lemma RoundIsShifted(c: nat, x: nat)
    ensures Round(Xor(c, x)) == Xor(Shifted(c, x % 2 == 1), x / 2)
  {
    hide Xor;
    XorHalves(c, x);
    XorSwap(c / 2, x / 2, POLYNOMIAL);
  }

  lemma {:induction false} RoundsAreShifts(c: nat, x: nat, k: nat)
    requires c <= U32_MAX && x < Pow2(k)
    ensures Bits(Rounds(Xor(c, x), k), 32) == Shifts(Bits(c, 32), Bits(x, k))
    decreases k
  {
    hide Xor, Shift, Shifted, Round;
    if k == 0 {
      XorZero(c);
    } else {
      var b := x % 2 == 1;
      RoundIsShifted(c, x);
      ShiftedIsShift(c, b);
      RoundsAreShifts(Shifted(c, b), x / 2, k - 1);
      var r, m := Bits(c, 32), Bits(x, k);
      assert m[0] == b && m[1..] == Bits(x / 2, k - 1);
      hide Bits;
      assert Shifts(r, m) == Shifts(Shift(r, b), m[1..]);
    }
  }

  /** The message as a polynomial: byte after byte, each with its lowest bit first. */
  function Message(data: bytes): (m: Poly)
    ensures |m| == 8 * |data|
  {
    if data == [] then [] else Bits(data[0], 8) + Message(data[1..])
  }

  lemma {:induction false} FeedIsShifts(c: nat, data: bytes)
    requires c <= U32_MAX
    ensures Feed(c, data) <= U32_MAX && Bits(Feed(c, data), 32) == Shifts(Bits(c, 32), Message(data))
    decreases |data|
  {
    hide Xor, Shift, Rounds, Bits;
    if data != [] {
      Pow2Widths();
      StepIsInjective(c, c, data[0], data[0]);
      RoundsAreShifts(c, data[0], 8);
      FeedIsShifts(Step(c, data[0]), data[1..]);
      ShiftsConcat(Bits(c, 32), Bits(data[0], 8), Message(data[1..]));
    }
  }

  function Inverted(p: Poly): (r: Poly)
    ensures |r| == |p|
  {
    seq(|p|, i requires 0 <= i < |p| => !p[i])
  }

  lemma {:induction false} AllOnes(k: nat)
    ensures Bits(Pow2(k) - 1, k) == Inverted(Zeros(k))
    decreases k
  {
    if k > 0 {
      AllOnes(k - 1);
      assert (Pow2(k) - 1) / 2 == Pow2(k - 1) - 1;
    }
  }

  /** What is divided: the message times x^32, with its 32 highest coefficients inverted. */
  function Dividend(data: bytes): (p: Poly)
    ensures |p| == 8 * |data| + 32
  {
    var m := Message(data) + Zeros(32);
    Inverted(m[..32]) + m[32..]
  }

  /** Exactly one quotient and remainder exist, and the checksum is the remainder, bit-reversed and inverted. */
  lemma ChecksumIsRemainder(data: bytes) returns (q: Poly)
    ensures Divided(Dividend(data), q, Inverted(Bits(Checksum(data), 32)))
    ensures forall q', r :: Divided(Dividend(data), q', r) ==> q' == q && Bits(Checksum(data), 32) == Inverted(r)
  {
    hide Xor, Feed, Shifts, Divided, Bits;
    Pow2Widths();
    AllOnes(32);
    FeedIsShifts(U32_MAX, data);
    var r := Bits(Feed(U32_MAX, data), 32);
    q := ShiftsDivide(Bits(U32_MAX, 32), Message(data));
    assert Dividend(data) == Plus(Message(data) + Zeros(32), Bits(U32_MAX, 32));
    BitsXor(U32_MAX, Feed(U32_MAX, data), 32);
    assert Bits(Checksum(data), 32) == Inverted(r);
    assert Inverted(Inverted(r)) == r;
    forall q', r' | Divided(Dividend(data), q', r')
      ensures q' == q && Bits(Checksum(data), 32) == Inverted(r')
    {
      DivisionIsUnique(Dividend(data), q, r, q', r');
    }
  }
}
