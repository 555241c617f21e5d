/** A check value of section B.4 of RFC 3720, worked out on bit vectors. */
module CrcCheckValue {
  import opened Bytes
  import opened Crc32c
  import opened CrcPolynomial

  predicate Odd(r: bv32) { r & 1 == 1 }

  function Half(r: bv32): bv32 { r >> 1 }

  function Either(a: bv32, b: bv32): bv32 { a ^ b }

  /** The k low bits of a bit vector, lowest first. */
  function Word(r: bv32, k: nat): (p: Poly)
    ensures |p| == k
    decreases k
  {
    if k == 0 then [] else [Odd(r)] + Word(Half(r), k - 1)
  }

  /** The bit vector and the number have the same bits. */
  ghost predicate Same(r: bv32, n: nat) { forall k: nat :: Word(r, k) == Bits(n, k) }

  lemma SameHalf(r: bv32, n: nat)
    requires Same(r, n)
    ensures Odd(r) == (n % 2 == 1) && Same(Half(r), n / 2)
  {
    assert Word(r, 1)[0] == Bits(n, 1)[0];
    forall k: nat
      ensures Word(Half(r), k) == Bits(n / 2, k)
    {
      assert Word(r, k + 1)[1..] == Bits(n, k + 1)[1..];
    }
  }

  lemma SameDouble(r: bv32, n: nat)
    requires Odd(r) == (n % 2 == 1) && Same(Half(r), n / 2)
    ensures Same(r, n)
  {
    forall k: nat
      ensures Word(r, k) == Bits(n, k)
    {
      if k > 0 {
        assert Word(Half(r), k - 1) == Bits(n / 2, k - 1);
      }
    }
  }

  lemma {:induction false} WordXor(a: bv32, b: bv32, k: nat)
    ensures Word(Either(a, b), k) == Plus(Word(a, k), Word(b, k))
    decreases k
  {
    hide Odd, Half, Either, Plus;
    if k == 0 {
      assert Plus([], []) == [];
    } else {
      XorShifts(a, b);
      WordXor(Half(a), Half(b), k - 1);
      PlusFirst(Odd(a), Odd(b), Word(Half(a), k - 1), Word(Half(b), k - 1));
    }
  }

  lemma PlusFirst(x: bool, y: bool, a: Poly, b: Poly)
    requires |a| == |b|
    ensures Plus([x] + a, [y] + b) == [x != y] + Plus(a, b)
  {
  }

  lemma XorShifts(a: bv32, b: bv32)
    ensures Half(Either(a, b)) == Either(Half(a), Half(b)) && Odd(Either(a, b)) == (Odd(a) != Odd(b))
  {
  }

  lemma SameXor(a: bv32, b: bv32, x: nat, y: nat)
    requires Same(a, x) && Same(b, y)
    ensures Same(Either(a, b), Xor(x, y))
  {
    hide Word, Bits, Xor, Either;
    forall k: nat
      ensures Word(Either(a, b), k) == Bits(Xor(x, y), k)
    {
      WordXor(a, b, k);
      BitsXor(x, y, k);
    }
  }

  lemma {:induction false} SameZero(k: nat)
    ensures Word(0, k) == Bits(0, k)
  {
    if k > 0 {
      SameZero(k - 1);
    }
  }

  lemma SameNothing()
    ensures Same(0, 0)
  {
    forall k: nat
      ensures Word(0, k) == Bits(0, k)
    {
      SameZero(k);
    }
  }

  lemma SameFour(r: bv32, n: nat, r': bv32, n': nat)
    requires Same(r', n') && Half(Half(Half(Half(r)))) == r' && n / 2 / 2 / 2 / 2 == n'
    requires Odd(r) == (n % 2 == 1) && Odd(Half(r)) == (n / 2 % 2 == 1)
    requires Odd(Half(Half(r))) == (n / 2 / 2 % 2 == 1) && Odd(Half(Half(Half(r)))) == (n / 2 / 2 / 2 % 2 == 1)
    ensures Same(r, n)
  {
    hide Same, Odd, Half;
    SameDouble(Half(Half(Half(r))), n / 2 / 2 / 2);
    SameDouble(Half(Half(r)), n / 2 / 2);
    SameDouble(Half(r), n / 2);
    SameDouble(r, n);
  }

  lemma SamePolynomial()
    ensures Same(0x82F6_3B78, POLYNOMIAL)
  {
    SameNothing();
    hide Same;
    SameFour(0x8, 0x8, 0x0, 0x0);
    SameFour(0x82, 0x82, 0x8, 0x8);
    SameFour(0x82f, 0x82f, 0x82, 0x82);
    SameFour(0x82f6, 0x82f6, 0x82f, 0x82f);
    SameFour(0x82f63, 0x82f63, 0x82f6, 0x82f6);
    SameFour(0x82f63b, 0x82f63b, 0x82f63, 0x82f63);
    SameFour(0x82f63b7, 0x82f63b7, 0x82f63b, 0x82f63b);
    SameFour(0x82f63b78, 0x82f63b78, 0x82f63b7, 0x82f63b7);
  }

  lemma SamePreset()
    ensures Same(0xFFFF_FFFF, U32_MAX)
  {
    SameNothing();
    hide Same;
    SameFour(0xf, 0xf, 0x0, 0x0);
    SameFour(0xff, 0xff, 0xf, 0xf);
    SameFour(0xfff, 0xfff, 0xff, 0xff);
    SameFour(0xffff, 0xffff, 0xfff, 0xfff);
    SameFour(0xfffff, 0xfffff, 0xffff, 0xffff);
    SameFour(0xffffff, 0xffffff, 0xfffff, 0xfffff);
    SameFour(0xfffffff, 0xfffffff, 0xffffff, 0xffffff);
    SameFour(0xffffffff, 0xffffffff, 0xfffffff, 0xfffffff);
  }

  lemma SameResult()
    ensures Same(0x8A91_36AA, 0x8A91_36AA)
  {
    SameNothing();
    hide Same;
    SameFour(0x8, 0x8, 0x0, 0x0);
    SameFour(0x8a, 0x8a, 0x8, 0x8);
    SameFour(0x8a9, 0x8a9, 0x8a, 0x8a);
    SameFour(0x8a91, 0x8a91, 0x8a9, 0x8a9);
    SameFour(0x8a913, 0x8a913, 0x8a91, 0x8a91);
    SameFour(0x8a9136, 0x8a9136, 0x8a913, 0x8a913);
    SameFour(0x8a9136a, 0x8a9136a, 0x8a9136, 0x8a9136);
    SameFour(0x8a9136aa, 0x8a9136aa, 0x8a9136a, 0x8a9136a);
  }

  // ---------------------------------------------------------------- zero bytes

  /** The register after one zero bit. */
  function Turn(r: bv32): bv32 { if Odd(r) then Either(Half(r), 0x82F6_3B78) else Half(r) }

  function Octet(r: bv32): bv32 { Turn(Turn(Turn(Turn(Turn(Turn(Turn(Turn(r)))))))) }

  function FourOctets(r: bv32): bv32 { Octet(Octet(Octet(Octet(r)))) }

  lemma TurnIsRound(r: bv32, n: nat)
    requires Same(r, n)
    ensures Same(Turn(r), Round(n))
  {
    SamePolynomial();
    SameHalf(r, n);
    hide Same, Xor, Odd, Half, Either;
    SameXor(Half(r), 0x82F6_3B78, n / 2, POLYNOMIAL);
  }

  lemma OctetIsStep(r: bv32, n: nat)
    requires Same(r, n)
    ensures Same(Octet(r), Step(n, 0))
  {
    hide Same, Turn, Round;
    XorZero(n);
    EightRounds(n);
    TurnIsRound(r, n);
    var r1, n1 := Turn(r), Round(n);
    TurnIsRound(r1, n1);
    var r2, n2 := Turn(r1), Round(n1);
    TurnIsRound(r2, n2);
    var r3, n3 := Turn(r2), Round(n2);
    TurnIsRound(r3, n3);
    var r4, n4 := Turn(r3), Round(n3);
    TurnIsRound(r4, n4);
    var r5, n5 := Turn(r4), Round(n4);
    TurnIsRound(r5, n5);
    var r6, n6 := Turn(r5), Round(n5);
    TurnIsRound(r6, n6);
    TurnIsRound(Turn(r6), Round(n6));
  }

  lemma EightRounds(n: nat)
    ensures Rounds(n, 8) == Round(Round(Round(Round(Round(Round(Round(Round(n))))))))
  {
    hide Round;
    assert Rounds(n, 8) == Rounds(Round(Round(Round(Round(n)))), 4);
  }

  function ZeroBytes(k: nat): (data: bytes)
    ensures |data| == k
  {
    if k == 0 then [] else [0] + ZeroBytes(k - 1)
  }

  lemma FourZeros(r: bv32, n: nat, k: nat) returns (n': nat)
    requires Same(r, n) && k >= 4
    ensures Same(FourOctets(r), n') && Feed(n, ZeroBytes(k)) == Feed(n', ZeroBytes(k - 4))
  {
    hide Same, Octet, Step;
    OctetIsStep(r, n);
    var n1 := Step(n, 0);
    OctetIsStep(Octet(r), n1);
    var n2 := Step(n1, 0);
    OctetIsStep(Octet(Octet(r)), n2);
    var n3 := Step(n2, 0);
    OctetIsStep(Octet(Octet(Octet(r))), n3);
    n' := Step(n3, 0);
    NextZero(n, k);
    NextZero(n1, k - 1);
    NextZero(n2, k - 2);
    NextZero(n3, k - 3);
  }

  lemma NextZero(n: nat, k: nat)
    requires k > 0
    ensures Feed(n, ZeroBytes(k)) == Feed(Step(n, 0), ZeroBytes(k - 1))
  {
    assert ZeroBytes(k)[1..] == ZeroBytes(k - 1);
  }

  lemma FirstEight()
    ensures FourOctets(0xFFFF_FFFF) == 0xB798_B438 && FourOctets(0xB798_B438) == 0x73D7_4D75
  {
    assert Octet(0xFFFF_FFFF) == 0xAD82_ACAE && Octet(0xAD82_ACAE) == 0x0E9E_882D;
    assert Octet(0x0E9E_882D) == 0x9F9B_5C85 && Octet(0x9F9B_5C85) == 0xB798_B438;
    assert Octet(0xB798_B438) == 0xBA8D_89CA && Octet(0xBA8D_89CA) == 0xA8D5_8375;
    assert Octet(0xA8D5_8375) == 0x44C1_9592 && Octet(0x44C1_9592) == 0x73D7_4D75;
  }

  lemma SecondEight()
    ensures FourOctets(0x73D7_4D75) == 0xD49F_4AA2 && FourOctets(0xD49F_4AA2) == 0xBD8F_6515
  {
    assert Octet(0x73D7_4D75) == 0x441A_975C && Octet(0x441A_975C) == 0x1C22_0F94;
    assert Octet(0x1C22_0F94) == 0x552E_4907 && Octet(0x552E_4907) == 0xD49F_4AA2;
    assert Octet(0xD49F_4AA2) == 0x43A4_5A1B && Octet(0x43A4_5A1B) == 0x8994_C80E;
    assert Octet(0x8994_C80E) == 0xACF1_2BEF && Octet(0xACF1_2BEF) == 0xBD8F_6515;
  }

  lemma ThirdEight()
    ensures FourOctets(0xBD8F_6515) == 0x433A_A9C1 && FourOctets(0x433A_A9C1) == 0x7B04_1311
  {
    assert Octet(0xBD8F_6515) == 0x2512_5C16 && Octet(0x2512_5C16) == 0x36DA_32DB;
    assert Octet(0x36DA_32DB) == 0x4A6C_90A2 && Octet(0x4A6C_90A2) == 0x433A_A9C1;
    assert Octet(0x433A_A9C1) == 0x31A5_9F6E && Octet(0x31A5_9F6E) == 0xCD8F_89DA;
    assert Octet(0xCD8F_89DA) == 0xB8FC_461A && Octet(0xB8FC_461A) == 0x7B04_1311;
  }

  lemma FourthEight()
    ensures FourOctets(0x7B04_1311) == 0x0836_3896 && FourOctets(0x0836_3896) == 0x756E_C955
  {
    assert Octet(0x7B04_1311) == 0xE24E_407F && Octet(0xE24E_407F) == 0x2F69_2669;
    assert Octet(0x2F69_2669) == 0x195B_2188 && Octet(0x195B_2188) == 0x0836_3896;
    assert Octet(0x0836_3896) == 0xB401_2DC7 && Octet(0xB401_2DC7) == 0x17F3_4302;
    assert Octet(0x17F3_4302) == 0xE12C_83B4 && Octet(0xE12C_83B4) == 0x756E_C955;
  }

  /** 32 bytes of zeros have checksum 0x8A9136AA. */
  lemma ZerosCheck()
    ensures Checksum(ZeroBytes(32)) == 0x8A91_36AA
  {
    SamePreset();
    SameResult();
    FirstEight();
    SecondEight();
    ThirdEight();
    FourthEight();
    var sum := Checksum(ZeroBytes(32));
    hide Same, FourOctets, Feed, Xor, Bits, Word, ZeroBytes;
    var n := U32_MAX;
    n := FourZeros(0xFFFF_FFFF, n, 32);
    n := FourZeros(0xB798_B438, n, 28);
    n := FourZeros(0x73D7_4D75, n, 24);
    n := FourZeros(0xD49F_4AA2, n, 20);
    n := FourZeros(0xBD8F_6515, n, 16);
    n := FourZeros(0x433A_A9C1, n, 12);
    n := FourZeros(0x7B04_1311, n, 8);
    n := FourZeros(0x0836_3896, n, 4);
    NoMoreZeros(n);
    SameXor(0xFFFF_FFFF, 0x756E_C955, U32_MAX, n);
    SameNumber(0x8A91_36AA, 0x8A91_36AA, sum);
  }

  lemma NoMoreZeros(n: nat)
    ensures Feed(n, ZeroBytes(0)) == n
  {
  }

  /** Two numbers with the bits of one vector are equal. */
  lemma SameNumber(r: bv32, n: nat, n': nat)
    requires Same(r, n) && Same(r, n') && n <= U32_MAX && n' <= U32_MAX
    ensures n == n'
  {
    Pow2Widths();
    assert Bits(n, 32) == Word(r, 32) == Bits(n', 32);
    hide Same, Bits;
    BitsInjective(n, n', 32);
  }
}
