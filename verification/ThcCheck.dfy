/**
 * What the check of a chunk tells: it is the remainder of the bytes by the CRC-32 generator,
 * lowest bits first, so no damage within 32 bits in a row leaves it the same.
 */
module ThcCheck {
  import opened Numbers
  import opened Polynomials
  import opened ThcFile

  const GENERATOR: Poly := {32, 26, 23, 22, 16, 12, 11, 10, 8, 7, 5, 4, 2, 1, 0}

  /** The lowest n bits, the lowest with the highest exponent. */
  function Bits(x: bv32, n: nat): (p: Poly)
    ensures Below(p, n)
    decreases n
  {
    if n == 0 then {} else (if x & 1 != 0 then {n - 1} else {}) + Bits(x >> 1, n - 1)
  }

  function ByteBits(b: Byte): (p: Poly)
    ensures Below(p, 8)
  {
    Bits(b as bv32, 8)
  }

  /** Bytes as a polynomial, the first byte's lowest bit the highest. */
  function Message(s: Bytes): (p: Poly)
    ensures Below(p, 8 * |s|)
  {
    if s == [] then {} else Plus(Up(ByteBits(s[0]), 8 * (|s| - 1)), Message(s[1..]))
  }

  function Lowest(x: bv32, n: nat): (p: Poly)
    requires n > 0
    ensures p <= {n - 1}
  {
    if x & 1 != 0 then {n - 1} else {}
  }

  lemma BitsStep(x: bv32, n: nat)
    requires n > 0
    ensures Bits(x, n) == Lowest(x, n) + Bits(x >> 1, n - 1) && Below(Bits(x >> 1, n - 1), n - 1)
  {
  }

  lemma {:induction false} XorPlus(x: bv32, y: bv32, n: nat)
    ensures Bits(x ^ y, n) == Plus(Bits(x, n), Bits(y, n))
    decreases n
  {
    hide *;
    if n == 0 {
      XorNone(x, y);
    } else {
      XorPlus(x >> 1, y >> 1, n - 1);
      XorStep(x, y, n);
    }
  }

  lemma XorNone(x: bv32, y: bv32)
    ensures Bits(x ^ y, 0) == Plus(Bits(x, 0), Bits(y, 0))
  {
  }

  lemma XorStep(x: bv32, y: bv32, n: nat)
    requires n > 0 && Bits((x >> 1) ^ (y >> 1), n - 1) == Plus(Bits(x >> 1, n - 1), Bits(y >> 1, n - 1))
    ensures Bits(x ^ y, n) == Plus(Bits(x, n), Bits(y, n))
  {
    hide Bits, Plus;
    XorShift(x, y);
    BitsStep(x, n);
    BitsStep(y, n);
    BitsStep(x ^ y, n);
    LowestXor(x, y, n);
    PlusApart(Lowest(x, n), Lowest(y, n), Bits(x >> 1, n - 1), Bits(y >> 1, n - 1), n - 1);
  }

  lemma LowestXor(x: bv32, y: bv32, n: nat)
    requires n > 0
    ensures Lowest(x ^ y, n) == Plus(Lowest(x, n), Lowest(y, n))
  {
    XorShift(x, y);
  }

  lemma NoBits(x: bv32)
    ensures Bits(x, 0) == {}
  {
  }

  lemma PlusApart(a: Poly, b: Poly, c: Poly, d: Poly, n: nat)
    requires a <= {n} && b <= {n} && Below(c, n) && Below(d, n)
    ensures Plus(a + c, b + d) == Plus(a, b) + Plus(c, d)
  {
  }

  lemma XorShift(x: bv32, y: bv32)
    ensures (x ^ y) >> 1 == (x >> 1) ^ (y >> 1)
    ensures ((x ^ y) & 1 != 0) == ((x & 1 != 0) != (y & 1 != 0))
  {
  }

  /** What is left above the lowest n bits. */
  function Above(x: bv32, n: nat): bv32
    decreases n
  {
    if n == 0 then x else Above(x >> 1, n - 1)
  }

  lemma {:induction false} AboveMore(x: bv32, m: nat, n: nat)
    ensures Above(x, m + n) == Above(Above(x, m), n)
    decreases m
  {
    if m > 0 {
      AboveMore(x >> 1, m - 1, n);
    }
  }

  lemma AboveEight(x: bv32)
    ensures Above(x, 8) == x >> 8
  {
    assert Above(x, 4) == x >> 4;
    assert Above(x >> 4, 4) == x >> 8;
    AboveMore(x, 4, 4);
  }

  lemma AboveAll(x: bv32)
    ensures Above(x, 32) == 0
  {
    AboveMore(x, 8, 24);
    AboveEight(x);
    AboveMore(x >> 8, 8, 16);
    AboveEight(x >> 8);
    AboveMore((x >> 8) >> 8, 8, 8);
    AboveEight((x >> 8) >> 8);
    AboveEight(((x >> 8) >> 8) >> 8);
  }

  /** With nothing above, more bits only move the exponents. */
  lemma {:induction false} BitsMore(x: bv32, n: nat)
    requires Above(x, n) == 0
    ensures Bits(x, n + 1) == Up(Bits(x, n), 1)
    decreases n
  {
    if n == 0 {
      assert Bits(x, 1) == {};
    } else {
      BitsMore(x >> 1, n - 1);
      var a, c := if x & 1 != 0 then {n - 1} else {}, Bits(x >> 1, n - 1);
      assert Bits(x, n) == a + c;
      assert Bits(x, n + 1) == (if x & 1 != 0 then {n} else {}) + Up(c, 1);
      hide Bits, Above;
      UpUnion(a, c, 1);
      if x & 1 != 0 {
        assert Up(a, 1) == {n};
      }
    }
  }

  lemma UpUnion(a: Poly, b: Poly, k: nat)
    ensures Up(a + b, k) == Up(a, k) + Up(b, k)
  {
  }

  lemma {:induction false} AboveZero(n: nat)
    ensures Above(0, n) == 0
    decreases n
  {
    if n > 0 {
      AboveZero(n - 1);
    }
  }

  /** A byte's bits, placed at the top of the register. */
  lemma {:induction false} BitsWide(x: bv32, m: nat, n: nat)
    requires Above(x, m) == 0
    ensures Bits(x, m + n) == Up(Bits(x, m), n)
    decreases n
  {
    hide Bits, Above;
    if n == 0 {
      UpUp(Bits(x, m), 0, 0);
    } else {
      BitsWide(x, m, n - 1);
      AboveMore(x, m, n - 1);
      AboveZero(n - 1);
      BitsMore(x, m + n - 1);
      UpUp(Bits(x, m), n - 1, 1);
    }
  }

  /** The lowest m bits, and those above them. */
  lemma {:induction false} BitsSplit(x: bv32, m: nat, n: nat)
    ensures Bits(x, m + n) == Up(Bits(x, m), n) + Bits(Above(x, m), n)
    decreases m
  {
    if m > 0 {
      BitsSplit(x >> 1, m - 1, n);
      BitsStep(x, m + n);
      BitsStep(x, m);
      UpUnion(Lowest(x, m), Bits(x >> 1, m - 1), n);
      assert Up(Lowest(x, m), n) == Lowest(x, m + n);
      hide Bits, Lowest;
    } else {
      assert Up(Bits(x, 0), n) == {};
    }
  }

  // ----- one bit

  function Round(x: bv32): bv32 {
    if x & 1 != 0 then (x >> 1) ^ CRC32_POLY else x >> 1
  }

  lemma Nibble(x: bv32)
    ensures Bits(x, 4)
         == (if x & 1 != 0 then {3} else {}) + (if x & 2 != 0 then {2} else {}) + (if x & 4 != 0 then {1} else {})
            + (if x & 8 != 0 then {0} else {})
  {
    BitsStep(x, 4);
    BitsStep(x >> 1, 3);
    BitsStep((x >> 1) >> 1, 2);
    BitsStep(((x >> 1) >> 1) >> 1, 1);
    NoBits((((x >> 1) >> 1) >> 1) >> 1);
    hide Bits;
  }

  /** Four bits in front of n more. */
  lemma FourMore(x: bv32, n: nat, low: Poly, high: Poly)
    requires Bits(x, 4) == low && Bits(x >> 4, n) == high
    ensures Bits(x, 4 + n) == Up(low, n) + high
  {
    BitsSplit(x, 4, n);
    assert Above(x, 4) == x >> 4;
    hide Bits;
  }

  lemma PolyBits()
    ensures Bits(CRC32_POLY, 32) == GENERATOR - {32}
  {
    UpperBits();
    hide Bits;
    Nibble(0xEDB88);
    FourMore(0xEDB88, 16, {0}, {12, 11, 10, 8, 7, 5, 4, 2, 1, 0});
    assert Up({0}, 16) == {16};
    Nibble(0xEDB883);
    FourMore(0xEDB883, 20, {3, 2}, {16, 12, 11, 10, 8, 7, 5, 4, 2, 1, 0});
    assert Up({3, 2}, 20) == {23, 22};
    Nibble(0xEDB8832);
    FourMore(0xEDB8832, 24, {2}, {23, 22, 16, 12, 11, 10, 8, 7, 5, 4, 2, 1, 0});
    assert Up({2}, 24) == {26};
    Nibble(0xEDB88320);
    FourMore(0xEDB88320, 28, {}, {26, 23, 22, 16, 12, 11, 10, 8, 7, 5, 4, 2, 1, 0});
    assert Up({}, 28) == {};
  }

  lemma UpperBits()
    ensures Bits(0xEDB8, 16) == {12, 11, 10, 8, 7, 5, 4, 2, 1, 0}
  {
    hide Bits;
    Nibble(0xE);
    Nibble(0xED);
    FourMore(0xED, 4, {3, 1, 0}, {2, 1, 0});
    assert Up({3, 1, 0}, 4) == {7, 5, 4};
    Nibble(0xEDB);
    FourMore(0xEDB, 8, {3, 2, 0}, {7, 5, 4, 2, 1, 0});
    assert Up({3, 2, 0}, 8) == {11, 10, 8};
    Nibble(0xEDB8);
    FourMore(0xEDB8, 12, {0}, {11, 10, 8, 7, 5, 4, 2, 1, 0});
    assert Up({0}, 12) == {12};
  }

  /** The register a bit on: what goes out of it, and the rest. */
  lemma RegisterUp(x: bv32) returns (v: Poly)
    ensures Up(Bits(x, 32), 1) == (if x & 1 != 0 then {32} else {}) + v && Bits(x >> 1, 32) == v && 32 !in v
  {
    hide Bits, Above;
    var t, a := Bits(x >> 1, 31), Lowest(x, 32);
    v := Up(t, 1);
    AboveAll(x);
    AboveStep(x);
    BitsMore(x >> 1, 31);
    BitsStep(x, 32);
    UpUnion(a, t, 1);
    UpLow(t, 31);
    assert Up(a, 1) == if x & 1 != 0 then {32} else {};
  }

  /** One round of the bit loop multiplies by x. */
  lemma RoundTimesX(x: bv32)
    ensures Congruent(Bits(Round(x), 32), Up(Bits(x, 32), 1), GENERATOR)
  {
    hide Bits, Up, Multiple;
    var v := RegisterUp(x);
    XorPlus(x >> 1, CRC32_POLY, 32);
    PolyBits();
    MultipleSelf(GENERATOR);
    if x & 1 != 0 {
      RoundCarries(v);
    } else {
      PlusComm(v, v);
      assert {} + v == v;
    }
  }

  lemma AboveStep(x: bv32)
    ensures Above(x, 32) == Above(x >> 1, 31)
  {
  }

  lemma RoundCarries(v: Poly)
    requires 32 !in v
    ensures Plus(Plus(v, GENERATOR - {32}), {32} + v) == GENERATOR
  {
    forall i: nat
      ensures i in Plus(Plus(v, GENERATOR - {32}), {32} + v) <==> i in GENERATOR
    {
      PlusIs(Plus(v, GENERATOR - {32}), {32} + v, i);
      PlusIs(v, GENERATOR - {32}, i);
      hide Plus;
    }
  }

  lemma UpLow(t: Poly, n: nat)
    requires Below(t, n)
    ensures n + 1 !in Up(t, 1)
  {
  }

  lemma {:induction false} RoundsTimesX(x: bv32, n: nat)
    ensures Congruent(Bits(Crc32Bits(x, n), 32), Up(Bits(x, 32), n), GENERATOR)
    decreases n
  {
    hide Bits, Round, Congruent, Up, Crc32Bits;
    if n == 0 {
      NoRounds(x);
      UpUp(Bits(x, 32), 0, 0);
      CongruentSame(Bits(x, 32), Bits(x, 32), GENERATOR);
    } else {
      RoundsTimesX(Round(x), n - 1);
      RoundIs(x, n);
      RoundTimesX(x);
      CongruentUp(Bits(Round(x), 32), Up(Bits(x, 32), 1), GENERATOR, n - 1);
      UpUp(Bits(x, 32), 1, n - 1);
      CongruentTrans(Bits(Crc32Bits(x, n), 32), Up(Bits(Round(x), 32), n - 1), Up(Bits(x, 32), n), GENERATOR);
    }
  }

  lemma NoRounds(x: bv32)
    ensures Crc32Bits(x, 0) == x
  {
  }

  lemma RoundIs(x: bv32, n: nat)
    requires n > 0
    ensures Crc32Bits(x, n) == Crc32Bits(Round(x), n - 1)
  {
  }

  // ----- bytes

  lemma Bv32Of(c: bv32)
    ensures (c as int) as bv32 == c
  {
  }

  lemma NextUp(c: bv32)
    requires c < 255
    ensures (c + 1) as int == c as int + 1
  {
  }

  lemma {:induction false} RegisterOf(x: nat) returns (c: bv32)
    requires x < 256
    ensures c as int == x && c <= 255
  {
    if x == 0 {
      c := 0;
    } else {
      var d := RegisterOf(x - 1);
      assert d != 255;
      NextUp(d);
      c := d + 1;
    }
  }

  lemma ByteLow(b: Byte)
    ensures (b as bv32) <= 255 && (b as bv32) as int == b
  {
    var c := RegisterOf(b);
    Bv32Of(c);
  }

  lemma NothingAbove(c: bv32)
    requires c <= 255
    ensures Above(c, 8) == 0
  {
    AboveEight(c);
  }

  /** A byte's bits in the register. */
  lemma ByteWide(b: Byte)
    ensures Bits(b as bv32, 32) == Up(ByteBits(b), 24)
  {
    ByteLow(b);
    NothingAbove(b as bv32);
    BitsWide(b as bv32, 8, 24);
    hide Bits, Above;
  }

  lemma {:induction false} SameBits(x: bv32, y: bv32, n: nat)
    requires Bits(x, n) == Bits(y, n) && Above(x, n) == Above(y, n)
    ensures x == y
    decreases n, 1
  {
    hide *;
    if n == 0 {
      AboveNone(x);
      AboveNone(y);
    } else {
      SameShifted(x, y, n);
    }
  }

  lemma {:induction false} SameShifted(x: bv32, y: bv32, n: nat)
    requires n > 0 && Bits(x, n) == Bits(y, n) && Above(x, n) == Above(y, n)
    ensures x == y
    decreases n, 0
  {
    hide *;
    SameStep(x, y, n);
    SameBits(Half(x), Half(y), n - 1);
    ShiftSame(x, y);
  }

  function Half(x: bv32): bv32 {
    x >> 1
  }

  lemma AboveNone(x: bv32)
    ensures Above(x, 0) == x
  {
  }

  lemma SameStep(x: bv32, y: bv32, n: nat)
    requires n > 0 && Bits(x, n) == Bits(y, n) && Above(x, n) == Above(y, n)
    ensures Bits(Half(x), n - 1) == Bits(Half(y), n - 1) && Above(Half(x), n - 1) == Above(Half(y), n - 1)
    ensures (x & 1 != 0) == (y & 1 != 0)
  {
    BitsStep(x, n);
    BitsStep(y, n);
    hide Bits;
    Apart(Lowest(x, n), Lowest(y, n), Bits(x >> 1, n - 1), Bits(y >> 1, n - 1), n - 1);
    assert n - 1 in Lowest(x, n) <==> x & 1 != 0;
    assert n - 1 in Lowest(y, n) <==> y & 1 != 0;
  }

  lemma Apart(a: Poly, b: Poly, c: Poly, d: Poly, n: nat)
    requires a <= {n} && b <= {n} && Below(c, n) && Below(d, n) && a + c == b + d
    ensures a == b && c == d
  {
    assert n in a <==> n in a + c;
    assert n in b <==> n in b + d;
    assert forall i :: i in c <==> i in a + c && i != n;
    assert forall i :: i in d <==> i in b + d && i != n;
  }

  lemma ShiftSame(x: bv32, y: bv32)
    requires Half(x) == Half(y) && (x & 1 != 0) == (y & 1 != 0)
    ensures x == y
  {
  }

  lemma SameByte(a: Byte, b: Byte)
    requires ByteBits(a) == ByteBits(b)
    ensures a == b
  {
    ByteLow(a);
    ByteLow(b);
    NothingAbove(a as bv32);
    NothingAbove(b as bv32);
    SameBits(a as bv32, b as bv32, 8);
  }

  // ----- messages

  /** The start value in front of the bytes. */
  function Started(crc: bv32, s: Bytes): Poly {
    Plus(Up(Bits(crc, 32), 8 * |s|), Up(Message(s), 32))
  }

  lemma FirstJoins(crc: bv32, b: Byte, s: Bytes)
    ensures Plus(Up(Up(Bits(crc ^ (b as bv32), 32), 8), 8 * |s|), Up(Message(s), 32)) == Started(crc, [b] + s)
  {
    hide Bits, ByteBits;
    var n, x := |s|, b as bv32;
    assert ([b] + s)[1..] == s;
    assert Message([b] + s) == Plus(Up(ByteBits(b), 8 * n), Message(s));
    hide Message;
    XorPlus(crc, x, 32);
    ByteWide(b);
    UpUp(Bits(crc ^ x, 32), 8, 8 * n);
    UpPlus(Bits(crc, 32), Bits(x, 32), 8 + 8 * n);
    UpUp(ByteBits(b), 24, 8 + 8 * n);
    UpPlus(Up(ByteBits(b), 8 * n), Message(s), 32);
    UpUp(ByteBits(b), 8 * n, 32);
    hide Up;
    PlusAssoc(Up(Bits(crc, 32), 8 + 8 * n), Up(ByteBits(b), 32 + 8 * n), Up(Message(s), 32));
  }

  lemma {:induction false} CheckCongruent(crc: bv32, s: Bytes)
    ensures Congruent(Bits(Crc32Over(crc, s), 32), Started(crc, s), GENERATOR)
    decreases |s|
  {
    hide *;
    if s == [] {
      NothingChecked(crc);
    } else {
      var next := Crc32Byte(crc, s[0]);
      OverStep(crc, s);
      CheckCongruent(next, s[1..]);
      OneByte(crc, s[0], s[1..]);
      assert [s[0]] + s[1..] == s;
      CongruentTrans(Bits(Crc32Over(crc, s), 32), Started(next, s[1..]), Started(crc, s), GENERATOR);
    }
  }

  lemma NothingChecked(crc: bv32)
    ensures Congruent(Bits(Crc32Over(crc, []), 32), Started(crc, []), GENERATOR)
  {
    hide Bits, Congruent, GENERATOR, Up, Message;
    EmptyMessage();
    UpUp(Bits(crc, 32), 0, 0);
    PlusComm(Bits(crc, 32), Bits(crc, 32));
    CongruentSame(Bits(crc, 32), Bits(crc, 32), GENERATOR);
  }

  lemma OneByte(crc: bv32, b: Byte, t: Bytes)
    ensures Congruent(Started(Crc32Byte(crc, b), t), Started(crc, [b] + t), GENERATOR)
  {
    hide Bits, Congruent, GENERATOR, Up, Message, Plus, Crc32Bits;
    var x, n := crc ^ (b as bv32), |t|;
    var next := Crc32Bits(x, 8);
    RoundsTimesX(x, 8);
    CongruentUp(Bits(next, 32), Up(Bits(x, 32), 8), GENERATOR, 8 * n);
    CongruentPlus(Up(Bits(next, 32), 8 * n), Up(Up(Bits(x, 32), 8), 8 * n), Up(Message(t), 32), GENERATOR);
    FirstJoins(crc, b, t);
  }

  lemma OverStep(crc: bv32, s: Bytes)
    requires s != []
    ensures Crc32Over(crc, s) == Crc32Over(Crc32Byte(crc, s[0]), s[1..])
  {
    hide Crc32Byte;
  }

  lemma EmptyMessage()
    ensures Message([]) == {} && Up({}, 32) == {}
  {
  }

  /**
   * Before it is inverted, the check of a chunk is the remainder by the generator: of the bytes
   * as a polynomial, with 32 ones added in front and room for itself.
   */
  lemma CheckIsRemainder(s: Bytes)
    ensures IsRemainder(Started(0xFFFF_FFFF, s), GENERATOR, 32, Bits(Crc32(0, s) ^ 0xFFFF_FFFF, 32))
  {
    hide Bits, Congruent, Crc32Over, Started, GENERATOR;
    var c := Crc32Over(0xFFFF_FFFF, s);
    Twice(c);
    StartIs();
    CheckCongruent(0xFFFF_FFFF, s);
    CongruentSame(Bits(c, 32), Started(0xFFFF_FFFF, s), GENERATOR);
    BitsLow(c);
  }

  lemma BitsLow(c: bv32)
    ensures Below(Bits(c, 32), 32)
  {
  }

  lemma GeneratorIs()
    ensures 32 in GENERATOR && 0 in GENERATOR && Below(GENERATOR, 33)
  {
  }

  lemma Twice(c: bv32)
    ensures (c ^ 0xFFFF_FFFF) ^ 0xFFFF_FFFF == c
  {
  }

  lemma StartIs()
    ensures 0 as bv32 ^ 0xFFFF_FFFF == 0xFFFF_FFFF
  {
  }

  lemma {:induction false} SameMessage(a: Bytes, b: Bytes)
    requires |a| == |b| && Message(a) == Message(b)
    ensures a == b
    decreases |a|
  {
    if a != [] {
      var n := 8 * (|a| - 1);
      var p, q, r, s := ByteBits(a[0]), ByteBits(b[0]), Message(a[1..]), Message(b[1..]);
      hide Bits, ByteBits, Message;
      Parts(p, q, r, s, n);
      SameMessage(a[1..], b[1..]);
      SameByte(a[0], b[0]);
      assert a == [a[0]] + a[1..] && b == [b[0]] + b[1..];
    }
  }

  lemma Parts(p: Poly, q: Poly, r: Poly, s: Poly, n: nat)
    requires Below(r, n) && Below(s, n) && Plus(Up(p, n), r) == Plus(Up(q, n), s)
    ensures p == q && r == s
  {
    forall i: nat
      ensures i in p <==> i in q
    {
      UpIs(p, n, i + n);
      UpIs(q, n, i + n);
      PlusIs(Up(p, n), r, i + n);
      PlusIs(Up(q, n), s, i + n);
    }
    forall i: nat
      ensures i in r <==> i in s
    {
      UpIs(p, n, i);
      UpIs(q, n, i);
      PlusIs(Up(p, n), r, i);
      PlusIs(Up(q, n), s, i);
    }
  }

  /** The bits in which two byte strings differ lie within d in a row. */
  ghost predicate DifferWithin(a: Bytes, b: Bytes, d: nat) {
    |a| == |b| && exists w: nat :: InWindow(Plus(Message(a), Message(b)), w, d)
  }

  predicate InWindow(p: Poly, w: nat, d: nat) {
    forall i :: i in p ==> w <= i < w + d
  }

  /** Damage of up to 32 bits in a row changes the check. */
  lemma DamageSeen(a: Bytes, b: Bytes)
    requires DifferWithin(a, b, 32) && a != b
    ensures Check(a) != Check(b)
  {
    hide Message, Check, GENERATOR;
    if Check(a) == Check(b) {
      SameCheck(a, b);
      GeneratorIs();
      var w: nat :| InWindow(Plus(Message(a), Message(b)), w, 32);
      NoBurst(Plus(Message(a), Message(b)), w, GENERATOR, 32);
      assert forall i: nat :: i in Message(a) <==> i in Message(b);
      SameMessage(a, b);
    }
  }

  lemma SameCheck(a: Bytes, b: Bytes)
    requires |a| == |b| && Check(a) == Check(b)
    ensures Multiple(Plus(Message(a), Message(b)), GENERATOR)
  {
    hide Message, Bits, GENERATOR;
    GeneratorIs();
    var ones: bv32 := 0xFFFF_FFFF;
    SameRegister(a, b);
    var r, u, m, n := Bits(Crc32Over(ones, a), 32), Up(Bits(ones, 32), 8 * |a|), Up(Message(a), 32), Up(Message(b), 32);
    CheckCongruent(ones, a);
    CheckCongruent(ones, b);
    hide Crc32Over, Up;
    CongruentSame(r, Plus(u, m), GENERATOR);
    CongruentTrans(Plus(u, m), r, Plus(u, n), GENERATOR);
    PlusPairs(u, m, u, n);
    PlusComm(u, u);
    PlusComm(Plus(m, n), {});
    UpPlus(Message(a), Message(b), 32);
    UnshiftMultiple(Plus(Message(a), Message(b)), 32, GENERATOR);
  }

  lemma SameRegister(a: Bytes, b: Bytes)
    requires Check(a) == Check(b)
    ensures Crc32Over(0xFFFF_FFFF, a) == Crc32Over(0xFFFF_FFFF, b)
  {
    Bv32Of(Crc32(0, a));
    Bv32Of(Crc32(0, b));
    Twice(Crc32Over(0xFFFF_FFFF, a));
    Twice(Crc32Over(0xFFFF_FFFF, b));
    StartIs();
    hide Crc32Over;
  }

  /** A written chunk whose head or payload, but for its length, is so damaged is not taken. */
  lemma DamagedIsBad(c: Chunk, body: Bytes, more: Bytes)
    requires Fits(c) && DifferWithin(Head(c) + c.payload, body, 32) && body != Head(c) + c.payload
    requires body[4..8] == Head(c)[4..8]
    ensures LookAt(body + LeBytes(Check(Head(c) + c.payload), 4) + more) == Nothing(BadCrc)
  {
    var was := Head(c) + c.payload;
    var check := LeBytes(Check(was), 4);
    var rest := body + check + more;
    DamageSeen(was, body);
    LengthIs(c);
    LeRoundTrip(Check(was), 4);
    hide DifferWithin, Check, LeValue, LeBytes;
    var n := |c.payload|;
    assert rest[4..8] == Head(c)[4..8] && rest[..CHUNK_HEAD + n] == body;
    assert rest[CHUNK_HEAD + n..CHUNK_HEAD + n + CHUNK_CRC] == check;
  }

  lemma LengthIs(c: Chunk)
    requires Fits(c)
    ensures LeValue(Head(c)[4..8]) == |c.payload|
  {
    var h := Head(c);
    assert h[4..8] == LeBytes(|c.payload|, 4);
    Pow256Four();
    LeRoundTrip(|c.payload|, 4);
    hide LeBytes, LeValue;
  }
}
