/**
 * What the check byte of the wire format tells: it is the remainder of the bytes by the
 * generator x^8 + x^2 + x + 1, so no damage within 8 bits in a row goes unseen.
 */
module WireCheck {
  import opened Numbers
  import opened Polynomials
  import opened WireFormat
  import opened WireStreams

  const GENERATOR: Poly := {8, 2, 1, 0}

  /** Bit k of a byte, the lowest first. */
  predicate Has(b: bv8, k: nat) {
    || (k == 0 && b & 0x01 != 0) || (k == 1 && b & 0x02 != 0) || (k == 2 && b & 0x04 != 0) || (k == 3 && b & 0x08 != 0)
    || (k == 4 && b & 0x10 != 0) || (k == 5 && b & 0x20 != 0) || (k == 6 && b & 0x40 != 0) || (k == 7 && b & 0x80 != 0)
  }

  function Bits(b: bv8): (p: Poly)
    ensures Below(p, 8)
  {
    set k | 0 <= k < 8 && Has(b, k)
  }

  /** Bytes as a polynomial, the first byte's highest bit first. */
  function Message(s: seq<Byte>): (p: Poly)
    ensures Below(p, 8 * |s|)
  {
    set i | 0 <= i < 8 * |s| && Has(s[|s| - 1 - i / 8] as bv8, i % 8)
  }

  lemma GeneratorIs()
    ensures 8 in GENERATOR && 0 in GENERATOR && Below(GENERATOR, 9)
  {
  }

  // ----- one bit

  lemma ShiftBit(b: bv8, k: nat)
    ensures Has(b << 1, k) <==> 0 < k < 8 && Has(b, k - 1)
  {
    if k == 0 {
    } else if k == 1 {
    } else if k == 2 {
    } else if k == 3 {
    } else if k == 4 {
    } else if k == 5 {
    } else if k == 6 {
    } else if k == 7 {
    }
  }

  lemma XorBits(a: bv8, b: bv8)
    ensures forall k: nat :: Has(a ^ b, k) <==> Has(a, k) != Has(b, k)
  {
  }

  lemma PolyBits()
    ensures Bits(CRC8_POLY) == {2, 1, 0}
  {
  }

  lemma XorPlus(a: bv8, b: bv8)
    ensures Bits(a ^ b) == Plus(Bits(a), Bits(b))
  {
    XorBits(a, b);
    hide Has;
  }

  lemma SameBits(a: bv8, b: bv8)
    requires Bits(a) == Bits(b)
    ensures a == b
  {
    assert forall k :: 0 <= k < 8 ==> (k in Bits(a) <==> Has(a, k)) && (k in Bits(b) <==> Has(b, k));
    assert Has(a, 0) == Has(b, 0) && Has(a, 1) == Has(b, 1) && Has(a, 2) == Has(b, 2) && Has(a, 3) == Has(b, 3);
    assert Has(a, 4) == Has(b, 4) && Has(a, 5) == Has(b, 5) && Has(a, 6) == Has(b, 6) && Has(a, 7) == Has(b, 7);
  }

  lemma ShiftUp(b: bv8)
    ensures Bits(b << 1) == Up(Bits(b), 1) - {8}
  {
    forall i: nat
      ensures i in Bits(b << 1) <==> i in Up(Bits(b), 1) - {8}
    {
      ShiftBit(b, i);
      UpIs(Bits(b), 1, i);
      hide Has;
    }
  }

  /** One round of the bit loop multiplies by x. */
  function Round(b: bv8): bv8 {
    if b & 0x80 != 0 then (b << 1) ^ CRC8_POLY else b << 1
  }

  lemma RoundTimesX(b: bv8)
    ensures Congruent(Bits(Round(b)), Up(Bits(b), 1), GENERATOR)
  {
    hide Bits, Up, Multiple;
    var u := Up(Bits(b), 1);
    ShiftUp(b);
    PolyBits();
    XorPlus(b << 1, CRC8_POLY);
    TopBit(b);
    MultipleSelf(GENERATOR);
    if b & 0x80 != 0 {
      RoundCarries(u);
    } else {
      assert Bits(Round(b)) == u;
      PlusComm(u, u);
    }
  }

  lemma TopBit(b: bv8)
    ensures 8 in Up(Bits(b), 1) <==> b & 0x80 != 0
  {
    UpIs(Bits(b), 1, 8);
    assert 7 in Bits(b) <==> Has(b, 7);
  }

  lemma RoundCarries(u: Poly)
    requires 8 in u
    ensures Plus(Plus(u - {8}, {2, 1, 0}), u) == GENERATOR
  {
  }

  lemma {:induction false} RoundsTimesX(b: bv8, n: nat)
    ensures Congruent(Bits(Crc8Bits(b, n)), Up(Bits(b), n), GENERATOR)
    decreases n
  {
    hide Bits, Round, Congruent, Up;
    if n == 0 {
      UpUp(Bits(b), 0, 0);
      CongruentSame(Bits(b), Bits(b), GENERATOR);
    } else {
      RoundsTimesX(Round(b), n - 1);
      RoundIs(b, n);
      RoundTimesX(b);
      CongruentUp(Bits(Round(b)), Up(Bits(b), 1), GENERATOR, n - 1);
      UpUp(Bits(b), 1, n - 1);
      CongruentTrans(Bits(Crc8Bits(b, n)), Up(Bits(Round(b)), n - 1), Up(Bits(b), n), GENERATOR);
    }
  }

  lemma RoundIs(b: bv8, n: nat)
    requires n > 0
    ensures Crc8Bits(b, n) == Crc8Bits(Round(b), n - 1)
  {
  }

  // ----- messages

  lemma MessageIs(s: seq<Byte>, j: nat, k: nat)
    requires j < |s| && k < 8
    ensures 8 * j + k in Message(s) <==> Has(s[|s| - 1 - j] as bv8, k)
  {
    assert (8 * j + k) / 8 == j && (8 * j + k) % 8 == k;
    hide Has;
  }

  lemma ByteAndBit(i: nat) returns (j: nat, k: nat)
    ensures i == 8 * j + k && k < 8
  {
    j, k := i / 8, i % 8;
  }

  lemma MessageFirst(x: Byte, s: seq<Byte>)
    ensures Message([x] + s) == Plus(Up(Bits(x as bv8), 8 * |s|), Message(s))
  {
    hide Has, Message;
    var n, all := |s|, [x] + s;
    forall i: nat
      ensures i in Message(all) <==> i in Plus(Up(Bits(x as bv8), 8 * n), Message(s))
    {
      UpIs(Bits(x as bv8), 8 * n, i);
      var j, k := ByteAndBit(i);
      if j < n {
        MessageIs(all, j, k);
        MessageIs(s, j, k);
        assert all[n - j] == s[n - 1 - j];
      } else if j == n {
        MessageIs(all, j, k);
      }
    }
  }

  lemma MessageLast(s: seq<Byte>, x: Byte)
    ensures Message(s + [x]) == Plus(Up(Message(s), 8), Bits(x as bv8))
  {
    hide Has, Message;
    var n, all := |s|, s + [x];
    forall i: nat
      ensures i in Message(all) <==> i in Plus(Up(Message(s), 8), Bits(x as bv8))
    {
      UpIs(Message(s), 8, i);
      var j, k := ByteAndBit(i);
      if j == 0 {
        MessageIs(all, 0, k);
      } else if j <= n {
        MessageIs(all, j, k);
        MessageIs(s, j - 1, k);
        assert all[n - j] == s[n - 1 - (j - 1)];
      }
    }
  }

  /** The start value in front of the bytes. */
  function Started(crc: bv8, s: seq<Byte>): Poly {
    Plus(Up(Bits(crc), 8 * |s|), Up(Message(s), 8))
  }

  /**
   * The check byte is the remainder by the generator: of the bytes as a polynomial, the first
   * bit's coefficient the highest, with the start value added in front and room for itself.
   */
  lemma {:induction false} CheckIsRemainder(crc: bv8, s: seq<Byte>)
    ensures IsRemainder(Started(crc, s), GENERATOR, 8, Bits(Crc8(crc, s)))
    decreases |s|
  {
    CheckCongruent(crc, s);
    CongruentSame(Bits(Crc8(crc, s)), Started(crc, s), GENERATOR);
  }

  lemma {:induction false} CheckCongruent(crc: bv8, s: seq<Byte>)
    ensures Congruent(Bits(Crc8(crc, s)), Started(crc, s), GENERATOR)
    decreases |s|
  {
    hide Bits, Message, Congruent, Crc8Bits;
    if s == [] {
      EmptyMessage();
      UpUp(Bits(crc), 0, 0);
      PlusComm(Bits(crc), Bits(crc));
      CongruentSame(Bits(crc), Bits(crc), GENERATOR);
    } else {
      var x, t, n := s[0] as bv8, s[1..], |s| - 1;
      var next := Crc8Bits(crc ^ x, 8);
      CheckCongruent(next, t);
      RoundsTimesX(crc ^ x, 8);
      CongruentUp(Bits(next), Up(Bits(crc ^ x), 8), GENERATOR, 8 * n);
      CongruentPlus(Up(Bits(next), 8 * n), Up(Up(Bits(crc ^ x), 8), 8 * n), Up(Message(t), 8), GENERATOR);
      FirstJoins(crc, s[0], t);
      assert [s[0]] + t == s;
      CongruentTrans(Bits(Crc8(crc, s)), Started(next, t), Started(crc, s), GENERATOR);
    }
  }

  lemma EmptyMessage()
    ensures Message([]) == {} && Up({}, 8) == {}
  {
  }

  lemma FirstJoins(crc: bv8, x: Byte, t: seq<Byte>)
    ensures Plus(Up(Up(Bits(crc ^ (x as bv8)), 8), 8 * |t|), Up(Message(t), 8)) == Started(crc, [x] + t)
  {
    var n, b := |t|, x as bv8;
    hide Bits, Message;
    UpUp(Bits(crc ^ b), 8, 8 * n);
    XorPlus(crc, b);
    UpPlus(Bits(crc), Bits(b), 8 + 8 * n);
    MessageFirst(x, t);
    UpPlus(Up(Bits(b), 8 * n), Message(t), 8);
    UpUp(Bits(b), 8 * n, 8);
    hide Up;
    PlusAssoc(Up(Bits(crc), 8 + 8 * n), Up(Bits(b), 8 + 8 * n), Up(Message(t), 8));
  }

  // ----- what a check byte tells

  /** The last byte is the check byte of those before it. */
  predicate Matches(crc: bv8, s: seq<Byte>) {
    s != [] && Crc8(crc, s[..|s| - 1]) as int == s[|s| - 1]
  }

  lemma WholeIs(crc: bv8, f: seq<Byte>, x: Byte)
    ensures Plus(Up(Bits(crc), 8 * |f|), Message(f + [x])) == Plus(Started(crc, f), Bits(x as bv8))
  {
    hide Message, Bits;
    MessageLast(f, x);
    PlusAssoc(Up(Bits(crc), 8 * |f|), Up(Message(f), 8), Bits(x as bv8));
  }

  /** A check byte matches if and only if the whole, with the start value, is a multiple of the generator. */
  lemma MatchesIff(crc: bv8, s: seq<Byte>)
    requires s != []
    ensures Matches(crc, s) <==> Multiple(Plus(Up(Bits(crc), 8 * (|s| - 1)), Message(s)), GENERATOR)
  {
    var f, x := s[..|s| - 1], s[|s| - 1];
    assert f + [x] == s;
    CheckIsRemainder(crc, f);
    WholeIs(crc, f, x);
    ByteIs(Crc8(crc, f), x);
    hide Message, Crc8, Up, Started, Bits;
    var r, m := Bits(Crc8(crc, f)), Started(crc, f);
    if Multiple(Plus(m, Bits(x as bv8)), GENERATOR) {
      GeneratorIs();
      BitsLow(x as bv8);
      RemainderUnique(m, GENERATOR, 8, r, Bits(x as bv8));
      SameBits(Crc8(crc, f), x as bv8);
    }
  }

  lemma BitsLow(b: bv8)
    ensures Below(Bits(b), 8)
  {
  }

  lemma ByteIs(c: bv8, x: Byte)
    ensures c as int == x <==> c == x as bv8
  {
    if c == x as bv8 {
      FromByte(x);
    } else {
      FromBits(c);
    }
  }

  lemma SameByteBits(x: Byte, y: Byte)
    requires ByteBits(x) == ByteBits(y)
    ensures x == y
  {
    SameBits(x as bv8, y as bv8);
    hide Bits;
    SameAsBits(x, y);
  }

  function ByteBits(x: Byte): Poly {
    Bits(x as bv8)
  }

  lemma BitAt(s: seq<Byte>, j: nat, k: nat)
    requires j < |s| && k < 8
    ensures 8 * (|s| - 1 - j) + k in Message(s) <==> k in ByteBits(s[j])
  {
    hide Has, Message;
    MessageIs(s, |s| - 1 - j, k);
  }

  lemma SameByte(a: seq<Byte>, b: seq<Byte>, j: nat)
    requires |a| == |b| && Message(a) == Message(b) && j < |a|
    ensures ByteBits(a[j]) == ByteBits(b[j])
  {
    LowBits(a[j]);
    LowBits(b[j]);
    hide Message, ByteBits;
    forall k: nat
      ensures k in ByteBits(a[j]) <==> k in ByteBits(b[j])
    {
      if k < 8 {
        BitAt(a, j, k);
        BitAt(b, j, k);
      }
    }
  }

  lemma LowBits(x: Byte)
    ensures Below(ByteBits(x), 8)
  {
  }

  lemma SameMessage(a: seq<Byte>, b: seq<Byte>)
    requires |a| == |b| && Message(a) == Message(b)
    ensures a == b
  {
    hide Message, ByteBits;
    forall j | 0 <= j < |a|
      ensures a[j] == b[j]
    {
      SameByte(a, b, j);
      SameByteBits(a[j], b[j]);
    }
  }

  /** The bits in which two byte strings differ lie within d in a row. */
  ghost predicate DifferWithin(a: seq<Byte>, b: seq<Byte>, d: nat) {
    |a| == |b| && exists w: nat :: InWindow(Plus(Message(a), Message(b)), w, d)
  }

  predicate InWindow(p: Poly, w: nat, d: nat) {
    forall i :: i in p ==> w <= i < w + d
  }

  /**
   * No damage of up to 8 bits in a row, in the bytes, the check byte or across both, leaves
   * a matching check byte matching.
   */
  lemma DamageSeen(crc: bv8, a: seq<Byte>, b: seq<Byte>)
    requires Matches(crc, a) && DifferWithin(a, b, 8) && a != b
    ensures !Matches(crc, b)
  {
    hide Matches, Message;
    if Matches(crc, b) {
      NotEmpty(crc, a);
      NotEmpty(crc, b);
      MatchesIff(crc, a);
      MatchesIff(crc, b);
      var u, m, n := Up(Bits(crc), 8 * (|a| - 1)), Message(a), Message(b);
      MultiplePlus(Plus(u, m), Plus(u, n), GENERATOR);
      PlusPairs(u, m, u, n);
      PlusComm(u, u);
      PlusComm(Plus(m, n), {});
      var w: nat :| InWindow(Plus(m, n), w, 8);
      GeneratorIs();
      NoBurst(Plus(m, n), w, GENERATOR, 8);
      assert forall i: nat :: i in m <==> i in n;
      SameMessage(a, b);
    }
  }

  lemma NotEmpty(crc: bv8, s: seq<Byte>)
    requires Matches(crc, s)
    ensures s != []
  {
  }

  /** Damage in one byte lies within 8 bits. */
  lemma OneByteWithin(a: seq<Byte>, b: seq<Byte>, j: nat)
    requires |a| == |b| && j < |a| && forall i :: 0 <= i < |a| && i != j ==> a[i] == b[i]
    ensures DifferWithin(a, b, 8)
  {
    hide Has, Message;
    var p, w := Plus(Message(a), Message(b)), 8 * (|a| - 1 - j);
    forall i | i in p
      ensures w <= i < w + 8
    {
      var n, k := ByteAndBit(i);
      MessageLow(a, b, i);
      MessageIs(a, n, k);
      MessageIs(b, n, k);
    }
    assert InWindow(p, w, 8);
  }

  lemma MessageLow(a: seq<Byte>, b: seq<Byte>, i: nat)
    requires |a| == |b| && i in Plus(Message(a), Message(b))
    ensures i < 8 * |a|
  {
  }

  /**
   * A heartbeat whose check byte matched as it was written, with the bytes since the one before
   * it, is rejected if they arrive with damage of up to 8 bits in a row: nothing is trusted.
   */
  lemma DamageRejected(g: Config, p: Core, since: seq<Byte>, hb: seq<Byte>, written: seq<Byte>)
    requires g.Valid() && CoreFits(g, p) && |hb| == g.HbLen() && p.synced && Summed(p, since)
    requires !p.anchor && !OpensUnverified(p)
    requires Matches(CRC8_INIT, written) && DifferWithin(written, since + hb, 8) && written != since + hb
    ensures
      var (q, log) := Heartbeat(g, p, hb);
      log == [CheckError] && !q.trusted && !q.synced
  {
    assert hb != [];
    hide *;
    DamageSeen(CRC8_INIT, written, since + hb);
    NotMatching(p, since, hb);
    Rejects(g, p, hb);
  }

  lemma NotMatching(p: Core, since: seq<Byte>, hb: seq<Byte>)
    requires p.synced && Summed(p, since) && hb != [] && !Matches(CRC8_INIT, since + hb)
    ensures Crc8(p.crc, hb[..|hb| - 1]) as int != hb[|hb| - 1]
  {
    hide Crc8;
    Crc8Concat(CRC8_INIT, since, hb[..|hb| - 1]);
    assert (since + hb)[..|since + hb| - 1] == since + hb[..|hb| - 1];
  }

  lemma Rejects(g: Config, p: Core, hb: seq<Byte>)
    requires g.Valid() && CoreFits(g, p) && |hb| == g.HbLen() && !p.anchor && !OpensUnverified(p)
    requires Crc8(p.crc, hb[..|hb| - 1]) as int != hb[|hb| - 1]
    ensures
      var (q, log) := Heartbeat(g, p, hb);
      log == [CheckError] && !q.trusted && !q.synced
  {
    hide Crc8, Accept, Unwrap, GridTick;
  }
}
