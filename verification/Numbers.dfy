/** Bytes, little-endian numbers and powers, as the wire format and the files use them. */
module Numbers {

  type Byte = b: int | 0 <= b < 256

  lemma FromBits(c: bv8)
    ensures (c as int) as bv8 == c
  {
  }

  lemma UpOneBit(c: bv8)
    requires c as int < 255
    ensures (c + 1) as int == c as int + 1
  {
  }

  lemma {:induction false} ByteOf(x: nat) returns (c: bv8)
    requires x < 256
    ensures c as int == x
  {
    if x == 0 {
      c := 0;
    } else {
      var d := ByteOf(x - 1);
      UpOneBit(d);
      c := d + 1;
    }
  }

  lemma FromByte(x: Byte)
    ensures (x as bv8) as int == x
  {
    var c := ByteOf(x);
    FromBits(c);
  }

  lemma SameAsBits(x: Byte, y: Byte)
    requires x as bv8 == y as bv8
    ensures x == y
  {
    FromByte(x);
    FromByte(y);
  }

  datatype Option<+T> = None | Some(value: T)

  function Max(a: nat, b: nat): nat {
    if a < b then b else a
  }

  function Min(a: nat, b: nat): nat {
    if a < b then a else b
  }

  function Pow2(n: nat): (p: nat)
    ensures p >= 1
  {
    if n == 0 then 1 else 2 * Pow2(n - 1)
  }

  function Pow256(n: nat): (p: nat)
    ensures p >= 1
  {
    if n == 0 then 1 else 256 * Pow256(n - 1)
  }

  /** v as w bytes, least significant first; what does not fit is cut off. */
  function LeBytes(v: nat, w: nat): (s: seq<Byte>)
    ensures |s| == w
  {
    if w == 0 then [] else [v % 256] + LeBytes(v / 256, w - 1)
  }

  function LeValue(s: seq<Byte>): nat {
    if s == [] then 0 else s[0] + 256 * LeValue(s[1..])
  }

  lemma {:induction false} LeRoundTrip(v: nat, w: nat)
    requires v < Pow256(w)
    ensures LeValue(LeBytes(v, w)) == v
  {
    if w > 0 {
      LeRoundTrip(v / 256, w - 1);
      assert LeBytes(v, w)[1..] == LeBytes(v / 256, w - 1);
    }
  }

  /** One byte more at the top, as the decoding loops add it. */
  lemma {:induction false} LeValueAppend(s: seq<Byte>, b: Byte)
    ensures LeValue(s + [b]) == LeValue(s) + b * Pow256(|s|)
  {
    if s != [] {
      LeValueAppend(s[1..], b);
      assert (s + [b])[1..] == s[1..] + [b];
    } else {
      assert [b][1..] == [];
    }
  }

  predicate AllZero(s: seq<Byte>) {
    forall i :: 0 <= i < |s| ==> s[i] == 0
  }

  lemma {:induction false} LeValueZero(s: seq<Byte>)
    ensures LeValue(s) == 0 <==> AllZero(s)
  {
    if s != [] {
      LeValueZero(s[1..]);
      assert AllZero(s) <==> s[0] == 0 && AllZero(s[1..]);
    }
  }

  lemma {:induction false} Pow2Positive(a: nat, b: nat)
    requires a <= b
    ensures Pow2(a) <= Pow2(b)
  {
    if a < b {
      Pow2Positive(a, b - 1);
    }
  }

  lemma MulMonotone(a: nat, b: nat, d: nat)
    requires a <= b
    ensures a * d <= b * d
  {
  }

  /** The low t bits of v, and v shifted right by t bits. */
  function Low(v: nat, t: nat): (r: nat)
    ensures r < Pow2(t) && r <= v
  {
    if t == 0 then 0 else v % 2 + 2 * Low(v / 2, t - 1)
  }

  function High(v: nat, t: nat): (r: nat)
    ensures r <= v
  {
    if t == 0 then v else High(v / 2, t - 1)
  }

  /** hi shifted left by t bits, with k in the freed bits. */
  function Pack(hi: nat, t: nat, k: nat): nat {
    hi * Pow2(t) + k
  }

  lemma {:induction false} PackInverse(hi: nat, t: nat, k: nat)
    requires k < Pow2(t)
    ensures High(Pack(hi, t, k), t) == hi && Low(Pack(hi, t, k), t) == k
  {
    if t > 0 {
      var half := hi * Pow2(t - 1);
      assert hi * Pow2(t) == 2 * half;
      assert Pack(hi, t, k) / 2 == Pack(hi, t - 1, k / 2);
      PackInverse(hi, t - 1, k / 2);
    }
  }
}
