/**
 * Polynomials over GF(2), as the check values are defined: sums, products, and when one is a
 * multiple of another.
 */
module Polynomials {

  /** The exponents whose coefficient is 1. */
  type Poly = set<nat>

  function Plus(a: Poly, b: Poly): Poly {
    (a - b) + (b - a)
  }

  /** Times x^k. */
  function Up(p: Poly, k: nat): Poly {
    set i | i in p :: i + k
  }

  predicate Below(p: Poly, n: nat) {
    forall i :: i in p ==> i < n
  }

  /** The terms of q below x^n, each times p, added up. */
  function Times(q: Poly, p: Poly, n: nat): Poly {
    if n == 0 then {} else Plus(Times(q, p, n - 1), if n - 1 in q then Up(p, n - 1) else {})
  }

  ghost predicate Multiple(m: Poly, p: Poly) {
    exists q, n: nat :: IsProduct(m, q, p, n)
  }

  predicate IsProduct(m: Poly, q: Poly, p: Poly, n: nat) {
    Below(q, n) && m == Times(q, p, n)
  }

  /** They leave the same remainder. */
  ghost predicate Congruent(a: Poly, b: Poly, p: Poly) {
    Multiple(Plus(a, b), p)
  }

  /** What is left of m: of lower degree than p, and m but for a multiple of p. */
  ghost predicate IsRemainder(m: Poly, p: Poly, d: nat, r: Poly) {
    Below(r, d) && Congruent(m, r, p)
  }

  // ----- sums

  lemma PlusIs(a: Poly, b: Poly, i: nat)
    ensures i in Plus(a, b) <==> (i in a) != (i in b)
  {
  }

  lemma PlusAssoc(a: Poly, b: Poly, c: Poly)
    ensures Plus(Plus(a, b), c) == Plus(a, Plus(b, c))
  {
  }

  lemma PlusComm(a: Poly, b: Poly)
    ensures Plus(a, b) == Plus(b, a) && Plus(a, a) == {} && Plus(a, {}) == a && Plus({}, a) == a
  {
  }

  /** Two sums added term by term. */
  lemma PlusPairs(a: Poly, b: Poly, c: Poly, d: Poly)
    ensures Plus(Plus(a, b), Plus(c, d)) == Plus(Plus(a, c), Plus(b, d))
  {
    forall i: nat
      ensures i in Plus(Plus(a, b), Plus(c, d)) <==> i in Plus(Plus(a, c), Plus(b, d))
    {
    }
  }

  lemma UpIs(p: Poly, k: nat, i: nat)
    ensures i in Up(p, k) <==> i >= k && i - k in p
  {
    if i >= k && i - k in p {
      assert (i - k) + k == i;
    }
  }

  lemma UpPlus(a: Poly, b: Poly, k: nat)
    ensures Up(Plus(a, b), k) == Plus(Up(a, k), Up(b, k))
  {
    forall i: nat
      ensures i in Up(Plus(a, b), k) <==> i in Plus(Up(a, k), Up(b, k))
    {
      UpIs(Plus(a, b), k, i);
      UpIs(a, k, i);
      UpIs(b, k, i);
    }
  }

  lemma UpUp(p: Poly, j: nat, k: nat)
    ensures Up(Up(p, j), k) == Up(p, j + k) && Up(p, 0) == p
  {
    forall i: nat
      ensures i in Up(Up(p, j), k) <==> i in Up(p, j + k)
    {
      UpIs(Up(p, j), k, i);
      if i >= k {
        UpIs(p, j, i - k);
      }
      UpIs(p, j + k, i);
    }
    forall i: nat
      ensures i in Up(p, 0) <==> i in p
    {
      UpIs(p, 0, i);
    }
  }

  // ----- products

  lemma {:induction false} TimesPlus(a: Poly, b: Poly, p: Poly, n: nat)
    ensures Times(Plus(a, b), p, n) == Plus(Times(a, p, n), Times(b, p, n))
  {
    if n > 0 {
      TimesPlus(a, b, p, n - 1);
      var x, y := if n - 1 in a then Up(p, n - 1) else {}, if n - 1 in b then Up(p, n - 1) else {};
      PlusPairs(Times(a, p, n - 1), x, Times(b, p, n - 1), y);
      PlusComm(Up(p, n - 1), Up(p, n - 1));
      PlusComm(x, y);
      hide Times;
      PlusIs(a, b, n - 1);
      hide Plus;
    }
  }

  lemma {:induction false} TimesUp(q: Poly, p: Poly, n: nat)
    ensures Times(Up(q, 1), p, n + 1) == Up(Times(q, p, n), 1)
  {
    UpIs(q, 1, n);
    if n > 0 {
      TimesUp(q, p, n - 1);
      UpPlus(Times(q, p, n - 1), if n - 1 in q then Up(p, n - 1) else {}, 1);
      UpUp(p, n - 1, 1);
    }
  }

  lemma {:induction false} TimesMore(q: Poly, p: Poly, n: nat, m: nat)
    requires Below(q, n) && n <= m
    ensures Times(q, p, m) == Times(q, p, n)
    decreases m
  {
    if n < m {
      TimesMore(q, p, n, m - 1);
      PlusComm(Times(q, p, m - 1), {});
    }
  }

  lemma MultiplePlus(a: Poly, b: Poly, p: Poly)
    requires Multiple(a, p) && Multiple(b, p)
    ensures Multiple(Plus(a, b), p)
  {
    var q, n: nat :| IsProduct(a, q, p, n);
    var r, m: nat :| IsProduct(b, r, p, m);
    var k := if n < m then m else n;
    TimesMore(q, p, n, k);
    TimesMore(r, p, m, k);
    TimesPlus(q, r, p, k);
    hide Times;
    assert IsProduct(Plus(a, b), Plus(q, r), p, k);
  }

  lemma {:induction false} MultipleUp(a: Poly, p: Poly, k: nat)
    requires Multiple(a, p)
    ensures Multiple(Up(a, k), p)
  {
    if k == 0 {
      UpUp(a, 0, 0);
    } else {
      MultipleUp(a, p, k - 1);
      var b := Up(a, k - 1);
      var q, n: nat :| IsProduct(b, q, p, n);
      TimesUp(q, p, n);
      UpUp(a, k - 1, 1);
      assert IsProduct(Up(b, 1), Up(q, 1), p, n + 1);
    }
  }

  lemma MultipleSelf(p: Poly)
    ensures Multiple(p, p) && Multiple({}, p)
  {
    assert Times({0}, p, 1) == Plus(Times({0}, p, 0), Up(p, 0));
    UpUp(p, 0, 0);
    PlusComm({}, p);
    assert IsProduct(p, {0}, p, 1) && IsProduct({}, {}, p, 0);
  }

  /** A product is of degree d more than its factor. */
  lemma {:induction false} TimesDegree(q: Poly, p: Poly, d: nat, n: nat, top: nat)
    requires d in p && Below(p, d + 1) && top in q && Below(q, top + 1)
    ensures n <= top ==> Below(Times(q, p, n), top + d)
    ensures n > top ==> top + d in Times(q, p, n)
  {
    if n > 0 {
      TimesDegree(q, p, d, n - 1, top);
      UpIs(p, n - 1, top + d);
      var x := if n - 1 in q then Up(p, n - 1) else {};
      forall i | i in x
        ensures i < n + d
      {
        UpIs(p, n - 1, i);
      }
      assert Times(q, p, n) == Plus(Times(q, p, n - 1), x);
      if n <= top {
        forall i | i in Times(q, p, n)
          ensures i < top + d
        {
          PlusIs(Times(q, p, n - 1), x, i);
        }
      }
    }
  }

  lemma {:induction false} Top(q: Poly) returns (top: nat)
    requires q != {}
    ensures top in q && Below(q, top + 1)
    decreases |q|
  {
    var i :| i in q;
    if q == {i} {
      top := i;
    } else {
      var j := Top(q - {i});
      top := if i < j then j else i;
      assert forall k :: k in q ==> k == i || k in q - {i};
    }
  }

  /** Below the degree of p only 0 is a multiple of it. */
  lemma LowMultiple(m: Poly, p: Poly, d: nat)
    requires d in p && Below(p, d + 1) && Multiple(m, p) && Below(m, d)
    ensures m == {}
  {
    var q, n: nat :| IsProduct(m, q, p, n);
    if q == {} {
      TimesMore({}, p, 0, n);
    } else {
      var top := Top(q);
      TimesDegree(q, p, d, n, top);
      assert false;
    }
  }

  /** With p not a multiple of x, shifting makes no multiple of what is not one. */
  lemma {:induction false} UnshiftMultiple(u: Poly, k: nat, p: Poly)
    requires 0 in p && Multiple(Up(u, k), p)
    ensures Multiple(u, p)
    decreases k
  {
    if k == 0 {
      UpUp(u, 0, 0);
    } else {
      UpUp(u, k - 1, 1);
      var v := Up(u, k - 1);
      var q, n: nat :| IsProduct(Up(v, 1), q, p, n);
      UpIs(v, 1, 0);
      ConstantTerm(q, p, n);
      var r := Down(q);
      DownUp(q);
      if n > 0 {
        TimesUp(r, p, n - 1);
        UpInjective(v, Times(r, p, n - 1));
        assert IsProduct(v, r, p, n - 1);
      } else {
        assert q == {} && Up(v, 1) == {};
        assert v == {} by {
          if i :| i in v {
            UpIs(v, 1, i + 1);
          }
        }
        MultipleSelf(p);
      }
      UnshiftMultiple(u, k - 1, p);
    }
  }

  /** Divided by x. */
  function Down(q: Poly): Poly {
    set i | i in q && i > 0 :: i - 1
  }

  lemma DownUp(q: Poly)
    requires 0 !in q
    ensures Up(Down(q), 1) == q
    ensures forall n: nat :: n > 0 && Below(q, n) ==> Below(Down(q), n - 1)
  {
    forall i: nat
      ensures i in Up(Down(q), 1) <==> i in q
    {
      UpIs(Down(q), 1, i);
    }
  }

  lemma UpInjective(a: Poly, b: Poly)
    requires Up(a, 1) == Up(b, 1)
    ensures a == b
  {
    forall i: nat
      ensures i in a <==> i in b
    {
      UpIs(a, 1, i + 1);
      UpIs(b, 1, i + 1);
    }
  }

  lemma {:induction false} ConstantTerm(q: Poly, p: Poly, n: nat)
    requires 0 in p && Below(q, n)
    ensures 0 in Times(q, p, n) <==> 0 in q
  {
    if n > 0 {
      ConstantAt(q, p, n);
    }
  }

  lemma {:induction false} ConstantAt(q: Poly, p: Poly, n: nat)
    requires 0 in p && n > 0
    ensures 0 in Times(q, p, n) <==> 0 in q
  {
    UpIs(p, n - 1, 0);
    if n > 1 {
      ConstantAt(q, p, n - 1);
    }
  }

  // ----- remainders

  lemma CongruentTrans(a: Poly, b: Poly, c: Poly, p: Poly)
    requires Congruent(a, b, p) && Congruent(b, c, p)
    ensures Congruent(a, c, p)
  {
    MultiplePlus(Plus(a, b), Plus(b, c), p);
    PlusAssoc(a, b, Plus(b, c));
    PlusAssoc(b, b, c);
    PlusComm(b, c);
    PlusComm(c, b);
  }

  lemma CongruentSame(a: Poly, b: Poly, p: Poly)
    ensures Congruent(a, a, p) && (Congruent(a, b, p) ==> Congruent(b, a, p))
  {
    PlusComm(a, b);
    MultipleSelf(p);
  }

  lemma CongruentUp(a: Poly, b: Poly, p: Poly, k: nat)
    requires Congruent(a, b, p)
    ensures Congruent(Up(a, k), Up(b, k), p)
  {
    MultipleUp(Plus(a, b), p, k);
    UpPlus(a, b, k);
  }

  lemma CongruentPlus(a: Poly, b: Poly, c: Poly, p: Poly)
    requires Congruent(a, b, p)
    ensures Congruent(Plus(a, c), Plus(b, c), p)
  {
    PlusPairs(a, c, b, c);
    PlusComm(c, c);
    PlusComm(Plus(a, b), c);
  }

  /** There is one remainder only. */
  lemma RemainderUnique(m: Poly, p: Poly, d: nat, r: Poly, s: Poly)
    requires d in p && Below(p, d + 1) && IsRemainder(m, p, d, r) && IsRemainder(m, p, d, s)
    ensures r == s
  {
    CongruentSame(m, r, p);
    CongruentTrans(r, m, s, p);
    LowMultiple(Plus(r, s), p, d);
    assert forall i: nat :: i in r <==> i in s;
  }

  /** A difference that lies in fewer bits than p has is never a multiple of it. */
  lemma NoBurst(e: Poly, w: nat, p: Poly, d: nat)
    requires d in p && Below(p, d + 1) && 0 in p && Multiple(e, p)
    requires forall i :: i in e ==> w <= i < w + d
    ensures e == {}
  {
    var u := set i | i in e :: i - w;
    forall i: nat
      ensures i in Up(u, w) <==> i in e
    {
      UpIs(u, w, i);
      if i in e {
        assert i - w in u;
      }
    }
    assert Up(u, w) == e;
    UnshiftMultiple(u, w, p);
    LowMultiple(u, p, d);
    assert forall i :: i in e ==> i - w in u;
  }
}
