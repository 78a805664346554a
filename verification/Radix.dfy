/** Positional notation: the number a list of digits stands for, most significant digit first. */
module Radix {
  import opened Bits

  function Power(base: nat, n: nat): (p: nat)
    requires base > 0
    ensures p > 0
  {
    if n == 0 then 1 else Power(base, n - 1) * base
  }

  predicate AreDigits(ds: seq<nat>, base: nat) {
    forall i :: 0 <= i < |ds| ==> ds[i] < base
  }

  function Number(ds: seq<nat>, base: nat): nat {
    Leading(ds, |ds|, base)
  }

  /** The number of the first n digits. */
  function Leading(ds: seq<nat>, n: nat, base: nat): nat
    requires n <= |ds|
    decreases n
  {
    if n == 0 then 0 else Leading(ds, n - 1, base) * base + ds[n - 1]
  }

  lemma {:induction false} LeadingPrefix(ds: seq<nat>, m: nat, n: nat, base: nat)
    requires n <= m <= |ds|
    ensures Leading(ds[..m], n, base) == Leading(ds, n, base)
    decreases n
  {
    if n > 0 {
      LeadingPrefix(ds, m, n - 1, base);
    }
  }

  lemma NumberLast(ds: seq<nat>, base: nat)
    requires ds != []
    ensures Number(ds, base) == Number(ds[..|ds| - 1], base) * base + ds[|ds| - 1]
  {
    LeadingPrefix(ds, |ds| - 1, |ds| - 1, base);
  }

  /** Division by repeated subtraction. */
  function Quotient(n: nat, base: nat): (q: nat)
    requires base > 0
    ensures q * base <= n < q * base + base
    decreases n
  {
    if n < base then 0 else Quotient(n - base, base) + 1
  }

  function Remainder(n: nat, base: nat): (r: nat)
    requires base > 0
    ensures r < base
  {
    n - Quotient(n, base) * base
  }

  lemma DivisionAgrees(n: nat, base: nat)
    requires base > 0
    ensures n / base == Quotient(n, base) && n % base == Remainder(n, base)
  {
    QuotientIs(n, base, Quotient(n, base), Remainder(n, base));
  }

  /** The last `count` digits of n. */
  function Digits(n: nat, base: nat, count: nat): (ds: seq<nat>)
    requires base > 0
    ensures |ds| == count && AreDigits(ds, base)
    decreases count
  {
    if count == 0 then [] else Digits(Quotient(n, base), base, count - 1) + [Remainder(n, base)]
  }

  lemma NumberAppend(ds: seq<nat>, d: nat, base: nat)
    ensures Number(ds + [d], base) == Number(ds, base) * base + d
  {
    assert (ds + [d])[..|ds|] == ds;
    NumberLast(ds + [d], base);
  }

  lemma ScaleUp(x: nat, p: nat, base: nat, d: nat)
    requires x < p && d < base
    ensures x * base + d < p * base
  {
    assert (x + 1) * base <= p * base;
  }

  lemma {:induction false} NumberBelow(ds: seq<nat>, base: nat)
    requires base > 0 && AreDigits(ds, base)
    ensures Number(ds, base) < Power(base, |ds|)
    decreases |ds|
  {
    if ds != [] {
      var init := ds[..|ds| - 1];
      NumberLast(ds, base);
      NumberBelow(init, base);
      ScaleUp(Number(init, base), Power(base, |ds| - 1), base, ds[|ds| - 1]);
    }
  }

  lemma SplitLast(q: nat, base: nat, d: nat)
    requires d < base
    ensures Quotient(q * base + d, base) == q && Remainder(q * base + d, base) == d
  {
    DivisionAgrees(q * base + d, base);
    QuotientIs(q * base + d, base, q, d);
  }

  /** A list of digits is recovered from its number and its length. */
  lemma {:induction false} DigitsOfNumber(ds: seq<nat>, base: nat)
    requires base > 0 && AreDigits(ds, base)
    ensures Digits(Number(ds, base), base, |ds|) == ds
    decreases |ds|
  {
    if ds != [] {
      var init, d := ds[..|ds| - 1], ds[|ds| - 1];
      NumberLast(ds, base);
      DigitsOfNumber(init, base);
      SplitLast(Number(init, base), base, d);
      assert ds == init + [d];
    }
  }

  lemma SmallQuotient(n: nat, p: nat, base: nat)
    requires base > 0 && n < p * base
    ensures Quotient(n, base) < p
  {
    Cancel(Quotient(n, base), p, base);
  }

  lemma {:induction false} NumberOfDigits(n: nat, base: nat, count: nat)
    requires base > 0 && n < Power(base, count)
    ensures Number(Digits(n, base, count), base) == n
    decreases count
  {
    if count > 0 {
      SmallQuotient(n, Power(base, count - 1), base);
      NumberOfDigits(Quotient(n, base), base, count - 1);
      NumberAppend(Digits(Quotient(n, base), base, count - 1), Remainder(n, base), base);
    }
  }

  lemma SameNumber(a: seq<nat>, b: seq<nat>, base: nat)
    requires base > 0 && AreDigits(a, base) && AreDigits(b, base) && |a| == |b|
    requires Number(a, base) == Number(b, base)
    ensures a == b
  {
    DigitsOfNumber(a, base);
    DigitsOfNumber(b, base);
  }

  lemma DistributeShift(x: nat, p: nat, base: nat, y: nat, d: nat)
    ensures (x * p + y) * base + d == x * (p * base) + (y * base + d)
  {
  }

  lemma {:induction false} NumberConcat(a: seq<nat>, b: seq<nat>, base: nat)
    requires base > 0
    ensures Number(a + b, base) == Number(a, base) * Power(base, |b|) + Number(b, base)
    decreases |b|
  {
    if b == [] {
      assert a + b == a;
    } else {
      var init, d := b[..|b| - 1], b[|b| - 1];
      NumberConcat(a, init, base);
      NumberLast(b, base);
      NumberLast(a + b, base);
      assert (a + b)[..|a + b| - 1] == a + init;
      DistributeShift(Number(a, base), Power(base, |b| - 1), base, Number(init, base), d);
    }
  }

  /** The first m digits and the rest are quotient and remainder. */
  lemma NumberSplit(ds: seq<nat>, m: nat, base: nat)
    requires base > 0 && AreDigits(ds, base) && m <= |ds|
    ensures Number(ds[..m], base) == Quotient(Number(ds, base), Power(base, |ds| - m))
    ensures Number(ds[m..], base) == Remainder(Number(ds, base), Power(base, |ds| - m))
  {
    assert ds == ds[..m] + ds[m..];
    NumberConcat(ds[..m], ds[m..], base);
    NumberBelow(ds[m..], base);
    SplitLast(Number(ds[..m], base), Power(base, |ds| - m), Number(ds[m..], base));
  }

  lemma DivisionUnique(n: nat, base: nat, q: nat, r: nat)
    requires r < base && n == q * base + r
    ensures Quotient(n, base) == q && Remainder(n, base) == r
  {
    SplitLast(q, base, r);
  }

  /** Dividing by a product is dividing twice. */
  lemma QuotientNested(n: nat, x: nat, y: nat, p: nat)
    requires x > 0 && y > 0 && p == y * x
    ensures p > 0 && Quotient(n, p) == Quotient(Quotient(n, x), y)
  {
    var q, r := Quotient(n, x), Remainder(n, x);
    var h, l := Quotient(q, y), Remainder(q, y);
    ScaleUp(l, y, x, r);
    TwoLevels(h, y, x, l, r, q, p, n);
    DivisionUnique(n, p, h, l * x + r);
  }

  lemma TwoLevels(h: nat, y: nat, x: nat, l: nat, r: nat, q: nat, p: nat, n: nat)
    requires p == y * x && q == h * y + l && n == q * x + r
    ensures n == h * p + (l * x + r)
  {
    DistributeShift(h, y, x, l, r);
  }

  /** A multiple of a multiple of the base does not change the remainder. */
  lemma RemainderNested(u: nat, x: nat, y: nat, p: nat, v: nat)
    requires y > 0 && p == x * y
    ensures Remainder(u * p + v, y) == Remainder(v, y)
  {
    var q, r := Quotient(v, y), Remainder(v, y);
    DistributeShift(u, x, y, q, r);
    DivisionUnique(u * p + v, y, u * x + q, r);
  }

  lemma {:induction false} PowerOfByte(n: nat)
    ensures Power(256, n) == Pow2(8 * n)
  {
    if n > 0 {
      PowerOfByte(n - 1);
      Pow2Eight(8 * (n - 1));
    }
  }

  lemma {:induction false} PowerOfLetter(n: nat)
    ensures Power(32, n) == Pow2(5 * n)
  {
    if n > 0 {
      PowerOfLetter(n - 1);
      Pow2Five(5 * (n - 1));
    }
  }
}
