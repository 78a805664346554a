/** Bitwise operations on unsigned integers, written as arithmetic. */
module Bits {

  type byte = x: int | 0 <= x < 256

  function Pow2(k: nat): (p: nat)
    ensures p > 0
  {
    if k == 0 then 1 else 2 * Pow2(k - 1)
  }

  lemma {:induction false} Pow2Sum(a: nat, b: nat)
    ensures Pow2(a + b) == Pow2(a) * Pow2(b)
  {
    if b > 0 {
      Pow2Sum(a, b - 1);
      TwiceMoves(Pow2(a), Pow2(b - 1));
    }
  }

  lemma Pow2Five(k: nat)
    ensures Pow2(k + 5) == 32 * Pow2(k)
  {
    assert Pow2(k + 5) == 2 * Pow2(k + 4) == 4 * Pow2(k + 3) == 8 * Pow2(k + 2) == 16 * Pow2(k + 1);
  }

  lemma Pow2Eight(k: nat)
    ensures Pow2(k + 8) == 256 * Pow2(k)
  {
    Pow2Five(k + 3);
    assert Pow2(k + 3) == 2 * Pow2(k + 2) == 4 * Pow2(k + 1) == 8 * Pow2(k);
  }

  lemma Pow2Small()
    ensures Pow2(4) == 16 && Pow2(5) == 32 && Pow2(8) == 256
  {
    assert Pow2(4) == 16;
  }

  /** Exclusive or. */
  function Xor(a: nat, b: nat): nat
    decreases a + b
  {
    if a == 0 && b == 0 then 0 else 2 * Xor(a / 2, b / 2) + (a + b) % 2
  }

  lemma XorHalves(a: nat, b: nat)
    ensures Xor(a, b) / 2 == Xor(a / 2, b / 2)
    ensures Xor(a, b) % 2 == (a + b) % 2
  {
  }

  lemma {:induction false} XorOneZero(a: nat)
    ensures Xor(a, 0) == a && Xor(0, a) == a
  {
    if a > 0 {
      XorOneZero(a / 2);
    }
  }

  lemma {:induction false} XorCommutes(a: nat, b: nat)
    ensures Xor(a, b) == Xor(b, a)
    decreases a + b
  {
    if a + b > 0 {
      XorCommutes(a / 2, b / 2);
    }
  }

  lemma {:induction false} XorAssociates(a: nat, b: nat, c: nat)
    ensures Xor(Xor(a, b), c) == Xor(a, Xor(b, c))
    decreases a + b + c
  {
    if a + b + c > 0 {
      var ab, bc := Xor(a, b), Xor(b, c);
      XorHalves(a, b);
      XorHalves(b, c);
      XorHalves(ab, c);
      XorHalves(a, bc);
      XorAssociates(a / 2, b / 2, c / 2);
      ParityOfSums(ab, a, b, c, bc);
    }
  }

  lemma ParityOfSums(ab: nat, a: nat, b: nat, c: nat, bc: nat)
    requires ab % 2 == (a + b) % 2 && bc % 2 == (b + c) % 2
    ensures (ab + c) % 2 == (a + bc) % 2
  {
  }

  lemma {:induction false} XorSelf(a: nat)
    ensures Xor(a, a) == 0
  {
    if a > 0 {
      XorSelf(a / 2);
    }
  }

  lemma {:induction false} XorZeroMeansEqual(a: nat, b: nat)
    requires Xor(a, b) == 0
    ensures a == b
    decreases a + b
  {
    if a + b > 0 {
      XorZeroMeansEqual(a / 2, b / 2);
    }
  }

  lemma XorCancels(a: nat, b: nat, c: nat)
    requires Xor(a, c) == Xor(b, c)
    ensures a == b
  {
    XorAssociates(a, c, c);
    XorAssociates(b, c, c);
    XorSelf(c);
    XorOneZero(a);
    XorOneZero(b);
  }

  /** (a ^ c) ^ (b ^ d) == (a ^ b) ^ (c ^ d) */
  lemma XorSwaps(a: nat, b: nat, c: nat, d: nat)
    ensures Xor(Xor(a, c), Xor(b, d)) == Xor(Xor(a, b), Xor(c, d))
  {
    XorAssociates(a, c, Xor(b, d));
    XorAssociates(c, b, d);
    XorCommutes(c, b);
    XorAssociates(b, c, d);
    XorAssociates(a, b, Xor(c, d));
  }

  /** a >> k */
  function ShiftRight(a: nat, k: nat): nat {
    if k == 0 then a else ShiftRight(a / 2, k - 1)
  }

  /** a << k */
  function ShiftLeft(a: nat, k: nat): nat {
    if k == 0 then a else 2 * ShiftLeft(a, k - 1)
  }

  /** a & ((1 << k) - 1) */
  function LowBits(a: nat, k: nat): nat {
    if k == 0 then 0 else 2 * LowBits(a / 2, k - 1) + a % 2
  }

  lemma {:induction false} LowBitsBelow(a: nat, k: nat)
    ensures LowBits(a, k) < Pow2(k)
  {
    if k > 0 {
      LowBitsBelow(a / 2, k - 1);
    }
  }

  lemma {:induction false} HighAndLow(a: nat, k: nat)
    ensures ShiftLeft(ShiftRight(a, k), k) + LowBits(a, k) == a
  {
    if k > 0 {
      HighAndLow(a / 2, k - 1);
    }
  }

  lemma {:induction false} ShiftRightBelow(a: nat, k: nat, width: nat)
    requires a < Pow2(k + width)
    ensures ShiftRight(a, k) < Pow2(width)
  {
    if k > 0 {
      ShiftRightBelow(a / 2, k - 1, width);
    }
  }

  lemma {:induction false} ShiftLeftAdds(x: nat, y: nat, k: nat)
    ensures ShiftLeft(x + y, k) == ShiftLeft(x, k) + ShiftLeft(y, k)
  {
    if k > 0 {
      ShiftLeftAdds(x, y, k - 1);
    }
  }

  lemma {:induction false} ShiftLeftTwice(x: nat, j: nat, k: nat)
    ensures ShiftLeft(ShiftLeft(x, j), k) == ShiftLeft(x, j + k)
  {
    if k > 0 {
      ShiftLeftTwice(x, j, k - 1);
    }
  }

  lemma {:induction false} ShiftRightDivides(a: nat, k: nat)
    ensures ShiftRight(a, k) == a / Pow2(k)
  {
    if k > 0 {
      ShiftRightDivides(a / 2, k - 1);
      HalveFirst(a, k);
    }
  }

  lemma {:induction false} ShiftLeftMultiplies(a: nat, k: nat)
    ensures ShiftLeft(a, k) == a * Pow2(k)
  {
    if k > 0 {
      ShiftLeftMultiplies(a, k - 1);
      TwiceMoves(a, Pow2(k - 1));
    }
  }

  lemma TwiceMoves(x: nat, p: nat)
    ensures x * (2 * p) == 2 * (x * p)
  {
  }

  lemma {:induction false} XorShiftRight(a: nat, b: nat, k: nat)
    ensures ShiftRight(Xor(a, b), k) == Xor(ShiftRight(a, k), ShiftRight(b, k))
  {
    if k > 0 {
      XorHalves(a, b);
      XorShiftRight(a / 2, b / 2, k - 1);
    }
  }

  lemma {:induction false} XorShiftLeft(a: nat, b: nat, k: nat)
    ensures ShiftLeft(Xor(a, b), k) == Xor(ShiftLeft(a, k), ShiftLeft(b, k))
  {
    if k > 0 {
      XorShiftLeft(a, b, k - 1);
      XorDoubles(ShiftLeft(a, k - 1), ShiftLeft(b, k - 1));
    }
  }

  lemma HalveFirst(a: nat, k: nat)
    requires k > 0
    ensures a / Pow2(k) == (a / 2) / Pow2(k - 1)
    ensures a % Pow2(k) == 2 * ((a / 2) % Pow2(k - 1)) + a % 2
  {
    QuotientTwice(a, Pow2(k - 1));
  }

  lemma QuotientTwice(a: nat, p: nat)
    requires p > 0
    ensures a / (2 * p) == (a / 2) / p
    ensures a % (2 * p) == 2 * ((a / 2) % p) + a % 2
  {
    var h := a / 2;
    var q, r := h / p, h % p;
    assert h == q * p + r;
    assert a == q * (2 * p) + (2 * r + a % 2);
    QuotientIs(a, 2 * p, q, 2 * r + a % 2);
  }

  lemma QuotientIs(a: int, d: int, q: int, r: int)
    requires 0 <= r < d && a == q * d + r
    ensures a / d == q && a % d == r
  {
    var q', r' := a / d, a % d;
    assert a == q' * d + r';
    assert (q' - q) * d == r - r';
    SmallMultiple(q' - q, d, r - r');
  }

  lemma SmallMultiple(m: int, d: int, x: int)
    requires d > 0 && m * d == x && -d < x < d
    ensures m == 0
  {
    assert (m + 1) * d == x + d > 0 * d;
    assert m * d < 1 * d;
    Cancel(m, 1, d);
    Cancel(0, m + 1, d);
  }

  lemma Cancel(x: int, y: int, b: int)
    requires b > 0 && x * b < y * b
    ensures x < y
  {
  }

  lemma {:induction false} XorRemainder(a: nat, b: nat, k: nat)
    ensures Xor(a, b) % Pow2(k) == Xor(a % Pow2(k), b % Pow2(k))
  {
    if k > 0 {
      var x, y, z := a % Pow2(k), b % Pow2(k), Xor(a, b) % Pow2(k);
      XorHalves(a, b);
      XorHalves(x, y);
      XorRemainder(a / 2, b / 2, k - 1);
      HalveFirst(a, k);
      HalveFirst(b, k);
      HalveFirst(Xor(a, b), k);
      assert x / 2 == (a / 2) % Pow2(k - 1) && x % 2 == a % 2;
      assert y / 2 == (b / 2) % Pow2(k - 1) && y % 2 == b % 2;
      assert z / 2 == Xor(x, y) / 2;
      SameParity(x, y, a, b);
    }
  }

  lemma SameParity(x: nat, y: nat, a: nat, b: nat)
    requires x % 2 == a % 2 && y % 2 == b % 2
    ensures (x + y) % 2 == (a + b) % 2
  {
  }

  lemma XorBelow(a: nat, b: nat, k: nat)
    requires a < Pow2(k) && b < Pow2(k)
    ensures Xor(a, b) < Pow2(k)
  {
    XorRemainder(a, b, k);
  }

  /** One bit appended to each operand. */
  lemma XorAppended(a: nat, b: nat, i: nat, j: nat)
    requires i <= 1 && j <= 1
    ensures Xor(2 * a + i, 2 * b + j) == 2 * Xor(a, b) + (i + j) % 2
  {
    XorOfHalves(2 * a + i, 2 * b + j, a, b);
    ParityAppended(a, b, i, j);
  }

  lemma ParityAppended(a: nat, b: nat, i: nat, j: nat)
    ensures (2 * a + i + (2 * b + j)) % 2 == (i + j) % 2
  {
    assert 2 * a + i + (2 * b + j) == 2 * (a + b) + (i + j);
  }

  lemma XorOfHalves(x: nat, y: nat, a: nat, b: nat)
    requires x / 2 == a && y / 2 == b
    ensures Xor(x, y) == 2 * Xor(a, b) + (x + y) % 2
  {
  }

  lemma XorDoubles(a: nat, b: nat)
    ensures Xor(2 * a, 2 * b) == 2 * Xor(a, b)
  {
    XorAppended(a, b, 0, 0);
  }

  lemma XorProduct(x: nat, y: nat, k: nat)
    ensures Xor(x * Pow2(k), y * Pow2(k)) == Xor(x, y) * Pow2(k)
  {
    XorShiftLeft(x, y, k);
    ShiftLeftMultiplies(x, k);
    ShiftLeftMultiplies(y, k);
    ShiftLeftMultiplies(Xor(x, y), k);
  }

  /** Where the operands share no bit, exclusive or is addition. */
  lemma {:induction false} XorDisjointShift(high: nat, low: nat, k: nat)
    requires low < Pow2(k)
    ensures Xor(ShiftLeft(high, k), low) == ShiftLeft(high, k) + low
  {
    if k == 0 {
      XorOneZero(high);
    } else {
      XorDisjointShift(high, low / 2, k - 1);
      DisjointAppended(ShiftLeft(high, k - 1), low);
    }
  }

  lemma DisjointAppended(high: nat, low: nat)
    requires Xor(high, low / 2) == high + low / 2
    ensures Xor(2 * high, low) == 2 * high + low
  {
    XorOfHalves(2 * high, low, high, low / 2);
    EvenPlus(high, low);
  }

  lemma EvenPlus(high: nat, low: nat)
    ensures 2 * (high + low / 2) + (2 * high + low) % 2 == 2 * high + low
  {
    assert (2 * high + low) % 2 == low % 2;
  }

  lemma XorDisjoint(high: nat, low: nat, k: nat)
    requires low < Pow2(k)
    ensures Xor(high * Pow2(k), low) == high * Pow2(k) + low
  {
    XorDisjointShift(high, low, k);
    ShiftLeftMultiplies(high, k);
  }
}
