/** What the checksum is: the residue of the message, sixteen bits further left, in carry-less
    division by x^16 + x^12 + x^5 + 1. */
module CrcResidue {
  import opened Bits
  import opened Radix
  import opened Crc16

  /** The product of two polynomials over the bits. */
  function Product(q: nat, g: nat): nat {
    if q == 0 then 0 else Xor(if q % 2 == 1 then g else 0, 2 * Product(q / 2, g))
  }

  const G: nat := 0x1_1021

  lemma ProductDoubles(q: nat, g: nat)
    ensures Product(2 * q, g) == 2 * Product(q, g)
  {
    XorOneZero(2 * Product(q, g));
  }

  lemma {:induction false} ProductLinear(p: nat, q: nat, g: nat)
    ensures Product(Xor(p, q), g) == Xor(Product(p, g), Product(q, g))
    decreases p + q
  {
    if p + q > 0 {
      XorHalves(p, q);
      ProductLinear(p / 2, q / 2, g);
      var x, y := if p % 2 == 1 then g else 0, if q % 2 == 1 then g else 0;
      var u, v := Product(p / 2, g), Product(q / 2, g);
      XorDoubles(u, v);
      ProductUnfolds(p, g);
      ProductUnfolds(q, g);
      ProductUnfolds(Xor(p, q), g);
      XorSwaps(x, y, 2 * u, 2 * v);
      XorSelf(g);
      XorOneZero(g);
      SumParity(p, q);
    }
  }

  lemma SumParity(p: nat, q: nat)
    ensures (p + q) % 2 == 1 <==> (p % 2 == 1) != (q % 2 == 1)
  {
  }

  lemma ProductUnfolds(q: nat, g: nat)
    ensures Product(q, g) == Xor(if q % 2 == 1 then g else 0, 2 * Product(q / 2, g))
  {
    XorOneZero(0);
  }

  /** x and y leave the same residue: they differ by a multiple, q times G. */
  ghost predicate Differ(x: nat, y: nat, q: nat) {
    Xor(Product(q, G), y) == x
  }

  lemma SameResidue(x: nat)
    ensures Differ(x, x, 0)
  {
    XorOneZero(x);
  }

  lemma DoubleResidue(x: nat, y: nat, q: nat)
    requires Differ(x, y, q)
    ensures Differ(2 * x, 2 * y, 2 * q)
  {
    ProductDoubles(q, G);
    XorDoubles(Product(q, G), y);
  }

  lemma JoinResidues(x: nat, y: nat, z: nat, p: nat, q: nat)
    requires Differ(x, y, p) && Differ(y, z, q)
    ensures Differ(x, z, Xor(p, q))
  {
    ProductLinear(p, q, G);
    XorAssociates(Product(p, G), Product(q, G), z);
  }

  lemma MixResidues(x: nat, y: nat, z: nat, q: nat)
    requires Differ(x, y, q)
    ensures Differ(Xor(x, z), Xor(y, z), q)
  {
    XorAssociates(Product(q, G), y, z);
  }

  lemma TopCancels(low: nat, p: nat, top: nat, g: nat)
    requires Xor(top, p) == g && Xor(top, low) == top + low
    ensures Xor(g, Xor(low, p)) == top + low
  {
    XorCommutes(low, p);
    XorAssociates(top, p, Xor(p, low));
    XorAssociates(p, p, low);
    XorSelf(p);
    XorOneZero(low);
  }

  lemma GeneratorIs(p: nat)
    requires p == 0x1021
    ensures Xor(0x1_0000, p) == G
  {
    Pow2Sixteen();
    XorDisjoint(1, p, 16);
  }

  lemma TopIs(low: nat)
    requires low < 0x1_0000
    ensures Xor(0x1_0000, low) == 0x1_0000 + low
  {
    Pow2Sixteen();
    XorDisjoint(1, low, 16);
  }

  lemma OneTimes(q: nat, g: nat)
    requires q == 1
    ensures Product(q, g) == g
  {
    ProductUnfolds(q, g);
    XorOneZero(g);
  }

  lemma LongStep(c: u16, low: u16)
    requires c >= 0x8000 && low == 2 * c - 0x1_0000
    ensures 0 <= Xor(low, 0x1021) < 0x1_0000 && StepBit(c) == Xor(low, 0x1021)
  {
    XorInRange(low, 0x1021);
    QuotientIs(2 * c, 0x1_0000, 1, low);
    hide Xor;
  }

  /** A register step is a doubling, less G if a bit leaves the register. */
  lemma StepResidue(c: u16) returns (q: nat)
    ensures Differ(2 * c, StepBit(c), q)
  {
    hide Xor, Product;
    if c < 0x8000 {
      q := 0;
      SameResidue(2 * c);
    } else {
      q := 1;
      var low, p: nat := 2 * c - 0x1_0000, 0x1021;
      LongStep(c, low);
      GeneratorIs(p);
      TopIs(low);
      TopCancels(low, p, 0x1_0000, G);
      OneTimes(q, G);
    }
  }

  lemma {:induction false} StepsResidue(c: u16, n: nat) returns (q: nat)
    ensures Differ(c * Pow2(n), Steps(c, n), q)
  {
    if n == 0 {
      q := 0;
      SameResidue(c);
    } else {
      var p := StepsResidue(c, n - 1);
      DoubleResidue(c * Pow2(n - 1), Steps(c, n - 1), p);
      var r := StepResidue(Steps(c, n - 1));
      q := Xor(2 * p, r);
      assert c * Pow2(n) == 2 * (c * Pow2(n - 1)) by { TwiceMoves(c, Pow2(n - 1)); }
      JoinResidues(c * Pow2(n), 2 * Steps(c, n - 1), Steps(c, n), 2 * p, r);
    }
  }

  /** Mixing in a byte appends it to the message. */
  lemma ByteResidue(m: nat, c: u16, b: byte, p: nat) returns (q: nat)
    requires Differ(m * 65536, c, p)
    ensures Differ((m * 256 + b) * 65536, StepByte(c, b), q)
  {
    Pow2Small();
    Pow2Sixteen();
    XorInRange(c, High(b));
    var mixed: u16 := Xor(c, High(b));
    MixResidues(m * 65536, c, High(b), p);
    var r := StepsResidue(mixed, 8);
    var before := Xor(m * 65536, b * 256);
    MultiplyResidue(before, mixed, p, 8);
    q := Xor(p * Pow2(8), r);
    JoinResidues(before * Pow2(8), mixed * Pow2(8), StepByte(c, b), p * Pow2(8), r);
    XorDisjoint(m, b * 256, 16);
    assert before * 256 == (m * 256 + b) * 65536;
  }

  lemma {:induction false} MultiplyResidue(x: nat, y: nat, q: nat, n: nat)
    requires Differ(x, y, q)
    ensures Differ(x * Pow2(n), y * Pow2(n), q * Pow2(n))
  {
    if n > 0 {
      MultiplyResidue(x, y, q, n - 1);
      DoubleResidue(x * Pow2(n - 1), y * Pow2(n - 1), q * Pow2(n - 1));
      TwiceMoves(x, Pow2(n - 1));
      TwiceMoves(y, Pow2(n - 1));
      TwiceMoves(q, Pow2(n - 1));
    }
  }

  lemma {:induction false} PrefixResidue(bytes: seq<byte>) returns (q: nat)
    ensures Differ(Number(bytes, 256) * 65536, Crc(0, bytes), q)
    decreases |bytes|
  {
    if bytes == [] {
      q := 0;
      SameResidue(0);
    } else {
      var init, last := bytes[..|bytes| - 1], bytes[|bytes| - 1];
      var p := PrefixResidue(init);
      q := ByteResidue(Number(init, 256), Crc(0, init), last, p);
      NumberLast(bytes, 256);
      CrcConcat(0, init, [last]);
      CrcOfOne(Crc(0, init), last);
      assert init + [last] == bytes;
    }
  }

  /** The checksum of a message is its residue. */
  lemma CrcIsResidue(bytes: seq<byte>)
    ensures 0 <= Crc(0, bytes) < 0x1_0000
    ensures exists q: nat :: Xor(Product(q, 0x1_1021), Crc(0, bytes)) == Number(bytes, 256) * 65536
  {
    var q := PrefixResidue(bytes);
    assert Differ(Number(bytes, 256) * 65536, Crc(0, bytes), q);
  }

  // ----- there is one residue -----

  lemma {:induction false} MultiplesAreLong(q: nat)
    ensures Product(q, G) < 0x1_0000 ==> q == 0
  {
    if q == 1 {
      XorOneZero(G);
      assert Product(0, G) == 0;
    } else if q > 1 {
      MultiplesAreLong(q / 2);
      LongStays(if q % 2 == 1 then G else 0, 2 * Product(q / 2, G));
    }
  }

  lemma LongStays(x: nat, y: nat)
    requires x < 0x2_0000 <= y
    ensures Xor(x, y) >= 0x2_0000
  {
    Pow2Sixteen();
    assert Pow2(17) == 0x2_0000;
    if Xor(x, y) < 0x2_0000 {
      XorBelow(x, Xor(x, y), 17);
      XorAssociates(x, x, y);
      XorSelf(x);
      XorOneZero(y);
    }
  }

  /** Two residues of one message are equal. */
  lemma ResidueIsUnique(m: nat, r: u16, t: u16, p: nat, q: nat)
    requires Xor(Product(p, 0x1_1021), r) == m && Xor(Product(q, 0x1_1021), t) == m
    ensures r == t
  {
    var x, y := Product(p, G), Product(q, G);
    ProductLinear(p, q, G);
    XorInRange(r, t);
    XorSwaps(x, y, r, t);
    XorSelf(m);
    XorZeroMeansEqual(Xor(x, y), Xor(r, t));
    MultiplesAreLong(Xor(p, q));
    assert Product(0, G) == 0;
    XorZeroMeansEqual(r, t);
  }

  // ----- the check value -----

  /** x with the bit of weight p turned. */
  function Flip(x: int, p: int): int
    requires p > 0
  {
    if x / p % 2 == 1 then x - p else x + p
  }

  lemma {:induction false} FlipsBit(x: nat, k: nat)
    ensures Xor(x, Pow2(k)) == Flip(x, Pow2(k)) >= 0
  {
    hide Xor, Pow2, Flip;
    XorHalves(x, Pow2(k));
    Pow2Steps(k);
    if k == 0 {
      XorOneZero(x / 2);
      FirstFlip(x);
    } else {
      FlipsBit(x / 2, k - 1);
      HalfFlips(x, Pow2(k - 1));
    }
  }

  lemma Pow2Steps(k: nat)
    ensures Pow2(k) == if k == 0 then 1 else 2 * Pow2(k - 1)
  {
  }

  lemma FirstFlip(x: nat)
    ensures Flip(x, 1) == 2 * (x / 2) + (x + 1) % 2
  {
  }

  lemma HalfFlips(x: nat, p: nat)
    requires p > 0
    ensures Flip(x, 2 * p) == 2 * Flip(x / 2, p) + x % 2
  {
    var q, r := x / 2 / p, x / 2 % p;
    assert x / 2 == p * q + r;
    assert x == 2 * (p * q + r) + x % 2;
    Reassociate(p, q);
    QuotientIs(x, 2 * p, q, 2 * r + x % 2);
  }

  lemma Reassociate(p: nat, q: nat)
    ensures 2 * (p * q) == q * (2 * p)
  {
  }

  /** x with the bit of weight p turned, if y is odd. */
  function Toggle(x: int, y: int, p: int): int
    requires p > 0
  {
    if y % 2 == 1 then Flip(x, p) else x
  }

  lemma TogglesBit(x: nat, y: nat, k: nat, p: nat)
    requires p == Pow2(k)
    ensures Toggle(x, y, p) >= 0 && Xor(x, y * p) == Xor(Toggle(x, y, p), y / 2 * (2 * p))
  {
    hide Xor, Flip;
    OddMultiple(y, p);
    if y % 2 == 1 {
      FlipsBit(x, k);
      TwiceMoves(y / 2, p);
      XorDisjoint(y / 2, p, k + 1);
      XorCommutes(p, y / 2 * Pow2(k + 1));
      XorAssociates(x, p, y / 2 * Pow2(k + 1));
    }
  }

  lemma OddMultiple(b: nat, p: nat)
    ensures b * p == b / 2 * (2 * p) + (if b % 2 == 1 then p else 0)
  {
    assert b == 2 * (b / 2) + b % 2;
  }

  /** x with its bits turned one by one as b says. */
  predicate Turns(b: int, x0: int, x1: int, x2: int, x3: int, x4: int, x5: int, x6: int) {
    && Toggle(x0, b, 1) == x1 && Toggle(x1, b / 2, 2) == x2 && Toggle(x2, b / 4, 4) == x3
    && Toggle(x3, b / 8, 8) == x4 && Toggle(x4, b / 16, 16) == x5 && Toggle(x5, b / 32, 32) == x6
  }

  lemma TurnsAreXor(b: nat, x0: nat, x1: int, x2: int, x3: int, x4: int, x5: int, x6: int)
    requires b < 64 && Turns(b, x0, x1, x2, x3, x4, x5, x6)
    ensures Xor(x0, b) == x6
  {
    hide Xor, Toggle, Pow2;
    Pow2Bits(0);
    Halvings(b);
    TogglesBit(x0, b, 0, 1);
    TogglesBit(x1, b / 2, 1, 2);
    TogglesBit(x2, b / 4, 2, 4);
    TogglesBit(x3, b / 8, 3, 8);
    TogglesBit(x4, b / 16, 4, 16);
    TogglesBit(x5, b / 32, 5, 32);
    XorOneZero(x6);
  }

  lemma Halvings(b: nat)
    requires b < 64
    ensures b / 2 / 2 == b / 4 && b / 4 / 2 == b / 8 && b / 8 / 2 == b / 16 && b / 16 / 2 == b / 32 && b / 32 / 2 == 0
  {
  }

  lemma Pow2Bits(n: nat)
    requires n == 0
    ensures Pow2(0) == 1 && Pow2(1) == 2 && Pow2(2) == 4 && Pow2(3) == 8 && Pow2(4) == 16 && Pow2(5) == 32
  {
    assert Pow2(n) == 1 && Pow2(n + 1) == 2 && Pow2(n + 2) == 4 && Pow2(n + 3) == 8 && Pow2(n + 4) == 16 && Pow2(n + 5) == 32;
  }

  /** A byte changes the upper half of the register only. */
  lemma XorAbove(h: nat, l: nat, b: nat)
    requires l < 256
    ensures Xor(256 * h + l, 256 * b) == 256 * Xor(h, b) + l
  {
    hide Xor, Pow2;
    Pow2Small();
    XorDisjoint(h, l, 8);
    XorDisjoint(Xor(h, b), l, 8);
    XorProduct(h, b, 8);
    XorOneZero(256 * b);
    XorSwaps(256 * h, 256 * b, l, 0);
    XorOneZero(l);
  }

  /** The register after a step: 0x1021 turns the bits of weight 1, 32 and 4096. */
  function Next(c: int): int {
    if c < 0x8000 then 2 * c else Flip(Flip(2 * c - 0xFFFF, 32), 4096)
  }

  lemma TurnsThreeBits(low: nat, g: nat)
    requires low % 2 == 0 && g == 0x1021
    ensures Xor(low, g) == Flip(Flip(low + 1, 32), 4096)
  {
    var n: nat := 0;
    assert Pow2(n) == 1;
    Pow2Small();
    Pow2Sixteen();
    hide Xor, Pow2;
    FlipsBit(low, 0);
    FlipsBit(low + 1, 5);
    FlipsBit(Flip(low + 1, 32), 12);
    FlipsBit(1, 5);
    FlipsBit(33, 12);
    XorAssociates(low, 1, 32);
    XorAssociates(low, 33, 4096);
  }

  lemma StepIsNext(c: u16)
    ensures StepBit(c) == Next(c)
  {
    hide Xor, Flip;
    if c >= 0x8000 {
      LongStep(c, 2 * c - 0x1_0000);
      TurnsThreeBits(2 * c - 0x1_0000, 0x1021);
    }
  }

  /** Eight steps of the register. */
  predicate EightSteps(r0: u16, r1: u16, r2: u16, r3: u16, r4: u16, r5: u16, r6: u16, r7: u16, r8: u16) {
    && Next(r0) == r1 && Next(r1) == r2 && Next(r2) == r3 && Next(r3) == r4
    && Next(r4) == r5 && Next(r5) == r6 && Next(r6) == r7 && Next(r7) == r8
  }

  lemma EightStepsAre(r0: u16, r1: u16, r2: u16, r3: u16, r4: u16, r5: u16, r6: u16, r7: u16, r8: u16, n: nat)
    requires EightSteps(r0, r1, r2, r3, r4, r5, r6, r7, r8) && n == 0
    ensures Steps(r0, n + 8) == r8
  {
    hide Xor, StepBit, Next;
    forall r: u16
      ensures StepBit(r) == Next(r)
    {
      StepIsNext(r);
    }
    assert Steps(r0, n) == r0;
    assert Steps(r0, n + 1) == r1;
    assert Steps(r0, n + 2) == r2;
    assert Steps(r0, n + 3) == r3;
    assert Steps(r0, n + 4) == r4;
    assert Steps(r0, n + 5) == r5;
    assert Steps(r0, n + 6) == r6;
    assert Steps(r0, n + 7) == r7;
  }

  lemma MixedByte(c: u16, b: byte, x: u16, r0: u16, r8: u16, n: nat)
    requires Xor(c / 256, b) == x && r0 == 256 * x + c % 256 && n == 0 && Steps(r0, n + 8) == r8
    ensures StepByte(c, b) == r8
  {
    hide Xor, Steps;
    XorAbove(c / 256, c % 256, b);
  }

  lemma ThreeMore(before: seq<byte>, c: u16, a: byte, b: byte, d: byte, c1: u16, c2: u16, c3: u16)
    requires Crc(0, before) == c && StepByte(c, a) == c1 && StepByte(c1, b) == c2 && StepByte(c2, d) == c3
    ensures Crc(0, before + [a, b, d]) == c3
  {
    hide StepByte;
    CrcConcat(0, before, [a, b, d]);
    CrcConcat(c, [a], [b, d]);
    CrcOfOne(c, a);
    CrcOfTwo(c1, b, d);
    assert [a] + [b, d] == [a, b, d];
  }

  // Each line: the register, the byte, the register mixed with it, and its eight steps.

  lemma FirstMixed()
    ensures Turns(50, 38, 38, 36, 36, 36, 52, 20)
    ensures Turns(51, 32, 33, 35, 35, 35, 51, 19)
  {
    hide StepByte, Steps, StepBit, Xor, Pow2, Crc, Product, High, DropTop;
  }

  lemma FirstSteps()
    ensures EightSteps(12544, 25088, 50176, 38945, 8291, 16582, 33164, 4921, 9842)
    ensures EightSteps(5234, 10468, 20936, 41872, 22273, 44546, 19493, 38986, 8373)
    ensures EightSteps(5045, 10090, 20180, 40360, 11121, 22242, 44484, 19369, 38738)
  {
    hide StepByte, Steps, StepBit, Xor, Pow2, Crc, Product, High, DropTop;
  }

  lemma CheckFirst(n: nat)
    requires n == 0
    ensures StepByte(0, 49) == 9842 && StepByte(9842, 50) == 8373 && StepByte(8373, 51) == 38738
  {
    hide *;
    FirstMixed();
    FirstSteps();
    EightStepsAre(12544, 25088, 50176, 38945, 8291, 16582, 33164, 4921, 9842, n);
    XorOneZero(49);
    MixedByte(0, 49, 49, 12544, 9842, n);
    EightStepsAre(5234, 10468, 20936, 41872, 22273, 44546, 19493, 38986, 8373, n);
    TurnsAreXor(50, 38, 38, 36, 36, 36, 52, 20);
    MixedByte(9842, 50, 20, 5234, 8373, n);
    EightStepsAre(5045, 10090, 20180, 40360, 11121, 22242, 44484, 19369, 38738, n);
    TurnsAreXor(51, 32, 33, 35, 35, 35, 51, 19);
    MixedByte(8373, 51, 19, 5045, 38738, n);
  }

  lemma NextMixed()
    ensures Turns(52, 151, 151, 151, 147, 147, 131, 163)
    ensures Turns(53, 215, 214, 214, 210, 210, 194, 226)
    ensures Turns(54, 84, 84, 86, 82, 82, 66, 98)
  {
    hide StepByte, Steps, StepBit, Xor, Pow2, Crc, Product, High, DropTop;
  }

  lemma NextSteps()
    ensures EightSteps(41810, 22149, 44298, 18997, 37994, 14581, 29162, 58324, 55177)
    ensures EightSteps(57993, 54579, 47687, 25775, 51550, 33437, 5403, 10806, 21612)
    ensures EightSteps(25196, 50392, 39313, 8963, 17926, 35852, 2105, 4210, 8420)
  {
    hide StepByte, Steps, StepBit, Xor, Pow2, Crc, Product, High, DropTop;
  }

  lemma CheckNext(n: nat)
    requires n == 0
    ensures StepByte(38738, 52) == 55177 && StepByte(55177, 53) == 21612 && StepByte(21612, 54) == 8420
  {
    hide *;
    NextMixed();
    NextSteps();
    EightStepsAre(41810, 22149, 44298, 18997, 37994, 14581, 29162, 58324, 55177, n);
    TurnsAreXor(52, 151, 151, 151, 147, 147, 131, 163);
    MixedByte(38738, 52, 163, 41810, 55177, n);
    EightStepsAre(57993, 54579, 47687, 25775, 51550, 33437, 5403, 10806, 21612, n);
    TurnsAreXor(53, 215, 214, 214, 210, 210, 194, 226);
    MixedByte(55177, 53, 226, 57993, 21612, n);
    EightStepsAre(25196, 50392, 39313, 8963, 17926, 35852, 2105, 4210, 8420, n);
    TurnsAreXor(54, 84, 84, 86, 82, 82, 66, 98);
    MixedByte(21612, 54, 98, 25196, 8420, n);
  }

  lemma LastMixed()
    ensures Turns(55, 32, 33, 35, 39, 39, 55, 23)
    ensures Turns(56, 134, 134, 134, 134, 142, 158, 190)
    ensures Turns(57, 144, 145, 145, 145, 153, 137, 169)
  {
    hide StepByte, Steps, StepBit, Xor, Pow2, Crc, Product, High, DropTop;
  }

  lemma LastSteps()
    ensures EightSteps(6116, 12232, 24464, 48928, 28257, 56514, 43429, 17259, 34518)
    ensures EightSteps(48854, 28045, 56090, 42517, 23563, 47126, 24589, 49178, 36885)
    ensures EightSteps(43285, 16907, 33814, 6157, 12314, 24628, 49256, 37105, 12739)
  {
    hide StepByte, Steps, StepBit, Xor, Pow2, Crc, Product, High, DropTop;
  }

  lemma CheckLast(n: nat)
    requires n == 0
    ensures StepByte(8420, 55) == 34518 && StepByte(34518, 56) == 36885 && StepByte(36885, 57) == 12739
  {
    hide *;
    LastMixed();
    LastSteps();
    EightStepsAre(6116, 12232, 24464, 48928, 28257, 56514, 43429, 17259, 34518, n);
    TurnsAreXor(55, 32, 33, 35, 39, 39, 55, 23);
    MixedByte(8420, 55, 23, 6116, 34518, n);
    EightStepsAre(48854, 28045, 56090, 42517, 23563, 47126, 24589, 49178, 36885, n);
    TurnsAreXor(56, 134, 134, 134, 134, 142, 158, 190);
    MixedByte(34518, 56, 190, 48854, 36885, n);
    EightStepsAre(43285, 16907, 33814, 6157, 12314, 24628, 49256, 37105, 12739, n);
    TurnsAreXor(57, 144, 145, 145, 145, 153, 137, 169);
    MixedByte(36885, 57, 169, 43285, 12739, n);
  }

  lemma EmptyMessage(none: seq<byte>)
    requires none == []
    ensures Crc(0, none) == 0
  {
  }

  /** The checksum of "123456789". */
  lemma CheckValue()
    ensures Crc(0, [49, 50, 51] + [52, 53, 54] + [55, 56, 57]) == 0x31C3
  {
    var none: seq<byte> := [];
    EmptyMessage(none);
    hide *;
    CheckFirst(0);
    ThreeMore(none, 0, 49, 50, 51, 9842, 8373, 38738);
    assert none + [49, 50, 51] == [49, 50, 51];
    CheckNext(0);
    ThreeMore([49, 50, 51], 38738, 52, 53, 54, 55177, 21612, 8420);
    CheckLast(0);
    ThreeMore([49, 50, 51] + [52, 53, 54], 8420, 55, 56, 57, 34518, 36885, 12739);
  }
}
