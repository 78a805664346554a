/** CRC-16/XMODEM as computed bit by bit, and the error patterns it detects. */
module Crc16 {
  import opened Bits

  const POLYNOMIAL: nat := 0x1021
  const TOP: nat := 0x8000

  type u16 = x: int | 0 <= x < 0x1_0000

  lemma Pow2Sixteen()
    ensures Pow2(16) == 0x1_0000 && Pow2(15) == TOP && Pow2(12) == 4096 && Pow2(8) == 256 && Pow2(4) == 16
  {
    assert Pow2(4) == 16;
    assert Pow2(8) == 256;
    assert Pow2(12) == 4096;
    assert Pow2(15) == TOP;
  }

  /** crc << 1: drops the bit that leaves the register. */
  function DropTop(crc: u16): u16 {
    2 * crc % 0x1_0000
  }

  function StepBit(crc: u16): u16 {
    XorInRange(DropTop(crc), POLYNOMIAL);
    if crc >= TOP then Xor(DropTop(crc), POLYNOMIAL) else DropTop(crc)
  }

  function Steps(crc: u16, n: nat): u16 {
    if n == 0 then crc else StepBit(Steps(crc, n - 1))
  }

  function StepByte(crc: u16, b: byte): u16 {
    XorInRange(crc, High(b));
    Steps(Xor(crc, High(b)), 8)
  }

  /** u16::from(byte) << 8 */
  function High(b: byte): u16 {
    b * 256
  }

  function Crc(crc: u16, bytes: seq<byte>): u16
    decreases |bytes|
  {
    if bytes == [] then crc else Crc(StepByte(crc, bytes[0]), bytes[1..])
  }

  lemma XorInRange(a: u16, b: u16)
    ensures 0 <= Xor(a, b) < 0x1_0000
  {
    Pow2Sixteen();
    XorBelow(a, b, 16);
  }

  // ----- one step is linear and invertible -----

  lemma DropTopLinear(a: u16, b: u16)
    ensures 0 <= Xor(a, b) < 0x1_0000
    ensures DropTop(Xor(a, b)) == Xor(DropTop(a), DropTop(b))
  {
    XorInRange(a, b);
    Pow2Sixteen();
    XorDoubles(a, b);
    XorRemainder(2 * a, 2 * b, 16);
  }

  lemma TopBit(a: u16, b: u16)
    ensures (Xor(a, b) >= TOP) == ((a >= TOP) != (b >= TOP))
  {
    Pow2Sixteen();
    XorInRange(a, b);
    XorShiftRight(a, b, 15);
    ShiftRightDivides(a, 15);
    ShiftRightDivides(b, 15);
    ShiftRightDivides(Xor(a, b), 15);
    assert a / TOP <= 1 && b / TOP <= 1;
    XorHalves(a / TOP, b / TOP);
  }

  lemma StepBitLinear(a: u16, b: u16)
    ensures 0 <= Xor(a, b) < 0x1_0000
    ensures StepBit(Xor(a, b)) == Xor(StepBit(a), StepBit(b))
  {
    DropTopLinear(a, b);
    TopBit(a, b);
    var x, y := DropTop(a), DropTop(b);
    XorSwaps(x, y, POLYNOMIAL, POLYNOMIAL);
    XorSelf(POLYNOMIAL);
    XorOneZero(Xor(x, y));
    XorAssociates(x, POLYNOMIAL, y);
    XorCommutes(POLYNOMIAL, y);
    XorAssociates(x, y, POLYNOMIAL);
  }

  lemma {:induction false} StepsLinear(a: u16, b: u16, n: nat)
    ensures 0 <= Xor(a, b) < 0x1_0000
    ensures Steps(Xor(a, b), n) == Xor(Steps(a, n), Steps(b, n))
  {
    XorInRange(a, b);
    if n > 0 {
      StepsLinear(a, b, n - 1);
      StepBitLinear(Steps(a, n - 1), Steps(b, n - 1));
    }
  }

  lemma StepBitNull(a: u16)
    requires StepBit(a) == 0
    ensures a == 0
  {
    if a >= TOP {
      XorZeroMeansEqual(DropTop(a), POLYNOMIAL);
    }
  }

  lemma StepBitInjective(a: u16, b: u16)
    requires StepBit(a) == StepBit(b)
    ensures a == b
  {
    StepBitLinear(a, b);
    XorSelf(StepBit(a));
    StepBitNull(Xor(a, b));
    XorZeroMeansEqual(a, b);
  }

  lemma {:induction false} StepsInjective(a: u16, b: u16, n: nat)
    requires Steps(a, n) == Steps(b, n)
    ensures a == b
  {
    if n > 0 {
      StepBitInjective(Steps(a, n - 1), Steps(b, n - 1));
      StepsInjective(a, b, n - 1);
    }
  }

  lemma {:induction false} StepsCompose(crc: u16, m: nat, n: nat)
    ensures Steps(Steps(crc, m), n) == Steps(crc, m + n)
  {
    if n > 0 {
      StepsCompose(crc, m, n - 1);
    }
  }

  lemma StepDoubles(v: u16)
    requires v < TOP
    ensures StepBit(v) == 2 * v
  {
  }

  lemma HalfFits(x: nat, p: nat)
    requires x * (2 * p) < 0x1_0000
    ensures x * (2 * p) == 2 * (x * p)
    ensures x * p < TOP
  {
    TwiceMoves(x, p);
  }

  /** While the top bit stays clear, a step is a doubling. */
  lemma {:induction false} StepsDouble(x: u16, n: nat)
    requires x * Pow2(n) < 0x1_0000
    ensures Steps(x, n) == x * Pow2(n)
  {
    if n > 0 {
      HalfFits(x, Pow2(n - 1));
      StepsDouble(x, n - 1);
      StepDoubles(Steps(x, n - 1));
    }
  }

  // ----- detection -----

  /** Equal bytes keep different registers different. */
  lemma {:induction false} CrcInjective(a: u16, b: u16, bytes: seq<byte>)
    requires Crc(a, bytes) == Crc(b, bytes)
    ensures a == b
    decreases |bytes|
  {
    if bytes != [] {
      CrcInjective(StepByte(a, bytes[0]), StepByte(b, bytes[0]), bytes[1..]);
      var word := High(bytes[0]);
      XorInRange(a, word);
      XorInRange(b, word);
      StepsInjective(Xor(a, word), Xor(b, word), 8);
      XorCancels(a, b, word);
    }
  }

  lemma {:induction false} CrcConcat(crc: u16, s: seq<byte>, t: seq<byte>)
    ensures Crc(crc, s + t) == Crc(Crc(crc, s), t)
    decreases |s|
  {
    if s == [] {
      assert s + t == t;
    } else {
      assert (s + t)[1..] == s[1..] + t;
      CrcConcat(StepByte(crc, s[0]), s[1..], t);
    }
  }

  function Word(high: byte, low: byte): u16 {
    high * 256 + low
  }

  lemma CrcOfTwo(crc: u16, high: byte, low: byte)
    ensures Crc(crc, [high, low]) == StepByte(StepByte(crc, high), low)
  {
    CrcConcat(crc, [high], [low]);
    assert [high] + [low] == [high, low];
    CrcOfOne(crc, high);
    CrcOfOne(StepByte(crc, high), low);
  }

  lemma CrcOfOne(crc: u16, b: byte)
    ensures Crc(crc, [b]) == StepByte(crc, b)
  {
    assert [b][1..] == [];
  }

  /** A byte mixed in after eight steps is the same byte mixed in eight bits lower before them. */
  lemma LowByteJoins(c: u16, low: byte)
    ensures 0 <= Xor(c, low) < 0x1_0000
    ensures StepByte(Steps(c, 8), low) == Steps(Xor(c, low), 16)
  {
    Pow2Sixteen();
    StepsLinear(c, low, 8);
    StepsDouble(low, 8);
    StepsCompose(Xor(c, low), 8, 8);
  }

  /** Two bytes run through the register like one 16-bit word. */
  lemma TwoBytesAreAWord(crc: u16, high: byte, low: byte)
    ensures 0 <= Xor(crc, Word(high, low)) < 0x1_0000
    ensures Crc(crc, [high, low]) == Steps(Xor(crc, Word(high, low)), 16)
  {
    CrcOfTwo(crc, high, low);
    XorInRange(crc, High(high));
    LowByteJoins(Xor(crc, High(high)), low);
    WordIsXor(high, low);
    XorAssociates(crc, High(high), low);
  }

  lemma WordIsXor(high: byte, low: byte)
    ensures Xor(High(high), low) == Word(high, low)
  {
    Pow2Sixteen();
    XorDisjoint(high, low, 8);
  }

  /** Any change confined to two neighbouring bytes changes the CRC. */
  lemma TwoByteChangeDetected(prefix: seq<byte>, a0: byte, a1: byte, b0: byte, b1: byte, suffix: seq<byte>)
    requires Crc(0, prefix + [a0, a1] + suffix) == Crc(0, prefix + [b0, b1] + suffix)
    ensures a0 == b0 && a1 == b1
  {
    var c := Crc(0, prefix);
    CrcConcat(0, prefix + [a0, a1], suffix);
    CrcConcat(0, prefix + [b0, b1], suffix);
    CrcConcat(0, prefix, [a0, a1]);
    CrcConcat(0, prefix, [b0, b1]);
    CrcInjective(Crc(c, [a0, a1]), Crc(c, [b0, b1]), suffix);
    TwoBytesAreAWord(c, a0, a1);
    TwoBytesAreAWord(c, b0, b1);
    StepsInjective(Xor(c, Word(a0, a1)), Xor(c, Word(b0, b1)), 16);
    XorCommutes(c, Word(a0, a1));
    XorCommutes(c, Word(b0, b1));
    XorCancels(Word(a0, a1), Word(b0, b1), c);
  }

  /** A change in the low half of the last byte shows up in the low half of the CRC. */
  lemma LastNibbleShows(prefix: seq<byte>, x: byte, y: byte)
    requires x / 16 == y / 16
    requires Crc(0, prefix + [x]) % 16 == Crc(0, prefix + [y]) % 16
    ensures x == y
  {
    var c := Crc(0, prefix);
    CrcConcat(0, prefix, [x]);
    CrcConcat(0, prefix, [y]);
    assert [x][1..] == [] && [y][1..] == [];
    Pow2Sixteen();
    XorInRange(c, High(x));
    XorInRange(c, High(y));
    var a, b := Xor(c, High(x)), Xor(c, High(y));
    assert Crc(c, [x]) == Steps(a, 8) && Crc(c, [y]) == Steps(b, 8);
    StepsLinear(a, b, 8);
    DifferenceOfBytes(c, x, y);
    XorShiftRight(x, y, 4);
    ShiftRightDivides(x, 4);
    ShiftRightDivides(y, 4);
    ShiftRightDivides(Xor(x, y), 4);
    XorSelf(x / 16);
    NibbleFolds(Xor(x, y));
    XorRemainder(Steps(a, 8), Steps(b, 8), 4);
    XorSelf(Steps(a, 8) % 16);
    XorZeroMeansEqual(x, y);
  }

  lemma DifferenceOfBytes(c: u16, x: byte, y: byte)
    ensures Xor(Xor(c, High(x)), Xor(c, High(y))) == Xor(x, y) * 256
  {
    XorSwaps(c, c, High(x), High(y));
    XorSelf(c);
    XorOneZero(Xor(High(x), High(y)));
    XorProduct(x, y, 8);
    Pow2Sixteen();
  }

  /** Eight steps on a nibble in bits 8 to 11 leave that nibble in the low four bits. */
  lemma NibbleFolds(d: nat)
    requires d < 16
    ensures Steps(d * 256, 8) % 16 == d
  {
    Pow2Sixteen();
    StepsDouble(d * 256, 4);
    StepsCompose(d * 256, 4, 4);
    NibbleWraps(d);
  }

  ghost predicate Wraps(x: nat)
    requires x < 16
  {
    Steps(x * 4096, 4) % 16 == x
  }

  lemma NibbleWraps(d: nat)
    requires d < 16
    ensures Wraps(d)
  {
    var b0, b1, b2, b3 := d % 2, d / 2 % 2, d / 4 % 2, d / 8;
    assert d == b3 * 8 + (b2 * 4 + (b1 * 2 + b0));
    BitsWrap(b0, b1, b2, b3);
  }

  lemma BitsWrap(b0: nat, b1: nat, b2: nat, b3: nat)
    requires b0 <= 1 && b1 <= 1 && b2 <= 1 && b3 <= 1
    ensures Wraps(b3 * 8 + (b2 * 4 + (b1 * 2 + b0)))
  {
    SmallPowers();
    WrapsBit(b0, 0);
    OneMoreBit(b1, b0, 1);
    OneMoreBit(b2, b1 * 2 + b0, 2);
    OneMoreBit(b3, b2 * 4 + (b1 * 2 + b0), 3);
  }

  lemma OneMoreBit(high: nat, low: nat, k: nat)
    requires high <= 1 && k <= 3 && low < Pow2(k) <= 8 && Wraps(low)
    ensures high * Pow2(k) + low < 16 && Wraps(high * Pow2(k) + low)
  {
    WrapsBit(high, k);
    XorDisjoint(high, low, k);
    assert high * Pow2(k) <= Pow2(k);
    WrapsAdd(high * Pow2(k), low);
  }

  lemma SmallPowers()
    ensures Pow2(0) == 1 && Pow2(1) == 2 && Pow2(2) == 4 && Pow2(3) == 8
  {
  }

  lemma WrapsAdd(x: nat, y: nat)
    requires x + y < 16 && Xor(x, y) == x + y && Wraps(x) && Wraps(y)
    ensures Wraps(x + y)
  {
    Pow2Sixteen();
    XorProduct(x, y, 12);
    StepsLinear(x * 4096, y * 4096, 4);
    XorRemainder(Steps(x * 4096, 4), Steps(y * 4096, 4), 4);
  }

  lemma WrapsBit(b: nat, n: nat)
    requires b <= 1 && n <= 3
    ensures b * Pow2(n) < 16 && Wraps(b * Pow2(n))
  {
    PowerPair(n);
    if b == 0 {
      Pow2Sixteen();
      StepsDouble(b, 4);
    } else {
      PowerWraps(Pow2(n) * 4096, n);
    }
  }

  lemma PowerPair(n: nat)
    requires n <= 3
    ensures Pow2(n) <= 8
    ensures Pow2(n) * 4096 * Pow2(3 - n) == TOP
    ensures POLYNOMIAL * Pow2(n) < 0x1_0000
    ensures POLYNOMIAL * Pow2(n) % 16 == Pow2(n)
  {
    SmallPowers();
  }

  lemma PowerWraps(x: u16, n: nat)
    requires n <= 3 && x == Pow2(n) * 4096
    ensures Steps(x, 4) % 16 == Pow2(n)
  {
    PowerPair(n);
    var m := 3 - n;
    StepsDouble(x, m);
    StepFromTop(Steps(x, m));
    StepsDouble(Steps(x, m + 1), n);
    StepsCompose(x, m + 1, n);
  }

  lemma StepFromTop(x: u16)
    requires x == TOP
    ensures StepBit(x) == POLYNOMIAL
  {
    XorFromZero(DropTop(x), POLYNOMIAL);
  }

  lemma XorFromZero(zero: u16, p: u16)
    requires zero == 0
    ensures Xor(zero, p) == p
  {
    XorOneZero(p);
  }
}
