/** Stellar account addresses: 56 base32 letters for a version byte, a 32-byte key and a CRC-16. */
module StrKey {
  import opened Bits
  import opened Crc16
  import opened Radix

  datatype Error = InvalidAccount | InvalidChecksum

  datatype Result<T> = Ok(value: T) | Err(error: Error)

  const ACCOUNT_VERSION: byte := 48

  /** 'A' to 'Z' or '2' to '7' */
  predicate IsLetter(c: byte) {
    65 <= c <= 90 || 50 <= c <= 55
  }

  function LetterValue(c: byte): (digit: nat)
    requires IsLetter(c)
    ensures digit < 32
  {
    if c >= 65 then c - 65 else c - 50 + 26
  }

  function Letter(digit: nat): byte
    requires digit < 32
  {
    if digit < 26 then 65 + digit else 50 + digit - 26
  }

  predicate LettersUpTo(s: seq<byte>, n: nat)
    requires n <= |s|
  {
    forall i :: 0 <= i < n ==> IsLetter(s[i])
  }

  predicate AllLetters(s: seq<byte>) {
    LettersUpTo(s, |s|)
  }

  /** The first n letters read as a base-32 number. */
  function NumberOf(s: seq<byte>, n: nat): nat
    requires n <= |s| && LettersUpTo(s, n)
  {
    if n == 0 then 0 else NumberOf(s, n - 1) * 32 + LetterValue(s[n - 1])
  }

  /** The bytes that have the same number as the letters: 35 of them for 56 letters. */
  function Payload(s: seq<byte>): (bytes: seq<byte>)
    requires AllLetters(s)
    ensures |bytes| == 5 * |s| / 8
  {
    Digits(NumberOf(s, |s|), 256, 5 * |s| / 8)
  }

  /** The two last bytes, read little-endian. */
  function Checksum(bytes: seq<byte>): u16
    requires |bytes| == 35
  {
    bytes[33] as int + 256 * bytes[34] as int
  }

  /** What an address stands for, without the accumulator. */
  function Decoded(s: seq<byte>): Result<seq<byte>> {
    if |s| != 56 || !AllLetters(s) then Err(InvalidAccount)
    else
      var bytes := Payload(s);
      if bytes[0] != ACCOUNT_VERSION then Err(InvalidAccount)
      else if Crc(0, bytes[..33]) != Checksum(bytes) then Err(InvalidChecksum)
      else Ok(bytes[1..33])
  }

  /** The bytes already pushed and the `bits` bits still in the accumulator spell the number of the
      first i letters. */
  ghost predicate Holds(s: seq<byte>, i: nat, decoded: seq<byte>, accumulator: nat, bits: nat)
    requires i <= |s| && LettersUpTo(s, i)
  {
    && 8 * |decoded| + bits == 5 * i
    && accumulator < Pow2(bits)
    && ShiftLeft(Number(decoded, 256), bits) + accumulator == NumberOf(s, i)
  }

  lemma LetterEnters(s: seq<byte>, i: nat, decoded: seq<byte>, accumulator: nat, bits: nat)
    requires i < |s| && LettersUpTo(s, i + 1) && Holds(s, i, decoded, accumulator, bits)
    ensures Holds(s, i + 1, decoded, accumulator * 32 + LetterValue(s[i]), bits + 5)
  {
    FiveDoublings(Number(decoded, 256), bits);
  }

  lemma FiveDoublings(x: nat, bits: nat)
    ensures ShiftLeft(x, bits + 5) == 32 * ShiftLeft(x, bits)
    ensures Pow2(bits + 5) == 32 * Pow2(bits)
  {
    Pow2Five(bits);
    assert ShiftLeft(x, bits + 5) == 2 * ShiftLeft(x, bits + 4) == 4 * ShiftLeft(x, bits + 3)
        == 8 * ShiftLeft(x, bits + 2) == 16 * ShiftLeft(x, bits + 1);
  }

  lemma ByteLeaves(s: seq<byte>, i: nat, decoded: seq<byte>, accumulator: nat, bits: nat)
    requires i <= |s| && LettersUpTo(s, i) && Holds(s, i, decoded, accumulator, bits + 8)
    ensures Holds(s, i, decoded + [ShiftRight(accumulator, bits) % 256], LowBits(accumulator, bits), bits)
  {
    ByteFits(accumulator, bits);
    LowBitsBelow(accumulator, bits);
    NumberAppend(decoded, ShiftRight(accumulator, bits), 256);
    ByteMoves(Number(decoded, 256), accumulator, bits);
  }

  lemma ByteFits(accumulator: nat, bits: nat)
    requires accumulator < Pow2(bits + 8)
    ensures ShiftRight(accumulator, bits) < 256
  {
    Pow2Small();
    ShiftRightBelow(accumulator, bits, 8);
  }

  lemma ByteMoves(x: nat, accumulator: nat, bits: nat)
    ensures ShiftLeft(x * 256 + ShiftRight(accumulator, bits), bits) + LowBits(accumulator, bits)
         == ShiftLeft(x, bits + 8) + accumulator
  {
    ShiftLeftAdds(x * 256, ShiftRight(accumulator, bits), bits);
    HighAndLow(accumulator, bits);
    TimesByte(x);
    ShiftLeftTwice(x, 8, bits);
  }

  lemma TimesByte(x: nat)
    ensures ShiftLeft(x, 8) == x * 256
  {
    ShiftLeftMultiplies(x, 8);
    Pow2Small();
  }

  lemma NothingLeft(s: seq<byte>, decoded: seq<byte>, accumulator: nat, bits: nat)
    requires AllLetters(s) && |s| == 56 && bits < 8 && Holds(s, |s|, decoded, accumulator, bits)
    ensures bits == 0 && |decoded| == 35 && decoded == Payload(s)
  {
    assert bits == 0;
    PayloadIs(s, decoded);
  }

  /** The payload is the only list of 35 bytes with the number of the letters. */
  lemma PayloadIs(s: seq<byte>, bytes: seq<byte>)
    requires AllLetters(s) && |bytes| == 5 * |s| / 8 && Number(bytes, 256) == NumberOf(s, |s|)
    ensures bytes == Payload(s)
  {
    DigitsOfNumber(bytes, 256);
  }

  // ----- the addresses are exactly the encodings of the keys -----

  /** Version byte, key, and the checksum of both, low byte first. */
  function PayloadOf(key: seq<byte>): (bytes: seq<byte>)
    ensures |bytes| == |key| + 3
  {
    var crc := Crc(0, [ACCOUNT_VERSION] + key);
    [ACCOUNT_VERSION] + key + [crc % 256, crc / 256]
  }

  function Letters(ds: seq<nat>): (s: seq<byte>)
    requires AreDigits(ds, 32)
    ensures |s| == |ds|
  {
    seq(|ds|, i requires 0 <= i < |ds| => Letter(ds[i]))
  }

  /** The address of a key as the StrKey format defines it: base32 without padding. */
  function Encode(key: seq<byte>): seq<byte> {
    Spell(PayloadOf(key))
  }

  function Values(s: seq<byte>): (ds: seq<nat>)
    requires AllLetters(s)
    ensures |ds| == |s| && AreDigits(ds, 32)
  {
    seq(|s|, i requires 0 <= i < |s| => LetterValue(s[i]))
  }

  lemma {:induction false} NumberOfIsNumber(s: seq<byte>, n: nat)
    requires AllLetters(s) && n <= |s|
    ensures NumberOf(s, n) == Leading(Values(s), n, 32)
    decreases n
  {
    if n > 0 {
      NumberOfIsNumber(s, n - 1);
    }
  }

  lemma LettersOfValues(s: seq<byte>)
    requires AllLetters(s)
    ensures Letters(Values(s)) == s
  {
  }

  lemma ValuesOfLetters(ds: seq<nat>)
    requires AreDigits(ds, 32)
    ensures AllLetters(Letters(ds)) && Values(Letters(ds)) == ds
  {
  }

  lemma SameRange(letters: nat, bytes: nat)
    requires 5 * letters == 8 * bytes
    ensures Power(32, letters) == Power(256, bytes)
  {
    PowerOfByte(bytes);
    PowerOfLetter(letters);
  }

  lemma NumberFits(s: seq<byte>)
    requires AllLetters(s) && 5 * |s| % 8 == 0
    ensures NumberOf(s, |s|) == Number(Values(s), 32) < Power(256, 5 * |s| / 8)
  {
    NumberOfIsNumber(s, |s|);
    NumberBelow(Values(s), 32);
    SameRange(|s|, 5 * |s| / 8);
  }

  lemma PayloadNumber(s: seq<byte>)
    requires AllLetters(s) && 5 * |s| % 8 == 0
    ensures Number(Payload(s), 256) == Number(Values(s), 32)
  {
    NumberFits(s);
    NumberOfDigits(NumberOf(s, |s|), 256, 5 * |s| / 8);
  }

  /** The letters with the same number as the bytes. */
  function Spell(bytes: seq<byte>): (s: seq<byte>)
    ensures |s| == 8 * |bytes| / 5
  {
    Letters(Digits(Number(bytes, 256), 32, 8 * |bytes| / 5))
  }

  lemma SpellPayload(s: seq<byte>)
    requires AllLetters(s) && 5 * |s| % 8 == 0
    ensures Spell(Payload(s)) == s
  {
    PayloadNumber(s);
    DigitsOfNumber(Values(s), 32);
    LettersOfValues(s);
  }

  lemma SpelledNumber(bytes: seq<byte>, count: nat)
    requires 5 * count == 8 * |bytes|
    ensures Number(Digits(Number(bytes, 256), 32, count), 32) == Number(bytes, 256)
  {
    NumberBelow(bytes, 256);
    SameRange(count, |bytes|);
    NumberOfDigits(Number(bytes, 256), 32, count);
  }

  lemma NumberOfLetters(ds: seq<nat>)
    requires AreDigits(ds, 32)
    ensures AllLetters(Letters(ds)) && NumberOf(Letters(ds), |ds|) == Number(ds, 32)
  {
    ValuesOfLetters(ds);
    NumberOfIsNumber(Letters(ds), |ds|);
  }

  lemma FiveEighths(n: nat)
    requires n % 5 == 0
    ensures 5 * (8 * n / 5) == 8 * n && 5 * (8 * n / 5) / 8 == n
  {
    var m := n / 5;
    assert n == 5 * m && 8 * n / 5 == 8 * m;
  }

  lemma PayloadSpelled(bytes: seq<byte>)
    requires |bytes| % 5 == 0
    ensures AllLetters(Spell(bytes)) && Payload(Spell(bytes)) == bytes
  {
    FiveEighths(|bytes|);
    var count := 8 * |bytes| / 5;
    var ds := Digits(Number(bytes, 256), 32, count);
    SpelledNumber(bytes, count);
    NumberOfLetters(ds);
    PayloadIs(Letters(ds), bytes);
  }

  lemma Layout(bytes: seq<byte>, version: byte, key: seq<byte>, crc: u16)
    requires |bytes| == 35 && |key| == 32
    ensures (bytes[0] == version && bytes[1..33] == key && crc == Checksum(bytes))
       <==> bytes == [version] + key + [crc % 256, crc / 256]
  {
    var built := [version] + key + [crc % 256, crc / 256];
    assert built[1..33] == key && Checksum(built) == crc;
    if bytes[0] == version && bytes[1..33] == key && crc == Checksum(bytes) {
      assert bytes == [bytes[0]] + bytes[1..33] + [bytes[33], bytes[34]];
    }
  }

  lemma PayloadLayout(bytes: seq<byte>, key: seq<byte>)
    requires |bytes| == 35 && |key| == 32
    ensures (bytes[0] == ACCOUNT_VERSION && Crc(0, bytes[..33]) == Checksum(bytes) && bytes[1..33] == key)
       <==> bytes == PayloadOf(key)
  {
    var head := [ACCOUNT_VERSION] + key;
    Layout(bytes, ACCOUNT_VERSION, key, Crc(0, head));
    if bytes[0] == ACCOUNT_VERSION && bytes[1..33] == key {
      assert bytes[..33] == head;
    }
  }

  lemma EncodingsDecode(key: seq<byte>)
    requires |key| == 32
    ensures Decoded(Encode(key)) == Ok(key)
  {
    PayloadSpelled(PayloadOf(key));
    PayloadLayout(PayloadOf(key), key);
  }

  lemma DecodedSpellTheirPayload(s: seq<byte>)
    requires Decoded(s).Ok?
    ensures |Decoded(s).value| == 32 && s == Spell(PayloadOf(Decoded(s).value))
  {
    SpellPayload(s);
    PayloadLayout(Payload(s), Decoded(s).value);
  }

  /** The decoder accepts exactly the encodings: an address yields a key if and only if it
      is that key's address. */
  lemma AcceptsExactlyEncodings(s: seq<byte>, key: seq<byte>)
    ensures Decoded(s) == Ok(key) <==> |key| == 32 && s == Encode(key)
  {
    if Decoded(s) == Ok(key) {
      DecodedSpellTheirPayload(s);
    } else if |key| == 32 {
      EncodingsDecode(key);
    }
  }

  lemma KeysAreDistinct(s: seq<byte>, t: seq<byte>)
    requires Decoded(s).Ok? && Decoded(s) == Decoded(t)
    ensures s == t
  {
    AcceptsExactlyEncodings(s, Decoded(s).value);
    AcceptsExactlyEncodings(t, Decoded(s).value);
  }

  // ----- one changed letter is always noticed -----

  /** The bits above position x depend only on the letters that cover them. */
  lemma HighBits(ds: seq<nat>, k: nat, x: nat)
    requires AreDigits(ds, 32) && k <= |ds| && 5 * (|ds| - k) <= x
    ensures Quotient(Number(ds, 32), Pow2(x)) == Quotient(Number(ds[..k], 32), Pow2(x - 5 * (|ds| - k)))
  {
    var low := 5 * (|ds| - k);
    NumberSplit(ds, k, 32);
    PowerOfLetter(|ds| - k);
    Pow2Sum(x - low, low);
    QuotientNested(Number(ds, 32), Pow2(low), Pow2(x - low), Pow2(x));
  }

  /** So do the bits below. */
  lemma BitsBelow(ds: seq<nat>, k: nat, x: nat)
    requires AreDigits(ds, 32) && k <= |ds| && x <= 5 * (|ds| - k)
    ensures Remainder(Number(ds, 32), Pow2(x)) == Remainder(Number(ds[k..], 32), Pow2(x))
  {
    var low := 5 * (|ds| - k);
    assert ds == ds[..k] + ds[k..];
    NumberConcat(ds[..k], ds[k..], 32);
    PowerOfLetter(|ds| - k);
    Pow2Sum(low - x, x);
    RemainderNested(Number(ds[..k], 32), Pow2(low - x), Pow2(x), Pow2(low), Number(ds[k..], 32));
  }

  /** Two letter lists that agree everywhere but at position k. */
  ghost predicate DifferAt(a: seq<nat>, b: seq<nat>, k: nat) {
    && |a| == |b| && k < |a| && AreDigits(a, 32) && AreDigits(b, 32)
    && a[..k] == b[..k] && a[k + 1..] == b[k + 1..]
  }

  lemma SameHighBytes(a: seq<nat>, b: seq<nat>, k: nat, p: seq<byte>, q: seq<byte>, m: nat)
    requires DifferAt(a, b, k) && SpellSame(a, p) && SpellSame(b, q)
    requires m <= |p| && 8 * m <= 5 * k
    ensures p[..m] == q[..m]
  {
    NumberSplit(p, m, 256);
    NumberSplit(q, m, 256);
    PowerOfByte(|p| - m);
    SameHighBits(a, b, k, 8 * (|p| - m));
    SameNumber(p[..m], q[..m], 256);
  }

  lemma SameLowBytes(a: seq<nat>, b: seq<nat>, k: nat, p: seq<byte>, q: seq<byte>, n: nat)
    requires DifferAt(a, b, k) && SpellSame(a, p) && SpellSame(b, q)
    requires n <= |p| && 5 * k + 5 <= 8 * n
    ensures p[n..] == q[n..]
  {
    NumberSplit(p, n, 256);
    NumberSplit(q, n, 256);
    PowerOfByte(|p| - n);
    SameLowBits(a, b, k, 8 * (|p| - n));
    SameNumber(p[n..], q[n..], 256);
  }

  ghost predicate SpellSame(letters: seq<nat>, bytes: seq<byte>) {
    5 * |letters| == 8 * |bytes| && Number(letters, 32) == Number(bytes, 256)
  }

  /** A change confined to the 33 checked bytes leaves the checksum field alone, and the CRC
      notices it. */
  lemma ChangedBeforeChecksum(p: seq<byte>, q: seq<byte>, m: nat)
    requires |p| == |q| == 35 && m <= 31 && p[..m] == q[..m] && p[m + 2..] == q[m + 2..]
    requires ChecksumHolds(p) && ChecksumHolds(q)
    ensures p == q
  {
    assert p[33] == p[m + 2..][31 - m] == q[33];
    assert p[34] == p[m + 2..][32 - m] == q[34];
    var suffix := p[m + 2..33];
    assert suffix == p[m + 2..][..31 - m] == q[m + 2..33];
    assert p[..33] == p[..m] + [p[m], p[m + 1]] + suffix;
    assert q[..33] == p[..m] + [q[m], q[m + 1]] + suffix;
    TwoByteChangeDetected(p[..m], p[m], p[m + 1], q[m], q[m + 1], suffix);
    assert p == p[..m] + [p[m], p[m + 1]] + p[m + 2..];
    assert q == q[..m] + [q[m], q[m + 1]] + q[m + 2..];
  }

  /** The letter that straddles the key and the checksum changes at most the low half of the
      last key byte and the top bit of the low checksum byte. */
  lemma ChangedAcrossBoundary(p: seq<byte>, q: seq<byte>)
    requires |p| == |q| == 35 && p[..32] == q[..32] && p[34] == q[34]
    requires p[32] / 16 == q[32] / 16 && p[33] % 128 == q[33] % 128
    requires ChecksumHolds(p) && ChecksumHolds(q)
    ensures p == q
  {
    assert p[..33] == p[..32] + [p[32]] && q[..33] == p[..32] + [q[32]];
    SameLowNibble(p[33], p[34], q[33], q[34]);
    LastNibbleShows(p[..32], p[32], q[32]);
    ChangedInChecksum(p, q);
  }

  lemma SameLowNibble(a: byte, b: byte, c: byte, d: byte)
    requires b == d && a % 128 == c % 128
    ensures (a as int + 256 * b as int) % 16 == (c as int + 256 * d as int) % 16
  {
  }

  lemma LiteralPowers(k: nat)
    ensures k == 15 ==> Pow2(k) == 32768
    ensures k == 20 ==> Pow2(k) == 1048576
  {
    if k == 15 {
      Pow2Five(0);
      Pow2Five(5);
      Pow2Five(10);
    } else if k == 20 {
      Pow2Five(0);
      Pow2Five(5);
      Pow2Five(10);
      Pow2Five(15);
    }
  }

  lemma TwoBytesPower(n: nat)
    requires n == 2
    ensures Power(256, n) == 65536
  {
    assert Power(256, n - 1) == Power(256, n - 2) * 256;
  }

  /** Letter 52 covers bits 15 to 19 from the end: the bits above stay. */
  lemma BoundaryHigh(a: seq<nat>, b: seq<nat>, p: seq<byte>, q: seq<byte>, k: nat)
    requires k == 52 && |p| == |q| == 35 && p[..32] == q[..32]
    requires DifferAt(a, b, k) && SpellSame(a, p) && SpellSame(b, q)
    ensures p[32] / 16 == q[32] / 16
  {
    var x := 5 * (|a| - k);
    LiteralPowers(x);
    SameHighBits(a, b, k, x);
    HighNibble(p, Pow2(x));
    HighNibble(q, Pow2(x));
    SameHighNibble(Number(p[..32], 256), p[32], q[32]);
  }

  lemma SameHighBits(a: seq<nat>, b: seq<nat>, k: nat, x: nat)
    requires DifferAt(a, b, k) && 5 * (|a| - k) <= x
    ensures Quotient(Number(a, 32), Pow2(x)) == Quotient(Number(b, 32), Pow2(x))
  {
    HighBits(a, k, x);
    HighBits(b, k, x);
  }

  lemma SameLowBits(a: seq<nat>, b: seq<nat>, k: nat, x: nat)
    requires DifferAt(a, b, k) && x <= 5 * (|a| - (k + 1))
    ensures Remainder(Number(a, 32), Pow2(x)) == Remainder(Number(b, 32), Pow2(x))
  {
    BitsBelow(a, k + 1, x);
    BitsBelow(b, k + 1, x);
  }

  /** And so do the bits below. */
  lemma BoundaryLow(a: seq<nat>, b: seq<nat>, p: seq<byte>, q: seq<byte>, k: nat)
    requires k == 52 && |p| == |q| == 35 && p[34] == q[34]
    requires DifferAt(a, b, k) && SpellSame(a, p) && SpellSame(b, q)
    ensures p[33] % 128 == q[33] % 128
  {
    var x := 5 * (|a| - (k + 1));
    LiteralPowers(x);
    SameLowBits(a, b, k, x);
    LowSeven(p, Pow2(x));
    LowSeven(q, Pow2(x));
  }

  lemma SameHighNibble(x: nat, c: byte, d: byte)
    requires Quotient(x * 256 + c as int, 16) == Quotient(x * 256 + d as int, 16)
    ensures c / 16 == d / 16
  {
    DivisionAgrees(x * 256 + c as int, 16);
    DivisionAgrees(x * 256 + d as int, 16);
    NibbleOf(x, c);
    NibbleOf(x, d);
  }

  lemma NibbleOf(x: nat, c: byte)
    ensures (x * 256 + c as int) / 16 == x * 16 + c / 16
  {
  }

  lemma KeyNumber(p: seq<byte>, n: nat)
    requires |p| == 35 && n == |p| - 2
    ensures Quotient(Number(p, 256), 65536) == Number(p[..n], 256)
  {
    NumberSplit(p, n, 256);
    TwoBytesPower(|p| - n);
  }

  lemma LastKeyByte(p: seq<byte>, n: nat)
    requires n < |p|
    ensures Number(p[..n + 1], 256) == Number(p[..n], 256) * 256 + p[n] as int
  {
    NumberAppend(p[..n], p[n], 256);
    assert p[..n + 1] == p[..n] + [p[n]];
  }

  lemma HighNibble(p: seq<byte>, w: nat)
    requires |p| == 35 && w == 1048576
    ensures Quotient(Number(p, 256), w) == Quotient(Number(p[..32], 256) * 256 + p[32] as int, 16)
  {
    KeyNumber(p, 33);
    LastKeyByte(p, 32);
    QuotientNested(Number(p, 256), 65536, 16, w);
  }

  lemma LowSeven(p: seq<byte>, w: nat)
    requires |p| == 35 && w == 32768
    ensures Remainder(Number(p, 256), w) == p[33] as int % 128 * 256 + p[34] as int
  {
    ChecksumNumber(p);
    RemainderNested(Number(p[..33], 256), 2, w, 65536, p[33] as int * 256 + p[34] as int);
    LowFifteen(p[33], p[34], w);
  }

  lemma ChecksumNumber(p: seq<byte>)
    requires |p| == 35
    ensures Number(p, 256) == Number(p[..33], 256) * 65536 + (p[33] as int * 256 + p[34] as int)
  {
    assert p == p[..33] + p[33..] && p[33..] == [p[33], p[34]];
    NumberConcat(p[..33], p[33..], 256);
    TwoDigits(p[33], p[34]);
    TwoBytesPower(|p[33..]|);
  }

  lemma LowFifteen(high: byte, low: byte, w: nat)
    requires w == 32768
    ensures Remainder(high as int * 256 + low as int, w) == high as int % 128 * 256 + low as int
  {
    DivisionAgrees(high as int * 256 + low as int, w);
  }

  lemma TwoDigits(high: byte, low: byte)
    ensures Number([high, low], 256) == high as int * 256 + low as int
  {
    NumberAppend([high], low, 256);
    assert [high] + [low] == [high, low];
    NumberAppend([], high, 256);
    assert [] + [high] == [high];
  }

  ghost predicate ChecksumHolds(bytes: seq<byte>)
    requires |bytes| == 35
  {
    Crc(0, bytes[..33]) == Checksum(bytes)
  }

  /** Two accepted payloads that spell letter lists differing at one position are equal. */
  lemma OneLetterApart(a: seq<nat>, b: seq<nat>, k: nat, p: seq<byte>, q: seq<byte>)
    requires |p| == |q| == 35 && DifferAt(a, b, k) && SpellSame(a, p) && SpellSame(b, q)
    requires ChecksumHolds(p) && ChecksumHolds(q)
    ensures p == q
  {
    if k < 52 {
      var w := if 5 * k / 8 < 31 then 5 * k / 8 else 31;
      SameHighBytes(a, b, k, p, q, w);
      SameLowBytes(a, b, k, p, q, w + 2);
      ChangedBeforeChecksum(p, q, w);
    } else if k == 52 {
      SameHighBytes(a, b, k, p, q, 32);
      SameLowBytes(a, b, k, p, q, 34);
      SameLast(p, q);
      BoundaryHigh(a, b, p, q, k);
      BoundaryLow(a, b, p, q, k);
      ChangedAcrossBoundary(p, q);
    } else {
      SameHighBytes(a, b, k, p, q, 33);
      ChangedInChecksum(p, q);
    }
  }

  lemma SameLast(p: seq<byte>, q: seq<byte>)
    requires |p| == |q| == 35 && p[34..] == q[34..]
    ensures p[34] == q[34]
  {
    assert p[34] == p[34..][0];
  }

  lemma ChangedInChecksum(p: seq<byte>, q: seq<byte>)
    requires |p| == |q| == 35 && p[..33] == q[..33] && ChecksumHolds(p) && ChecksumHolds(q)
    ensures p == q
  {
    assert Checksum(p) == Checksum(q);
    assert p == p[..33] + [p[33], p[34]] && q == q[..33] + [q[33], q[34]];
  }

  /** Changing one character of an accepted address always makes it unacceptable. */
  lemma SubstitutionRejected(s: seq<byte>, k: nat, c: byte)
    requires Decoded(s).Ok? && k < |s| && c != s[k]
    ensures Decoded(s[k := c]).Err?
  {
    var t := s[k := c];
    if Decoded(t).Ok? {
      var a, b := Values(s), Values(t);
      assert DifferAt(a, b, k);
      PayloadNumber(s);
      PayloadNumber(t);
      OneLetterApart(a, b, k, Payload(s), Payload(t));
      SpellPayload(s);
      SpellPayload(t);
    }
  }
}
