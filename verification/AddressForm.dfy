/** An account address and a checksum in plain numbers. */
module AddressForm {
  import opened Bits
  import opened Radix
  import opened Crc16
  import opened CrcResidue
  import opened StrKey

  /** "A" to "Z", then "2" to "7". */
  const ALPHABET: seq<byte> := [
    65, 66, 67, 68, 69, 70, 71, 72, 73, 74, 75, 76, 77, 78, 79, 80, 81, 82, 83, 84, 85, 86, 87, 88, 89, 90,
    50, 51, 52, 53, 54, 55]

  ghost predicate SpelledAs(s: seq<byte>, ds: seq<nat>) {
    |s| == |ds| && forall i :: 0 <= i < |s| ==> ds[i] < 32 && s[i] == ALPHABET[ds[i]]
  }

  lemma LetterIs(d: nat)
    requires d < 32
    ensures Letter(d) == ALPHABET[d]
  {
  }

  lemma LettersAre(s: seq<byte>, ds: seq<nat>)
    ensures SpelledAs(s, ds) <==> AreDigits(ds, 32) && s == Letters(ds)
  {
    forall i | 0 <= i < |ds| && ds[i] < 32
      ensures Letter(ds[i]) == ALPHABET[ds[i]]
    {
      LetterIs(ds[i]);
    }
  }

  /** c is the residue of the message, sixteen bits further left, modulo x^16 + x^12 + x^5 + 1. */
  ghost predicate Residue(message: seq<byte>, c: int) {
    0 <= c < 0x1_0000 && exists q: nat :: Xor(Product(q, 0x1_1021), c) == Number(message, 256) * 65536
  }

  lemma ResidueIs(message: seq<byte>, c: int)
    ensures Residue(message, c) <==> c == Crc(0, message)
  {
    CrcIsResidue(message);
    if Residue(message, c) {
      var p: nat :| Xor(Product(p, 0x1_1021), c) == Number(message, 256) * 65536;
      var q: nat :| Xor(Product(q, 0x1_1021), Crc(0, message)) == Number(message, 256) * 65536;
      ResidueIsUnique(Number(message, 256) * 65536, c, Crc(0, message), p, q);
    }
  }

  /** The digits of an address stand for the same number as the bytes of its payload: 48, the key
      and the checksum of both, low byte first. */
  ghost predicate IsAddress(s: seq<byte>, key: seq<byte>) {
    |s| == 56 && |key| == 32 &&
    exists ds: seq<nat>, c: u16 ::
      SpelledAs(s, ds) && Residue([48] + key, c) && Number(ds, 32) == Number([48] + key + [c % 256, c / 256], 256)
  }

  lemma PayloadIs48(key: seq<byte>, c: u16)
    ensures Residue([48] + key, c) <==> c == Crc(0, [48] + key)
    ensures c == Crc(0, [48] + key) ==> PayloadOf(key) == [48] + key + [c % 256, c / 256]
  {
    ResidueIs([48] + key, c);
  }

  lemma EncodingIsAddress(key: seq<byte>)
    requires |key| == 32
    ensures IsAddress(Encode(key), key)
  {
    var c := Crc(0, [48] + key);
    PayloadIs48(key, c);
    var count := 56;
    var ds := Digits(Number(PayloadOf(key), 256), 32, count);
    SpelledNumber(PayloadOf(key), count);
    EncodedLetters(key, ds);
    LettersAre(Encode(key), ds);
    hide Encode, Residue, SpelledAs, PayloadOf, Number, Digits;
    assert SpelledAs(Encode(key), ds) && Residue([48] + key, c) && Number(ds, 32) == Number([48] + key + [c % 256, c / 256], 256);
  }

  lemma AddressIsEncoding(s: seq<byte>, key: seq<byte>)
    requires IsAddress(s, key)
    ensures s == Encode(key)
  {
    var es: seq<nat>, d: u16 :|
      SpelledAs(s, es) && Residue([48] + key, d) && Number(es, 32) == Number([48] + key + [d % 256, d / 256], 256);
    PayloadIs48(key, d);
    LettersAre(s, es);
    SpelledLength(s, es);
    var count := 56;
    var ds := Digits(Number(PayloadOf(key), 256), 32, count);
    SpelledNumber(PayloadOf(key), count);
    EncodedLetters(key, ds);
    hide Encode, Residue, SpelledAs, PayloadOf, Number, Digits;
    SameNumber(es, ds, 32);
  }

  /** A text is accepted, and yields a key, exactly if it is the key's address. */
  lemma AcceptsExactlyAddresses(s: seq<byte>, key: seq<byte>)
    ensures Decoded(s) == Ok(key) <==> IsAddress(s, key)
  {
    AcceptsExactlyEncodings(s, key);
    if |key| == 32 {
      EncodingIsAddress(key);
    }
    if IsAddress(s, key) {
      AddressIsEncoding(s, key);
    }
    hide *;
  }

  lemma SpelledLength(s: seq<byte>, ds: seq<nat>)
    requires SpelledAs(s, ds)
    ensures |s| == |ds|
  {
  }

  lemma EncodedLetters(key: seq<byte>, ds: seq<nat>)
    requires |key| == 32 && ds == Digits(Number(PayloadOf(key), 256), 32, 56)
    ensures Encode(key) == Letters(ds)
  {
  }

  /** Every accepted address starts with a "G". */
  lemma StartsWithG(s: seq<byte>)
    requires Decoded(s).Ok?
    ensures |s| == 56 && s[0] == 71
  {
    var bytes := Payload(s);
    var ds := Values(s);
    PayloadNumber(s);
    hide Payload, Number;
    FirstDigit(ds, bytes, 55, 34);
  }

  lemma PowersMeet(a: nat, b: nat)
    requires 5 * a == 8 * b + 3
    ensures Power(32, a) == 8 * Power(256, b)
  {
    PowerOfLetter(a);
    PowerOfByte(b);
    assert Pow2(8 * b + 3) == 2 * Pow2(8 * b + 2) == 4 * Pow2(8 * b + 1) == 8 * Pow2(8 * b);
  }

  lemma EighthOf48(n: nat, x: nat, p: nat)
    requires x > 0 && p == 8 * x && Quotient(n, x) == 48
    ensures Quotient(n, p) == 6
  {
    QuotientNested(n, x, 8, p);
    DivisionUnique(48, 8, 6, 0);
  }

  lemma FirstDigit(ds: seq<nat>, bytes: seq<byte>, a: nat, b: nat)
    requires |ds| == a + 1 && |bytes| == b + 1 && 5 * a == 8 * b + 3
    requires AreDigits(ds, 32) && Number(ds, 32) == Number(bytes, 256) && bytes[0] == 48
    ensures ds[0] == 6
  {
    NumberSplit(ds, 1, 32);
    NumberSplit(bytes, 1, 256);
    OneDigit(ds[..1], 32);
    OneDigit(bytes[..1], 256);
    hide Number, Quotient, Remainder, Power;
    PowersMeet(a, b);
    EighthOf48(Number(ds, 32), Power(256, b), Power(32, a));
  }

  lemma OneDigit(ds: seq<nat>, base: nat)
    requires |ds| == 1
    ensures Number(ds, base) == ds[0]
  {
    assert Leading(ds, 0, base) == 0;
  }
}
