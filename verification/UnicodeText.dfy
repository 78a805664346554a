/** UTF-8 as an encoding of characters, and that the test of the reader is exactly this. */
module UnicodeText {
  import opened Bits
  import opened Envelope

  /** A Unicode scalar value: no surrogate. */
  type Scalar = c: int | 0 <= c < 0x11_0000 && !(0xD800 <= c < 0xE000)

  /** One character in one to four bytes. */
  function Encoded(c: Scalar): Bytes {
    if c < 0x80 then [c]
    else if c < 0x800 then [0xC0 + c / 64, 0x80 + c % 64]
    else if c < 0x1_0000 then [0xE0 + c / 4096, 0x80 + c / 64 % 64, 0x80 + c % 64]
    else [0xF0 + c / 262_144, 0x80 + c / 4096 % 64, 0x80 + c / 64 % 64, 0x80 + c % 64]
  }

  function Text(cs: seq<Scalar>): Bytes {
    if |cs| == 0 then [] else Encoded(cs[0]) + Text(cs[1..])
  }

  /** b is the encoding of some characters. */
  ghost predicate IsText(b: Bytes) {
    exists cs: seq<Scalar> :: Text(cs) == b
  }

  lemma FourParts(c: nat)
    ensures c == c / 262_144 * 262_144 + c / 4096 % 64 * 4096 + c / 64 % 64 * 64 + c % 64
  {
    assert c / 4096 == c / 64 / 64 && c / 262_144 == c / 4096 / 64;
  }

  lemma EncodedLeads(c: Scalar, rest: Bytes)
    ensures HeadLength(Encoded(c) + rest) == |Encoded(c)| > 0
  {
    FourParts(c);
  }

  lemma Decodes(b: Bytes) returns (c: Scalar)
    requires |b| > 0 && HeadLength(b) > 0
    ensures Encoded(c) == b[..HeadLength(b)]
  {
    if HeadLength(b) == 1 {
      c := b[0];
    } else if HeadLength(b) == 2 {
      c := (b[0] as int - 0xC0) * 64 + (b[1] as int - 0x80);
    } else if HeadLength(b) == 3 {
      c := (b[0] as int - 0xE0) * 4096 + (b[1] as int - 0x80) * 64 + (b[2] as int - 0x80);
      assert c / 64 == (b[0] as int - 0xE0) * 64 + (b[1] as int - 0x80);
      assert c / 4096 == c / 64 / 64;
    } else {
      c := (b[0] as int - 0xF0) * 262_144 + (b[1] as int - 0x80) * 4096 + (b[2] as int - 0x80) * 64 + (b[3] as int - 0x80);
      assert c / 64 == (b[0] as int - 0xF0) * 4096 + (b[1] as int - 0x80) * 64 + (b[2] as int - 0x80);
      assert c / 4096 == c / 64 / 64;
      assert c / 262_144 == c / 4096 / 64;
    }
  }

  lemma {:induction false} TextIsUtf8(cs: seq<Scalar>)
    ensures Utf8(Text(cs))
    decreases |cs|
  {
    hide Encoded;
    if |cs| > 0 {
      TextIsUtf8(cs[1..]);
      EncodedLeads(cs[0], Text(cs[1..]));
      hide HeadLength;
      assert Text(cs)[|Encoded(cs[0])|..] == Text(cs[1..]);
    }
  }

  lemma {:induction false} Utf8Decodes(b: Bytes) returns (cs: seq<Scalar>)
    requires Utf8(b)
    ensures Text(cs) == b
    decreases |b|
  {
    hide HeadLength, Encoded;
    if |b| == 0 {
      cs := [];
    } else {
      var n := HeadLength(b);
      var c := Decodes(b);
      var rest := Utf8Decodes(b[n..]);
      cs := [c] + rest;
      assert cs[1..] == rest && b == b[..n] + b[n..];
    }
  }

  lemma Utf8IsText(b: Bytes)
    ensures Utf8(b) <==> IsText(b)
  {
    if Utf8(b) {
      var cs := Utf8Decodes(b);
      assert Text(cs) == b;
    }
    if IsText(b) {
      var cs: seq<Scalar> :| Text(cs) == b;
      TextIsUtf8(cs);
    }
  }
}
