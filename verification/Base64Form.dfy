/** Base64 text in plain numbers: which four symbols stand for which bytes. */
module Base64Form {
  import opened Bits
  import opened Base64

  /** "A" to "Z". */
  const UPPER: seq<byte> := [65, 66, 67, 68, 69, 70, 71, 72, 73, 74, 75, 76, 77, 78, 79, 80, 81, 82, 83, 84, 85, 86, 87, 88, 89, 90]

  /** "a" to "z". */
  const LOWER: seq<byte> :=
    [97, 98, 99, 100, 101, 102, 103, 104, 105, 106, 107, 108, 109, 110, 111, 112, 113, 114, 115, 116, 117, 118, 119, 120, 121, 122]

  /** "0" to "9", "+" and "/". */
  const REST: seq<byte> := [48, 49, 50, 51, 52, 53, 54, 55, 56, 57, 43, 47]

  const ALPHABET: seq<byte> := UPPER + LOWER + REST

  ghost predicate Spells(c: byte, v: int) {
    0 <= v < 64 && c == ALPHABET[v]
  }

  lemma UpperIs(v: nat)
    requires v < 26
    ensures UPPER[v] == 65 + v
  {
  }

  lemma LowerIs(v: nat)
    requires v < 26
    ensures LOWER[v] == 97 + v
  {
  }

  lemma RestIs(v: nat)
    requires v < 12
    ensures REST[v] == if v < 10 then 48 + v else if v == 10 then 43 else 47
  {
  }

  lemma Sizes()
    ensures |UPPER| == 26 && |LOWER| == 26 && |REST| == 12
  {
  }

  lemma SymbolsAre(v: nat)
    requires v < 64
    ensures |ALPHABET| == 64 && Symbol(v) == ALPHABET[v]
  {
    Sizes();
    if v < 26 {
      UpperIs(v);
    } else if v < 52 {
      LowerIs(v - 26);
    } else {
      RestIs(v - 52);
    }
    hide UPPER, LOWER, REST;
  }

  lemma SymbolIs(c: byte, v: int)
    ensures Spells(c, v) <==> IsSymbol(c) && v == SymbolValue(c)
  {
    if IsSymbol(c) {
      SymbolsAre(SymbolValue(c));
    }
    if 0 <= v < 64 {
      SymbolsAre(v);
      SymbolRoundTrip(v);
    }
  }

  /** The symbols are the digits of the bytes, followed by zero bits; "=" stands for nothing. */
  ghost predicate Stands(group: seq<byte>, chunk: seq<byte>, a: int, b: int, c: int, d: int)
    requires |group| == 4
  {
    && Spells(group[0], a) && Spells(group[1], b)
    && (|chunk| == 1 ==> group[2] == 61 && group[3] == 61 && a * 64 + b == chunk[0] as int * 16)
    && (|chunk| == 2 ==> Spells(group[2], c) && group[3] == 61 && a * 4096 + b * 64 + c == (chunk[0] as int * 256 + chunk[1] as int) * 4)
    && (|chunk| == 3 ==> Spells(group[2], c) && Spells(group[3], d)
                         && a * 262_144 + b * 4096 + c * 64 + d == chunk[0] as int * 65_536 + chunk[1] as int * 256 + chunk[2] as int)
  }

  lemma ChunkStands(chunk: seq<byte>) returns (a: int, b: int, c: int, d: int)
    requires 1 <= |chunk| <= 3
    ensures Stands(EncodeChunk(chunk), chunk, a, b, c, d)
  {
    var x: byte, y: byte, z: byte := chunk[0], if |chunk| > 1 then chunk[1] else 0, if |chunk| > 2 then chunk[2] else 0;
    SixesOfBytes(x, y, z);
    EncodedSixes(chunk, x, y, z);
    a, b, c, d := x / 4, x as int % 4 * 16 + y / 16, y as int % 16 * 4 + z / 64, z % 64;
    SymbolsAre(a);
    SymbolsAre(b);
    SymbolsAre(c);
    SymbolsAre(d);
    hide Symbol, EncodeChunk;
  }

  /** The text of some bytes: for every three bytes four symbols that stand for them. */
  lemma TextStands(bytes: seq<byte>, i: nat) returns (a: int, b: int, c: int, d: int)
    requires 3 * i < |bytes|
    ensures |Encode(bytes)| == (|bytes| + 2) / 3 * 4 && 4 * i + 4 <= |Encode(bytes)|
    ensures Stands(Encode(bytes)[4 * i..4 * i + 4], bytes[3 * i..if 3 * i + 3 <= |bytes| then 3 * i + 3 else |bytes|], a, b, c, d)
  {
    hide EncodeChunk, Stands;
    EncodedGroup(bytes, (|bytes| + 2) / 3, i);
    a, b, c, d := ChunkStands(Chunk(bytes, i));
  }

  // ----- what is accepted -----

  /** The symbols are the digits of the bytes, followed by any bits; fewer than three bytes only at
      the end. */
  ghost predicate Reads(group: seq<byte>, isLast: bool, chunk: seq<byte>, a: int, b: int, c: int, d: int)
    requires |group| == 4
  {
    && Spells(group[0], a) && Spells(group[1], b) && 1 <= |chunk| <= 3 && (|chunk| < 3 ==> isLast)
    && (|chunk| == 1 ==> group[2] == 61 && group[3] == 61 && 0 <= a * 64 + b - chunk[0] as int * 16 < 16)
    && (|chunk| == 2 ==> Spells(group[2], c) && group[3] == 61
                         && 0 <= a * 4096 + b * 64 + c - (chunk[0] as int * 256 + chunk[1] as int) * 4 < 4)
    && (|chunk| == 3 ==> Spells(group[2], c) && Spells(group[3], d)
                         && a * 262_144 + b * 4096 + c * 64 + d == chunk[0] as int * 65_536 + chunk[1] as int * 256 + chunk[2] as int)
  }

  ghost predicate Read(group: seq<byte>, isLast: bool, chunk: seq<byte>)
    requires |group| == 4
  {
    exists a: int, b: int, c: int, d: int :: Reads(group, isLast, chunk, a, b, c, d)
  }

  lemma LegalReads(group: seq<byte>, isLast: bool)
    requires |group| == 4 && Legal(group, isLast)
    ensures Read(group, isLast, DecodeChunk(group))
  {
    var a, b, c, d := SymbolValue(group[0]), SymbolValue(group[1]), ValueOrZero(group[2]), ValueOrZero(group[3]);
    BytesOfSixes(a, b, c, d);
    forall i, v | 0 <= i < 4
      ensures Spells(group[i], v) <==> IsSymbol(group[i]) && v == SymbolValue(group[i])
    {
      SymbolIs(group[i], v);
    }
    hide IsSymbol, SymbolValue, Spells;
    assert Reads(group, isLast, DecodeChunk(group), a, b, c, d);
  }

  lemma ReadIsLegal(group: seq<byte>, isLast: bool, chunk: seq<byte>)
    requires |group| == 4 && Read(group, isLast, chunk)
    ensures Legal(group, isLast) && DecodeChunk(group) == chunk
  {
    var a: int, b: int, c: int, d: int :| Reads(group, isLast, chunk, a, b, c, d);
    SymbolIs(group[0], a);
    SymbolIs(group[1], b);
    SymbolIs(group[2], c);
    SymbolIs(group[3], d);
    PaddingIsNoSymbol();
    hide IsSymbol, SymbolValue, Spells;
    SameBytes(group, isLast, chunk, a, b, if |chunk| > 1 then c else 0, if |chunk| > 2 then d else 0);
  }

  lemma PaddingIsNoSymbol()
    ensures !IsSymbol(61) && PADDING == 61
  {
  }

  lemma SameBytes(group: seq<byte>, isLast: bool, chunk: seq<byte>, a: nat, b: nat, c: nat, d: nat)
    requires |group| == 4 && Legal(group, isLast) && 1 <= |chunk| <= 3
    requires a == SymbolValue(group[0]) && b == SymbolValue(group[1]) && c == ValueOrZero(group[2]) && d == ValueOrZero(group[3])
    requires (group[2] == PADDING <==> |chunk| == 1) && (group[3] == PADDING <==> |chunk| <= 2)
    requires |chunk| == 1 ==> 0 <= a * 64 + b - chunk[0] as int * 16 < 16
    requires |chunk| == 2 ==> 0 <= a * 4096 + b * 64 + c - (chunk[0] as int * 256 + chunk[1] as int) * 4 < 4
    requires |chunk| == 3 ==>
      a * 262_144 + b * 4096 + c * 64 + d == chunk[0] as int * 65_536 + chunk[1] as int * 256 + chunk[2] as int
    ensures DecodeChunk(group) == chunk
  {
    hide IsSymbol, SymbolValue, Spells, First, Second, Third;
    DecodedBytes(group, a, b, c, d);
    if |chunk| == 1 {
      OneByte(a, b, chunk[0]);
    } else if |chunk| == 2 {
      TwoBytes(a, b, c, chunk[0], chunk[1]);
    } else {
      ThreeBytes(a, b, c, d, chunk[0], chunk[1], chunk[2]);
    }
  }

  lemma OneByte(a: nat, b: nat, x: byte)
    requires a < 64 && b < 64 && 0 <= a * 64 + b - x as int * 16 < 16
    ensures First(a, b) == x
  {
  }

  lemma TwoBytes(a: nat, b: nat, c: nat, x: byte, y: byte)
    requires a < 64 && b < 64 && c < 64 && 0 <= a * 4096 + b * 64 + c - (x as int * 256 + y as int) * 4 < 4
    ensures First(a, b) == x && Second(b, c) == y
  {
    assert b == b / 16 * 16 + b % 16 && c == c / 4 * 4 + c % 4;
  }

  lemma ThreeBytes(a: nat, b: nat, c: nat, d: nat, x: byte, y: byte, z: byte)
    requires a < 64 && b < 64 && c < 64 && d < 64
    requires a * 262_144 + b * 4096 + c * 64 + d == x as int * 65_536 + y as int * 256 + z as int
    ensures First(a, b) == x && Second(b, c) == y && Third(c, d) == z
  {
    assert b == b / 16 * 16 + b % 16 && c == c / 4 * 4 + c % 4;
  }

  /** The bytes of a group. */
  function Part(bytes: seq<byte>, i: nat): seq<byte>
    requires 3 * i < |bytes|
  {
    bytes[3 * i..if 3 * i + 3 <= |bytes| then 3 * i + 3 else |bytes|]
  }

  /** Four symbols for every three bytes, and one to three bytes for the last four. */
  ghost predicate IsText(text: seq<byte>, bytes: seq<byte>) {
    && |text| > 0 && |text| == (|bytes| + 2) / 3 * 4
    && forall i :: 0 <= i < |text| / 4 ==> Read(text[4 * i..4 * i + 4], i + 1 == |text| / 4, Part(bytes, i))
  }

  lemma {:induction false} GroupsRead(text: seq<byte>, k: nat)
    requires 4 * k <= |text| && DecodeUpTo(text, k).Ok?
    ensures var bytes := DecodeUpTo(text, k).value;
            && (k == 0 ==> |bytes| == 0) && (k > 0 ==> 3 * k - 3 < |bytes| <= 3 * k) && (k < |text| / 4 ==> |bytes| == 3 * k)
            && forall i :: 0 <= i < k ==> Read(text[4 * i..4 * i + 4], i + 1 == |text| / 4, Part(bytes, i))
    decreases k
  {
    hide Read, DecodeChunk;
    if k > 0 {
      GroupsRead(text, k - 1);
      var before, chunk := DecodeUpTo(text, k - 1).value, DecodeChunk(Group(text, k - 1));
      LegalReads(Group(text, k - 1), k == |text| / 4);
      ReadSize(Group(text, k - 1), k == |text| / 4, chunk);
      PartsStay(before, chunk, k - 1);
    }
  }

  lemma ReadSize(group: seq<byte>, isLast: bool, chunk: seq<byte>)
    requires |group| == 4 && Read(group, isLast, chunk)
    ensures 1 <= |chunk| <= 3 && (!isLast ==> |chunk| == 3)
  {
  }

  lemma PartsStay(before: seq<byte>, chunk: seq<byte>, k: nat)
    requires |before| == 3 * k && 1 <= |chunk| <= 3
    ensures forall i :: 0 <= i < k ==> Part(before + chunk, i) == Part(before, i)
    ensures Part(before + chunk, k) == chunk
  {
    forall i | 0 <= i < k
      ensures Part(before + chunk, i) == Part(before, i)
    {
      assert (before + chunk)[3 * i..3 * i + 3] == before[3 * i..3 * i + 3];
    }
  }

  lemma {:induction false} TextDecodes(text: seq<byte>, bytes: seq<byte>, k: nat)
    requires IsText(text, bytes) && k <= |text| / 4
    ensures DecodeUpTo(text, k) == Ok(if 3 * k <= |bytes| then bytes[..3 * k] else bytes)
    decreases k
  {
    hide Read, DecodeChunk, Legal;
    if k > 0 {
      TextDecodes(text, bytes, k - 1);
      ReadIsLegal(Group(text, k - 1), k == |text| / 4, Part(bytes, k - 1));
      ChunkFollows(bytes, k - 1);
    }
  }

  /** A text decodes to some bytes exactly if it is text for them. */
  lemma DecodesIff(text: seq<byte>, bytes: seq<byte>)
    ensures Decode(text) == Ok(bytes) <==> IsText(text, bytes)
  {
    hide DecodeUpTo, Read;
    if Decode(text) == Ok(bytes) {
      GroupsRead(text, |text| / 4);
    }
    if IsText(text, bytes) {
      TextDecodes(text, bytes, |text| / 4);
      assert bytes[..|bytes|] == bytes;
    }
  }
}
