/** Base64 text (section 4 of RFC 4648) over ASCII bytes: the encoder's loop over chunks of
    three and the decoder's loop over chunks of four undo each other. */
module Base64 {
  import opened Bits

  datatype Result<+T> = Ok(value: T) | Err

  /** '=' */
  const PADDING: byte := 61

  /** The alphabet A-Z a-z 0-9 + / */
  function Symbol(v: nat): byte
    requires v < 64
  {
    if v < 26 then 65 + v else if v < 52 then 97 + v - 26 else if v < 62 then 48 + v - 52
    else if v == 62 then 43 else 47
  }

  predicate IsSymbol(c: byte) {
    65 <= c <= 90 || 97 <= c <= 122 || 48 <= c <= 57 || c == 43 || c == 47
  }

  function SymbolValue(c: byte): (v: nat)
    requires IsSymbol(c)
    ensures v < 64
  {
    if 65 <= c <= 90 then c - 65 else if 97 <= c <= 122 then c - 97 + 26 else if 48 <= c <= 57 then c - 48 + 52
    else if c == 43 then 62 else 63
  }

  lemma SymbolRoundTrip(v: nat)
    requires v < 64
    ensures IsSymbol(Symbol(v)) && SymbolValue(Symbol(v)) == v && Symbol(v) != PADDING
  {
  }

  lemma SameSymbol(v: nat, c: byte)
    requires v < 64 && IsSymbol(c)
    ensures Symbol(v) == c <==> v == SymbolValue(c)
  {
  }

  // ----- encoding -----

  /** The 24-bit group of up to three bytes, missing ones read as zero. */
  function Combined(chunk: seq<byte>): (n: nat)
    requires 1 <= |chunk| <= 3
    ensures n < 16777216
  {
    var second: int := if |chunk| > 1 then chunk[1] else 0;
    var third: int := if |chunk| > 2 then chunk[2] else 0;
    chunk[0] as int * 65536 + second * 256 + third
  }

  function EncodeChunk(chunk: seq<byte>): (text: seq<byte>)
    requires 1 <= |chunk| <= 3
    ensures |text| == 4
  {
    var n := Combined(chunk);
    [Symbol(n / 262144),
     Symbol(n / 4096 % 64),
     if |chunk| > 1 then Symbol(n / 64 % 64) else PADDING,
     if |chunk| > 2 then Symbol(n % 64) else PADDING]
  }

  function Chunk(bytes: seq<byte>, i: nat): (chunk: seq<byte>)
    requires 3 * i < |bytes|
    ensures 1 <= |chunk| <= 3
  {
    bytes[3 * i..if 3 * i + 3 <= |bytes| then 3 * i + 3 else |bytes|]
  }

  /** The text of the first k chunks. */
  function EncodeUpTo(bytes: seq<byte>, k: nat): (text: seq<byte>)
    requires k <= (|bytes| + 2) / 3
    ensures |text| == 4 * k
    decreases k
  {
    if k == 0 then [] else EncodeUpTo(bytes, k - 1) + EncodeChunk(Chunk(bytes, k - 1))
  }

  function Encode(bytes: seq<byte>): (text: seq<byte>) {
    EncodeUpTo(bytes, (|bytes| + 2) / 3)
  }

  method EncodeBase64(bytes: seq<byte>) returns (output: seq<byte>)
    ensures output == Encode(bytes)
  {
    output := [];
    for i := 0 to (|bytes| + 2) / 3
      invariant output == EncodeUpTo(bytes, i)
    {
      var chunk := Chunk(bytes, i);
      var first: int := chunk[0];
      var second: int := if |chunk| > 1 then chunk[1] else 0;
      var third: int := if |chunk| > 2 then chunk[2] else 0;
      var combined := first * 65536 + second * 256 + third;
      assert combined == Combined(chunk);
      output := output + [Symbol(combined / 262144),
                          Symbol(combined / 4096 % 64),
                          if |chunk| > 1 then Symbol(combined / 64 % 64) else PADDING,
                          if |chunk| > 2 then Symbol(combined % 64) else PADDING];
    }
  }

  // ----- decoding -----

  function Joined(a: nat, b: nat, c: nat, d: nat): (n: nat)
    requires a < 64 && b < 64 && c < 64 && d < 64
    ensures n < 16777216
  {
    a * 262144 + b * 4096 + c * 64 + d
  }

  function Unpacked(n: nat, thirdPadding: bool, fourthPadding: bool): (bytes: seq<byte>)
    requires n < 16777216 && (thirdPadding ==> fourthPadding)
  {
    Prefix(n / 65536 % 256, n / 256 % 256, n % 256, thirdPadding, fourthPadding)
  }

  function Prefix(x: byte, y: byte, z: byte, thirdPadding: bool, fourthPadding: bool): (bytes: seq<byte>)
    requires thirdPadding ==> fourthPadding
  {
    if thirdPadding then [x] else if fourthPadding then [x, y] else [x, y, z]
  }

  /** Padding is allowed only in the last group, and only at its end. */
  predicate Legal(chunk: seq<byte>, isLast: bool)
    requires |chunk| == 4
  {
    && IsSymbol(chunk[0]) && IsSymbol(chunk[1])
    && (chunk[2] == PADDING ==> chunk[3] == PADDING)
    && (chunk[2] == PADDING || chunk[3] == PADDING ==> isLast)
    && (chunk[2] == PADDING || IsSymbol(chunk[2]))
    && (chunk[3] == PADDING || IsSymbol(chunk[3]))
  }

  function ValueOrZero(c: byte): (v: nat)
    requires c == PADDING || IsSymbol(c)
    ensures v < 64
  {
    if c == PADDING then 0 else SymbolValue(c)
  }

  function DecodeChunk(chunk: seq<byte>): seq<byte>
    requires |chunk| == 4 && Legal(chunk, true)
  {
    Unpacked(Joined(SymbolValue(chunk[0]), SymbolValue(chunk[1]), ValueOrZero(chunk[2]), ValueOrZero(chunk[3])),
             chunk[2] == PADDING, chunk[3] == PADDING)
  }

  function Group(text: seq<byte>, i: nat): (chunk: seq<byte>)
    requires 4 * i + 4 <= |text|
    ensures |chunk| == 4
  {
    text[4 * i..4 * i + 4]
  }

  predicate LegalGroup(text: seq<byte>, i: nat)
    requires 4 * i + 4 <= |text|
  {
    Legal(Group(text, i), i + 1 == |text| / 4)
  }

  /** What the first k groups decode to, or an error. */
  function DecodeUpTo(text: seq<byte>, k: nat): Result<seq<byte>>
    requires 4 * k <= |text|
    decreases k
  {
    if k == 0 then Ok([])
    else
      match DecodeUpTo(text, k - 1)
      case Err => Err
      case Ok(bytes) => if LegalGroup(text, k - 1) then Ok(bytes + DecodeChunk(Group(text, k - 1))) else Err
  }

  function Decode(text: seq<byte>): Result<seq<byte>> {
    if |text| == 0 || |text| % 4 != 0 then Err else DecodeUpTo(text, |text| / 4)
  }

  lemma {:induction false} ErrorsStay(text: seq<byte>, k: nat, n: nat)
    requires k <= n && 4 * n <= |text| && DecodeUpTo(text, k).Err?
    ensures DecodeUpTo(text, n).Err?
    decreases n
  {
    if k < n {
      ErrorsStay(text, k, n - 1);
    }
  }

  method DecodeBase64(text: seq<byte>) returns (r: Result<seq<byte>>)
    ensures r == Decode(text)
  {
    if |text| == 0 || |text| % 4 != 0 {
      return Err;
    }
    var output: seq<byte> := [];
    for index := 0 to |text| / 4
      invariant DecodeUpTo(text, index) == Ok(output)
    {
      var bytes := DecodeFour(Group(text, index), index + 1 == |text| / 4);
      if bytes.Err? {
        ErrorsStay(text, index + 1, |text| / 4);
        return Err;
      }
      output := output + bytes.value;
    }
    return Ok(output);
  }

  /** The body of the decoder's loop. */
  method DecodeFour(chunk: seq<byte>, isLast: bool) returns (r: Result<seq<byte>>)
    requires |chunk| == 4
    ensures r == if Legal(chunk, isLast) then Ok(DecodeChunk(chunk)) else Err
  {
    if !IsSymbol(chunk[0]) {
      return Err;
    }
    var first := SymbolValue(chunk[0]);
    if !IsSymbol(chunk[1]) {
      return Err;
    }
    var second := SymbolValue(chunk[1]);
    var thirdPadding, fourthPadding := chunk[2] == PADDING, chunk[3] == PADDING;
    if thirdPadding && !fourthPadding {
      return Err;
    }
    if (thirdPadding || fourthPadding) && !isLast {
      return Err;
    }
    var third, fourth := 0, 0;
    if !thirdPadding {
      if !IsSymbol(chunk[2]) {
        return Err;
      }
      third := SymbolValue(chunk[2]);
    }
    if !fourthPadding {
      if !IsSymbol(chunk[3]) {
        return Err;
      }
      fourth := SymbolValue(chunk[3]);
    }
    var output := Push(Joined(first, second, third, fourth), thirdPadding, fourthPadding);
    r := Ok(output);
  }

  method Push(combined: nat, thirdPadding: bool, fourthPadding: bool) returns (output: seq<byte>)
    requires combined < 16777216 && (thirdPadding ==> fourthPadding)
    ensures output == Unpacked(combined, thirdPadding, fourthPadding)
  {
    output := [combined / 65536 % 256];
    if !thirdPadding {
      output := output + [combined / 256 % 256];
    }
    if !fourthPadding {
      output := output + [combined % 256];
    }
  }

  // ----- regrouping eights and sixes -----

  /** The four sixes of three bytes. */
  lemma SixesOfBytes(x: byte, y: byte, z: byte)
    ensures var n := x as int * 65536 + y as int * 256 + z as int;
            && n / 262144 == x / 4
            && n / 4096 % 64 == x as int % 4 * 16 + y / 16
            && n / 64 % 64 == y as int % 16 * 4 + z / 64
            && n % 64 == z % 64
  {
    var n := x as int * 65536 + y as int * 256 + z as int;
    QuotientIs(n, 262144, x / 4, x as int % 4 * 65536 + y as int * 256 + z as int);
    QuotientIs(n, 4096, x as int * 16 + y / 16, y as int % 16 * 256 + z as int);
    QuotientIs(n / 4096, 64, x / 4, x as int % 4 * 16 + y / 16);
    QuotientIs(n, 64, x as int * 1024 + y as int * 4 + z / 64, z % 64);
    QuotientIs(n / 64, 64, x as int * 16 + y / 16, y as int % 16 * 4 + z / 64);
  }

  function First(a: nat, b: nat): byte
    requires a < 64 && b < 64
  {
    a * 4 + b / 16
  }

  function Second(b: nat, c: nat): byte
    requires b < 64 && c < 64
  {
    b % 16 * 16 + c / 4
  }

  function Third(c: nat, d: nat): byte
    requires c < 64 && d < 64
  {
    c % 4 * 64 + d
  }

  /** The three bytes of four sixes. */
  lemma BytesOfSixes(a: nat, b: nat, c: nat, d: nat)
    requires a < 64 && b < 64 && c < 64 && d < 64
    ensures var n := Joined(a, b, c, d);
            && n / 65536 % 256 == First(a, b)
            && n / 256 % 256 == Second(b, c)
            && n % 256 == Third(c, d)
  {
    var n := Joined(a, b, c, d);
    QuotientIs(n, 65536, a * 4 + b / 16, b % 16 * 4096 + c * 64 + d);
    QuotientIs(n, 256, a * 1024 + b * 16 + c / 4, c % 4 * 64 + d);
    QuotientIs(n / 256, 256, a * 4 + b / 16, b % 16 * 16 + c / 4);
  }

  lemma Regrouped(x: byte, y: byte, z: byte)
    ensures var a, b, c, d := x / 4, x as int % 4 * 16 + y / 16, y as int % 16 * 4 + z / 64, z % 64;
            First(a, b) == x && Second(b, c) == y && Third(c, d) == z
  {
    QuotientIs(x as int % 4 * 16 + y / 16, 16, x % 4, y / 16);
    QuotientIs(y as int % 16 * 4 + z / 64, 4, y % 16, z / 64);
  }

  lemma RegroupedBack(a: nat, b: nat, c: nat, d: nat)
    requires a < 64 && b < 64 && c < 64 && d < 64
    ensures var x, y, z := First(a, b), Second(b, c), Third(c, d);
            x / 4 == a && x as int % 4 * 16 + y / 16 == b && y as int % 16 * 4 + z / 64 == c && z % 64 == d
  {
    QuotientIs(a * 4 + b / 16, 4, a, b / 16);
    QuotientIs(b % 16 * 16 + c / 4, 16, b % 16, c / 4);
    QuotientIs(c % 4 * 64 + d, 64, c % 4, d);
  }

  lemma EncodedSixes(chunk: seq<byte>, x: byte, y: byte, z: byte)
    requires 1 <= |chunk| <= 3 && x == chunk[0]
    requires y == (if |chunk| > 1 then chunk[1] else 0) && z == (if |chunk| > 2 then chunk[2] else 0)
    ensures EncodeChunk(chunk) == [Symbol(x / 4), Symbol(x as int % 4 * 16 + y / 16),
                                   if |chunk| > 1 then Symbol(y as int % 16 * 4 + z / 64) else PADDING,
                                   if |chunk| > 2 then Symbol(z % 64) else PADDING]
  {
    SixesOfBytes(x, y, z);
  }

  lemma DecodedBytes(chunk: seq<byte>, a: nat, b: nat, c: nat, d: nat)
    requires |chunk| == 4 && Legal(chunk, true)
    requires a == SymbolValue(chunk[0]) && b == SymbolValue(chunk[1])
    requires c == ValueOrZero(chunk[2]) && d == ValueOrZero(chunk[3])
    ensures DecodeChunk(chunk) == Prefix(First(a, b), Second(b, c), Third(c, d), chunk[2] == PADDING, chunk[3] == PADDING)
  {
    BytesOfSixes(a, b, c, d);
  }

  // ----- decoding undoes encoding -----

  lemma ChunkRoundTrip(chunk: seq<byte>, isLast: bool)
    requires 1 <= |chunk| <= 3 && (|chunk| < 3 ==> isLast)
    ensures Legal(EncodeChunk(chunk), isLast) && DecodeChunk(EncodeChunk(chunk)) == chunk
  {
    hide Symbol, IsSymbol, SymbolValue, Combined, EncodeChunk, DecodeChunk, Legal, First, Second, Third;
    var x: byte := chunk[0];
    var y: byte := if |chunk| > 1 then chunk[1] else 0;
    var z: byte := if |chunk| > 2 then chunk[2] else 0;
    EncodedSixes(chunk, x, y, z);
    Regrouped(x, y, z);
    SixesRoundTrip(EncodeChunk(chunk), |chunk|, x / 4, x as int % 4 * 16 + y / 16, y as int % 16 * 4 + z / 64, z % 64);
    assert chunk == Prefix(x, y, z, |chunk| == 1, |chunk| < 3);
  }

  lemma SixesRoundTrip(text: seq<byte>, count: nat, a: nat, b: nat, c: nat, d: nat)
    requires a < 64 && b < 64 && c < 64 && d < 64 && 1 <= count <= 3
    requires (count < 2 ==> c == 0) && (count < 3 ==> d == 0)
    requires text == [Symbol(a), Symbol(b), if count > 1 then Symbol(c) else PADDING, if count > 2 then Symbol(d) else PADDING]
    ensures Legal(text, true) && (count == 3 ==> Legal(text, false))
    ensures DecodeChunk(text) == Prefix(First(a, b), Second(b, c), Third(c, d), count == 1, count < 3)
  {
    SymbolRoundTrip(a);
    SymbolRoundTrip(b);
    SymbolRoundTrip(c);
    SymbolRoundTrip(d);
    DecodedBytes(text, a, b, c, d);
  }

  lemma {:induction false} EncodedGroup(bytes: seq<byte>, k: nat, i: nat)
    requires i < k <= (|bytes| + 2) / 3
    ensures EncodeUpTo(bytes, k)[4 * i..4 * i + 4] == EncodeChunk(Chunk(bytes, i))
    decreases k
  {
    hide EncodeChunk;
    if i < k - 1 {
      EncodedGroup(bytes, k - 1, i);
      var head, tail := EncodeUpTo(bytes, k - 1), EncodeChunk(Chunk(bytes, k - 1));
      assert (head + tail)[4 * i..4 * i + 4] == head[4 * i..4 * i + 4];
    }
  }

  /** The first k groups of an encoding decode to the first 3k bytes. */
  lemma {:induction false} PrefixRoundTrip(bytes: seq<byte>, text: seq<byte>, k: nat)
    requires text == Encode(bytes) && k <= (|bytes| + 2) / 3
    ensures DecodeUpTo(text, k) == Ok(if 3 * k <= |bytes| then bytes[..3 * k] else bytes)
    decreases k
  {
    hide EncodeChunk, EncodeUpTo, DecodeChunk, Legal;
    if k > 0 {
      PrefixRoundTrip(bytes, text, k - 1);
      EncodedGroup(bytes, (|bytes| + 2) / 3, k - 1);
      NextGroup(text, k - 1, bytes[..3 * (k - 1)], Chunk(bytes, k - 1));
      ChunkFollows(bytes, k - 1);
    }
  }

  lemma NextGroup(text: seq<byte>, k: nat, before: seq<byte>, chunk: seq<byte>)
    requires 4 * k + 4 <= |text| && DecodeUpTo(text, k) == Ok(before)
    requires 1 <= |chunk| <= 3 && (|chunk| < 3 ==> k + 1 == |text| / 4)
    requires Group(text, k) == EncodeChunk(chunk)
    ensures DecodeUpTo(text, k + 1) == Ok(before + chunk)
  {
    ChunkRoundTrip(chunk, k + 1 == |text| / 4);
  }

  lemma ChunkFollows(bytes: seq<byte>, i: nat)
    requires 3 * i < |bytes|
    ensures bytes[..3 * i] + Chunk(bytes, i) == if 3 * i + 3 <= |bytes| then bytes[..3 * i + 3] else bytes
  {
  }

  /** Every non-empty byte string survives encoding and decoding; the empty one does not,
      because the decoder rejects the empty text. */
  lemma RoundTrip(bytes: seq<byte>)
    ensures Decode(Encode(bytes)) == if |bytes| > 0 then Ok(bytes) else Err
  {
    hide EncodeUpTo, DecodeUpTo;
    PrefixRoundTrip(bytes, Encode(bytes), (|bytes| + 2) / 3);
    assert bytes[..|bytes|] == bytes;
  }

  // ----- when encoding undoes decoding -----

  /** The bits of the last symbol that the padding discards are zero. */
  predicate CanonicalChunk(chunk: seq<byte>)
    requires |chunk| == 4
  {
    if chunk[2] == PADDING then IsSymbol(chunk[1]) && SymbolValue(chunk[1]) % 16 == 0
    else chunk[3] == PADDING ==> IsSymbol(chunk[2]) && SymbolValue(chunk[2]) % 4 == 0
  }

  predicate Canonical(text: seq<byte>)
    requires |text| >= 4
  {
    CanonicalChunk(text[|text| - 4..])
  }

  lemma ReencodeThree(chunk: seq<byte>)
    requires |chunk| == 4 && Legal(chunk, true) && chunk[2] != PADDING && chunk[3] != PADDING
    ensures |DecodeChunk(chunk)| == 3 && EncodeChunk(DecodeChunk(chunk)) == chunk
  {
    var a, b, c, d := SymbolValue(chunk[0]), SymbolValue(chunk[1]), SymbolValue(chunk[2]), SymbolValue(chunk[3]);
    DecodedBytes(chunk, a, b, c, d);
    EncodedSixes(DecodeChunk(chunk), First(a, b), Second(b, c), Third(c, d));
    RegroupedBack(a, b, c, d);
    SameSymbol(a, chunk[0]);
    SameSymbol(b, chunk[1]);
    SameSymbol(c, chunk[2]);
    SameSymbol(d, chunk[3]);
  }

  lemma ReencodeTwo(chunk: seq<byte>)
    requires |chunk| == 4 && Legal(chunk, true) && chunk[2] != PADDING && chunk[3] == PADDING
    ensures |DecodeChunk(chunk)| == 2
    ensures EncodeChunk(DecodeChunk(chunk)) == chunk <==> CanonicalChunk(chunk)
  {
    var a, b, c := SymbolValue(chunk[0]), SymbolValue(chunk[1]), SymbolValue(chunk[2]);
    DecodedBytes(chunk, a, b, c, 0);
    EncodedSixes(DecodeChunk(chunk), First(a, b), Second(b, c), 0);
    RegroupedBack(a, b, c, 0);
    DiscardedBits(b, c);
    SameSymbol(a, chunk[0]);
    SameSymbol(b, chunk[1]);
    SameSymbol(Second(b, c) as int % 16 * 4, chunk[2]);
  }

  /** Of the third symbol only the upper four bits reach the second byte. */
  lemma DiscardedBits(b: nat, c: nat)
    requires b < 64 && c < 64
    ensures Second(b, c) as int % 16 * 4 == c <==> c % 4 == 0
  {
    QuotientIs(b % 16 * 16 + c / 4, 16, b % 16, c / 4);
  }

  lemma ReencodeOne(chunk: seq<byte>)
    requires |chunk| == 4 && Legal(chunk, true) && chunk[2] == PADDING
    ensures |DecodeChunk(chunk)| == 1
    ensures EncodeChunk(DecodeChunk(chunk)) == chunk <==> CanonicalChunk(chunk)
  {
    var a, b := SymbolValue(chunk[0]), SymbolValue(chunk[1]);
    DecodedBytes(chunk, a, b, 0, 0);
    EncodedSixes(DecodeChunk(chunk), First(a, b), 0, 0);
    QuotientIs(a * 4 + b / 16, 4, a, b / 16);
    SameSymbol(a, chunk[0]);
    SameSymbol(b / 16 * 16, chunk[1]);
  }

  /** Encoding undoes decoding of one group, unless non-zero bits are discarded. */
  lemma ReencodeChunk(chunk: seq<byte>, isLast: bool)
    requires |chunk| == 4 && Legal(chunk, isLast)
    ensures Legal(chunk, true)
    ensures var bytes := DecodeChunk(chunk);
            && 1 <= |bytes| <= 3 && (!isLast ==> |bytes| == 3 && CanonicalChunk(chunk))
            && (EncodeChunk(bytes) == chunk <==> CanonicalChunk(chunk))
  {
    if chunk[2] == PADDING {
      ReencodeOne(chunk);
    } else if chunk[3] == PADDING {
      ReencodeTwo(chunk);
    } else {
      ReencodeThree(chunk);
    }
  }

  /** Before the last group every group yields three bytes, and encoding those gives the text back. */
  lemma {:induction false} ReencodePrefix(text: seq<byte>, k: nat)
    requires |text| % 4 == 0 && 4 * k < |text| && DecodeUpTo(text, k).Ok?
    ensures |DecodeUpTo(text, k).value| == 3 * k && EncodeUpTo(DecodeUpTo(text, k).value, k) == text[..4 * k]
    decreases k
  {
    hide Symbol, IsSymbol, SymbolValue, Combined, EncodeChunk, DecodeChunk, CanonicalChunk, Legal;
    if k > 0 {
      ReencodePrefix(text, k - 1);
      var before, group := DecodeUpTo(text, k - 1).value, Group(text, k - 1);
      ReencodeChunk(group, false);
      EncodeAppended(before, DecodeChunk(group), k - 1);
      assert text[..4 * k] == text[..4 * (k - 1)] + group;
    }
  }

  lemma {:induction false} EncodePrefix(bytes: seq<byte>, more: seq<byte>, k: nat)
    requires 3 * k <= |bytes|
    ensures EncodeUpTo(bytes + more, k) == EncodeUpTo(bytes, k)
    decreases k
  {
    if k > 0 {
      EncodePrefix(bytes, more, k - 1);
      assert Chunk(bytes + more, k - 1) == Chunk(bytes, k - 1);
    }
  }

  lemma EncodeAppended(bytes: seq<byte>, chunk: seq<byte>, k: nat)
    requires |bytes| == 3 * k && 1 <= |chunk| <= 3
    ensures EncodeUpTo(bytes + chunk, k + 1) == EncodeUpTo(bytes, k) + EncodeChunk(chunk)
  {
    EncodePrefix(bytes, chunk, k);
    assert Chunk(bytes + chunk, k) == chunk;
  }

  lemma SameTails(head: seq<byte>, a: seq<byte>, b: seq<byte>)
    ensures head + a == head + b <==> a == b
  {
    if head + a == head + b {
      assert a == (head + a)[|head|..] && b == (head + b)[|head|..];
    }
  }

  /** Re-encoding what the decoder accepted gives the same text exactly when the bits that
      the padding discards are zero. */
  lemma ReencodeIff(text: seq<byte>)
    requires Decode(text).Ok?
    ensures Encode(Decode(text).value) == text <==> Canonical(text)
  {
    ReencodeLast(text, |text| / 4 - 1);
  }

  lemma EncodeLast(before: seq<byte>, chunk: seq<byte>, k: nat)
    requires |before| == 3 * k && 1 <= |chunk| <= 3
    ensures Encode(before + chunk) == EncodeUpTo(before, k) + EncodeChunk(chunk)
  {
    hide Symbol, Combined, EncodeChunk, EncodeUpTo;
    assert (|before + chunk| + 2) / 3 == k + 1;
    EncodeAppended(before, chunk, k);
  }

  lemma DecodeLast(text: seq<byte>, k: nat)
    requires |text| == 4 * (k + 1) && DecodeUpTo(text, k + 1).Ok?
    ensures DecodeUpTo(text, k).Ok? && Legal(Group(text, k), true)
    ensures DecodeUpTo(text, k + 1).value == DecodeUpTo(text, k).value + DecodeChunk(Group(text, k))
  {
    hide Legal, DecodeChunk;
  }

  lemma ReencodeLast(text: seq<byte>, k: nat)
    requires |text| == 4 * (k + 1) && DecodeUpTo(text, k + 1).Ok?
    ensures Encode(DecodeUpTo(text, k + 1).value) == text <==> Canonical(text)
  {
    hide EncodeChunk, DecodeChunk, CanonicalChunk, Legal, Encode, EncodeUpTo, DecodeUpTo;
    DecodeLast(text, k);
    var before, group := DecodeUpTo(text, k).value, Group(text, k);
    ReencodePrefix(text, k);
    ReencodeChunk(group, true);
    EncodeLast(before, DecodeChunk(group), k);
    assert text == text[..4 * k] + group && text[|text| - 4..] == group;
    SameTails(text[..4 * k], EncodeChunk(DecodeChunk(group)), group);
  }

  /** For instance: "QR==" is accepted, stands for the one byte of "QQ==", and is not given back. */
  lemma NonCanonicalIsAccepted()
    ensures Decode([81, 82, 61, 61]) == Ok([65]) && Encode([65]) == [81, 81, 61, 61]
  {
    var text, one: seq<byte> := [81, 82, 61, 61], [65];
    assert SymbolValue(text[0]) == 16 && SymbolValue(text[1]) == 17;
    assert Group(text, 0) == text && Legal(text, true);
    DecodedBytes(text, 16, 17, 0, 0);
    assert DecodeChunk(text) == one;
    var k: nat := 0;
    assert DecodeUpTo(text, k) == Ok([]);
    assert DecodeUpTo(text, k + 1) == Ok([] + one);
    assert Decode(text) == DecodeUpTo(text, 1);
    assert [] + one == one;
    assert Chunk(one, 0) == one;
    EncodedSixes(one, 65, 0, 0);
    assert EncodeUpTo(one, k + 1) == EncodeUpTo(one, k) + EncodeChunk(one);
  }
}
