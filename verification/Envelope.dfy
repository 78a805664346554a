/** The payment envelope of one Stellar operation as XDR (RFC 4506): what the writer appends,
    what the reader accepts, and that the reader finds what the writer wrote. */
module Envelope {
  import opened Wrappers
  import opened Bits
  import StrKey

  type i32 = x: int | -0x8000_0000 <= x < 0x8000_0000
  type u32 = x: int | 0 <= x < 0x1_0000_0000
  type i64 = x: int | -0x8000_0000_0000_0000 <= x < 0x8000_0000_0000_0000
  type u64 = x: int | 0 <= x < 0x1_0000_0000_0000_0000

  type Bytes = seq<byte>

  datatype Error =
    | InvalidIntent | InvalidMemo | InvalidAccount | InvalidAccountChecksum
    | XlmMustNotHaveIssuer | IssuerRequired | InvalidAssetCode
    | InvalidXdr | InvalidLength | InvalidPadding
    | UnsupportedEnvelopeType | UnsupportedMuxedAccount | UnsupportedPreconditions | UnsupportedMemo
    | RequiresOneOperation | OperationSourceNotAllowed | UnsupportedOperation | UnsupportedAsset
    | UnsupportedExtension | TooManySignatures | TrailingBytes
    | BodyMismatch | IntentMismatch | AssetMismatch | ExpiryMismatch

  datatype Result<+T> = Ok(value: T) | Err(error: Error) {
    predicate IsFailure() { Err? }

    function PropagateFailure<U>(): Result<U>
      requires Err?
    {
      Err(error)
    }

    function Extract(): T
      requires Ok?
    {
      value
    }
  }

  const ENVELOPE_TYPE_TX: i32 := 2
  const KEY_TYPE_ED25519: i32 := 0
  const PRECOND_NONE: i32 := 0
  const PRECOND_TIME: i32 := 1
  const MEMO_NONE: i32 := 0
  const MEMO_TEXT: i32 := 1
  const OPERATION_PAYMENT: i32 := 1
  const ASSET_NATIVE: i32 := 0
  const ASSET_ALPHANUM4: i32 := 1
  const ASSET_ALPHANUM12: i32 := 2
  const MAX_MEMO: nat := 28
  const MAX_SIGNATURES: nat := 20

  /** The asset code "XLM". */
  const XLM: Bytes := [88, 76, 77]

  // ----- numbers, most significant byte first -----

  function Word(v: u32): (b: Bytes)
    ensures |b| == 4
  {
    [v / 0x100_0000, v / 0x1_0000 % 256, v / 256 % 256, v % 256]
  }

  function WordValue(b: Bytes): u32
    requires |b| == 4
  {
    b[0] as int * 0x100_0000 + b[1] as int * 0x1_0000 + b[2] as int * 256 + b[3] as int
  }

  /** to_be_bytes of a 64-bit number. */
  function Long(v: u64): (b: Bytes)
    ensures |b| == 8
  {
    Word(v / 0x1_0000_0000) + Word(v % 0x1_0000_0000)
  }

  function LongValue(b: Bytes): u64
    requires |b| == 8
  {
    WordValue(b[..4]) * 0x1_0000_0000 + WordValue(b[4..])
  }

  /** Two's complement. */
  function Unsigned32(v: i32): u32 {
    if v < 0 then v + 0x1_0000_0000 else v
  }

  function Signed32(v: u32): i32 {
    if v >= 0x8000_0000 then v - 0x1_0000_0000 else v
  }

  function Unsigned64(v: i64): u64 {
    if v < 0 then v + 0x1_0000_0000_0000_0000 else v
  }

  function Signed64(v: u64): i64 {
    if v >= 0x8000_0000_0000_0000 then v - 0x1_0000_0000_0000_0000 else v
  }

  lemma WordRoundTrip(v: u32)
    ensures WordValue(Word(v)) == v
  {
    var w := v / 0x1_0000;
    assert v / 0x100_0000 == w / 256;
    assert v / 256 == w * 256 + v % 0x1_0000 / 256;
  }

  lemma LongRoundTrip(v: u64)
    ensures LongValue(Long(v)) == v
  {
    hide Word, WordValue;
    WordRoundTrip(v / 0x1_0000_0000);
    WordRoundTrip(v % 0x1_0000_0000);
    assert Long(v)[..4] == Word(v / 0x1_0000_0000) && Long(v)[4..] == Word(v % 0x1_0000_0000);
  }

  // ----- the writer -----

  function Zeros(n: nat): (b: Bytes)
    ensures |b| == n
  {
    seq(n, i => 0)
  }

  function Padding(length: nat): (n: nat)
    ensures n < 4 && (length + n) % 4 == 0
  {
    (4 - length % 4) % 4
  }

  function I32(v: i32): Bytes { Word(Unsigned32(v)) }

  function I64(v: i64): Bytes { Long(Unsigned64(v)) }

  function AccountBytes(key: Bytes): Bytes {
    I32(KEY_TYPE_ED25519) + key
  }

  function OpaqueBytes(value: Bytes): Bytes
    requires |value| < 0x1_0000_0000
  {
    Word(|value|) + (value + Zeros(Padding(|value|)))
  }

  function FromStrKey(r: StrKey.Result<Bytes>): Result<Bytes> {
    match r
    case Ok(key) => Ok(key)
    case Err(InvalidAccount) => Err(InvalidAccount)
    case Err(InvalidChecksum) => Err(InvalidAccountChecksum)
  }

  function Account(text: Bytes): Result<Bytes> {
    FromStrKey(StrKey.Decoded(text))
  }

  /** A-Z and 0-9 */
  predicate IsCodeByte(c: byte) {
    65 <= c <= 90 || 48 <= c <= 57
  }

  predicate CodeBytes(code: Bytes) {
    forall i :: 0 <= i < |code| ==> IsCodeByte(code[i])
  }

  function IssuedAsset(code: Bytes, issuer: Bytes): Bytes
    requires |code| <= 12
  {
    if |code| <= 4 then I32(ASSET_ALPHANUM4) + (code + Zeros(4 - |code|) + AccountBytes(issuer))
    else I32(ASSET_ALPHANUM12) + (code + Zeros(12 - |code|) + AccountBytes(issuer))
  }

  function AssetBytes(code: Bytes, issuer: Option<Bytes>): Result<Bytes> {
    if code == XLM then
      if issuer.Some? then Err(XlmMustNotHaveIssuer) else Ok(I32(ASSET_NATIVE))
    else if issuer.None? then Err(IssuerRequired)
    else
      var key :- Account(issuer.value);
      if |code| > 12 || |code| == 0 || !CodeBytes(code) then Err(InvalidAssetCode)
      else Ok(IssuedAsset(code, key))
  }

  /** What a payment says. */
  datatype Payment = Payment(
    source: Bytes, destination: Bytes, sequence: i64, fee: u32, amount: i64,
    assetCode: Bytes, assetIssuer: Option<Bytes>, memo: Bytes, expiresAt: i64)

  function SourcePart(key: Bytes, p: Payment): Bytes {
    AccountBytes(key) + (Word(p.fee) + I64(p.sequence))
  }

  function TimePart(p: Payment): Bytes
    requires p.expiresAt > 0
  {
    I32(PRECOND_TIME) + (Long(0) + Long(p.expiresAt))
  }

  function MemoPart(p: Payment): Bytes
    requires |p.memo| <= MAX_MEMO
  {
    I32(MEMO_TEXT) + OpaqueBytes(p.memo)
  }

  function OperationPart(key: Bytes): Bytes {
    Word(1) + (I32(0) + (I32(OPERATION_PAYMENT) + AccountBytes(key)))
  }

  function AmountPart(p: Payment): Bytes {
    I64(p.amount) + I32(0)
  }

  /** The transaction body, or why the builder refuses. */
  function Body(p: Payment): Result<Bytes> {
    if p.amount <= 0 || p.expiresAt <= 0 then Err(InvalidIntent)
    else if |p.memo| == 0 || |p.memo| > MAX_MEMO then Err(InvalidMemo)
    else
      var source :- Account(p.source);
      var destination :- Account(p.destination);
      var asset :- AssetBytes(p.assetCode, p.assetIssuer);
      Ok(SourcePart(source, p) + (TimePart(p) + (MemoPart(p) + (OperationPart(destination) + (asset + AmountPart(p))))))
  }

  /** An envelope around a body: signatures is the encoded list that follows the body. */
  function Enveloped(body: Bytes, signatures: Bytes): Bytes {
    I32(ENVELOPE_TYPE_TX) + (body + signatures)
  }

  // ----- the reader -----

  datatype Got<+T> = Got(value: T, next: nat)

  function ReadFixed(bs: Bytes, at: nat, length: nat): (r: Result<Got<Bytes>>)
    ensures r.Ok? ==> |r.value.value| == length && at <= r.value.next <= |bs|
  {
    if at + length > |bs| then Err(InvalidXdr) else Ok(Got(bs[at..at + length], at + length))
  }

  function ReadU32(bs: Bytes, at: nat): (r: Result<Got<u32>>)
    ensures r.Ok? ==> at <= r.value.next <= |bs|
  {
    var b :- ReadFixed(bs, at, 4);
    Ok(Got(WordValue(b.value), b.next))
  }

  function ReadI32(bs: Bytes, at: nat): (r: Result<Got<i32>>)
    ensures r.Ok? ==> at <= r.value.next <= |bs|
  {
    var v :- ReadU32(bs, at);
    Ok(Got(Signed32(v.value), v.next))
  }

  function ReadU64(bs: Bytes, at: nat): (r: Result<Got<u64>>)
    ensures r.Ok? ==> at <= r.value.next <= |bs|
  {
    var b :- ReadFixed(bs, at, 8);
    Ok(Got(LongValue(b.value), b.next))
  }

  function ReadI64(bs: Bytes, at: nat): (r: Result<Got<i64>>)
    ensures r.Ok? ==> at <= r.value.next <= |bs|
  {
    var v :- ReadU64(bs, at);
    Ok(Got(Signed64(v.value), v.next))
  }

  function ReadAccount(bs: Bytes, at: nat): (r: Result<Got<Bytes>>)
    ensures r.Ok? ==> at <= r.value.next <= |bs|
  {
    var kind :- ReadI32(bs, at);
    if kind.value != KEY_TYPE_ED25519 then Err(UnsupportedMuxedAccount)
    else ReadFixed(bs, kind.next, 32)
  }

  predicate AllZero(b: Bytes) {
    forall i :: 0 <= i < |b| ==> b[i] == 0
  }

  function ReadVarOpaque(bs: Bytes, at: nat, max: nat): (r: Result<Got<Bytes>>)
    ensures r.Ok? ==> at <= r.value.next <= |bs|
  {
    var length :- ReadU32(bs, at);
    if length.value > max then Err(InvalidLength)
    else
      var value :- ReadFixed(bs, length.next, length.value);
      var padding :- ReadFixed(bs, value.next, Padding(length.value));
      if AllZero(padding.value) then Ok(Got(value.value, padding.next)) else Err(InvalidPadding)
  }

  function ReadText(bs: Bytes, at: nat, max: nat): (r: Result<Got<Bytes>>)
    ensures r.Ok? ==> at <= r.value.next <= |bs|
  {
    var b :- ReadVarOpaque(bs, at, max);
    if Utf8(b.value) then Ok(b) else Err(InvalidMemo)
  }

  /** Where the first zero is, or the length. */
  function FirstZero(b: Bytes): (n: nat)
    ensures n <= |b| && (n < |b| ==> b[n] == 0)
    ensures forall i :: 0 <= i < n ==> b[i] != 0
  {
    if |b| == 0 || b[0] == 0 then 0 else 1 + FirstZero(b[1..])
  }

  function AssetCode(b: Bytes): Result<Bytes> {
    var end := FirstZero(b);
    if end == 0 || !AllZero(b[end..]) then Err(InvalidAssetCode)
    else if !CodeBytes(b[..end]) then Err(InvalidAssetCode)
    else Ok(b[..end])
  }

  datatype Asset = Asset(code: Bytes, issuer: Option<Bytes>)

  function ReadIssued(bs: Bytes, at: nat, width: nat): (r: Result<Got<Asset>>)
    ensures r.Ok? ==> at <= r.value.next <= |bs|
  {
    var b :- ReadFixed(bs, at, width);
    var code :- AssetCode(b.value);
    var issuer :- ReadAccount(bs, b.next);
    Ok(Got(Asset(code, Some(issuer.value)), issuer.next))
  }

  function ReadAsset(bs: Bytes, at: nat): (r: Result<Got<Asset>>)
    ensures r.Ok? ==> at <= r.value.next <= |bs|
  {
    var kind :- ReadI32(bs, at);
    if kind.value == ASSET_NATIVE then Ok(Got(Asset(XLM, None), kind.next))
    else if kind.value == ASSET_ALPHANUM4 then ReadIssued(bs, kind.next, 4)
    else if kind.value == ASSET_ALPHANUM12 then ReadIssued(bs, kind.next, 12)
    else Err(UnsupportedAsset)
  }

  function ReadMaxTime(bs: Bytes, at: nat): (r: Result<Got<Option<u64>>>)
    ensures r.Ok? ==> at <= r.value.next <= |bs|
  {
    var kind :- ReadI32(bs, at);
    if kind.value == PRECOND_NONE then Ok(Got(None, kind.next))
    else if kind.value == PRECOND_TIME then
      var minTime :- ReadU64(bs, kind.next);
      var maxTime :- ReadU64(bs, minTime.next);
      Ok(Got(Some(maxTime.value), maxTime.next))
    else Err(UnsupportedPreconditions)
  }

  function ReadMemo(bs: Bytes, at: nat): (r: Result<Got<Option<Bytes>>>)
    ensures r.Ok? ==> at <= r.value.next <= |bs|
  {
    var kind :- ReadI32(bs, at);
    if kind.value == MEMO_NONE then Ok(Got(None, kind.next))
    else if kind.value == MEMO_TEXT then
      var text :- ReadText(bs, kind.next, MAX_MEMO);
      Ok(Got(Some(text.value), text.next))
    else Err(UnsupportedMemo)
  }

  /** One payment operation without a source of its own. */
  function ReadOperation(bs: Bytes, at: nat): (r: Result<Got<Bytes>>)
    ensures r.Ok? ==> at <= r.value.next <= |bs|
  {
    var count :- ReadU32(bs, at);
    if count.value != 1 then Err(RequiresOneOperation)
    else
      var source :- ReadI32(bs, count.next);
      if source.value != 0 then Err(OperationSourceNotAllowed)
      else
        var kind :- ReadI32(bs, source.next);
        if kind.value != OPERATION_PAYMENT then Err(UnsupportedOperation)
        else ReadAccount(bs, kind.next)
  }

  function ReadExtension(bs: Bytes, at: nat): (r: Result<Got<i32>>)
    ensures r.Ok? ==> at <= r.value.next <= |bs|
  {
    var extension :- ReadI32(bs, at);
    if extension.value != 0 then Err(UnsupportedExtension) else Ok(extension)
  }

  datatype Fields = Fields(
    source: Bytes, fee: u32, sequence: i64, maxTime: Option<u64>, memo: Option<Bytes>,
    destination: Bytes, asset: Asset, amount: i64)

  function ReadBody(bs: Bytes, at: nat): (r: Result<Got<Fields>>)
    ensures r.Ok? ==> at <= r.value.next <= |bs|
  {
    var source :- ReadAccount(bs, at);
    var fee :- ReadU32(bs, source.next);
    var sequence :- ReadI64(bs, fee.next);
    var maxTime :- ReadMaxTime(bs, sequence.next);
    var memo :- ReadMemo(bs, maxTime.next);
    var destination :- ReadOperation(bs, memo.next);
    var asset :- ReadAsset(bs, destination.next);
    var amount :- ReadI64(bs, asset.next);
    var extension :- ReadExtension(bs, amount.next);
    Ok(Got(Fields(source.value, fee.value, sequence.value, maxTime.value, memo.value,
                  destination.value, asset.value, amount.value), extension.next))
  }

  /** Skips n signatures: a hint of four bytes and up to 64 bytes each. */
  function SkipSignatures(bs: Bytes, at: nat, n: nat): Result<nat>
    decreases n
  {
    if n == 0 then Ok(at)
    else
      var hint :- ReadFixed(bs, at, 4);
      var signature :- ReadVarOpaque(bs, hint.next, 64);
      SkipSignatures(bs, signature.next, n - 1)
  }

  datatype Parsed = Parsed(body: Bytes, fields: Fields, signatureCount: u32)

  function ReadSignatures(bs: Bytes, at: nat): Result<u32> {
    var count :- ReadU32(bs, at);
    if count.value > MAX_SIGNATURES then Err(TooManySignatures)
    else
      var end :- SkipSignatures(bs, count.next, count.value);
      if end != |bs| then Err(TrailingBytes) else Ok(count.value)
  }

  function Parse(bs: Bytes): Result<Parsed> {
    var kind :- ReadI32(bs, 0);
    if kind.value != ENVELOPE_TYPE_TX then Err(UnsupportedEnvelopeType)
    else
      var body :- ReadBody(bs, kind.next);
      var count :- ReadSignatures(bs, body.next);
      Ok(Parsed(bs[kind.next..body.next], body.value, count))
  }

  // ----- UTF-8 -----

  predicate Continues(c: byte) {
    128 <= c <= 191
  }

  /** The length of the well-formed sequence at the head of b, or 0 (table 3-7 of the Unicode
      Standard, the test of String::from_utf8). */
  function HeadLength(b: Bytes): (n: nat)
    requires |b| > 0
    ensures n <= |b|
  {
    var c := b[0];
    if c < 128 then 1
    else if 194 <= c <= 223 && |b| >= 2 && Continues(b[1]) then 2
    else if 224 <= c <= 239 && |b| >= 3 && Continues(b[1]) && Continues(b[2])
      && (c == 224 ==> b[1] >= 160) && (c == 237 ==> b[1] <= 159) then 3
    else if 240 <= c <= 244 && |b| >= 4 && Continues(b[1]) && Continues(b[2]) && Continues(b[3])
      && (c == 240 ==> b[1] >= 144) && (c == 244 ==> b[1] <= 143) then 4
    else 0
  }

  predicate Utf8(b: Bytes)
    decreases |b|
  {
    |b| == 0 || (HeadLength(b) > 0 && Utf8(b[HeadLength(b)..]))
  }
}
