/** The reader undoes the writer, and the transaction body decides everything it reads. */
module EnvelopeProofs {
  import opened Wrappers
  import opened Bits
  import opened Envelope
  import Base64

  /** The bytes c stand in bs at the given position. */
  ghost predicate At(bs: Bytes, at: nat, c: Bytes) {
    at + |c| <= |bs| && bs[at..at + |c|] == c
  }

  lemma AtSplit(bs: Bytes, at: nat, a: Bytes, b: Bytes)
    requires At(bs, at, a + b)
    ensures At(bs, at, a) && At(bs, at + |a|, b)
  {
    var whole := bs[at..at + |a + b|];
    assert a == (a + b)[..|a|] && b == (a + b)[|a|..];
    assert bs[at..at + |a|] == whole[..|a|];
    assert bs[at + |a|..at + |a| + |b|] == whole[|a|..];
  }

  // ----- each reader finds what its writer wrote -----

  lemma U32At(bs: Bytes, at: nat, v: u32)
    requires At(bs, at, Word(v))
    ensures ReadU32(bs, at) == Ok(Got(v, at + 4))
  {
    hide Word, WordValue;
    WordRoundTrip(v);
  }

  lemma I32At(bs: Bytes, at: nat, v: i32)
    requires At(bs, at, I32(v))
    ensures ReadI32(bs, at) == Ok(Got(v, at + 4))
  {
    hide Word, WordValue;
    U32At(bs, at, Unsigned32(v));
  }

  lemma U64At(bs: Bytes, at: nat, v: u64)
    requires At(bs, at, Long(v))
    ensures ReadU64(bs, at) == Ok(Got(v, at + 8))
  {
    hide Long, LongValue;
    LongRoundTrip(v);
  }

  lemma I64At(bs: Bytes, at: nat, v: i64)
    requires At(bs, at, I64(v))
    ensures ReadI64(bs, at) == Ok(Got(v, at + 8))
  {
    hide Long, LongValue;
    U64At(bs, at, Unsigned64(v));
  }

  lemma AccountAt(bs: Bytes, at: nat, key: Bytes)
    requires |key| == 32 && At(bs, at, AccountBytes(key))
    ensures ReadAccount(bs, at) == Ok(Got(key, at + 36))
  {
    hide I32, ReadI32;
    AtSplit(bs, at, I32(KEY_TYPE_ED25519), key);
    I32Length(KEY_TYPE_ED25519);
    I32At(bs, at, KEY_TYPE_ED25519);
  }

  lemma I32Length(v: i32)
    ensures |I32(v)| == 4
  {
  }

  lemma OpaqueAt(bs: Bytes, at: nat, value: Bytes, max: nat)
    requires |value| <= max < 0x1_0000_0000 && At(bs, at, OpaqueBytes(value))
    ensures ReadVarOpaque(bs, at, max) == Ok(Got(value, at + |OpaqueBytes(value)|))
  {
    hide Word, ReadU32, Padding;
    var zeros := Zeros(Padding(|value|));
    AtSplit(bs, at, Word(|value|), value + zeros);
    AtSplit(bs, at + 4, value, zeros);
    U32At(bs, at, |value|);
  }

  lemma MemoAt(bs: Bytes, at: nat, p: Payment)
    requires |p.memo| <= MAX_MEMO && Utf8(p.memo) && At(bs, at, MemoPart(p))
    ensures ReadMemo(bs, at) == Ok(Got(Some(p.memo), at + |MemoPart(p)|))
  {
    hide I32, OpaqueBytes, ReadI32, ReadVarOpaque, Utf8;
    AtSplit(bs, at, I32(MEMO_TEXT), OpaqueBytes(p.memo));
    I32Length(MEMO_TEXT);
    I32At(bs, at, MEMO_TEXT);
    OpaqueAt(bs, at + 4, p.memo, MAX_MEMO);
  }

  lemma TimeAt(bs: Bytes, at: nat, p: Payment)
    requires p.expiresAt > 0 && At(bs, at, TimePart(p))
    ensures ReadMaxTime(bs, at) == Ok(Got(Some(p.expiresAt), at + |TimePart(p)|))
  {
    hide I32, Long, ReadI32, ReadU64;
    AtSplit(bs, at, I32(PRECOND_TIME), Long(0) + Long(p.expiresAt));
    I32Length(PRECOND_TIME);
    AtSplit(bs, at + 4, Long(0), Long(p.expiresAt));
    I32At(bs, at, PRECOND_TIME);
    U64At(bs, at + 4, 0);
    U64At(bs, at + 12, p.expiresAt);
  }

  lemma OperationAt(bs: Bytes, at: nat, key: Bytes)
    requires |key| == 32 && At(bs, at, OperationPart(key))
    ensures ReadOperation(bs, at) == Ok(Got(key, at + |OperationPart(key)|))
  {
    hide I32, Word, AccountBytes, ReadI32, ReadU32, ReadAccount;
    AtSplit(bs, at, Word(1), I32(0) + (I32(OPERATION_PAYMENT) + AccountBytes(key)));
    I32Length(0);
    I32Length(OPERATION_PAYMENT);
    AccountLength(key);
    AtSplit(bs, at + 4, I32(0), I32(OPERATION_PAYMENT) + AccountBytes(key));
    AtSplit(bs, at + 8, I32(OPERATION_PAYMENT), AccountBytes(key));
    U32At(bs, at, 1);
    I32At(bs, at + 4, 0);
    I32At(bs, at + 8, OPERATION_PAYMENT);
    AccountAt(bs, at + 12, key);
  }

  lemma AccountLength(key: Bytes)
    ensures |AccountBytes(key)| == 4 + |key|
  {
    I32Length(KEY_TYPE_ED25519);
  }

  lemma {:induction false} FirstZeroIs(code: Bytes, b: Bytes)
    requires |code| <= |b| && b[..|code|] == code && (forall i :: 0 <= i < |code| ==> code[i] != 0)
    requires |code| < |b| ==> b[|code|] == 0
    ensures FirstZero(b) == |code|
    decreases |code|
  {
    if |code| > 0 {
      assert b[0] == b[..|code|][0] == code[0];
      assert b[1..][..|code| - 1] == b[..|code|][1..] == code[1..];
      FirstZeroIs(code[1..], b[1..]);
    }
  }

  lemma CodeRoundTrip(code: Bytes, width: nat)
    requires 0 < |code| <= width && CodeBytes(code)
    ensures AssetCode(code + Zeros(width - |code|)) == Ok(code)
  {
    hide FirstZero;
    var b := code + Zeros(width - |code|);
    assert b[..|code|] == code && b[|code|..] == Zeros(width - |code|);
    FirstZeroIs(code, b);
  }

  /** The issuer's key behind its address. */
  function IssuerKey(issuer: Option<Bytes>): Option<Bytes> {
    match issuer
    case None => None
    case Some(text) => if Account(text).Ok? then Some(Account(text).value) else None
  }

  lemma IssuedAt(bs: Bytes, at: nat, code: Bytes, key: Bytes, width: nat)
    requires 0 < |code| <= width && CodeBytes(code) && |key| == 32
    requires At(bs, at, code + Zeros(width - |code|) + AccountBytes(key))
    ensures ReadIssued(bs, at, width) == Ok(Got(Asset(code, Some(key)), at + width + 36))
  {
    hide AssetCode, AccountBytes, ReadAccount, CodeBytes;
    var padded := code + Zeros(width - |code|);
    AtSplit(bs, at, padded, AccountBytes(key));
    AccountLength(key);
    CodeRoundTrip(code, width);
    AccountAt(bs, at + width, key);
  }

  lemma AssetAt(bs: Bytes, at: nat, code: Bytes, issuer: Option<Bytes>, b: Bytes)
    requires AssetBytes(code, issuer) == Ok(b) && At(bs, at, b)
    requires issuer.Some? && Account(issuer.value).Ok? ==> |Account(issuer.value).value| == 32
    ensures ReadAsset(bs, at) == Ok(Got(Asset(code, IssuerKey(issuer)), at + |b|))
  {
    hide I32, ReadI32, AccountBytes, ReadIssued, Account, CodeBytes;
    if code == XLM {
      I32Length(ASSET_NATIVE);
      I32At(bs, at, ASSET_NATIVE);
    } else {
      var key := Account(issuer.value).value;
      var width := if |code| <= 4 then 4 else 12;
      var kind := if |code| <= 4 then ASSET_ALPHANUM4 else ASSET_ALPHANUM12;
      AccountLength(key);
      I32Length(kind);
      AtSplit(bs, at, I32(kind), code + Zeros(width - |code|) + AccountBytes(key));
      I32At(bs, at, kind);
      IssuedAt(bs, at + 4, code, key, width);
    }
  }

  lemma AmountAt(bs: Bytes, at: nat, p: Payment)
    requires At(bs, at, AmountPart(p))
    ensures ReadI64(bs, at) == Ok(Got(p.amount, at + 8))
    ensures ReadExtension(bs, at + 8) == Ok(Got(0, at + 12))
    ensures |AmountPart(p)| == 12
  {
    hide I64, I32, ReadI64, ReadI32;
    LongLength(p.amount);
    I32Length(0);
    AtSplit(bs, at, I64(p.amount), I32(0));
    I64At(bs, at, p.amount);
    I32At(bs, at + 8, 0);
  }

  lemma LongLength(v: i64)
    ensures |I64(v)| == 8
  {
  }

  lemma SourceAt(bs: Bytes, at: nat, key: Bytes, p: Payment)
    requires |key| == 32 && At(bs, at, SourcePart(key, p))
    ensures ReadAccount(bs, at) == Ok(Got(key, at + 36))
    ensures ReadU32(bs, at + 36) == Ok(Got(p.fee, at + 40))
    ensures ReadI64(bs, at + 40) == Ok(Got(p.sequence, at + 48))
    ensures |SourcePart(key, p)| == 48
  {
    hide I64, Word, AccountBytes, ReadI64, ReadU32, ReadAccount;
    LongLength(p.sequence);
    AccountLength(key);
    AtSplit(bs, at, AccountBytes(key), Word(p.fee) + I64(p.sequence));
    AtSplit(bs, at + 36, Word(p.fee), I64(p.sequence));
    AccountAt(bs, at, key);
    U32At(bs, at + 36, p.fee);
    I64At(bs, at + 40, p.sequence);
  }

  // ----- the whole body -----

  /** The fields a parser should report for a payment. */
  function FieldsOf(p: Payment): Fields
    requires Body(p).Ok?
  {
    Fields(Account(p.source).value, p.fee, p.sequence, Some(p.expiresAt), Some(p.memo),
           Account(p.destination).value, Asset(p.assetCode, IssuerKey(p.assetIssuer)), p.amount)
  }

  lemma KeysAreLong(text: Bytes)
    ensures Account(text).Ok? ==> |Account(text).value| == 32
  {
  }

  /** Wherever a built body stands, the reader reads back exactly the payment, and stops
      where the body ends. */
  lemma BodyRoundTrip(bs: Bytes, at: nat, p: Payment, body: Bytes)
    requires Body(p) == Ok(body) && Utf8(p.memo) && At(bs, at, body)
    ensures ReadBody(bs, at) == Ok(Got(FieldsOf(p), at + |body|))
  {
    hide Account, AssetBytes, SourcePart, TimePart, MemoPart, OperationPart, AmountPart, Utf8, IssuerKey;
    hide ReadAccount, ReadU32, ReadI64, ReadMaxTime, ReadMemo, ReadOperation, ReadAsset, ReadExtension;
    var source, destination := Account(p.source).value, Account(p.destination).value;
    KeysAreLong(p.source);
    KeysAreLong(p.destination);
    if p.assetIssuer.Some? {
      KeysAreLong(p.assetIssuer.value);
    }
    var asset := AssetBytes(p.assetCode, p.assetIssuer).value;
    var c1, c2, c3, c4, c6 := SourcePart(source, p), TimePart(p), MemoPart(p), OperationPart(destination), AmountPart(p);
    AtSplit(bs, at, c1, c2 + (c3 + (c4 + (asset + c6))));
    var a2 := at + |c1|;
    AtSplit(bs, a2, c2, c3 + (c4 + (asset + c6)));
    var a3 := a2 + |c2|;
    AtSplit(bs, a3, c3, c4 + (asset + c6));
    var a4 := a3 + |c3|;
    AtSplit(bs, a4, c4, asset + c6);
    var a5 := a4 + |c4|;
    AtSplit(bs, a5, asset, c6);
    SourceAt(bs, at, source, p);
    TimeAt(bs, a2, p);
    MemoAt(bs, a3, p);
    OperationAt(bs, a4, destination);
    AssetAt(bs, a5, p.assetCode, p.assetIssuer, asset);
    AmountAt(bs, a5 + |asset|, p);
  }

  // ----- the whole envelope -----

  datatype Signature = Signature(hint: Bytes, value: Bytes)

  ghost predicate WellFormed(signatures: seq<Signature>) {
    forall i :: 0 <= i < |signatures| ==> |signatures[i].hint| == 4 && |signatures[i].value| <= 64
  }

  function SignatureList(signatures: seq<Signature>): Bytes
    requires WellFormed(signatures)
  {
    if |signatures| == 0 then []
    else signatures[0].hint + (OpaqueBytes(signatures[0].value) + SignatureList(signatures[1..]))
  }

  lemma {:induction false} SignaturesAt(bs: Bytes, at: nat, signatures: seq<Signature>)
    requires WellFormed(signatures) && At(bs, at, SignatureList(signatures))
    ensures SkipSignatures(bs, at, |signatures|) == Ok(at + |SignatureList(signatures)|)
    decreases |signatures|
  {
    hide ReadVarOpaque, OpaqueBytes;
    if |signatures| > 0 {
      var s, rest := signatures[0], signatures[1..];
      AtSplit(bs, at, s.hint, OpaqueBytes(s.value) + SignatureList(rest));
      AtSplit(bs, at + 4, OpaqueBytes(s.value), SignatureList(rest));
      OpaqueAt(bs, at + 4, s.value, 64);
      SignaturesAt(bs, at + 4 + |OpaqueBytes(s.value)|, rest);
    }
  }

  function Signed(body: Bytes, signatures: seq<Signature>): Bytes
    requires WellFormed(signatures) && |signatures| <= MAX_SIGNATURES
  {
    Enveloped(body, Word(|signatures|) + SignatureList(signatures))
  }

  lemma ListAt(bs: Bytes, at: nat, signatures: seq<Signature>)
    requires WellFormed(signatures) && |signatures| <= MAX_SIGNATURES
    requires At(bs, at, Word(|signatures|) + SignatureList(signatures))
    requires |bs| == at + |Word(|signatures|) + SignatureList(signatures)|
    ensures ReadSignatures(bs, at) == Ok(|signatures|)
  {
    hide Word, SignatureList, ReadU32, SkipSignatures;
    AtSplit(bs, at, Word(|signatures|), SignatureList(signatures));
    U32At(bs, at, |signatures|);
    SignaturesAt(bs, at + 4, signatures);
  }

  /** The envelope of a payment, unsigned or with up to twenty signatures, parses to exactly
      that payment, that body and that number of signatures. */
  lemma ParseUndoesBuild(p: Payment, body: Bytes, signatures: seq<Signature>)
    requires Body(p) == Ok(body) && Utf8(p.memo)
    requires WellFormed(signatures) && |signatures| <= MAX_SIGNATURES
    ensures Parse(Signed(body, signatures)) == Ok(Parsed(body, FieldsOf(p), |signatures|))
  {
    hide Body, FieldsOf, I32, Word, SignatureList, ReadI32, ReadBody, ReadSignatures, Utf8;
    var bs := Signed(body, signatures);
    var list := Word(|signatures|) + SignatureList(signatures);
    assert At(bs, 0, bs);
    I32Length(ENVELOPE_TYPE_TX);
    AtSplit(bs, 0, I32(ENVELOPE_TYPE_TX), body + list);
    AtSplit(bs, 4, body, list);
    I32At(bs, 0, ENVELOPE_TYPE_TX);
    BodyRoundTrip(bs, 4, p, body);
    ListAt(bs, 4 + |body|, signatures);
  }

  /** The same, through the base64 text that carries the envelope. */
  lemma TextRoundTrip(p: Payment, body: Bytes, signatures: seq<Signature>)
    requires Body(p) == Ok(body) && Utf8(p.memo)
    requires WellFormed(signatures) && |signatures| <= MAX_SIGNATURES
    ensures var decoded := Base64.Decode(Base64.Encode(Signed(body, signatures)));
            decoded.Ok? && Parse(decoded.value) == Ok(Parsed(body, FieldsOf(p), |signatures|))
  {
    hide Body, FieldsOf, SignatureList, Parse, Base64.Decode, Base64.Encode;
    I32Length(ENVELOPE_TYPE_TX);
    Base64.RoundTrip(Signed(body, signatures));
    ParseUndoesBuild(p, body, signatures);
  }

  // ----- the body decides -----

  /** Whatever else an accepted envelope holds, if its body is the one built for a payment it
      reports that payment. */
  lemma BodyDecides(p: Payment, body: Bytes, bs: Bytes, parsed: Parsed)
    requires Body(p) == Ok(body) && Utf8(p.memo)
    requires Parse(bs) == Ok(parsed) && parsed.body == body
    ensures parsed.fields == FieldsOf(p)
  {
    hide Body, FieldsOf, ReadBody, ReadSignatures, Utf8;
    ParsedBodyStands(bs, parsed);
    BodyRoundTrip(bs, 4, p, body);
  }

  // ----- the reader looks at nothing but the body -----

  ghost predicate Same(a: Bytes, b: Bytes, from: nat, to: nat) {
    from <= to <= |a| && to <= |b| && a[from..to] == b[from..to]
  }

  lemma SameFixed(a: Bytes, b: Bytes, from: nat, to: nat, at: nat, n: nat)
    requires Same(a, b, from, to) && from <= at && at + n <= to
    ensures ReadFixed(a, at, n) == ReadFixed(b, at, n) && ReadFixed(a, at, n).Ok?
  {
    forall i | at <= i < at + n
      ensures a[i] == b[i]
    {
      assert a[i] == a[from..to][i - from] == b[from..to][i - from];
    }
    assert a[at..at + n] == b[at..at + n];
  }

  lemma SameU32(a: Bytes, b: Bytes, from: nat, to: nat, at: nat)
    requires Same(a, b, from, to) && from <= at && ReadU32(a, at).Ok? && ReadU32(a, at).value.next <= to
    ensures ReadU32(b, at) == ReadU32(a, at)
    ensures ReadI32(b, at) == ReadI32(a, at)
  {
    hide WordValue;
    SameFixed(a, b, from, to, at, 4);
  }

  lemma SameI64(a: Bytes, b: Bytes, from: nat, to: nat, at: nat)
    requires Same(a, b, from, to) && from <= at && ReadU64(a, at).Ok? && ReadU64(a, at).value.next <= to
    ensures ReadU64(b, at) == ReadU64(a, at)
    ensures ReadI64(b, at) == ReadI64(a, at)
  {
    hide LongValue;
    SameFixed(a, b, from, to, at, 8);
  }

  lemma SameAccount(a: Bytes, b: Bytes, from: nat, to: nat, at: nat)
    requires Same(a, b, from, to) && from <= at && ReadAccount(a, at).Ok? && ReadAccount(a, at).value.next <= to
    ensures ReadAccount(b, at) == ReadAccount(a, at)
  {
    hide ReadU32;
    SameU32(a, b, from, to, at);
    SameFixed(a, b, from, to, ReadI32(a, at).value.next, 32);
  }

  lemma SameOpaque(a: Bytes, b: Bytes, from: nat, to: nat, at: nat, max: nat)
    requires Same(a, b, from, to) && from <= at && ReadVarOpaque(a, at, max).Ok? && ReadVarOpaque(a, at, max).value.next <= to
    ensures ReadVarOpaque(b, at, max) == ReadVarOpaque(a, at, max)
  {
    hide ReadU32, AllZero, Padding;
    SameU32(a, b, from, to, at);
    var length := ReadU32(a, at).value;
    SameFixed(a, b, from, to, length.next, length.value);
    SameFixed(a, b, from, to, length.next + length.value, Padding(length.value));
  }

  lemma SameMemo(a: Bytes, b: Bytes, from: nat, to: nat, at: nat)
    requires Same(a, b, from, to) && from <= at && ReadMemo(a, at).Ok? && ReadMemo(a, at).value.next <= to
    ensures ReadMemo(b, at) == ReadMemo(a, at)
  {
    hide ReadU32, ReadVarOpaque, Utf8;
    SameU32(a, b, from, to, at);
    if ReadI32(a, at).value.value == MEMO_TEXT {
      SameOpaque(a, b, from, to, ReadI32(a, at).value.next, MAX_MEMO);
    }
  }

  lemma SameMaxTime(a: Bytes, b: Bytes, from: nat, to: nat, at: nat)
    requires Same(a, b, from, to) && from <= at && ReadMaxTime(a, at).Ok? && ReadMaxTime(a, at).value.next <= to
    ensures ReadMaxTime(b, at) == ReadMaxTime(a, at)
  {
    hide ReadU32, ReadU64;
    SameU32(a, b, from, to, at);
    var kind := ReadI32(a, at).value;
    if kind.value == PRECOND_TIME {
      SameI64(a, b, from, to, kind.next);
      SameI64(a, b, from, to, ReadU64(a, kind.next).value.next);
    }
  }

  lemma SameOperation(a: Bytes, b: Bytes, from: nat, to: nat, at: nat)
    requires Same(a, b, from, to) && from <= at && ReadOperation(a, at).Ok? && ReadOperation(a, at).value.next <= to
    ensures ReadOperation(b, at) == ReadOperation(a, at)
  {
    hide ReadU32, ReadAccount;
    SameU32(a, b, from, to, at);
    var source := ReadU32(a, at).value.next;
    SameU32(a, b, from, to, source);
    var kind := ReadI32(a, source).value.next;
    SameU32(a, b, from, to, kind);
    SameAccount(a, b, from, to, ReadI32(a, kind).value.next);
  }

  lemma SameIssued(a: Bytes, b: Bytes, from: nat, to: nat, at: nat, width: nat)
    requires Same(a, b, from, to) && from <= at && ReadIssued(a, at, width).Ok? && ReadIssued(a, at, width).value.next <= to
    ensures ReadIssued(b, at, width) == ReadIssued(a, at, width)
  {
    hide AssetCode, ReadAccount;
    SameFixed(a, b, from, to, at, width);
    SameAccount(a, b, from, to, at + width);
  }

  lemma SameAsset(a: Bytes, b: Bytes, from: nat, to: nat, at: nat)
    requires Same(a, b, from, to) && from <= at && ReadAsset(a, at).Ok? && ReadAsset(a, at).value.next <= to
    ensures ReadAsset(b, at) == ReadAsset(a, at)
  {
    hide ReadU32, ReadIssued;
    SameU32(a, b, from, to, at);
    var kind := ReadI32(a, at).value;
    if kind.value == ASSET_ALPHANUM4 {
      SameIssued(a, b, from, to, kind.next, 4);
    } else if kind.value == ASSET_ALPHANUM12 {
      SameIssued(a, b, from, to, kind.next, 12);
    }
  }

  lemma SameBody(a: Bytes, b: Bytes, at: nat, to: nat)
    requires Same(a, b, at, to) && ReadBody(a, at).Ok? && ReadBody(a, at).value.next == to
    ensures ReadBody(b, at) == ReadBody(a, at)
  {
    hide ReadAccount, ReadU32, ReadU64, ReadMaxTime, ReadMemo, ReadOperation, ReadAsset;
    SameAccount(a, b, at, to, at);
    var fee := ReadAccount(a, at).value.next;
    SameU32(a, b, at, to, fee);
    var sequence := ReadU32(a, fee).value.next;
    SameI64(a, b, at, to, sequence);
    var maxTime := ReadI64(a, sequence).value.next;
    SameMaxTime(a, b, at, to, maxTime);
    var memo := ReadMaxTime(a, maxTime).value.next;
    SameMemo(a, b, at, to, memo);
    var operation := ReadMemo(a, memo).value.next;
    SameOperation(a, b, at, to, operation);
    var asset := ReadOperation(a, operation).value.next;
    SameAsset(a, b, at, to, asset);
    var amount := ReadAsset(a, asset).value.next;
    SameI64(a, b, at, to, amount);
    SameU32(a, b, at, to, ReadI64(a, amount).value.next);
  }

  /** Two accepted envelopes with one body report the same payment, whoever built them and
      however they are signed. */
  lemma BodyFixesFields(a: Bytes, b: Bytes, x: Parsed, y: Parsed)
    requires Parse(a) == Ok(x) && Parse(b) == Ok(y) && x.body == y.body
    ensures x.fields == y.fields
  {
    hide ReadBody, ReadSignatures;
    ParsedBodyStands(a, x);
    ParsedBodyStands(b, y);
    SameBody(a, b, 4, 4 + |x.body|);
  }

  lemma ParsedBodyStands(bs: Bytes, parsed: Parsed)
    requires Parse(bs) == Ok(parsed)
    ensures At(bs, 4, parsed.body) && ReadBody(bs, 4) == Ok(Got(parsed.fields, 4 + |parsed.body|))
  {
    hide ReadBody, ReadSignatures, WordValue;
  }

  /** What the intent records of a payment. */
  datatype Intent = Intent(
    source: Bytes, destination: Bytes, sequence: i64, baseFee: i32, amount: i64, assetCode: Bytes,
    assetIssuer: Option<Bytes>, memo: Bytes, expiresAt: i64, bodyHash: string)

  type Hash = Bytes -> string

  /** The intent for a payment whose built body has a certain digest. */
  function DraftOf(p: Payment, digest: string): Intent {
    Intent(p.source, p.destination, p.sequence, Signed32(p.fee), p.amount, p.assetCode,
           p.assetIssuer, p.memo, p.expiresAt, digest)
  }

  function IntentOf(h: Hash, p: Payment, body: Bytes): Intent {
    DraftOf(p, h(body))
  }

  /** The comparison of a signed envelope, whose body has a certain digest, with the intent it
      answers. */
  function ValidateDigest(digest: string, fields: Fields, intent: Intent): Result<()> {
    if digest != intent.bodyHash then Err(BodyMismatch)
    else
      var source :- Account(intent.source);
      if fields.source != source then Err(IntentMismatch)
      else
        var destination :- Account(intent.destination);
        if || fields.destination != destination
           || fields.sequence != intent.sequence
           || fields.fee != Unsigned32(intent.baseFee)
           || fields.amount != intent.amount
           || fields.asset.code != intent.assetCode
           || fields.memo != Some(intent.memo)
        then Err(IntentMismatch)
        else
          var issuer :- ExpectedIssuer(intent.assetIssuer);
          if fields.asset.issuer != issuer then Err(AssetMismatch)
          else if intent.expiresAt <= 0 || fields.maxTime != Some(intent.expiresAt) then Err(ExpiryMismatch)
          else Ok(())
  }

  function Validate(h: Hash, parsed: Parsed, intent: Intent): Result<()> {
    ValidateDigest(h(parsed.body), parsed.fields, intent)
  }

  /** The fields of an envelope are those of an intent, with the keys behind its addresses. */
  ghost predicate Says(fields: Fields, intent: Intent) {
    && Account(intent.source) == Ok(fields.source) && Account(intent.destination) == Ok(fields.destination)
    && fields.sequence == intent.sequence && fields.fee == Unsigned32(intent.baseFee)
    && fields.amount == intent.amount && fields.asset.code == intent.assetCode
    && ExpectedIssuer(intent.assetIssuer) == Ok(fields.asset.issuer)
    && fields.memo == Some(intent.memo) && intent.expiresAt > 0 && fields.maxTime == Some(intent.expiresAt)
  }

  lemma ValidMeansSays(digest: string, fields: Fields, intent: Intent)
    ensures ValidateDigest(digest, fields, intent).Ok? <==> digest == intent.bodyHash && Says(fields, intent)
  {
    hide Account, Unsigned32;
  }

  function ExpectedIssuer(issuer: Option<Bytes>): Result<Option<Bytes>> {
    match issuer
    case None => Ok(None)
    case Some(text) =>
      var key :- Account(text);
      Ok(Some(key))
  }

  /** Validation accepts exactly the envelopes with the hash of the built body and all fields of
      the payment, so even a colliding body would have to say the same; and the built body itself
      is always accepted. */
  lemma HashDecides(h: Hash, p: Payment, body: Bytes, bs: Bytes, parsed: Parsed)
    requires Body(p) == Ok(body) && Utf8(p.memo) && Parse(bs) == Ok(parsed)
    ensures var intent := IntentOf(h, p, body);
            && (h(parsed.body) != h(body) ==> Validate(h, parsed, intent) == Err(BodyMismatch))
            && (Validate(h, parsed, intent) == Ok(()) <==> h(parsed.body) == h(body) && parsed.fields == FieldsOf(p))
            && (parsed.body == body ==> Validate(h, parsed, intent) == Ok(()))
  {
    if parsed.body == body {
      BodyDecides(p, body, bs, parsed);
    }
    AcceptsTheFields(h, p, body, parsed);
  }

  lemma FeeSurvives(fee: u32)
    ensures Unsigned32(Signed32(fee)) == fee
  {
  }

  lemma AcceptsTheFields(h: Hash, p: Payment, body: Bytes, parsed: Parsed)
    requires Body(p) == Ok(body)
    ensures Validate(h, parsed, IntentOf(h, p, body)) == Ok(()) <==> h(parsed.body) == h(body) && parsed.fields == FieldsOf(p)
  {
    hide Account, SourcePart, TimePart, MemoPart, OperationPart, AmountPart, Signed32, Unsigned32;
    FeeSurvives(p.fee);
  }

  lemma DraftAccepted(p: Payment, digest: string)
    requires Body(p).Ok?
    ensures ValidateDigest(digest, FieldsOf(p), DraftOf(p, digest)) == Ok(())
  {
    hide Account, SourcePart, TimePart, MemoPart, OperationPart, AmountPart, Signed32, Unsigned32;
    FeeSurvives(p.fee);
  }
}
