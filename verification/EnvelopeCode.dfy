/** The writer that grows a buffer and the reader that moves a cursor, as the service runs them. */
module EnvelopeCode {
  import opened Wrappers
  import opened Bits
  import opened Envelope
  import opened EnvelopeProofs
  import Base64
  import AddressCode
  import EnvelopeLayout

  /** A growing byte vector. */
  class Output {
    var bytes: Bytes

    constructor ()
      ensures bytes == []
    {
      bytes := [];
    }

    method WriteU32(v: u32)
      modifies this
      ensures bytes == old(bytes) + Word(v)
    {
      bytes := bytes + [v / 0x100_0000, v / 0x1_0000 % 256, v / 256 % 256, v % 256];
    }

    method WriteI32(v: i32)
      modifies this
      ensures bytes == old(bytes) + I32(v)
    {
      WriteU32(Unsigned32(v));
    }

    method WriteU64(v: u64)
      modifies this
      ensures bytes == old(bytes) + Long(v)
    {
      WriteU32(v / 0x1_0000_0000);
      WriteU32(v % 0x1_0000_0000);
    }

    method WriteI64(v: i64)
      modifies this
      ensures bytes == old(bytes) + I64(v)
    {
      WriteU64(Unsigned64(v));
    }

    method Extend(value: Bytes)
      modifies this
      ensures bytes == old(bytes) + value
    {
      bytes := bytes + value;
    }

    /** resize by n zeros */
    method Pad(n: nat)
      modifies this
      ensures bytes == old(bytes) + Zeros(n)
    {
      for i := 0 to n
        invariant bytes == old(bytes) + Zeros(i)
      {
        bytes := bytes + [0];
      }
    }

    method WriteAccount(key: Bytes)
      modifies this
      ensures bytes == old(bytes) + AccountBytes(key)
    {
      WriteI32(KEY_TYPE_ED25519);
      Extend(key);
    }

    method WriteXdrString(value: Bytes, max: nat) returns (r: Result<()>)
      requires max < 0x1_0000_0000
      modifies this
      ensures |value| > max ==> r == Err(InvalidMemo) && bytes == old(bytes)
      ensures |value| <= max ==> r == Ok(()) && bytes == old(bytes) + OpaqueBytes(value)
    {
      if |value| > max {
        return Err(InvalidMemo);
      }
      WriteU32(|value|);
      Extend(value);
      Pad(Padding(|value|));
      return Ok(());
    }

    method WriteAsset(code: Bytes, issuer: Option<Bytes>) returns (r: Result<()>)
      modifies this
      ensures AssetBytes(code, issuer).Ok? ==> r == Ok(()) && bytes == old(bytes) + AssetBytes(code, issuer).value
      ensures AssetBytes(code, issuer).Err? ==> r == Err(AssetBytes(code, issuer).error)
    {
      hide Account, IssuedAsset, I32;
      if code == XLM {
        if issuer.Some? {
          return Err(XlmMustNotHaveIssuer);
        }
        WriteI32(ASSET_NATIVE);
        return Ok(());
      }
      if issuer.None? {
        return Err(IssuerRequired);
      }
      var issuerKey := DecodeAccount(issuer.value);
      var key :- issuerKey;
      r := WriteIssued(code, key);
    }

    method WriteIssued(code: Bytes, key: Bytes) returns (r: Result<()>)
      modifies this
      ensures |code| > 12 || |code| == 0 || !CodeBytes(code) ==> r == Err(InvalidAssetCode)
      ensures 0 < |code| <= 12 && CodeBytes(code) ==> r == Ok(()) && bytes == old(bytes) + IssuedAsset(code, key)
    {
      hide I32, AccountBytes, CodeBytes;
      var width := 4;
      if |code| <= 4 {
        WriteI32(ASSET_ALPHANUM4);
      } else if |code| <= 12 {
        WriteI32(ASSET_ALPHANUM12);
        width := 12;
      } else {
        return Err(InvalidAssetCode);
      }
      if |code| == 0 || !CodeBytes(code) {
        return Err(InvalidAssetCode);
      }
      Extend(code);
      Pad(width - |code|);
      WriteAccount(key);
      return Ok(());
    }

    method WriteSource(key: Bytes, p: Payment)
      modifies this
      ensures bytes == old(bytes) + SourcePart(key, p)
    {
      hide AccountBytes, Word, I64;
      WriteAccount(key);
      WriteU32(p.fee);
      WriteI64(p.sequence);
    }

    method WriteTimes(p: Payment)
      requires p.expiresAt > 0
      modifies this
      ensures bytes == old(bytes) + TimePart(p)
    {
      hide I32, Long;
      WriteI32(PRECOND_TIME);
      WriteU64(0);
      WriteU64(p.expiresAt);
    }

    method WriteMemo(p: Payment)
      requires |p.memo| <= MAX_MEMO
      modifies this
      ensures bytes == old(bytes) + MemoPart(p)
    {
      hide I32, OpaqueBytes;
      WriteI32(MEMO_TEXT);
      var memo := WriteXdrString(p.memo, MAX_MEMO);
    }

    method WriteOperation(key: Bytes)
      modifies this
      ensures bytes == old(bytes) + OperationPart(key)
    {
      hide I32, Word, AccountBytes;
      WriteU32(1);
      WriteI32(0);
      WriteI32(OPERATION_PAYMENT);
      WriteAccount(key);
    }

    method WriteAmount(p: Payment)
      modifies this
      ensures bytes == old(bytes) + AmountPart(p)
    {
      hide I32, I64;
      WriteI64(p.amount);
      WriteI32(0);
    }
  }

  method DecodeAccount(text: Bytes) returns (r: Result<Bytes>)
    ensures r == Account(text)
  {
    var key := AddressCode.DecodeStellarAccount(text);
    return FromStrKey(key);
  }

  datatype Built = Built(text: Bytes, bodyHash: string, envelopeHash: string)

  /** Builds the envelope, or reports the first thing wrong with the request. */
  method BuildUnsignedPaymentEnvelope(h: Hash, p: Payment) returns (r: Result<Built>)
    ensures Body(p).Err? ==> r == Err(Body(p).error)
    ensures Body(p).Ok? ==>
      var body := Body(p).value;
      r == Ok(Built(Base64.Encode(Signed(body, [])), h(body), h(Signed(body, []))))
    ensures r.Ok? ==> exists body: Bytes ::
      IsLaid(body, p) && r.value == Built(Base64.Encode([0, 0, 0, 2] + (body + [0, 0, 0, 0])), h(body), h([0, 0, 0, 2] + (body + [0, 0, 0, 0])))
  {
    BodyIsLaid(p);
    if p.amount <= 0 || p.expiresAt <= 0 {
      return Err(InvalidIntent);
    }
    if |p.memo| == 0 || |p.memo| > MAX_MEMO {
      return Err(InvalidMemo);
    }
    var sourceKey := DecodeAccount(p.source);
    var source :- sourceKey;
    var destinationKey := DecodeAccount(p.destination);
    var destination :- destinationKey;
    var written := WriteBody(source, destination, p);
    var body :- written;
    var envelope := new Output();
    envelope.WriteI32(ENVELOPE_TYPE_TX);
    envelope.Extend(body);
    envelope.WriteU32(0);
    UnsignedIs(body, envelope.bytes);
    EnvelopeLayout.UnsignedLayout(body);
    var text := Base64.EncodeBase64(envelope.bytes);
    return Ok(Built(text, h(body), h(envelope.bytes)));
  }

  /** The body of a payment, byte by byte. */
  ghost predicate IsLaid(body: Bytes, p: Payment) {
    exists operation: nat, asset: nat, amount: nat :: EnvelopeLayout.Laid(body, p, operation, asset, amount)
  }

  lemma BodyIsLaid(p: Payment)
    ensures Body(p).Ok? ==> IsLaid(Body(p).value, p)
  {
    if Body(p).Ok? {
      EnvelopeLayout.BuildsThisLayout(p, Body(p).value);
    }
    hide *;
  }

  lemma UnsignedIs(body: Bytes, bytes: Bytes)
    requires bytes == [] + I32(ENVELOPE_TYPE_TX) + body + Word(0)
    ensures bytes == Signed(body, [])
  {
    hide I32, Word;
    assert Word(0) + [] == Word(0);
  }

  method WriteBody(source: Bytes, destination: Bytes, p: Payment) returns (r: Result<Bytes>)
    requires p.amount > 0 && p.expiresAt > 0 && 0 < |p.memo| <= MAX_MEMO
    requires Account(p.source) == Ok(source) && Account(p.destination) == Ok(destination)
    ensures r == Body(p) && (r.Ok? ==> IsLaid(r.value, p))
  {
    BodyIsLaid(p);
    hide IsLaid, Account, AssetBytes, SourcePart, TimePart, MemoPart, OperationPart, AmountPart;
    var output := new Output();
    output.WriteSource(source, p);
    output.WriteTimes(p);
    output.WriteMemo(p);
    output.WriteOperation(destination);
    var asset := output.WriteAsset(p.assetCode, p.assetIssuer);
    if asset.Err? {
      return Err(asset.error);
    }
    output.WriteAmount(p);
    Reassociate(SourcePart(source, p), TimePart(p), MemoPart(p), OperationPart(destination),
                AssetBytes(p.assetCode, p.assetIssuer).value, AmountPart(p));
    return Ok(output.bytes);
  }

  lemma Reassociate(a: Bytes, b: Bytes, c: Bytes, d: Bytes, e: Bytes, f: Bytes)
    ensures [] + a + b + c + d + e + f == a + (b + (c + (d + (e + f))))
  {
  }

  /** A cursor over a byte slice. */
  class XdrReader {
    const bytes: Bytes
    var position: nat

    ghost predicate Valid()
      reads this
    {
      position <= |bytes|
    }

    constructor (slice: Bytes)
      ensures bytes == slice && position == 0 && Valid()
    {
      bytes, position := slice, 0;
    }

    /** The reading succeeded with the value and the cursor the specification gives, or failed
        with its error. */
    ghost predicate Read<T>(expected: Result<Got<T>>, r: Result<T>)
      reads this
    {
      match expected
      case Ok(got) => r == Ok(got.value) && position == got.next
      case Err(e) => r == Err(e)
    }

    method ReadFixed(length: nat) returns (r: Result<Bytes>)
      requires Valid()
      modifies this`position
      ensures Valid() && Read(Envelope.ReadFixed(bytes, old(position), length), r)
    {
      var end := position + length;
      if end > |bytes| {
        return Err(InvalidXdr);
      }
      r := Ok(bytes[position..end]);
      position := end;
    }

    method ReadU32() returns (r: Result<u32>)
      requires Valid()
      modifies this`position
      ensures Valid() && Read(Envelope.ReadU32(bytes, old(position)), r)
    {
      var b :- ReadFixed(4);
      return Ok(WordValue(b));
    }

    method ReadI32() returns (r: Result<i32>)
      requires Valid()
      modifies this`position
      ensures Valid() && Read(Envelope.ReadI32(bytes, old(position)), r)
    {
      var v :- ReadU32();
      return Ok(Signed32(v));
    }

    method ReadU64() returns (r: Result<u64>)
      requires Valid()
      modifies this`position
      ensures Valid() && Read(Envelope.ReadU64(bytes, old(position)), r)
    {
      var b :- ReadFixed(8);
      return Ok(LongValue(b));
    }

    method ReadI64() returns (r: Result<i64>)
      requires Valid()
      modifies this`position
      ensures Valid() && Read(Envelope.ReadI64(bytes, old(position)), r)
    {
      var v :- ReadU64();
      return Ok(Signed64(v));
    }

    method ReadEd25519Account() returns (r: Result<Bytes>)
      requires Valid()
      modifies this`position
      ensures Valid() && Read(ReadAccount(bytes, old(position)), r)
    {
      hide Envelope.ReadI32;
      var kind :- ReadI32();
      if kind != KEY_TYPE_ED25519 {
        return Err(UnsupportedMuxedAccount);
      }
      r := ReadFixed(32);
    }

    method ReadVarOpaque(max: nat) returns (r: Result<Bytes>)
      requires Valid()
      modifies this`position
      ensures Valid() && Read(Envelope.ReadVarOpaque(bytes, old(position), max), r)
    {
      hide Envelope.ReadU32, Padding;
      var length :- ReadU32();
      if length > max {
        return Err(InvalidLength);
      }
      var value :- ReadFixed(length);
      var padding :- ReadFixed(Padding(length));
      if !AllZero(padding) {
        return Err(InvalidPadding);
      }
      return Ok(value);
    }

    method ReadXdrString(max: nat) returns (r: Result<Bytes>)
      requires Valid()
      modifies this`position
      ensures Valid() && Read(ReadText(bytes, old(position), max), r)
    {
      hide Envelope.ReadVarOpaque, Utf8;
      var value :- ReadVarOpaque(max);
      if !Utf8(value) {
        return Err(InvalidMemo);
      }
      return Ok(value);
    }

    method ReadIssued(width: nat) returns (r: Result<Asset>)
      requires Valid()
      modifies this`position
      ensures Valid() && Read(Envelope.ReadIssued(bytes, old(position), width), r)
    {
      hide AssetCode, ReadAccount;
      var b :- ReadFixed(width);
      var code :- AssetCode(b);
      var issuer :- ReadEd25519Account();
      return Ok(Asset(code, Some(issuer)));
    }

    method ReadAsset() returns (r: Result<Asset>)
      requires Valid()
      modifies this`position
      ensures Valid() && Read(Envelope.ReadAsset(bytes, old(position)), r)
    {
      hide Envelope.ReadI32, Envelope.ReadIssued;
      var kind :- ReadI32();
      if kind == ASSET_NATIVE {
        return Ok(Asset(XLM, None));
      } else if kind == ASSET_ALPHANUM4 {
        r := ReadIssued(4);
      } else if kind == ASSET_ALPHANUM12 {
        r := ReadIssued(12);
      } else {
        return Err(UnsupportedAsset);
      }
    }

    method ReadPreconditions() returns (r: Result<Option<u64>>)
      requires Valid()
      modifies this`position
      ensures Valid() && Read(ReadMaxTime(bytes, old(position)), r)
    {
      hide Envelope.ReadI32, Envelope.ReadU64;
      var kind :- ReadI32();
      if kind == PRECOND_NONE {
        return Ok(None);
      } else if kind == PRECOND_TIME {
        var minTime :- ReadU64();
        var maxTime :- ReadU64();
        return Ok(Some(maxTime));
      } else {
        return Err(UnsupportedPreconditions);
      }
    }

    method ReadMemo() returns (r: Result<Option<Bytes>>)
      requires Valid()
      modifies this`position
      ensures Valid() && Read(Envelope.ReadMemo(bytes, old(position)), r)
    {
      hide Envelope.ReadI32, ReadText;
      var kind :- ReadI32();
      if kind == MEMO_NONE {
        return Ok(None);
      } else if kind == MEMO_TEXT {
        var text :- ReadXdrString(MAX_MEMO);
        return Ok(Some(text));
      } else {
        return Err(UnsupportedMemo);
      }
    }

    method ReadOperation() returns (r: Result<Bytes>)
      requires Valid()
      modifies this`position
      ensures Valid() && Read(Envelope.ReadOperation(bytes, old(position)), r)
    {
      hide Envelope.ReadI32, Envelope.ReadU32, ReadAccount;
      var count :- ReadU32();
      if count != 1 {
        return Err(RequiresOneOperation);
      }
      var source :- ReadI32();
      if source != 0 {
        return Err(OperationSourceNotAllowed);
      }
      var kind :- ReadI32();
      if kind != OPERATION_PAYMENT {
        return Err(UnsupportedOperation);
      }
      r := ReadEd25519Account();
    }

    method ReadBody() returns (r: Result<Fields>)
      requires Valid()
      modifies this`position
      ensures Valid() && Read(Envelope.ReadBody(bytes, old(position)), r)
      ensures r.Ok? ==> EnvelopeLayout.IsBody(bytes, old(position), r.value, position)
    {
      if Envelope.ReadBody(bytes, position).Ok? {
        var got := Envelope.ReadBody(bytes, position).value;
        EnvelopeLayout.BodyIsParts(bytes, position, got.value, got.next);
      }
      hide EnvelopeLayout.IsBody;
      hide ReadAccount, Envelope.ReadU32, Envelope.ReadU64, ReadMaxTime, Envelope.ReadMemo, Envelope.ReadOperation,
           Envelope.ReadAsset;
      var source :- ReadEd25519Account();
      var fee :- ReadU32();
      var sequence :- ReadI64();
      var maxTime :- ReadPreconditions();
      var memo :- ReadMemo();
      var destination :- ReadOperation();
      var asset :- ReadAsset();
      var amount :- ReadI64();
      var extension :- ReadI32();
      if extension != 0 {
        return Err(UnsupportedExtension);
      }
      return Ok(Fields(source, fee, sequence, maxTime, memo, destination, asset, amount));
    }

    method ReadSignatures() returns (r: Result<u32>)
      requires Valid()
      modifies this`position
      ensures Valid() && r == Envelope.ReadSignatures(bytes, old(position))
    {
      hide Envelope.ReadU32, Envelope.ReadVarOpaque;
      var count :- ReadU32();
      if count > MAX_SIGNATURES {
        return Err(TooManySignatures);
      }
      ghost var start := position;
      for i := 0 to count
        invariant Valid()
        invariant SkipSignatures(bytes, position, count - i) == SkipSignatures(bytes, start, count)
      {
        var hint :- ReadFixed(4);
        var signature :- ReadVarOpaque(64);
      }
      if position != |bytes| {
        return Err(TrailingBytes);
      }
      return Ok(count);
    }
  }

  method ParsePaymentEnvelope(bytes: Bytes) returns (r: Result<Parsed>)
    ensures r == Parse(bytes)
    ensures forall parsed :: r == Ok(parsed) <==> EnvelopeLayout.IsEnvelope(bytes, parsed)
  {
    forall parsed
      ensures Parse(bytes) == Ok(parsed) <==> EnvelopeLayout.IsEnvelope(bytes, parsed)
    {
      EnvelopeLayout.ParsesExactly(bytes, parsed);
    }
    hide EnvelopeLayout.IsEnvelope;
    hide ReadI32, ReadBody, ReadSignatures;
    var reader := new XdrReader(bytes);
    var kind :- reader.ReadI32();
    if kind != ENVELOPE_TYPE_TX {
      return Err(UnsupportedEnvelopeType);
    }
    var start := reader.position;
    var fields :- reader.ReadBody();
    var end := reader.position;
    var count :- reader.ReadSignatures();
    return Ok(Parsed(bytes[start..end], fields, count));
  }

  datatype Signable = Accepted(parsed: Parsed) | MalformedText | NoSignatures | Rejected(error: Error)

  /** How a submitted text is read before the intent is consulted. */
  method ReadSignedText(text: Bytes) returns (r: Signable)
    ensures r.Accepted? <==>
      && Base64.Decode(text).Ok?
      && Parse(Base64.Decode(text).value).Ok?
      && Parse(Base64.Decode(text).value).value.signatureCount > 0
    ensures r.Accepted? ==> Parse(Base64.Decode(text).value) == Ok(r.parsed)
  {
    hide Base64.Decode, Parse;
    var bytes := Base64.DecodeBase64(text);
    if bytes.Err? {
      return MalformedText;
    }
    var parsed := ParsePaymentEnvelope(bytes.value);
    if parsed.Err? {
      return Rejected(parsed.error);
    }
    if parsed.value.signatureCount == 0 {
      return NoSignatures;
    }
    return Accepted(parsed.value);
  }
}
