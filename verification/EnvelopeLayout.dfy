/** Which bytes a payment is: the exact language of the parser and the exact layout of what the
    builder writes, byte by byte. */
module EnvelopeLayout {
  import opened Wrappers
  import opened Bits
  import opened Envelope
  import opened EnvelopeProofs
  import StrKey
  import AddressForm
  import UnicodeText

  // ----- numbers in bytes -----

  /** Four bytes, most significant first. */
  function Four(b: Bytes, at: nat): int
    requires at + 4 <= |b|
  {
    b[at] as int * 16_777_216 + b[at + 1] as int * 65_536 + b[at + 2] as int * 256 + b[at + 3] as int
  }

  function Eight(b: Bytes, at: nat): int
    requires at + 8 <= |b|
  {
    Four(b, at) * 4_294_967_296 + Four(b, at + 4)
  }

  /** Eight bytes that hold a number in two's complement. */
  ghost predicate Holds(b: Bytes, at: nat, v: int) {
    && at + 8 <= |b| && -9_223_372_036_854_775_808 <= v < 9_223_372_036_854_775_808
    && Eight(b, at) == if v < 0 then v + 18_446_744_073_709_551_616 else v
  }

  lemma U32Reads(bs: Bytes, at: nat)
    ensures ReadU32(bs, at).Ok? <==> at + 4 <= |bs|
    ensures at + 4 <= |bs| ==> ReadU32(bs, at) == Ok(Got(Four(bs, at), at + 4))
  {
    if at + 4 <= |bs| {
      var b := bs[at..at + 4];
      assert b[0] == bs[at] && b[1] == bs[at + 1] && b[2] == bs[at + 2] && b[3] == bs[at + 3];
    }
  }

  /** The words the format knows: 0, 1 and 2. */
  lemma SmallReads(bs: Bytes, at: nat)
    ensures ReadI32(bs, at).Ok? <==> at + 4 <= |bs|
    ensures at + 4 <= |bs| ==> ReadI32(bs, at).value.next == at + 4
    ensures at + 4 <= |bs| ==> (ReadI32(bs, at).value.value == 0 <==> bs[at..at + 4] == [0, 0, 0, 0])
    ensures at + 4 <= |bs| ==> (ReadI32(bs, at).value.value == 1 <==> bs[at..at + 4] == [0, 0, 0, 1])
    ensures at + 4 <= |bs| ==> (ReadI32(bs, at).value.value == 2 <==> bs[at..at + 4] == [0, 0, 0, 2])
  {
    if at + 4 <= |bs| {
      U32Reads(bs, at);
      var b := bs[at..at + 4];
      assert b == [bs[at], bs[at + 1], bs[at + 2], bs[at + 3]];
    }
  }

  lemma U64Reads(bs: Bytes, at: nat)
    ensures ReadU64(bs, at).Ok? <==> at + 8 <= |bs|
    ensures at + 8 <= |bs| ==> ReadU64(bs, at) == Ok(Got(Eight(bs, at), at + 8))
  {
    if at + 8 <= |bs| {
      var b := bs[at..at + 8];
      U32Reads(bs, at);
      U32Reads(bs, at + 4);
      assert b[..4] == bs[at..at + 4] && b[4..] == bs[at + 4..at + 8];
      hide WordValue, Four;
    }
  }

  lemma I64Reads(bs: Bytes, at: nat, v: i64, end: nat)
    ensures ReadI64(bs, at).Ok? <==> at + 8 <= |bs|
    ensures ReadI64(bs, at) == Ok(Got(v, end)) <==> Holds(bs, at, v) && end == at + 8
  {
    hide LongValue, Four;
    U64Reads(bs, at);
    if at + 8 <= |bs| {
      EightInRange(bs, at);
    }
    hide Eight;
  }

  lemma EightInRange(b: Bytes, at: nat)
    requires at + 8 <= |b|
    ensures 0 <= Eight(b, at) < 18_446_744_073_709_551_616
  {
  }

  // ----- the language of the parser -----

  /** An account: four zeros and the 32 bytes of the key. */
  ghost predicate IsKey(b: Bytes, at: nat, key: Bytes, end: nat) {
    end == at + 36 <= |b| && b[at..at + 4] == [0, 0, 0, 0] && b[at + 4..end] == key
  }

  lemma AccountReads(bs: Bytes, at: nat, key: Bytes, end: nat)
    ensures ReadAccount(bs, at) == Ok(Got(key, end)) <==> IsKey(bs, at, key, end)
  {
    hide ReadI32;
    SmallReads(bs, at);
  }

  /** A length, that many bytes, and zeros up to a multiple of four. */
  ghost predicate IsOpaque(b: Bytes, at: nat, max: nat, value: Bytes, end: nat) {
    && at + 4 + |value| <= end <= |b| && Four(b, at) == |value| <= max
    && b[at + 4..at + 4 + |value|] == value
    && (end - at) % 4 == 0 && end < at + 8 + |value|
    && (forall i :: at + 4 + |value| <= i < end ==> b[i] == 0)
  }

  lemma PaddingIs(length: nat, n: nat)
    requires (length + n) % 4 == 0 && n < 4
    ensures Padding(length) == n
  {
  }

  lemma OpaqueReads(bs: Bytes, at: nat, max: nat, value: Bytes, end: nat)
    ensures ReadVarOpaque(bs, at, max) == Ok(Got(value, end)) <==> IsOpaque(bs, at, max, value, end)
  {
    U32Reads(bs, at);
    hide ReadU32, Four, Padding;
    if at + 4 <= |bs| {
      var m := Four(bs, at);
      if ReadVarOpaque(bs, at, max) == Ok(Got(value, end)) {
        ZerosStand(bs, at + 4 + m, end);
      }
      if IsOpaque(bs, at, max, value, end) {
        PaddingIs(m, end - at - 4 - m);
        ZerosStand(bs, at + 4 + m, end);
      }
    }
  }

  lemma ZerosStand(bs: Bytes, from: nat, to: nat)
    requires from <= to <= |bs|
    ensures AllZero(bs[from..to]) <==> forall i :: from <= i < to ==> bs[i] == 0
  {
    if AllZero(bs[from..to]) {
      forall i | from <= i < to
        ensures bs[i] == 0
      {
        assert bs[i] == bs[from..to][i - from];
      }
    }
  }

  /** No preconditions, or two times of which the second is the last valid one. */
  ghost predicate IsTime(b: Bytes, at: nat, maxTime: Option<int>, end: nat) {
    match maxTime
    case None => end == at + 4 <= |b| && b[at..end] == [0, 0, 0, 0]
    case Some(t) => end == at + 20 <= |b| && b[at..at + 4] == [0, 0, 0, 1] && Eight(b, at + 12) == t
  }

  lemma TimeReads(bs: Bytes, at: nat, maxTime: Option<u64>, end: nat)
    ensures ReadMaxTime(bs, at) == Ok(Got(maxTime, end)) <==> IsTime(bs, at, maxTime, end)
  {
    SmallReads(bs, at);
    U64Reads(bs, at + 4);
    U64Reads(bs, at + 12);
    hide ReadI32, ReadU64, Eight;
  }

  /** No memo, or up to 28 bytes of Unicode text. */
  ghost predicate IsMemo(b: Bytes, at: nat, memo: Option<Bytes>, end: nat) {
    match memo
    case None => end == at + 4 <= |b| && b[at..end] == [0, 0, 0, 0]
    case Some(m) => at + 4 <= |b| && b[at..at + 4] == [0, 0, 0, 1] && UnicodeText.IsText(m) && IsOpaque(b, at + 4, 28, m, end)
  }

  lemma MemoReads(bs: Bytes, at: nat, memo: Option<Bytes>, end: nat)
    ensures ReadMemo(bs, at) == Ok(Got(memo, end)) <==> IsMemo(bs, at, memo, end)
  {
    SmallReads(bs, at);
    if memo.Some? {
      OpaqueReads(bs, at + 4, 28, memo.value, end);
      UnicodeText.Utf8IsText(memo.value);
    }
    hide ReadI32, ReadVarOpaque, IsOpaque, Utf8;
  }

  /** One operation, without a source of its own, that pays to a key. */
  ghost predicate IsPayment(b: Bytes, at: nat, key: Bytes, end: nat) {
    at + 12 <= |b| && b[at..at + 12] == [0, 0, 0, 1, 0, 0, 0, 0, 0, 0, 0, 1] && IsKey(b, at + 12, key, end)
  }

  lemma ThreeWords(b: Bytes, at: nat)
    requires at + 12 <= |b|
    ensures b[at..at + 12] == [0, 0, 0, 1, 0, 0, 0, 0, 0, 0, 0, 1] <==>
            b[at..at + 4] == [0, 0, 0, 1] && b[at + 4..at + 8] == [0, 0, 0, 0] && b[at + 8..at + 12] == [0, 0, 0, 1]
  {
    var w := b[at..at + 12];
    assert w[..4] == b[at..at + 4] && w[8..] == b[at + 8..at + 12];
    assert w[4..8] == [b[at + 4], b[at + 5], b[at + 6], b[at + 7]] == b[at + 4..at + 8];
    assert w == w[..4] + (w[4..8] + w[8..]);
  }

  lemma CountReads(bs: Bytes, at: nat)
    requires at + 4 <= |bs|
    ensures Four(bs, at) == 1 <==> bs[at..at + 4] == [0, 0, 0, 1]
  {
    assert bs[at..at + 4] == [bs[at], bs[at + 1], bs[at + 2], bs[at + 3]];
  }

  lemma OperationReads(bs: Bytes, at: nat, key: Bytes, end: nat)
    ensures ReadOperation(bs, at) == Ok(Got(key, end)) <==> IsPayment(bs, at, key, end)
  {
    U32Reads(bs, at);
    SmallReads(bs, at + 4);
    SmallReads(bs, at + 8);
    AccountReads(bs, at + 12, key, end);
    if at + 12 <= |bs| {
      CountReads(bs, at);
      ThreeWords(bs, at);
    }
    hide ReadU32, ReadI32, ReadAccount, Four;
  }

  /** Lumens, or a code of letters and digits, padded with zeros to four or twelve bytes, and the
      key of its issuer. */
  ghost predicate IsAsset(b: Bytes, at: nat, asset: Asset, end: nat) {
    match asset.issuer
    case None => end == at + 4 <= |b| && b[at..end] == [0, 0, 0, 0] && asset.code == [88, 76, 77]
    case Some(key) =>
      && at + 4 <= |b|
      && ((b[at..at + 4] == [0, 0, 0, 1] && IsCode(b, at + 4, 4, asset.code) && IsKey(b, at + 8, key, end))
          || (b[at..at + 4] == [0, 0, 0, 2] && IsCode(b, at + 4, 12, asset.code) && IsKey(b, at + 16, key, end)))
  }

  ghost predicate IsCode(b: Bytes, at: nat, width: nat, code: Bytes) {
    && at + width <= |b| && 0 < |code| <= width && b[at..at + |code|] == code
    && (forall i :: 0 <= i < |code| ==> 65 <= code[i] <= 90 || 48 <= code[i] <= 57)
    && (forall i :: at + |code| <= i < at + width ==> b[i] == 0)
  }

  lemma CodeReads(bs: Bytes, at: nat, width: nat, code: Bytes)
    requires at + width <= |bs|
    ensures AssetCode(bs[at..at + width]) == Ok(code) <==> IsCode(bs, at, width, code)
  {
    var b := bs[at..at + width];
    if AssetCode(b) == Ok(code) {
      var n := FirstZero(b);
      assert b[n..] == bs[at + n..at + width] && b[..n] == bs[at..at + n];
      ZerosStand(bs, at + n, at + width);
    }
    if IsCode(bs, at, width, code) {
      var n := |code|;
      assert b[n..] == bs[at + n..at + width] && b[..n] == bs[at..at + n];
      ZerosStand(bs, at + n, at + width);
      FirstZeroIs(code, b);
    }
  }

  lemma IssuedReads(bs: Bytes, at: nat, width: nat, asset: Asset, end: nat)
    ensures ReadIssued(bs, at, width) == Ok(Got(asset, end)) <==>
            asset.issuer.Some? && IsCode(bs, at, width, asset.code) && IsKey(bs, at + width, asset.issuer.value, end)
  {
    if at + width <= |bs| {
      CodeReads(bs, at, width, asset.code);
    }
    if asset.issuer.Some? {
      AccountReads(bs, at + width, asset.issuer.value, end);
    }
    hide AssetCode, ReadAccount, IsKey;
  }

  lemma AssetReads(bs: Bytes, at: nat, asset: Asset, end: nat)
    ensures ReadAsset(bs, at) == Ok(Got(asset, end)) <==> IsAsset(bs, at, asset, end)
  {
    SmallReads(bs, at);
    IssuedReads(bs, at + 4, 4, asset, end);
    IssuedReads(bs, at + 4, 12, asset, end);
    hide ReadI32, ReadIssued, IsCode, IsKey;
  }

  lemma ExtensionReads(bs: Bytes, at: nat, v: i32, end: nat)
    ensures ReadExtension(bs, at) == Ok(Got(v, end)) <==> v == 0 && end == at + 4 <= |bs| && bs[at..end] == [0, 0, 0, 0]
  {
    SmallReads(bs, at);
    hide ReadI32;
  }

  /** A transaction body from one position to another. */
  ghost predicate IsBody(b: Bytes, at: nat, f: Fields, end: nat) {
    exists time: nat, memo: nat, operation: nat, asset: nat :: Parts(b, at, f, time, memo, operation, asset, end)
  }

  ghost predicate Parts(b: Bytes, at: nat, f: Fields, time: nat, memo: nat, operation: nat, asset: nat, end: nat) {
    && at + 48 <= |b|
    && b[at..at + 4] == [0, 0, 0, 0] && b[at + 4..at + 36] == f.source
    && Four(b, at + 36) == f.fee && Holds(b, at + 40, f.sequence)
    && IsTime(b, at + 48, f.maxTime, time) && IsMemo(b, time, f.memo, memo)
    && IsPayment(b, memo, f.destination, operation) && IsAsset(b, operation, f.asset, asset)
    && Holds(b, asset, f.amount) && end == asset + 12 <= |b| && b[asset + 8..end] == [0, 0, 0, 0]
  }

  lemma PartsRead(bs: Bytes, at: nat, f: Fields, time: nat, memo: nat, operation: nat, asset: nat, end: nat)
    requires Parts(bs, at, f, time, memo, operation, asset, end)
    ensures ReadBody(bs, at) == Ok(Got(f, end))
  {
    AccountReads(bs, at, f.source, at + 36);
    U32Reads(bs, at + 36);
    I64Reads(bs, at + 40, f.sequence, at + 48);
    TimeReads(bs, at + 48, f.maxTime, time);
    MemoReads(bs, time, f.memo, memo);
    OperationReads(bs, memo, f.destination, operation);
    AssetReads(bs, operation, f.asset, asset);
    I64Reads(bs, asset, f.amount, asset + 8);
    ExtensionReads(bs, asset + 8, 0, end);
    hide ReadAccount, ReadU32, ReadI64, ReadMaxTime, ReadMemo, ReadOperation, ReadAsset, ReadExtension;
    hide IsTime, IsMemo, IsPayment, IsAsset, Holds, Four;
  }

  lemma BodyIsParts(bs: Bytes, at: nat, f: Fields, end: nat)
    requires ReadBody(bs, at) == Ok(Got(f, end))
    ensures IsBody(bs, at, f, end)
  {
    hide ReadAccount, ReadU32, ReadI64, ReadMaxTime, ReadMemo, ReadOperation, ReadAsset, ReadExtension;
    hide IsTime, IsMemo, IsPayment, IsAsset, Holds, Four;
    var a1 := ReadAccount(bs, at).value.next;
    AccountReads(bs, at, f.source, a1);
    U32Reads(bs, a1);
    var a3 := ReadI64(bs, at + 40).value.next;
    I64Reads(bs, at + 40, f.sequence, a3);
    var time := ReadMaxTime(bs, at + 48).value.next;
    TimeReads(bs, at + 48, f.maxTime, time);
    var memo := ReadMemo(bs, time).value.next;
    MemoReads(bs, time, f.memo, memo);
    var operation := ReadOperation(bs, memo).value.next;
    OperationReads(bs, memo, f.destination, operation);
    var asset := ReadAsset(bs, operation).value.next;
    AssetReads(bs, operation, f.asset, asset);
    var a8 := ReadI64(bs, asset).value.next;
    I64Reads(bs, asset, f.amount, a8);
    ExtensionReads(bs, asset + 8, ReadExtension(bs, asset + 8).value.value, end);
    assert Parts(bs, at, f, time, memo, operation, asset, end);
  }

  /** n signatures: four bytes of hint and up to 64 bytes each. */
  ghost predicate IsSignatures(b: Bytes, at: nat, n: nat, end: nat)
    decreases n
  {
    if n == 0 then end == at
    else exists value: Bytes, next: nat :: IsSignature(b, at, value, next) && IsSignatures(b, next, n - 1, end)
  }

  ghost predicate IsSignature(b: Bytes, at: nat, value: Bytes, next: nat) {
    at + 4 <= |b| && IsOpaque(b, at + 4, 64, value, next)
  }

  lemma {:induction false} SignaturesRead(bs: Bytes, at: nat, n: nat, end: nat)
    ensures SkipSignatures(bs, at, n) == Ok(end) <==> IsSignatures(bs, at, n, end)
    decreases n
  {
    hide ReadVarOpaque, IsOpaque;
    if n > 0 {
      if SkipSignatures(bs, at, n) == Ok(end) {
        var got := ReadVarOpaque(bs, at + 4, 64).value;
        OpaqueReads(bs, at + 4, 64, got.value, got.next);
        SignaturesRead(bs, got.next, n - 1, end);
        assert IsSignature(bs, at, got.value, got.next);
      }
      if IsSignatures(bs, at, n, end) {
        var value: Bytes, next: nat :| IsSignature(bs, at, value, next) && IsSignatures(bs, next, n - 1, end);
        OpaqueReads(bs, at + 4, 64, value, next);
        SignaturesRead(bs, next, n - 1, end);
      }
    }
  }

  /** A whole envelope: type 2, the body, at most twenty signatures, and nothing behind. */
  ghost predicate IsEnvelope(b: Bytes, parsed: Parsed) {
    var end := 4 + |parsed.body|;
    && end + 4 <= |b| && b[..4] == [0, 0, 0, 2] && b[4..end] == parsed.body && IsBody(b, 4, parsed.fields, end)
    && Four(b, end) == parsed.signatureCount <= 20 && IsSignatures(b, end + 4, parsed.signatureCount, |b|)
  }

  lemma ListReads(bs: Bytes, at: nat, n: u32)
    ensures ReadSignatures(bs, at) == Ok(n) <==> at + 4 <= |bs| && Four(bs, at) == n <= 20 && IsSignatures(bs, at + 4, n, |bs|)
  {
    U32Reads(bs, at);
    SignaturesRead(bs, at + 4, n, |bs|);
    hide ReadU32, SkipSignatures, IsSignatures, Four;
  }

  /** The parser accepts exactly the envelopes of this layout, and reports what they hold. */
  lemma ParsesExactly(bs: Bytes, parsed: Parsed)
    ensures Parse(bs) == Ok(parsed) <==> IsEnvelope(bs, parsed)
  {
    hide ReadBody, ReadSignatures, ReadI32, IsBody, IsSignatures, Four;
    SmallReads(bs, 0);
    var end := 4 + |parsed.body|;
    ListReads(bs, end, parsed.signatureCount);
    if Parse(bs) == Ok(parsed) {
      ParsedEnds(bs, parsed);
      BodyIsParts(bs, 4, parsed.fields, end);
      assert bs[0..4] == bs[..4];
    }
    if IsEnvelope(bs, parsed) {
      BodyReads(bs, 4, parsed.fields, end);
      assert bs[0..4] == bs[..4];
    }
  }

  lemma BodyReads(bs: Bytes, at: nat, f: Fields, end: nat)
    requires IsBody(bs, at, f, end)
    ensures ReadBody(bs, at) == Ok(Got(f, end))
  {
    hide Parts, ReadBody;
    var time: nat, memo: nat, operation: nat, asset: nat :| Parts(bs, at, f, time, memo, operation, asset, end);
    PartsRead(bs, at, f, time, memo, operation, asset, end);
  }

  lemma ParsedEnds(bs: Bytes, parsed: Parsed)
    requires Parse(bs) == Ok(parsed)
    ensures ReadI32(bs, 0).Ok? && ReadI32(bs, 0).value.value == 2 && ReadI32(bs, 0).value.next == 4
    ensures var end := 4 + |parsed.body|;
            && ReadBody(bs, 4) == Ok(Got(parsed.fields, end)) && ReadSignatures(bs, end) == Ok(parsed.signatureCount)
            && end <= |bs| && bs[4..end] == parsed.body
  {
    hide ReadBody, ReadSignatures, ReadI32;
    SmallReads(bs, 0);
  }

  // ----- what the builder writes -----

  lemma AccountIs(text: Bytes, key: Bytes)
    ensures Account(text) == Ok(key) <==> AddressForm.IsAddress(text, key)
  {
    AddressForm.AcceptsExactlyAddresses(text, key);
    hide StrKey.Decoded, AddressForm.IsAddress;
  }

  ghost predicate IsAccount(text: Bytes) {
    exists key: Bytes :: AddressForm.IsAddress(text, key)
  }

  lemma AccountOk(text: Bytes)
    ensures Account(text).Ok? <==> IsAccount(text)
  {
    hide Account, AddressForm.IsAddress;
    if Account(text).Ok? {
      AccountIs(text, Account(text).value);
    }
    if IsAccount(text) {
      var key: Bytes :| AddressForm.IsAddress(text, key);
      AccountIs(text, key);
    }
  }

  /** Lumens without an issuer, or one to twelve letters and digits with one. */
  ghost predicate IsPayable(code: Bytes, issuer: Option<Bytes>) {
    if code == [88, 76, 77] then issuer == None
    else
      && issuer.Some? && IsAccount(issuer.value) && 1 <= |code| <= 12
      && forall i :: 0 <= i < |code| ==> 65 <= code[i] <= 90 || 48 <= code[i] <= 57
  }

  lemma PayableIs(code: Bytes, issuer: Option<Bytes>)
    ensures AssetBytes(code, issuer).Ok? <==> IsPayable(code, issuer)
  {
    if issuer.Some? {
      AccountOk(issuer.value);
    }
    hide Account, IsAccount, IssuedAsset;
  }

  /** When the builder builds. */
  lemma BuildsIff(p: Payment)
    ensures Body(p).Ok? <==>
            && p.amount > 0 && p.expiresAt > 0 && 1 <= |p.memo| <= 28
            && IsAccount(p.source) && IsAccount(p.destination) && IsPayable(p.assetCode, p.assetIssuer)
  {
    AccountOk(p.source);
    AccountOk(p.destination);
    PayableIs(p.assetCode, p.assetIssuer);
    hide Account, IsAccount, SourcePart, TimePart, MemoPart, OperationPart, AmountPart, AssetBytes, IsPayable;
  }

  /** The time bounds: from zero to the expiry. */
  lemma TimeLaid(b: Bytes, at: nat, p: Payment)
    requires p.expiresAt > 0 && At(b, at, TimePart(p))
    ensures at + 20 <= |b| && b[at..at + 4] == [0, 0, 0, 1] && b[at + 4..at + 12] == [0, 0, 0, 0, 0, 0, 0, 0]
    ensures Eight(b, at + 12) == p.expiresAt
    ensures |TimePart(p)| == 20
  {
    TimeAt(b, at, p);
    TimeReads(b, at, Some(p.expiresAt), at + 20);
    ZeroBytes(b, at, p);
    hide ReadMaxTime, TimePart, Eight;
  }

  lemma ZeroBytes(b: Bytes, at: nat, p: Payment)
    requires p.expiresAt > 0 && At(b, at, TimePart(p))
    ensures |TimePart(p)| == 20 && At(b, at, TimePart(p)) && b[at + 4..at + 12] == [0, 0, 0, 0, 0, 0, 0, 0]
  {
    I32Length(PRECOND_TIME);
    hide I32;
    assert Long(0) == [0, 0, 0, 0, 0, 0, 0, 0];
    AtSplit(b, at, I32(PRECOND_TIME), Long(0) + Long(p.expiresAt));
    AtSplit(b, at + 4, Long(0), Long(p.expiresAt));
  }

  lemma MemoLaid(b: Bytes, at: nat, p: Payment)
    requires |p.memo| <= 28 && At(b, at, MemoPart(p))
    ensures at + 4 <= |b| && b[at..at + 4] == [0, 0, 0, 1] && IsOpaque(b, at + 4, 28, p.memo, at + |MemoPart(p)|)
  {
    I32Length(MEMO_TEXT);
    hide I32, OpaqueBytes, ReadI32, ReadVarOpaque, IsOpaque;
    AtSplit(b, at, I32(MEMO_TEXT), OpaqueBytes(p.memo));
    I32At(b, at, MEMO_TEXT);
    SmallReads(b, at);
    OpaqueAt(b, at + 4, p.memo, 28);
    OpaqueReads(b, at + 4, 28, p.memo, at + |MemoPart(p)|);
  }

  /** The asset: four bytes for a short code, twelve for a longer one. */
  ghost predicate AssetLaid(b: Bytes, at: nat, code: Bytes, issuer: Option<Bytes>, end: nat) {
    if code == [88, 76, 77] then issuer == None && end == at + 4 <= |b| && b[at..end] == [0, 0, 0, 0]
    else
      && issuer.Some? && at + 4 <= |b|
      && (if |code| <= 4 then end == at + 44 && b[at..at + 4] == [0, 0, 0, 1] && IsCode(b, at + 4, 4, code)
          else end == at + 52 && b[at..at + 4] == [0, 0, 0, 2] && IsCode(b, at + 4, 12, code))
      && end <= |b| && b[end - 36..end - 32] == [0, 0, 0, 0] && AddressForm.IsAddress(issuer.value, b[end - 32..end])
  }

  lemma KindAt(b: Bytes, at: nat, kind: i32)
    requires At(b, at, I32(kind))
    ensures at + 4 <= |b|
    ensures kind == 0 ==> b[at..at + 4] == [0, 0, 0, 0]
    ensures kind == 1 ==> b[at..at + 4] == [0, 0, 0, 1]
    ensures kind == 2 ==> b[at..at + 4] == [0, 0, 0, 2]
  {
    I32Length(kind);
    I32At(b, at, kind);
    SmallReads(b, at);
    hide I32, ReadI32;
  }

  lemma IssuedLaid(b: Bytes, at: nat, code: Bytes, key: Bytes, width: nat)
    requires 0 < |code| <= width && CodeBytes(code) && |key| == 32
    requires At(b, at, code + Zeros(width - |code|) + AccountBytes(key))
    ensures IsCode(b, at, width, code) && IsKey(b, at + width, key, at + width + 36)
  {
    var asset := Asset(code, Some(key));
    IssuedAt(b, at, code, key, width);
    IssuedReads(b, at, width, asset, at + width + 36);
    hide ReadIssued, IsCode, IsKey;
  }

  lemma AssetIsLaid(b: Bytes, at: nat, code: Bytes, issuer: Option<Bytes>, written: Bytes)
    requires AssetBytes(code, issuer) == Ok(written) && At(b, at, written)
    ensures AssetLaid(b, at, code, issuer, at + |written|)
  {
    hide I32, Account, AccountBytes, CodeBytes, IsCode, AddressForm.IsAddress;
    if code == XLM {
      I32Length(ASSET_NATIVE);
      KindAt(b, at, ASSET_NATIVE);
    } else {
      var key := Account(issuer.value).value;
      KeysAreLong(issuer.value);
      AccountIs(issuer.value, key);
      AccountLength(key);
      var width := if |code| <= 4 then 4 else 12;
      var kind := if |code| <= 4 then ASSET_ALPHANUM4 else ASSET_ALPHANUM12;
      I32Length(kind);
      AtSplit(b, at, I32(kind), code + Zeros(width - |code|) + AccountBytes(key));
      KindAt(b, at, kind);
      IssuedLaid(b, at + 4, code, key, width);
    }
  }

  /** The layout of a built body. */
  ghost predicate Laid(b: Bytes, p: Payment, operation: nat, asset: nat, amount: nat) {
    && 76 <= operation && asset == operation + 48 && |b| == amount + 12 && asset + 4 <= amount
    && b[0..4] == [0, 0, 0, 0] && AddressForm.IsAddress(p.source, b[4..36])
    && Four(b, 36) == p.fee && Holds(b, 40, p.sequence)
    && b[48..52] == [0, 0, 0, 1] && b[52..60] == [0, 0, 0, 0, 0, 0, 0, 0] && Eight(b, 60) == p.expiresAt
    && b[68..72] == [0, 0, 0, 1] && IsOpaque(b, 72, 28, p.memo, operation)
    && b[operation..operation + 16] == [0, 0, 0, 1, 0, 0, 0, 0, 0, 0, 0, 1, 0, 0, 0, 0]
    && AddressForm.IsAddress(p.destination, b[operation + 16..asset])
    && AssetLaid(b, asset, p.assetCode, p.assetIssuer, amount)
    && Eight(b, amount) == p.amount && b[amount + 8..] == [0, 0, 0, 0]
  }

  lemma OperationLaid(b: Bytes, at: nat, key: Bytes)
    requires |key| == 32 && At(b, at, OperationPart(key))
    ensures |OperationPart(key)| == 48 && at + 48 <= |b|
    ensures b[at..at + 16] == [0, 0, 0, 1, 0, 0, 0, 0, 0, 0, 0, 1, 0, 0, 0, 0] && b[at + 16..at + 48] == key
  {
    OperationAt(b, at, key);
    OperationReads(b, at, key, at + |OperationPart(key)|);
    hide OperationPart, ReadOperation;
    var w := b[at..at + 16];
    assert w[..12] == b[at..at + 12] && w[12..] == b[at + 12..at + 16] && w == w[..12] + w[12..];
  }

  lemma AmountLaid(b: Bytes, at: nat, p: Payment)
    requires p.amount > 0 && At(b, at, AmountPart(p)) && |b| == at + |AmountPart(p)|
    ensures |b| == at + 12 && Eight(b, at) == p.amount && b[at + 8..] == [0, 0, 0, 0]
  {
    AmountAt(b, at, p);
    I64Reads(b, at, p.amount, at + 8);
    ExtensionReads(b, at + 8, 0, at + 12);
    hide AmountPart, ReadI64, ReadExtension, Eight;
    assert b[at + 8..] == b[at + 8..at + 12];
  }

  lemma SourceLaid(b: Bytes, key: Bytes, p: Payment)
    requires |key| == 32 && At(b, 0, SourcePart(key, p))
    ensures |SourcePart(key, p)| == 48 <= |b| && b[0..4] == [0, 0, 0, 0] && b[4..36] == key
    ensures Four(b, 36) == p.fee && Holds(b, 40, p.sequence)
  {
    SourceAt(b, 0, key, p);
    AccountReads(b, 0, key, 36);
    U32Reads(b, 36);
    I64Reads(b, 40, p.sequence, 48);
    hide SourcePart, ReadAccount, ReadU32, ReadI64, Four, Holds;
  }

  /** Every built body has this layout. */
  lemma BuildsThisLayout(p: Payment, b: Bytes)
    requires Body(p) == Ok(b)
    ensures exists operation: nat, asset: nat, amount: nat :: Laid(b, p, operation, asset, amount)
  {
    hide Account, AssetBytes, SourcePart, TimePart, MemoPart, OperationPart, AmountPart;
    hide IsOpaque, AssetLaid, Four, Eight, Holds, AddressForm.IsAddress;
    var source, destination := Account(p.source).value, Account(p.destination).value;
    KeysAreLong(p.source);
    KeysAreLong(p.destination);
    AccountIs(p.source, source);
    AccountIs(p.destination, destination);
    var asset := AssetBytes(p.assetCode, p.assetIssuer).value;
    var c1, c2, c3, c4, c6 := SourcePart(source, p), TimePart(p), MemoPart(p), OperationPart(destination), AmountPart(p);
    assert At(b, 0, b);
    AtSplit(b, 0, c1, c2 + (c3 + (c4 + (asset + c6))));
    SourceLaid(b, source, p);
    AtSplit(b, 48, c2, c3 + (c4 + (asset + c6)));
    TimeLaid(b, 48, p);
    AtSplit(b, 68, c3, c4 + (asset + c6));
    MemoLaid(b, 68, p);
    var o := 68 + |c3|;
    AtSplit(b, o, c4, asset + c6);
    OperationLaid(b, o, destination);
    AtSplit(b, o + 48, asset, c6);
    AssetIsLaid(b, o + 48, p.assetCode, p.assetIssuer, asset);
    var a := o + 48 + |asset|;
    AmountLaid(b, a, p);
    OpaqueEnds(b, 72, p.memo, o);
    AssetEnds(b, o + 48, p.assetCode, p.assetIssuer, a);
    assert Laid(b, p, o, o + 48, a);
  }

  lemma OpaqueEnds(b: Bytes, at: nat, value: Bytes, end: nat)
    requires IsOpaque(b, at, 28, value, end)
    ensures at + 4 <= end
  {
  }

  lemma AssetEnds(b: Bytes, at: nat, code: Bytes, issuer: Option<Bytes>, end: nat)
    requires AssetLaid(b, at, code, issuer, end)
    ensures at + 4 <= end
  {
  }

  /** An unsigned envelope: type 2, the body, no signatures. */
  lemma UnsignedLayout(body: Bytes)
    ensures Signed(body, []) == [0, 0, 0, 2] + (body + [0, 0, 0, 0])
  {
    assert I32(ENVELOPE_TYPE_TX) == [0, 0, 0, 2];
    assert Word(0) + SignatureList([]) == [0, 0, 0, 0];
  }
}
