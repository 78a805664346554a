/** Payment of an order: attempts, transaction intents, signed transactions, provider events and
    the reconciliation with indexed chain evidence. Each handler is one atomic step. */
module Reconciliation {
  import opened Wrappers
  import Decimal
  import Envelope
  import EnvelopeProofs

  type OrderId = nat
  type AttemptId = nat
  type IntentId = nat

  /** Addresses, asset codes and memos are bytes, as the envelopes carry them. */
  type Text = Envelope.Bytes

  /** A paging token, by its place in the text order of the database. */
  type Token = nat

  datatype OrderStatus = AwaitingPayment | Paid | PastPayment | OrderExpired
  datatype AttemptStatus = Active | AttemptConfirmed | AttemptFailed
  datatype IntentStatus = AwaitingSignature | IntentSigned | IntentSubmitted | IntentConfirmed | IntentExpired
  datatype TransactionStatus = Signed | Submitted | Confirmed

  datatype Asset = Asset(code: Text, scale: int, issuer: Option<Text>)

  /** What an intent asks a wallet to sign. */
  datatype Terms = Terms(source: Text, destination: Text, amount: int, asset: Asset, memo: Text)

  datatype Order = Order(state: OrderStatus, price: Envelope.i64, asset: Asset)

  datatype Attempt = Attempt(order: OrderId, phase: AttemptStatus, provider: string, reference: Option<string>, payer: Option<string>)

  /** draft: what the unsigned envelope says. */
  datatype Intent = Intent(
    order: OrderId, attempt: AttemptId, status: IntentStatus, draft: EnvelopeProofs.Intent, scale: int, key: string, request: string)

  function TermsOf(intent: Intent): Terms {
    var draft := intent.draft;
    Terms(draft.source, draft.destination, draft.amount, Asset(draft.assetCode, intent.scale, draft.assetIssuer), draft.memo)
  }

  /** A signed envelope by its digest, the hash of its transaction, and what it says. */
  datatype Transaction = Transaction(stage: TransactionStatus, envelope: string, hash: string, fields: Envelope.Fields)

  datatype ChainEvidence = ChainEvidence(
    hash: string, ledger: int, operation: int, token: Token, source: Text, destination: Text, amount: int,
    asset: Asset, memo: Text, successful: bool, closedAt: int, digest: string,
    rawTransaction: RawTransaction, rawOperation: RawOperation)

  datatype RawTime = NoTime | BadTime | At(time: int)

  datatype RawTransaction = RawTransaction(
    hash: Option<string>, successful: Option<bool>, ledger: Option<int>, memoType: Option<string>, memo: Option<Text>, createdAt: RawTime)

  datatype RawOperation = RawOperation(
    kind: Option<string>, hash: Option<string>, token: Option<Token>, source: Option<Text>, to: Option<Text>,
    amount: Option<Decimal.Text>, assetType: Option<string>, assetCode: Option<Text>, assetIssuer: Option<Text>)

  datatype Recorded = Recorded(intent: IntentId, digest: string, accepted: bool, ledger: int, token: Token)

  datatype OperationKey = OperationKey(hash: string, index: int)

  datatype ProviderEvent = ProviderEvent(id: string, confirmed: bool, amount: int, asset: Asset, payer: Option<string>, sameEnvironment: bool, digest: string)

  datatype EventKey = EventKey(provider: string, id: string)

  datatype EventRecord = EventRecord(attempt: AttemptId, digest: string, processed: bool)

  datatype Cursor = Cursor(ledger: int, token: Token)

  datatype State = State(
    now: int, orders: map<OrderId, Order>, attempts: map<AttemptId, Attempt>, intents: map<IntentId, Intent>,
    transactions: map<IntentId, Transaction>, evidence: map<OperationKey, Recorded>, events: map<EventKey, EventRecord>,
    cursor: Option<Cursor>)

  datatype Error =
    | NotFound | OrderNotAwaiting | AttemptMismatch | AttemptNotActive | KeyReused | AlreadyExists | AlreadySigned
    | NotAwaitingSignature | Expired | EnvelopeInvalid | HorizonFailed | ResponseHashMismatch | SubmittedHashMismatch
    | NotSigned | InvalidNumbers | EvidenceReused | AlreadyReconciled | ConfirmationStateChanged | InvalidAmount | EventReused | Unauthorized

  /** Some refusals are committed together with a change. */
  datatype Outcome = Done(after: State) | Refused(after: State, error: Error)

  // ----- reconciliation -----

  datatype Mismatch =
    | NotSubmitted | HashMismatch | FailedOnChain | SourceMismatch | DestinationMismatch | AmountMismatch | AssetMismatch
    | MemoMismatch | RawHashMismatch | RawSuccessMismatch | RawLedgerMismatch | RawMemoMismatch | RawTimeMissing
    | RawTimeInvalid | RawTimeMismatch | RawTypeMismatch | RawOperationHashMismatch | RawTokenMismatch
    | RawAccountMismatch | RawAmountMissing | RawAmountMismatch | RawAssetMismatch

  const TEXT: string := "text"
  const PAYMENT: string := "payment"
  const NATIVE: string := "native"
  const XLM: Text := Envelope.XLM

  function RawTransactionFailure(e: ChainEvidence): Option<Mismatch> {
    var raw := e.rawTransaction;
    if raw.hash != Some(e.hash) then Some(RawHashMismatch)
    else if raw.successful != Some(e.successful) then Some(RawSuccessMismatch)
    else if raw.ledger != Some(e.ledger) then Some(RawLedgerMismatch)
    else if raw.memoType != Some(TEXT) || raw.memo != Some(e.memo) then Some(RawMemoMismatch)
    else
      match raw.createdAt
      case NoTime => Some(RawTimeMissing)
      case BadTime => Some(RawTimeInvalid)
      case At(time) => if time != e.closedAt then Some(RawTimeMismatch) else None
  }

  function RawOperationFailure(e: ChainEvidence): Option<Mismatch> {
    var raw := e.rawOperation;
    if raw.kind != Some(PAYMENT) then Some(RawTypeMismatch)
    else if raw.hash != Some(e.hash) then Some(RawOperationHashMismatch)
    else if raw.token != Some(e.token) then Some(RawTokenMismatch)
    else if raw.source != Some(e.source) || raw.to != Some(e.destination) then Some(RawAccountMismatch)
    else if raw.amount.None? then Some(RawAmountMissing)
    else if Decimal.Minor(raw.amount.value, e.asset.scale) != Some(e.amount) then Some(RawAmountMismatch)
    else if e.asset.code == XLM then
      if raw.assetType != Some(NATIVE) then Some(RawAssetMismatch) else None
    else if raw.assetCode != Some(e.asset.code) || raw.assetIssuer != e.asset.issuer then Some(RawAssetMismatch)
    else None
  }

  function Reconcile(intent: Intent, tx: Transaction, e: ChainEvidence): Option<Mismatch> {
    var terms := TermsOf(intent);
    if intent.status != IntentSubmitted || tx.stage != Submitted then Some(NotSubmitted)
    else if e.hash != tx.hash then Some(HashMismatch)
    else if !e.successful then Some(FailedOnChain)
    else if e.source != terms.source then Some(SourceMismatch)
    else if e.destination != terms.destination then Some(DestinationMismatch)
    else if e.amount != terms.amount then Some(AmountMismatch)
    else if e.asset != terms.asset then Some(AssetMismatch)
    else if e.memo != terms.memo then Some(MemoMismatch)
    else if RawTransactionFailure(e).Some? then RawTransactionFailure(e)
    else RawOperationFailure(e)
  }

  /** The chain's own record of the intended payment, in an amount text that is exactly the
      intended amount. */
  ghost predicate ChainSays(intent: Intent, tx: Transaction, e: ChainEvidence) {
    var terms := TermsOf(intent);
    && e.rawTransaction == RawTransaction(Some(tx.hash), Some(true), Some(e.ledger), Some(TEXT), Some(terms.memo), At(e.closedAt))
    && e.rawOperation.kind == Some(PAYMENT) && e.rawOperation.hash == Some(tx.hash) && e.rawOperation.token == Some(e.token)
    && e.rawOperation.source == Some(terms.source) && e.rawOperation.to == Some(terms.destination)
    && e.rawOperation.amount.Some?
    && Decimal.Minor(e.rawOperation.amount.value, terms.asset.scale) == Some(terms.amount)
    && (if terms.asset.code == XLM then e.rawOperation.assetType == Some(NATIVE)
        else e.rawOperation.assetCode == Some(terms.asset.code) && e.rawOperation.assetIssuer == terms.asset.issuer)
  }

  /** Evidence matches exactly when the transaction is submitted and both the report and the
      raw records are the successful payment the intent asked for. */
  lemma MatchesIff(intent: Intent, tx: Transaction, e: ChainEvidence)
    ensures Reconcile(intent, tx, e) == None <==>
      && intent.status == IntentSubmitted && tx.stage == Submitted
      && e.hash == tx.hash && e.successful
      && Terms(e.source, e.destination, e.amount, e.asset, e.memo) == TermsOf(intent)
      && ChainSays(intent, tx, e)
  {
    hide Decimal.Minor;
  }

  // ----- the handlers -----

  /** The order has an attempt that may still be confirmed. */
  predicate HasActive(s: State, order: OrderId) {
    exists a :: a in s.attempts && s.attempts[a].order == order && s.attempts[a].phase == Active
  }

  predicate ReferenceTaken(s: State, provider: string, reference: Option<string>) {
    reference.Some? && exists a :: a in s.attempts && s.attempts[a].provider == provider && s.attempts[a].reference == reference
  }

  /** create_payment_attempt; two unique indexes of the table refuse a second active attempt of
      an order and a second attempt with a provider's reference. */
  function CreateAttempt(s: State, order: OrderId, provider: string, reference: Option<string>, payer: Option<string>, id: AttemptId): Outcome {
    if order !in s.orders then Refused(s, NotFound)
    else if s.orders[order].state != AwaitingPayment then Refused(s, OrderNotAwaiting)
    else if id in s.attempts || HasActive(s, order) || ReferenceTaken(s, provider, reference) then Refused(s, AlreadyExists)
    else Done(s.(attempts := s.attempts[id := Attempt(order, Active, provider, reference, payer)]))
  }

  predicate IsOpen(status: IntentStatus) {
    status in {AwaitingSignature, IntentSigned, IntentSubmitted}
  }

  /** What an intent for an order asks for. */
  function PaymentFor(o: Order, source: Text, destination: Text, sequence: Envelope.i64, fee: Envelope.u32, memo: Text,
                      expiresAt: Envelope.i64): Envelope.Payment
  {
    Envelope.Payment(source, destination, sequence, fee, o.price, o.asset.code, o.asset.issuer, memo, expiresAt)
  }

  /** create_transaction_intent, after its checks of the request itself; digest is the hash of the
      body that is built. */
  function CreateIntent(s: State, order: OrderId, attempt: AttemptId, source: Text, destination: Text, sequence: Envelope.i64,
                        fee: Envelope.u32, memo: Text, expiresAt: Envelope.i64, digest: string, key: string, request: string,
                        id: IntentId): Outcome
  {
    if attempt !in s.attempts || s.attempts[attempt].order !in s.orders then Refused(s, NotFound)
    else if s.attempts[attempt].order != order then Refused(s, AttemptMismatch)
    else if s.orders[order].state != AwaitingPayment then Refused(s, OrderNotAwaiting)
    else if s.attempts[attempt].phase != Active then Refused(s, AttemptNotActive)
    else if exists i :: i in s.intents && s.intents[i].key == key then
      if exists i :: i in s.intents && s.intents[i].key == key && s.intents[i].request != request then Refused(s, KeyReused) else Done(s)
    else
      var p := PaymentFor(s.orders[order], source, destination, sequence, fee, memo, expiresAt);
      if Envelope.Body(p).Err? then Refused(s, EnvelopeInvalid)
      else if id in s.intents || exists i :: i in s.intents && s.intents[i].attempt == attempt && IsOpen(s.intents[i].status) then
        Refused(s, AlreadyExists)
      else
        Done(s.(intents := s.intents[id :=
          Intent(order, attempt, AwaitingSignature, EnvelopeProofs.DraftOf(p, digest), s.orders[order].asset.scale, key, request)]))
  }

  /** accept_signed_envelope of an envelope that parses to the fields and carries a signature;
      digest is the hash of its body. */
  function AcceptEnvelope(s: State, id: IntentId, envelope: string, hash: string, digest: string, fields: Envelope.Fields): Outcome {
    if id !in s.intents then Refused(s, NotFound)
    else
      var intent := s.intents[id];
      if id in s.transactions then
        if s.transactions[id].envelope != envelope then Refused(s, AlreadySigned) else Done(s)
      else if intent.status != AwaitingSignature then Refused(s, NotAwaitingSignature)
      else if intent.draft.expiresAt <= s.now then
        Refused(s.(intents := s.intents[id := intent.(status := IntentExpired)]), Expired)
      else if EnvelopeProofs.ValidateDigest(digest, fields, intent.draft).Err? then Refused(s, EnvelopeInvalid)
      else if exists i :: i in s.transactions && (s.transactions[i].hash == hash || s.transactions[i].envelope == envelope) then
        Refused(s, AlreadyExists)
      else
        Done(s.(transactions := s.transactions[id := Transaction(Signed, envelope, hash, fields)],
                intents := s.intents[id := intent.(status := IntentSigned)]))
  }

  /** record_submission_receipt */
  function RecordReceipt(s: State, id: IntentId, hash: string, code: int, responseHash: Option<string>): Outcome {
    if !(200 <= code <= 299) then Refused(s, HorizonFailed)
    else if responseHash != Some(hash) then Refused(s, ResponseHashMismatch)
    else if id !in s.intents || id !in s.transactions then Refused(s, NotFound)
    else
      var intent, tx := s.intents[id], s.transactions[id];
      if tx.hash != hash then Refused(s, SubmittedHashMismatch)
      else if tx.stage in {Submitted, Confirmed} then Done(s)
      else if tx.stage != Signed || intent.status != IntentSigned then Refused(s, NotSigned)
      else
        Done(s.(transactions := s.transactions[id := tx.(stage := Submitted)],
                intents := s.intents[id := intent.(status := IntentSubmitted)]))
  }

  /** confirm_payment_state: all four rows or none. */
  function ConfirmPayment(s: State, id: IntentId): Option<State>
    requires id in s.intents && id in s.transactions
  {
    var intent, tx := s.intents[id], s.transactions[id];
    if intent.attempt !in s.attempts || intent.order !in s.orders then None
    else
      var attempt, order := s.attempts[intent.attempt], s.orders[intent.order];
      if tx.stage != Submitted || intent.status != IntentSubmitted || attempt.phase != Active || order.state != AwaitingPayment then None
      else
        Some(s.(transactions := s.transactions[id := tx.(stage := Confirmed)],
                intents := s.intents[id := intent.(status := IntentConfirmed)],
                attempts := s.attempts[intent.attempt := attempt.(phase := AttemptConfirmed)],
                orders := s.orders[intent.order := order.(state := Paid)]))
  }

  predicate Before(a: Cursor, b: Cursor) {
    a.ledger < b.ledger || (a.ledger == b.ledger && a.token < b.token)
  }

  /** advance_cursor */
  function Advanced(cursor: Option<Cursor>, to: Cursor): Option<Cursor> {
    if cursor.None? || Before(cursor.value, to) then Some(to) else cursor
  }

  function Record(s: State, id: IntentId, e: ChainEvidence, accepted: bool): State {
    s.(evidence := s.evidence[OperationKey(e.hash, e.operation) := Recorded(id, e.digest, accepted, e.ledger, e.token)])
  }

  predicate HasAccepted(s: State, id: IntentId) {
    exists at :: at in s.evidence && s.evidence[at].intent == id && s.evidence[at].accepted
  }

  /** record_chain_evidence */
  function RecordEvidence(s: State, id: IntentId, e: ChainEvidence): Outcome {
    if e.ledger <= 0 || e.operation < 0 || e.amount <= 0 || e.asset.scale < 0 || e.asset.scale > 7 || e.closedAt > s.now + 300
    then Refused(s, InvalidNumbers)
    else if id !in s.intents || id !in s.transactions then Refused(s, NotFound)
    else
      var at := OperationKey(e.hash, e.operation);
      if at in s.evidence then
        if s.evidence[at].intent != id || s.evidence[at].digest != e.digest then Refused(s, EvidenceReused) else Done(s)
      else if HasAccepted(s, id) then Refused(s, AlreadyReconciled)
      else if Reconcile(s.intents[id], s.transactions[id], e).Some? then Done(Record(s, id, e, false))
      else
        match ConfirmPayment(s, id)
        case None => Refused(s, ConfirmationStateChanged)
        case Some(paid) => Done(Record(paid, id, e, true).(cursor := Advanced(s.cursor, Cursor(e.ledger, e.token))))
  }

  /** record_payment_event; reconciliation compares the event with the attempt's snapshot of its
      order. */
  function RecordEvent(s: State, id: AttemptId, e: ProviderEvent, verified: bool): Outcome {
    if !verified then Refused(s, Unauthorized)
    else if e.amount <= 0 || e.asset.scale < 0 || e.asset.scale > 7 then Refused(s, InvalidAmount)
    else if id !in s.attempts || s.attempts[id].order !in s.orders then Refused(s, NotFound)
    else
      var attempt := s.attempts[id];
      var order := s.orders[attempt.order];
      var at := EventKey(attempt.provider, e.id);
      if at in s.events then
        if s.events[at].attempt != id || s.events[at].digest != e.digest then Refused(s, EventReused) else Done(s)
      else if attempt.phase != Active then Refused(s, AttemptNotActive)
      else
        var agrees := e.amount == order.price && e.asset == order.asset && e.sameEnvironment
                      && (attempt.payer.Some? ==> e.payer == attempt.payer);
        var s1 := s.(events := s.events[at := EventRecord(id, e.digest, agrees)]);
        if !agrees then Done(s1)
        else if e.confirmed then
          Done(s1.(attempts := s.attempts[id := attempt.(phase := AttemptConfirmed)],
                   orders := if order.state == AwaitingPayment then s.orders[attempt.order := order.(state := Paid)] else s.orders))
        else Done(s1.(attempts := s.attempts[id := attempt.(phase := AttemptFailed)]))
  }

  // ----- runs -----

  datatype Step =
    | OrderPlaced(placed: OrderId, price: Envelope.i64, asset: Asset)
    | OrderMovesOn(order: OrderId)
    | OrderLapses(order: OrderId)
    | DoCreateAttempt(order: OrderId, provider: string, reference: Option<string>, payer: Option<string>, attempt: AttemptId)
    | DoCreateIntent(order: OrderId, attempt: AttemptId, source: Text, destination: Text, sequence: Envelope.i64, fee: Envelope.u32,
                     memo: Text, expiresAt: Envelope.i64, digest: string, key: string, request: string, id: IntentId)
    | DoAcceptEnvelope(id: IntentId, envelope: string, hash: string, digest: string, fields: Envelope.Fields)
    | DoRecordReceipt(id: IntentId, hash: string, code: int, responseHash: Option<string>)
    | DoRecordEvidence(id: IntentId, sent: ChainEvidence)
    | DoRecordEvent(attempt: AttemptId, event: ProviderEvent, verified: bool)
    | ClockAdvances(elapsed: nat)

  function SetOrder(s: State, order: OrderId, from: OrderStatus, to: OrderStatus): State {
    if order in s.orders && s.orders[order].state == from
    then s.(orders := s.orders[order := s.orders[order].(state := to)])
    else s
  }

  function After(s: State, step: Step): State {
    match step
    case OrderPlaced(placed, price, asset) =>
      if placed in s.orders then s else s.(orders := s.orders[placed := Order(AwaitingPayment, price, asset)])
    case OrderMovesOn(order) => SetOrder(s, order, Paid, PastPayment)
    case OrderLapses(order) => SetOrder(s, order, AwaitingPayment, OrderExpired)
    case DoCreateAttempt(order, provider, reference, payer, attempt) => CreateAttempt(s, order, provider, reference, payer, attempt).after
    case DoCreateIntent(order, attempt, source, destination, sequence, fee, memo, expiresAt, digest, key, request, id) =>
      CreateIntent(s, order, attempt, source, destination, sequence, fee, memo, expiresAt, digest, key, request, id).after
    case DoAcceptEnvelope(id, envelope, hash, digest, fields) => AcceptEnvelope(s, id, envelope, hash, digest, fields).after
    case DoRecordReceipt(id, hash, code, responseHash) => RecordReceipt(s, id, hash, code, responseHash).after
    case DoRecordEvidence(id, sent) => RecordEvidence(s, id, sent).after
    case DoRecordEvent(attempt, event, verified) => RecordEvent(s, attempt, event, verified).after
    case ClockAdvances(elapsed) => s.(now := s.now + elapsed)
  }

  function Run(s: State, steps: seq<Step>): State {
    if |steps| == 0 then s else After(Run(s, steps[..|steps| - 1]), steps[|steps| - 1])
  }

  const INIT: State := State(0, map[], map[], map[], map[], map[], map[], None)
}
