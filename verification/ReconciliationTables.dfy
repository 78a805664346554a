/** The payment handlers as they update their rows. */
module ReconciliationTables {
  import opened Wrappers
  import Envelope
  import EnvelopeProofs
  import opened Reconciliation
  import opened ReconciliationProofs
  import ReconciliationRules

  class Tables {
    var now: int
    var orders: map<OrderId, Order>
    var attempts: map<AttemptId, Attempt>
    var intents: map<IntentId, Intent>
    var transactions: map<IntentId, Transaction>
    var evidence: map<OperationKey, Recorded>
    var events: map<EventKey, EventRecord>
    var cursor: Option<Cursor>

    ghost function Rows(): State
      reads this
    {
      State(now, orders, attempts, intents, transactions, evidence, events, cursor)
    }

    ghost predicate Ended(outcome: Outcome, r: Option<Error>)
      reads this
    {
      Rows() == outcome.after && r == if outcome.Done? then None else Some(outcome.error)
    }

    constructor ()
      ensures Rows() == INIT && Inv(Rows())
    {
      now, orders, attempts, intents, transactions := 0, map[], map[], map[], map[];
      evidence, events, cursor := map[], map[], None;
    }

    /** The insert fails on an order with an active attempt, or on a reference already used. */
    method CreatePaymentAttempt(order: OrderId, provider: string, reference: Option<string>, payer: Option<string>, id: AttemptId)
      returns (r: Option<Error>)
      modifies this
      ensures Ended(CreateAttempt(old(Rows()), order, provider, reference, payer, id), r)
      ensures Inv(old(Rows())) ==> Inv(Rows())
    {
      hide Inv;
      if Inv(Rows()) { CreateAttemptKeepsInv(Rows(), order, provider, reference, payer, id); }
      if order !in orders {
        return Some(NotFound);
      }
      if orders[order].state != AwaitingPayment {
        return Some(OrderNotAwaiting);
      }
      var active := exists a :: a in attempts && attempts[a].order == order && attempts[a].phase == Active;
      var taken := reference.Some? && exists a :: a in attempts && attempts[a].provider == provider && attempts[a].reference == reference;
      if id in attempts || active || taken {
        return Some(AlreadyExists);
      }
      attempts := attempts[id := Attempt(order, Active, provider, reference, payer)];
      return None;
    }

    method CreateTransactionIntent(order: OrderId, attempt: AttemptId, source: Text, destination: Text, sequence: Envelope.i64,
                                   fee: Envelope.u32, memo: Text, expiresAt: Envelope.i64, digest: string, key: string,
                                   request: string, id: IntentId)
      returns (r: Option<Error>)
      modifies this
      ensures Ended(CreateIntent(old(Rows()), order, attempt, source, destination, sequence, fee, memo, expiresAt, digest, key, request, id), r)
      ensures Inv(old(Rows())) ==> Inv(Rows())
    {
      hide Inv, Envelope.Body;
      if Inv(Rows()) {
        CreateIntentKeepsInv(Rows(), order, attempt, source, destination, sequence, fee, memo, expiresAt, digest, key, request, id);
      }
      if attempt !in attempts || attempts[attempt].order !in orders {
        return Some(NotFound);
      }
      if attempts[attempt].order != order {
        return Some(AttemptMismatch);
      }
      if orders[order].state != AwaitingPayment {
        return Some(OrderNotAwaiting);
      }
      if attempts[attempt].phase != Active {
        return Some(AttemptNotActive);
      }
      if exists i :: i in intents && intents[i].key == key {
        if exists i :: i in intents && intents[i].key == key && intents[i].request != request {
          return Some(KeyReused);
        }
        return None;
      }
      var p := PaymentFor(orders[order], source, destination, sequence, fee, memo, expiresAt);
      if Envelope.Body(p).Err? {
        return Some(EnvelopeInvalid);
      }
      if id in intents || exists i :: i in intents && intents[i].attempt == attempt && IsOpen(intents[i].status) {
        return Some(AlreadyExists);
      }
      intents := intents[id := Intent(order, attempt, AwaitingSignature, EnvelopeProofs.DraftOf(p, digest), orders[order].asset.scale, key, request)];
      return None;
    }

    /** An expired intent is marked as such even though the request is refused. */
    method AcceptSignedEnvelope(id: IntentId, envelope: string, hash: string, digest: string, fields: Envelope.Fields) returns (r: Option<Error>)
      modifies this
      ensures Ended(AcceptEnvelope(old(Rows()), id, envelope, hash, digest, fields), r)
      ensures Inv(old(Rows())) ==> Inv(Rows())
    {
      hide Inv;
      if Inv(Rows()) { EnvelopeKeepsInv(Rows(), id, envelope, hash, digest, fields); }
      if id !in intents {
        return Some(NotFound);
      }
      var intent := intents[id];
      if id in transactions {
        return if transactions[id].envelope != envelope then Some(AlreadySigned) else None;
      }
      if intent.status != AwaitingSignature {
        return Some(NotAwaitingSignature);
      }
      if intent.draft.expiresAt <= now {
        intents := intents[id := intent.(status := IntentExpired)];
        return Some(Expired);
      }
      if EnvelopeProofs.ValidateDigest(digest, fields, intent.draft).Err? {
        return Some(EnvelopeInvalid);
      }
      if exists i :: i in transactions && (transactions[i].hash == hash || transactions[i].envelope == envelope) {
        return Some(AlreadyExists);
      }
      transactions := transactions[id := Transaction(Signed, envelope, hash, fields)];
      intents := intents[id := intent.(status := IntentSigned)];
      return None;
    }

    method RecordSubmissionReceipt(id: IntentId, hash: string, code: int, responseHash: Option<string>) returns (r: Option<Error>)
      modifies this
      ensures Ended(RecordReceipt(old(Rows()), id, hash, code, responseHash), r)
      ensures Inv(old(Rows())) ==> Inv(Rows())
    {
      hide Inv;
      if Inv(Rows()) { ReceiptKeepsInv(Rows(), id, hash, code, responseHash); }
      if code < 200 || code > 299 {
        return Some(HorizonFailed);
      }
      if responseHash != Some(hash) {
        return Some(ResponseHashMismatch);
      }
      if id !in intents || id !in transactions {
        return Some(NotFound);
      }
      var intent, tx := intents[id], transactions[id];
      if tx.hash != hash {
        return Some(SubmittedHashMismatch);
      }
      if tx.stage in {Submitted, Confirmed} {
        return None;
      }
      if tx.stage != Signed || intent.status != IntentSigned {
        return Some(NotSigned);
      }
      transactions := transactions[id := tx.(stage := Submitted)];
      intents := intents[id := intent.(status := IntentSubmitted)];
      return None;
    }

    method RecordChainEvidence(id: IntentId, e: ChainEvidence) returns (r: Option<Error>)
      modifies this
      ensures Ended(RecordEvidence(old(Rows()), id, e), r)
      ensures Inv(old(Rows())) ==> Inv(Rows())
    {
      hide Inv, Reconcile, ConfirmPayment;
      if Inv(Rows()) { EvidenceKeepsInv(Rows(), id, e); }
      if e.ledger <= 0 || e.operation < 0 || e.amount <= 0 || e.asset.scale < 0 || e.asset.scale > 7 || e.closedAt > now + 300 {
        return Some(InvalidNumbers);
      }
      if id !in intents || id !in transactions {
        return Some(NotFound);
      }
      var at := OperationKey(e.hash, e.operation);
      if at in evidence {
        var existing := evidence[at];
        if existing.intent != id || existing.digest != e.digest {
          return Some(EvidenceReused);
        }
        return None;
      }
      if exists other :: other in evidence && evidence[other].intent == id && evidence[other].accepted {
        return Some(AlreadyReconciled);
      }
      var failure := Reconcile(intents[id], transactions[id], e);
      if failure.Some? {
        evidence := evidence[at := Recorded(id, e.digest, false, e.ledger, e.token)];
        return None;
      }
      PaymentLeavesTheRest(Rows(), id);
      var confirmed := ConfirmPaymentState(id);
      if !confirmed {
        return Some(ConfirmationStateChanged);
      }
      evidence := evidence[at := Recorded(id, e.digest, true, e.ledger, e.token)];
      AdvanceCursor(e.ledger, e.token);
      return None;
    }

    /** Four conditional updates; unless each hits its row, none of them stands. */
    method ConfirmPaymentState(id: IntentId) returns (confirmed: bool)
      requires id in intents && id in transactions
      modifies this
      ensures confirmed == ConfirmPayment(old(Rows()), id).Some?
      ensures Rows() == if confirmed then ConfirmPayment(old(Rows()), id).value else old(Rows())
    {
      var intent, tx := intents[id], transactions[id];
      var hits := 0;
      var transactions', intents', attempts', orders' := transactions, intents, attempts, orders;
      if tx.stage == Submitted {
        transactions' := transactions[id := tx.(stage := Confirmed)];
        hits := hits + 1;
      }
      if intent.status == IntentSubmitted {
        intents' := intents[id := intent.(status := IntentConfirmed)];
        hits := hits + 1;
      }
      if intent.attempt in attempts && attempts[intent.attempt].phase == Active {
        attempts' := attempts[intent.attempt := attempts[intent.attempt].(phase := AttemptConfirmed)];
        hits := hits + 1;
      }
      if intent.order in orders && orders[intent.order].state == AwaitingPayment {
        orders' := orders[intent.order := orders[intent.order].(state := Paid)];
        hits := hits + 1;
      }
      confirmed := hits == 4;
      if confirmed {
        transactions, intents, attempts, orders := transactions', intents', attempts', orders';
      }
    }

    method AdvanceCursor(ledger: int, token: Token)
      modifies this`cursor
      ensures cursor == Advanced(old(cursor), Cursor(ledger, token))
    {
      if cursor.None? || cursor.value.ledger < ledger || (cursor.value.ledger == ledger && cursor.value.token < token) {
        cursor := Some(Cursor(ledger, token));
      }
    }

    method RecordPaymentEvent(id: AttemptId, e: ProviderEvent, verified: bool) returns (r: Option<Error>)
      modifies this
      ensures Ended(RecordEvent(old(Rows()), id, e, verified), r)
      ensures Inv(old(Rows())) ==> Inv(Rows())
      ensures attempts != old(attempts) ==>
        && r == None && verified && id in old(attempts) && id in attempts && old(attempts)[id].order in old(orders)
        && ReconciliationRules.Matches(old(orders)[old(attempts)[id].order], old(attempts)[id], e)
        && attempts[id].phase == if e.confirmed then AttemptConfirmed else AttemptFailed
      ensures orders != old(orders) ==> attempts != old(attempts) && e.confirmed
    {
      hide Inv;
      if Inv(Rows()) { EventKeepsInv(Rows(), id, e, verified); }
      if !verified {
        return Some(Unauthorized);
      }
      if e.amount <= 0 || e.asset.scale < 0 || e.asset.scale > 7 {
        return Some(InvalidAmount);
      }
      if id !in attempts || attempts[id].order !in orders {
        return Some(NotFound);
      }
      var attempt := attempts[id];
      var order := orders[attempt.order];
      var at := EventKey(attempt.provider, e.id);
      if at in events {
        if events[at].attempt != id || events[at].digest != e.digest {
          return Some(EventReused);
        }
        return None;
      }
      if attempt.phase != Active {
        return Some(AttemptNotActive);
      }
      var agrees := e.amount == order.price && e.asset == order.asset && e.sameEnvironment
                    && (attempt.payer.None? || e.payer == attempt.payer);
      events := events[at := EventRecord(id, e.digest, agrees)];
      if agrees {
        if e.confirmed {
          attempts := attempts[id := attempt.(phase := AttemptConfirmed)];
          if order.state == AwaitingPayment {
            orders := orders[attempt.order := order.(state := Paid)];
          }
        } else {
          attempts := attempts[id := attempt.(phase := AttemptFailed)];
        }
      }
      return None;
    }
  }

  lemma PaymentLeavesTheRest(s: State, id: IntentId)
    requires id in s.intents && id in s.transactions
    ensures ConfirmPayment(s, id).Some? ==>
              var paid := ConfirmPayment(s, id).value;
              paid.now == s.now && paid.evidence == s.evidence && paid.events == s.events && paid.cursor == s.cursor
  {
  }
}
