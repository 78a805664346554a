/** What every run of the payment handlers keeps. */
module ReconciliationProofs {
  import opened Wrappers
  import opened Reconciliation
  import Envelope
  import EnvelopeProofs

  // ----- the invariant -----

  /** An intent and its transaction, if there is one, are in step. */
  ghost predicate InStep(status: IntentStatus, tx: Option<Transaction>) {
    match status
    case AwaitingSignature => tx == None
    case IntentExpired => tx == None
    case IntentSigned => tx.Some? && tx.value.stage == Signed
    case IntentSubmitted => tx.Some? && tx.value.stage == Submitted
    case IntentConfirmed => tx.Some? && tx.value.stage == Confirmed
  }

  function TransactionOf(s: State, id: IntentId): Option<Transaction> {
    if id in s.transactions then Some(s.transactions[id]) else None
  }

  ghost predicate IntentOk(s: State, id: IntentId)
    requires id in s.intents
  {
    var intent := s.intents[id];
    && intent.order in s.orders && intent.attempt in s.attempts && s.attempts[intent.attempt].order == intent.order
    && InStep(intent.status, TransactionOf(s, id))
  }

  ghost predicate AttemptOk(s: State, id: AttemptId)
    requires id in s.attempts
  {
    s.attempts[id].order in s.orders
  }

  /** A paid order has a confirmed attempt. */
  ghost predicate OrderOk(s: State, o: OrderId)
    requires o in s.orders
  {
    s.orders[o].state in {Paid, PastPayment} ==> exists a :: a in s.attempts && s.attempts[a].order == o && s.attempts[a].phase == AttemptConfirmed
  }

  ghost predicate Rows(s: State) {
    && (forall id :: id in s.intents ==> IntentOk(s, id))
    && (forall id :: id in s.attempts ==> AttemptOk(s, id))
    && (forall o :: o in s.orders ==> OrderOk(s, o))
    && s.transactions.Keys <= s.intents.Keys
  }

  /** Accepted evidence is that of a confirmed intent of an order that has been paid. */
  ghost predicate AcceptedOk(s: State, at: OperationKey)
    requires at in s.evidence
  {
    var e := s.evidence[at];
    e.accepted ==>
      && e.intent in s.intents && s.intents[e.intent].status == IntentConfirmed
      && s.intents[e.intent].order in s.orders && s.orders[s.intents[e.intent].order].state in {Paid, PastPayment}
  }

  /** Which order an accepted piece of evidence has paid. */
  function PaidOrder(s: State, at: OperationKey): Option<OrderId>
    requires at in s.evidence
  {
    if s.evidence[at].accepted && s.evidence[at].intent in s.intents then Some(s.intents[s.evidence[at].intent].order) else None
  }

  ghost predicate OnePerOrder(s: State) {
    forall a, b :: a in s.evidence && b in s.evidence && PaidOrder(s, a).Some? && PaidOrder(s, a) == PaidOrder(s, b) ==> a == b
  }

  ghost predicate ConfirmedHasEvidence(s: State) {
    forall id :: id in s.intents && s.intents[id].status == IntentConfirmed ==> HasAccepted(s, id)
  }

  function CursorOf(e: Recorded): Cursor {
    Cursor(e.ledger, e.token)
  }

  /** The cursor is the greatest position among the accepted evidence. */
  ghost predicate CursorOk(s: State) {
    && (forall at :: at in s.evidence && s.evidence[at].accepted ==>
          s.cursor.Some? && !Before(s.cursor.value, CursorOf(s.evidence[at])))
    && (s.cursor.Some? ==> exists at :: at in s.evidence && s.evidence[at].accepted && CursorOf(s.evidence[at]) == s.cursor.value)
  }

  ghost predicate Evidences(s: State) {
    && (forall at :: at in s.evidence ==> AcceptedOk(s, at))
    && OnePerOrder(s) && ConfirmedHasEvidence(s) && CursorOk(s)
  }

  /** Two attempts of one order, unless one of them has failed. */
  ghost predicate Rivals(s: State, a: AttemptId, b: AttemptId) {
    && a in s.attempts && b in s.attempts && a != b && s.attempts[a].order == s.attempts[b].order
    && s.attempts[a].phase != AttemptFailed && s.attempts[b].phase != AttemptFailed
  }

  /** An order has one attempt that has not failed at most, waits for payment no longer once an
      attempt is confirmed, and its confirmed intents are those of the confirmed attempt. */
  ghost predicate Attempts(s: State) {
    && (forall a, b :: !Rivals(s, a, b))
    && (forall a :: a in s.attempts && s.attempts[a].phase == AttemptConfirmed && s.attempts[a].order in s.orders ==>
          s.orders[s.attempts[a].order].state != AwaitingPayment)
    && (forall id :: id in s.intents && s.intents[id].status == IntentConfirmed ==>
          s.intents[id].attempt in s.attempts && s.attempts[s.intents[id].attempt].phase == AttemptConfirmed)
  }

  ghost predicate Inv(s: State) {
    Rows(s) && Evidences(s) && Attempts(s)
  }

  // ----- rows change, evidence does not -----

  /** Nothing a handler does short of accepting evidence may disturb what is accepted. */
  ghost predicate KeepsPayments(s: State, s': State) {
    && s'.cursor == s.cursor
    && s.intents.Keys <= s'.intents.Keys && s.orders.Keys <= s'.orders.Keys
    && (forall id :: id in s.intents ==> s'.intents[id].order == s.intents[id].order
                                         && (s'.intents[id].status == IntentConfirmed <==> s.intents[id].status == IntentConfirmed))
    && (forall id :: id in s'.intents && id !in s.intents ==> s'.intents[id].status != IntentConfirmed)
    && (forall o :: o in s.orders && s.orders[o].state in {Paid, PastPayment} ==> s'.orders[o].state in {Paid, PastPayment})
  }

  lemma EvidencesStay(s: State, s': State)
    requires Evidences(s) && KeepsPayments(s, s') && s'.evidence == s.evidence
    ensures Evidences(s')
  {
    forall at | at in s'.evidence
      ensures AcceptedOk(s', at) && PaidOrder(s', at) == PaidOrder(s, at)
    {
      assert AcceptedOk(s, at);
    }
    forall id | id in s'.intents && s'.intents[id].status == IntentConfirmed
      ensures HasAccepted(s', id)
    {
      assert HasAccepted(s, id);
    }
  }

  lemma RejectionKeepsAccepted(s: State, id: IntentId, e: ChainEvidence)
    requires (forall at :: at in s.evidence ==> AcceptedOk(s, at)) && OnePerOrder(s)
    requires OperationKey(e.hash, e.operation) !in s.evidence
    ensures var s' := Record(s, id, e, false);
            (forall at :: at in s'.evidence ==> AcceptedOk(s', at)) && OnePerOrder(s')
  {
    var s', new_ := Record(s, id, e, false), OperationKey(e.hash, e.operation);
    forall at | at in s'.evidence
      ensures AcceptedOk(s', at)
      ensures PaidOrder(s', at) == if at == new_ then None else PaidOrder(s, at)
    {
      if at != new_ {
        assert AcceptedOk(s, at);
      }
    }
  }

  lemma RejectionKeepsConfirmed(s: State, id: IntentId, e: ChainEvidence)
    requires ConfirmedHasEvidence(s) && OperationKey(e.hash, e.operation) !in s.evidence
    ensures ConfirmedHasEvidence(Record(s, id, e, false))
  {
    var s' := Record(s, id, e, false);
    forall i | i in s'.intents && s'.intents[i].status == IntentConfirmed
      ensures HasAccepted(s', i)
    {
      assert HasAccepted(s, i);
      var at :| at in s.evidence && s.evidence[at].intent == i && s.evidence[at].accepted;
      assert s'.evidence[at].accepted;
    }
  }

  lemma RejectionStays(s: State, id: IntentId, e: ChainEvidence)
    requires Inv(s) && OperationKey(e.hash, e.operation) !in s.evidence
    ensures Inv(Record(s, id, e, false))
  {
    AttemptsStay(s, Record(s, id, e, false));
    hide Rows, Attempts, AcceptedOk, OnePerOrder, ConfirmedHasEvidence, CursorOk, Record;
    RejectionKeepsRows(s, id, e);
    RejectionKeepsAccepted(s, id, e);
    RejectionKeepsConfirmed(s, id, e);
    RejectionKeepsCursor(s, id, e);
  }

  lemma RejectionKeepsRows(s: State, id: IntentId, e: ChainEvidence)
    requires Rows(s)
    ensures Rows(Record(s, id, e, false))
  {
    RowsStay(s, Record(s, id, e, false));
  }

  lemma RejectionKeepsCursor(s: State, id: IntentId, e: ChainEvidence)
    requires CursorOk(s) && OperationKey(e.hash, e.operation) !in s.evidence
    ensures CursorOk(Record(s, id, e, false))
  {
    var s' := Record(s, id, e, false);
    if s.cursor.Some? {
      var at :| at in s.evidence && s.evidence[at].accepted && CursorOf(s.evidence[at]) == s.cursor.value;
      assert s'.evidence[at].accepted;
    }
  }

  lemma RowsStay(s: State, s': State)
    requires Rows(s) && s'.orders == s.orders && s'.attempts == s.attempts && s'.intents == s.intents && s'.transactions == s.transactions
    ensures Rows(s')
  {
    forall id | id in s'.intents
      ensures IntentOk(s', id)
    {
      assert IntentOk(s, id);
    }
    forall id | id in s'.attempts
      ensures AttemptOk(s', id)
    {
      assert AttemptOk(s, id);
    }
    forall o | o in s'.orders
      ensures OrderOk(s', o)
    {
      assert OrderOk(s, o);
    }
  }

  // ----- handlers that accept nothing -----

  /** One intent and its transaction move in step. */
  lemma IntentMoves(s: State, id: IntentId, intent: Intent, transactions: map<IntentId, Transaction>)
    requires Rows(s) && id in s.intents
    requires intent.order == s.intents[id].order && intent.attempt == s.intents[id].attempt
    requires forall i :: i != id ==> (i in transactions <==> i in s.transactions) && (i in transactions ==> transactions[i] == s.transactions[i])
    requires InStep(intent.status, if id in transactions then Some(transactions[id]) else None)
    ensures Rows(s.(intents := s.intents[id := intent], transactions := transactions))
  {
    var s' := s.(intents := s.intents[id := intent], transactions := transactions);
    forall i | i in s'.intents
      ensures IntentOk(s', i)
    {
      assert IntentOk(s, i);
    }
    forall a | a in s'.attempts
      ensures AttemptOk(s', a)
    {
      assert AttemptOk(s, a);
    }
    forall o | o in s'.orders
      ensures OrderOk(s', o)
    {
      assert OrderOk(s, o);
    }
  }

  lemma SameStatusesStay(s: State, s': State, id: IntentId)
    requires Evidences(s) && s'.evidence == s.evidence && s'.cursor == s.cursor && s'.orders == s.orders
    requires s'.intents.Keys == s.intents.Keys && id in s.intents && s'.intents == s.intents[id := s'.intents[id]]
    requires s'.intents[id].order == s.intents[id].order
    requires s.intents[id].status != IntentConfirmed && s'.intents[id].status != IntentConfirmed
    ensures Evidences(s')
  {
    hide Evidences;
    EvidencesStay(s, s');
  }

  lemma EnvelopeKeepsInv(s: State, id: IntentId, envelope: string, hash: string, digest: string, fields: Envelope.Fields)
    requires Inv(s)
    ensures Inv(AcceptEnvelope(s, id, envelope, hash, digest, fields).after)
  {
    hide Rows, Evidences, Attempts, EnvelopeProofs.ValidateDigest;
    var s' := AcceptEnvelope(s, id, envelope, hash, digest, fields).after;
    if s' != s {
      AttemptsStay(s, s');
      IntentMoves(s, id, s'.intents[id], s'.transactions);
      SameStatusesStay(s, s', id);
    }
  }

  lemma ReceiptKeepsInv(s: State, id: IntentId, hash: string, code: int, responseHash: Option<string>)
    requires Inv(s)
    ensures Inv(RecordReceipt(s, id, hash, code, responseHash).after)
  {
    hide Rows, Evidences, Attempts;
    var s' := RecordReceipt(s, id, hash, code, responseHash).after;
    if s' != s {
      AttemptsStay(s, s');
      IntentMoves(s, id, s'.intents[id], s'.transactions);
      SameStatusesStay(s, s', id);
    }
  }

  lemma CreateIntentKeepsInv(s: State, order: OrderId, attempt: AttemptId, source: Text, destination: Text, sequence: Envelope.i64,
                             fee: Envelope.u32, memo: Text, expiresAt: Envelope.i64, digest: string, key: string, request: string, id: IntentId)
    requires Inv(s)
    ensures Inv(CreateIntent(s, order, attempt, source, destination, sequence, fee, memo, expiresAt, digest, key, request, id).after)
  {
    hide Inv, Envelope.Body, PaymentFor, EnvelopeProofs.DraftOf;
    var s' := CreateIntent(s, order, attempt, source, destination, sequence, fee, memo, expiresAt, digest, key, request, id).after;
    if s' != s {
      NewIntentKeepsInv(s, s', id, order, attempt);
    }
  }

  lemma NewIntentKeepsInv(s: State, s': State, id: IntentId, order: OrderId, attempt: AttemptId)
    requires Inv(s) && id !in s.intents && id in s'.intents && s' == s.(intents := s.intents[id := s'.intents[id]])
    requires s'.intents[id].order == order && s'.intents[id].attempt == attempt && s'.intents[id].status == AwaitingSignature
    requires order in s.orders && attempt in s.attempts && s.attempts[attempt].order == order
    ensures Inv(s')
  {
    hide Rows, Evidences, Attempts;
    AttemptsStay(s, s');
    NewIntentKeepsRows(s, s', id, order, attempt);
    EvidencesStay(s, s');
  }

  lemma NewIntentKeepsRows(s: State, s': State, id: IntentId, order: OrderId, attempt: AttemptId)
    requires Rows(s) && id !in s.intents && id in s'.intents && s' == s.(intents := s.intents[id := s'.intents[id]])
    requires s'.intents[id].order == order && s'.intents[id].attempt == attempt && s'.intents[id].status == AwaitingSignature
    requires order in s.orders && attempt in s.attempts && s.attempts[attempt].order == order
    ensures Rows(s')
  {
    forall i | i in s'.intents
      ensures IntentOk(s', i)
    {
      if i != id {
        assert IntentOk(s, i);
      }
    }
    forall a | a in s'.attempts
      ensures AttemptOk(s', a)
    {
      assert AttemptOk(s, a);
    }
    forall o | o in s'.orders
      ensures OrderOk(s', o)
    {
      assert OrderOk(s, o);
    }
  }

  /** Attempts are added or settled, and orders follow: intents and transactions stay. */
  lemma AttemptsMove(s: State, s': State)
    requires Rows(s) && s'.intents == s.intents && s'.transactions == s.transactions
    requires s.attempts.Keys <= s'.attempts.Keys && s.orders.Keys <= s'.orders.Keys
    requires forall a :: a in s'.attempts ==> s'.attempts[a].order in s'.orders
    requires forall a :: a in s.attempts ==> s'.attempts[a].order == s.attempts[a].order
                                             && (s.attempts[a].phase == AttemptConfirmed ==> s'.attempts[a].phase == AttemptConfirmed)
    requires forall o :: o in s'.orders && s'.orders[o].state in {Paid, PastPayment} && !(o in s.orders && s.orders[o].state in {Paid, PastPayment})
               ==> exists a :: a in s'.attempts && s'.attempts[a].order == o && s'.attempts[a].phase == AttemptConfirmed
    ensures Rows(s')
  {
    forall i | i in s'.intents
      ensures IntentOk(s', i)
    {
      assert IntentOk(s, i);
    }
    forall o | o in s'.orders
      ensures OrderOk(s', o)
    {
      if o in s.orders && s.orders[o].state in {Paid, PastPayment} {
        assert OrderOk(s, o);
        var a :| a in s.attempts && s.attempts[a].order == o && s.attempts[a].phase == AttemptConfirmed;
        assert s'.attempts[a].phase == AttemptConfirmed;
      }
    }
  }

  lemma CreateAttemptKeepsInv(s: State, order: OrderId, provider: string, reference: Option<string>, payer: Option<string>, id: AttemptId)
    requires Inv(s)
    ensures Inv(CreateAttempt(s, order, provider, reference, payer, id).after)
  {
    hide Evidences, Attempts, HasActive, ReferenceTaken;
    CreatingKeepsAttempts(s, order, provider, reference, payer, id);
    var s' := CreateAttempt(s, order, provider, reference, payer, id).after;
    if s' != s {
      forall a | a in s.attempts
        ensures s.attempts[a].order in s.orders
      {
        assert AttemptOk(s, a);
      }
      AttemptsMove(s, s');
      EvidencesStay(s, s');
    }
  }

  lemma EventKeepsRows(s: State, id: AttemptId, e: ProviderEvent, verified: bool)
    requires Rows(s)
    ensures Rows(RecordEvent(s, id, e, verified).after)
  {
    var s' := RecordEvent(s, id, e, verified).after;
    if s' != s {
      forall a | a in s.attempts
        ensures s.attempts[a].order in s.orders
      {
        assert AttemptOk(s, a);
      }
      if s'.attempts[id].phase == AttemptConfirmed {
        assert s'.attempts[id].order == s.attempts[id].order;
      }
      hide Rows;
      AttemptsMove(s, s');
    }
  }

  lemma EventKeepsPayments(s: State, id: AttemptId, e: ProviderEvent, verified: bool)
    ensures var s' := RecordEvent(s, id, e, verified).after; KeepsPayments(s, s') && s'.evidence == s.evidence
  {
  }

  lemma EventKeepsInv(s: State, id: AttemptId, e: ProviderEvent, verified: bool)
    requires Inv(s)
    ensures Inv(RecordEvent(s, id, e, verified).after)
  {
    hide Rows, Evidences, Attempts, RecordEvent, KeepsPayments;
    EventKeepsAttempts(s, id, e, verified);
    EventKeepsRows(s, id, e, verified);
    EventKeepsPayments(s, id, e, verified);
    EvidencesStay(s, RecordEvent(s, id, e, verified).after);
  }

  /** Orders come and go: nothing else changes, and none becomes paid or unpaid. */
  ghost predicate OrdersOnly(s: State, s': State) {
    && s'.attempts == s.attempts && s'.intents == s.intents && s'.transactions == s.transactions
    && s'.evidence == s.evidence && s'.cursor == s.cursor && s.orders.Keys <= s'.orders.Keys
    && (forall o :: o in s'.orders ==>
          (s'.orders[o].state in {Paid, PastPayment} <==> o in s.orders && s.orders[o].state in {Paid, PastPayment}))
    && (forall o :: o in s.orders && s'.orders[o].state == AwaitingPayment ==> s.orders[o].state == AwaitingPayment)
  }

  lemma OrdersKeepInv(s: State, s': State)
    requires Inv(s) && OrdersOnly(s, s')
    ensures Inv(s')
  {
    hide Evidences, Attempts;
    forall a | a in s.attempts
      ensures s.attempts[a].order in s.orders
    {
      assert AttemptOk(s, a);
    }
    AttemptsMove(s, s');
    EvidencesStay(s, s');
    AttemptsStay(s, s');
  }

  // ----- attempts -----

  /** No attempt changes, and no order starts to wait for payment. */
  lemma AttemptsStay(s: State, s': State)
    requires Attempts(s) && s'.attempts == s.attempts
    requires forall a :: a in s.attempts && s.attempts[a].order in s'.orders && s'.orders[s.attempts[a].order].state == AwaitingPayment ==>
               s.attempts[a].order in s.orders && s.orders[s.attempts[a].order].state == AwaitingPayment
    requires forall id :: id in s'.intents && s'.intents[id].status == IntentConfirmed ==>
               id in s.intents && s.intents[id].status == IntentConfirmed && s'.intents[id].attempt == s.intents[id].attempt
    ensures Attempts(s')
  {
    forall a, b
      ensures !Rivals(s', a, b)
    {
      assert !Rivals(s, a, b);
    }
  }

  /** The new attempt is the only one that has not failed: any other active one would have
      stopped it, and after a confirmed one the order no longer waits. */
  lemma CreatingKeepsAttempts(s: State, order: OrderId, provider: string, reference: Option<string>, payer: Option<string>, id: AttemptId)
    requires Attempts(s)
    ensures Attempts(CreateAttempt(s, order, provider, reference, payer, id).after)
  {
    var s' := CreateAttempt(s, order, provider, reference, payer, id).after;
    forall a, b
      ensures !Rivals(s', a, b)
    {
      assert !Rivals(s, a, b);
    }
  }

  lemma EventKeepsAttempts(s: State, id: AttemptId, e: ProviderEvent, verified: bool)
    requires Attempts(s)
    ensures Attempts(RecordEvent(s, id, e, verified).after)
  {
    var s' := RecordEvent(s, id, e, verified).after;
    forall a, b
      ensures !Rivals(s', a, b)
    {
      assert !Rivals(s, a, b);
    }
  }

  lemma PaymentKeepsAttempts(s: State, id: IntentId)
    requires Attempts(s) && id in s.intents && id in s.transactions && ConfirmPayment(s, id).Some?
    requires s.intents[id].attempt in s.attempts && s.attempts[s.intents[id].attempt].order == s.intents[id].order
    ensures Attempts(ConfirmPayment(s, id).value)
  {
    var s' := ConfirmPayment(s, id).value;
    forall a, b
      ensures !Rivals(s', a, b)
    {
      assert !Rivals(s, a, b);
    }
  }

  lemma SettingOrder(s: State, order: OrderId, from: OrderStatus, to: OrderStatus)
    requires (from == Paid && to == PastPayment) || (from == AwaitingPayment && to == OrderExpired)
    ensures OrdersOnly(s, SetOrder(s, order, from, to))
  {
  }

  lemma OrderSteps(s: State, step: Step)
    requires step.OrderPlaced? || step.OrderMovesOn? || step.OrderLapses? || step.ClockAdvances?
    ensures OrdersOnly(s, After(s, step))
  {
    hide SetOrder, CreateAttempt, CreateIntent, AcceptEnvelope, RecordReceipt, RecordEvidence, RecordEvent;
    match step
    case OrderMovesOn(order) => SettingOrder(s, order, Paid, PastPayment);
    case OrderLapses(order) => SettingOrder(s, order, AwaitingPayment, OrderExpired);
    case _ =>
  }

  lemma OrderStepsKeepInv(s: State, step: Step)
    requires Inv(s) && (step.OrderPlaced? || step.OrderMovesOn? || step.OrderLapses? || step.ClockAdvances?)
    ensures Inv(After(s, step))
  {
    hide Inv, After, OrdersOnly;
    OrderSteps(s, step);
    OrdersKeepInv(s, After(s, step));
  }

  // ----- accepting evidence -----

  /** The rows after evidence was accepted. */
  function Accepted(s: State, id: IntentId, e: ChainEvidence, paid: State): State {
    Record(paid, id, e, true).(cursor := Advanced(s.cursor, Cursor(e.ledger, e.token)))
  }

  lemma PaymentKeepsRows(s: State, id: IntentId)
    requires Rows(s) && id in s.intents && id in s.transactions && ConfirmPayment(s, id).Some?
    ensures Rows(ConfirmPayment(s, id).value)
  {
    var s' := ConfirmPayment(s, id).value;
    var intent := s.intents[id];
    assert IntentOk(s, id);
    forall i | i in s'.intents
      ensures IntentOk(s', i)
    {
      assert IntentOk(s, i);
    }
    forall a | a in s'.attempts
      ensures AttemptOk(s', a)
    {
      assert AttemptOk(s, a);
    }
    forall o | o in s'.orders
      ensures OrderOk(s', o)
    {
      assert OrderOk(s, o);
      if o == intent.order {
        assert s'.attempts[intent.attempt].order == o;
      } else if s.orders[o].state in {Paid, PastPayment} {
        var a :| a in s.attempts && s.attempts[a].order == o && s.attempts[a].phase == AttemptConfirmed;
        assert s'.attempts[a].phase == AttemptConfirmed;
      }
    }
  }

  /** What a confirmed payment changes, seen from the evidence. */
  ghost predicate Pays(s: State, id: IntentId, paid: State) {
    && id in s.intents && s.intents[id].order in s.orders && s.intents[id].status != IntentConfirmed
    && s.orders[s.intents[id].order].state == AwaitingPayment
    && paid.evidence == s.evidence && paid.cursor == s.cursor
    && paid.intents.Keys == s.intents.Keys && paid.orders.Keys == s.orders.Keys
    && paid.intents[id].status == IntentConfirmed && paid.intents[id].order == s.intents[id].order
    && paid.orders[s.intents[id].order].state == Paid
    && (forall i :: i in s.intents && i != id ==> paid.intents[i] == s.intents[i])
    && (forall o :: o in s.orders && o != s.intents[id].order ==> paid.orders[o] == s.orders[o])
  }

  lemma ConfirmPays(s: State, id: IntentId)
    requires id in s.intents && id in s.transactions && ConfirmPayment(s, id).Some?
    ensures Pays(s, id, ConfirmPayment(s, id).value)
  {
  }

  /** The order was unpaid, so no evidence had been accepted for it. */
  lemma NotPaidBefore(s: State, id: IntentId, paid: State, at: OperationKey)
    requires Evidences(s) && Pays(s, id, paid) && at in s.evidence
    ensures PaidOrder(s, at) != Some(s.intents[id].order)
  {
    assert AcceptedOk(s, at);
  }

  lemma AcceptingKeepsPayments(s: State, id: IntentId, e: ChainEvidence, paid: State)
    requires Evidences(s) && Pays(s, id, paid) && OperationKey(e.hash, e.operation) !in s.evidence
    ensures var s' := Accepted(s, id, e, paid);
            (forall at :: at in s'.evidence ==> AcceptedOk(s', at)) && OnePerOrder(s')
  {
    var s', new_ := Accepted(s, id, e, paid), OperationKey(e.hash, e.operation);
    forall at | at in s'.evidence
      ensures AcceptedOk(s', at)
      ensures at != new_ ==> at in s.evidence && PaidOrder(s', at) == PaidOrder(s, at) && PaidOrder(s', at) != Some(s.intents[id].order)
      ensures at == new_ ==> PaidOrder(s', at) == Some(s.intents[id].order)
    {
      if at != new_ {
        assert AcceptedOk(s, at);
        NotPaidBefore(s, id, paid, at);
      }
    }
  }

  lemma AcceptingKeepsConfirmed(s: State, id: IntentId, e: ChainEvidence, paid: State)
    requires ConfirmedHasEvidence(s) && Pays(s, id, paid) && OperationKey(e.hash, e.operation) !in s.evidence
    ensures ConfirmedHasEvidence(Accepted(s, id, e, paid))
  {
    var s', new_ := Accepted(s, id, e, paid), OperationKey(e.hash, e.operation);
    forall i | i in s'.intents && s'.intents[i].status == IntentConfirmed
      ensures HasAccepted(s', i)
    {
      if i == id {
        assert s'.evidence[new_].intent == id;
      } else {
        assert HasAccepted(s, i);
        var at :| at in s.evidence && s.evidence[at].intent == i && s.evidence[at].accepted;
        assert s'.evidence[at].accepted;
      }
    }
  }

  /** The cursor moves to the new position exactly when that is further. */
  lemma AcceptingMovesCursor(s: State, id: IntentId, e: ChainEvidence, paid: State)
    requires CursorOk(s) && paid.evidence == s.evidence && OperationKey(e.hash, e.operation) !in s.evidence
    ensures CursorOk(Accepted(s, id, e, paid))
  {
    var s', new_ := Accepted(s, id, e, paid), OperationKey(e.hash, e.operation);
    assert s'.evidence[new_].accepted && CursorOf(s'.evidence[new_]) == Cursor(e.ledger, e.token);
    forall at | at in s'.evidence && s'.evidence[at].accepted
      ensures !Before(s'.cursor.value, CursorOf(s'.evidence[at]))
    {
      if at != new_ {
        assert !Before(s.cursor.value, CursorOf(s.evidence[at]));
      }
    }
    if s'.cursor == s.cursor && s.cursor.Some? {
      var at :| at in s.evidence && s.evidence[at].accepted && CursorOf(s.evidence[at]) == s.cursor.value;
      assert s'.evidence[at].accepted;
    }
  }

  lemma AcceptingKeepsInv(s: State, id: IntentId, e: ChainEvidence)
    requires Inv(s) && id in s.intents && id in s.transactions && ConfirmPayment(s, id).Some?
    requires OperationKey(e.hash, e.operation) !in s.evidence
    ensures Inv(Accepted(s, id, e, ConfirmPayment(s, id).value))
  {
    var paid := ConfirmPayment(s, id).value;
    assert IntentOk(s, id);
    PaymentKeepsRows(s, id);
    PaymentKeepsAttempts(s, id);
    AttemptsStay(paid, Accepted(s, id, e, paid));
    ConfirmPays(s, id);
    hide ConfirmPayment, Rows, Attempts, Pays, AcceptedOk, OnePerOrder, ConfirmedHasEvidence, CursorOk;
    AcceptingKeepsPayments(s, id, e, paid);
    assert paid.evidence == s.evidence by { PaysKeepsEvidence(s, id, paid); }
    AcceptingKeepsConfirmed(s, id, e, paid);
    AcceptingMovesCursor(s, id, e, paid);
    RowsStay(paid, Accepted(s, id, e, paid));
  }

  lemma PaysKeepsEvidence(s: State, id: IntentId, paid: State)
    requires Pays(s, id, paid)
    ensures paid.evidence == s.evidence
  {
  }

  lemma EvidenceKeepsInv(s: State, id: IntentId, e: ChainEvidence)
    requires Inv(s)
    ensures Inv(RecordEvidence(s, id, e).after)
  {
    hide Inv, HasAccepted, Reconcile, ConfirmPayment, Record;
    if id in s.intents && id in s.transactions && OperationKey(e.hash, e.operation) !in s.evidence {
      RejectionStays(s, id, e);
      if ConfirmPayment(s, id).Some? {
        AcceptingKeepsInv(s, id, e);
      }
    }
  }

  // ----- runs -----

  lemma StepKeepsInv(s: State, step: Step)
    requires Inv(s)
    ensures Inv(After(s, step))
  {
    hide Inv, CreateAttempt, CreateIntent, AcceptEnvelope, RecordReceipt, RecordEvidence, RecordEvent;
    match step
    case OrderPlaced(_, _, _) => OrderStepsKeepInv(s, step);
    case OrderMovesOn(_) => OrderStepsKeepInv(s, step);
    case OrderLapses(_) => OrderStepsKeepInv(s, step);
    case DoCreateAttempt(order, provider, reference, payer, attempt) => CreateAttemptKeepsInv(s, order, provider, reference, payer, attempt);
    case DoCreateIntent(order, attempt, source, destination, sequence, fee, memo, expiresAt, digest, key, request, id) =>
      CreateIntentKeepsInv(s, order, attempt, source, destination, sequence, fee, memo, expiresAt, digest, key, request, id);
    case DoAcceptEnvelope(id, envelope, hash, digest, fields) => EnvelopeKeepsInv(s, id, envelope, hash, digest, fields);
    case DoRecordReceipt(id, hash, code, responseHash) => ReceiptKeepsInv(s, id, hash, code, responseHash);
    case DoRecordEvidence(id, sent) => EvidenceKeepsInv(s, id, sent);
    case DoRecordEvent(attempt, event, verified) => EventKeepsInv(s, attempt, event, verified);
    case ClockAdvances(_) => OrderStepsKeepInv(s, step);
  }

  /** In every reachable state intents and transactions are in step, a paid order has a
      confirmed attempt, of the attempts of an order all but one have failed, accepted evidence
      belongs to paid orders, and the cursor is the greatest accepted position. */
  lemma {:induction false} PaymentsHold(steps: seq<Step>)
    ensures Inv(Run(INIT, steps))
  {
    hide After;
    if |steps| > 0 {
      hide Inv;
      PaymentsHold(steps[..|steps| - 1]);
      StepKeepsInv(Run(INIT, steps[..|steps| - 1]), steps[|steps| - 1]);
    }
  }

  /** Whatever attempts and intents an order has had, at most one reconciliation of it was ever
      accepted. */
  lemma AcceptedOncePerOrder(steps: seq<Step>, a: OperationKey, b: OperationKey)
    requires a in Run(INIT, steps).evidence && b in Run(INIT, steps).evidence
    requires PaidOrder(Run(INIT, steps), a).Some? && PaidOrder(Run(INIT, steps), a) == PaidOrder(Run(INIT, steps), b)
    ensures a == b
  {
    hide Run, Rows, Attempts, CursorOk, ConfirmedHasEvidence;
    PaymentsHold(steps);
  }

  // ----- all or nothing -----

  /** Matching evidence of a submitted transaction is accepted exactly when the attempt is still
      active and the order unpaid; otherwise nothing changes. A payment event from a provider in
      between is what makes the difference. */
  lemma MatchingEvidenceIff(s: State, id: IntentId, e: ChainEvidence)
    requires Inv(s) && id in s.intents && id in s.transactions && OperationKey(e.hash, e.operation) !in s.evidence
    requires e.ledger > 0 && e.operation >= 0 && e.amount > 0 && 0 <= e.asset.scale <= 7 && e.closedAt <= s.now + 300
    requires Reconcile(s.intents[id], s.transactions[id], e) == None
    ensures s.intents[id].attempt in s.attempts && s.intents[id].order in s.orders
    ensures RecordEvidence(s, id, e).Done? <==>
              s.attempts[s.intents[id].attempt].phase == Active && s.orders[s.intents[id].order].state == AwaitingPayment
    ensures RecordEvidence(s, id, e).Refused? ==> RecordEvidence(s, id, e) == Refused(s, ConfirmationStateChanged)
  {
    hide Evidences;
    assert IntentOk(s, id);
    MatchesIff(s.intents[id], s.transactions[id], e);
    NotYetAccepted(s, id);
    hide Reconcile;
  }

  lemma NotYetAccepted(s: State, id: IntentId)
    requires Evidences(s) && id in s.intents && s.intents[id].status != IntentConfirmed
    ensures !HasAccepted(s, id)
  {
    forall at | at in s.evidence && s.evidence[at].intent == id
      ensures !s.evidence[at].accepted
    {
      assert AcceptedOk(s, at);
    }
  }

  /** Recording evidence either leaves all four rows of the payment alone, or confirms the
      transaction, the intent and the attempt and pays the order in one step. */
  lemma AllOrNothing(s: State, id: IntentId, e: ChainEvidence)
    requires id in s.intents && id in s.transactions
    ensures var s', intent := RecordEvidence(s, id, e).after, s.intents[id];
            || (s'.intents == s.intents && s'.transactions == s.transactions && s'.attempts == s.attempts && s'.orders == s.orders)
            || (&& s.intents[id].status == IntentSubmitted && s'.intents == s.intents[id := intent.(status := IntentConfirmed)]
                && s.transactions[id].stage == Submitted && s'.transactions == s.transactions[id := s.transactions[id].(stage := Confirmed)]
                && intent.attempt in s.attempts && s.attempts[intent.attempt].phase == Active
                && s'.attempts == s.attempts[intent.attempt := s.attempts[intent.attempt].(phase := AttemptConfirmed)]
                && intent.order in s.orders && s.orders[intent.order].state == AwaitingPayment
                && s'.orders == s.orders[intent.order := s.orders[intent.order].(state := Paid)])
  {
    hide Reconcile, HasAccepted;
  }

  // ----- what was recorded stays -----

  lemma RecordsStay(s: State, step: Step, at: OperationKey)
    requires at in s.evidence
    ensures at in After(s, step).evidence && After(s, step).evidence[at] == s.evidence[at]
  {
    hide Reconcile, HasAccepted, CreateIntent, AcceptEnvelope, RecordReceipt;
    if step.DoCreateIntent? || step.DoAcceptEnvelope? || step.DoRecordReceipt? {
      IntentStepsKeepEvidence(s, step);
    }
  }

  lemma IntentStepsKeepEvidence(s: State, step: Step)
    requires step.DoCreateIntent? || step.DoAcceptEnvelope? || step.DoRecordReceipt?
    ensures After(s, step).evidence == s.evidence
  {
  }

  /** Evidence once recorded, accepted or not, is never judged again: an operation that was
      rejected can never confirm a payment. */
  lemma {:induction false} JudgementIsFinal(s: State, steps: seq<Step>, at: OperationKey)
    requires at in s.evidence
    ensures at in Run(s, steps).evidence && Run(s, steps).evidence[at] == s.evidence[at]
  {
    hide After;
    if |steps| > 0 {
      JudgementIsFinal(s, steps[..|steps| - 1], at);
      RecordsStay(Run(s, steps[..|steps| - 1]), steps[|steps| - 1], at);
    }
  }

  // ----- one attempt, one payment -----

  /** Of any two attempts of one order at least one has failed, whatever provider events, chain
      evidence and retries the run contains. */
  lemma OneLiveAttempt(steps: seq<Step>, a: AttemptId, b: AttemptId)
    requires a in Run(INIT, steps).attempts && b in Run(INIT, steps).attempts && a != b
    requires Run(INIT, steps).attempts[a].order == Run(INIT, steps).attempts[b].order
    ensures Run(INIT, steps).attempts[a].phase == AttemptFailed || Run(INIT, steps).attempts[b].phase == AttemptFailed
  {
    hide Run, Rows, Evidences;
    PaymentsHold(steps);
    assert !Rivals(Run(INIT, steps), a, b);
  }

  /** A paid order has exactly one confirmed attempt; an order with a confirmed attempt does not
      wait for payment; and chain evidence accepted for the order is that of this attempt. */
  lemma PaidOnce(steps: seq<Step>, o: OrderId)
    requires o in Run(INIT, steps).orders
    ensures var s := Run(INIT, steps);
            && (s.orders[o].state in {Paid, PastPayment} ==> exists a :: ConfirmedFor(s, a, o))
            && (forall a :: ConfirmedFor(s, a, o) ==> s.orders[o].state != AwaitingPayment)
            && (forall a, b :: ConfirmedFor(s, a, o) && ConfirmedFor(s, b, o) ==> a == b)
            && (forall at, a :: at in s.evidence && PaidOrder(s, at) == Some(o) && ConfirmedFor(s, a, o) ==>
                  s.intents[s.evidence[at].intent].attempt == a)
  {
    var s := Run(INIT, steps);
    PaymentsHold(steps);
    hide Run;
    assert OrderOk(s, o);
    if s.orders[o].state in {Paid, PastPayment} {
      var a :| a in s.attempts && s.attempts[a].order == o && s.attempts[a].phase == AttemptConfirmed;
      assert ConfirmedFor(s, a, o);
    }
    forall a, b | ConfirmedFor(s, a, o) && ConfirmedFor(s, b, o)
      ensures a == b
    {
      assert !Rivals(s, a, b);
    }
    forall at, a | at in s.evidence && PaidOrder(s, at) == Some(o) && ConfirmedFor(s, a, o)
      ensures s.intents[s.evidence[at].intent].attempt == a
    {
      assert AcceptedOk(s, at);
      assert IntentOk(s, s.evidence[at].intent);
      assert !Rivals(s, a, s.intents[s.evidence[at].intent].attempt);
    }
  }

  ghost predicate ConfirmedFor(s: State, a: AttemptId, o: OrderId) {
    a in s.attempts && s.attempts[a].order == o && s.attempts[a].phase == AttemptConfirmed
  }
}
