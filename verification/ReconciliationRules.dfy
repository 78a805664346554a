/** When exactly each payment request succeeds and what it leaves, and what makes an order paid, in
    plain terms. */
module ReconciliationRules {
  import opened Wrappers
  import opened Reconciliation
  import opened ReconciliationProofs
  import Decimal
  import Envelope
  import EnvelopeProofs

  // ----- provider events -----

  /** The provider reports what the order asks for. */
  ghost predicate Matches(order: Order, attempt: Attempt, e: ProviderEvent) {
    && e.amount == order.price
    && e.asset.code == order.asset.code && e.asset.scale == order.asset.scale && e.asset.issuer == order.asset.issuer
    && e.sameEnvironment
    && (attempt.payer == None || e.payer == attempt.payer)
  }

  /** When an event is recorded, or was. */
  lemma EventIff(s: State, id: AttemptId, e: ProviderEvent, verified: bool)
    ensures RecordEvent(s, id, e, verified).Done? <==>
            && verified && e.amount >= 1 && 0 <= e.asset.scale <= 7
            && id in s.attempts && s.attempts[id].order in s.orders
            && var at := EventKey(s.attempts[id].provider, e.id);
               if at in s.events then s.events[at].attempt == id && s.events[at].digest == e.digest
               else s.attempts[id].phase == Active
    ensures RecordEvent(s, id, e, verified).Refused? ==> RecordEvent(s, id, e, verified).after == s
  {
  }

  /** A new event settles its attempt exactly if it matches, as confirmed or failed as it says, and
      pays the order exactly if it matches, is a confirmation, and the order awaits payment. An
      event seen before changes nothing, and no event changes anything else. */
  lemma EventDoes(s: State, id: AttemptId, e: ProviderEvent, verified: bool)
    requires RecordEvent(s, id, e, verified).Done?
    ensures id in s.attempts && s.attempts[id].order in s.orders
    ensures var s', attempt, at := RecordEvent(s, id, e, verified).after, s.attempts[id], EventKey(s.attempts[id].provider, e.id);
            var order := s.orders[attempt.order];
            && (at in s.events ==> s' == s)
            && (at !in s.events ==>
                  && s' == s.(events := s'.events, attempts := s'.attempts, orders := s'.orders)
                  && s'.events == s.events[at := EventRecord(id, e.digest, Matches(order, attempt, e))]
                  && s'.attempts.Keys == s.attempts.Keys && s'.orders.Keys == s.orders.Keys
                  && (forall a :: a in s.attempts && a != id ==> s'.attempts[a] == s.attempts[a])
                  && (forall o :: o in s.orders && o != attempt.order ==> s'.orders[o] == s.orders[o])
                  && s'.attempts[id] == attempt.(phase := s'.attempts[id].phase)
                  && s'.orders[attempt.order] == order.(state := s'.orders[attempt.order].state)
                  && (s'.attempts[id].phase != Active <==> Matches(order, attempt, e))
                  && (s'.attempts[id].phase == AttemptConfirmed <==> Matches(order, attempt, e) && e.confirmed)
                  && (s'.orders[attempt.order].state != order.state <==>
                        Matches(order, attempt, e) && e.confirmed && order.state == AwaitingPayment)
                  && (s'.orders[attempt.order].state != order.state ==> s'.orders[attempt.order].state == Paid))
  {
  }

  // ----- attempts, intents, signatures, receipts -----

  /** An attempt is made exactly for an order that awaits payment, if none of its attempts is
      active and the provider's reference is new. */
  lemma AttemptIff(s: State, order: OrderId, provider: string, reference: Option<string>, payer: Option<string>, id: AttemptId)
    requires id !in s.attempts
    ensures var r := CreateAttempt(s, order, provider, reference, payer, id);
            && (r.Done? <==>
                  && order in s.orders && s.orders[order].state == AwaitingPayment
                  && (forall a :: a in s.attempts && s.attempts[a].order == order ==> s.attempts[a].phase != Active)
                  && (reference.Some? ==> forall a :: a in s.attempts && s.attempts[a].provider == provider ==> s.attempts[a].reference != reference))
            && r.after == (if r.Done? then s.(attempts := s.attempts[id := Attempt(order, Active, provider, reference, payer)]) else s)
  {
  }

  /** What an intent asks for is what its order costs. */
  ghost predicate Asks(intent: Intent, order: Order) {
    && intent.draft.amount == order.price && intent.draft.assetCode == order.asset.code
    && intent.draft.assetIssuer == order.asset.issuer && intent.scale == order.asset.scale
  }

  /** An intent has the key. */
  ghost predicate KeyKnown(s: State, key: string) {
    exists i :: i in s.intents && s.intents[i].key == key
  }

  /** An intent is made exactly for an active attempt of an order that awaits payment, if a payment
      of its price can be built and no intent of the attempt is open; a repeated key finds its
      intent. */
  lemma IntentIff(s: State, order: OrderId, attempt: AttemptId, source: Text, destination: Text, sequence: Envelope.i64,
                  fee: Envelope.u32, memo: Text, expiresAt: Envelope.i64, digest: string, key: string, request: string, id: IntentId)
    requires id !in s.intents
    ensures CreateIntent(s, order, attempt, source, destination, sequence, fee, memo, expiresAt, digest, key, request, id).Done? <==>
            && attempt in s.attempts && s.attempts[attempt].order == order && order in s.orders
            && s.orders[order].state == AwaitingPayment && s.attempts[attempt].phase == Active
            && (KeyKnown(s, key) ==> forall i :: i in s.intents && s.intents[i].key == key ==> s.intents[i].request == request)
            && (!KeyKnown(s, key) ==>
                  && Envelope.Body(PaymentFor(s.orders[order], source, destination, sequence, fee, memo, expiresAt)).Ok?
                  && forall i :: i in s.intents && s.intents[i].attempt == attempt ==> s.intents[i].status in {IntentConfirmed, IntentExpired})
  {
    hide Envelope.Body, PaymentFor;
    StatusesOpen();
    hide IsOpen;
  }

  lemma StatusesOpen()
    ensures forall status :: IsOpen(status) <==> status !in {IntentConfirmed, IntentExpired}
  {
    forall status
      ensures IsOpen(status) <==> status !in {IntentConfirmed, IntentExpired}
    {
      match status
      case AwaitingSignature =>
      case IntentSigned =>
      case IntentSubmitted =>
      case IntentConfirmed =>
      case IntentExpired =>
    }
  }

  /** A new intent asks for the price, and nothing else changes. */
  lemma IntentDoes(s: State, order: OrderId, attempt: AttemptId, source: Text, destination: Text, sequence: Envelope.i64,
                   fee: Envelope.u32, memo: Text, expiresAt: Envelope.i64, digest: string, key: string, request: string, id: IntentId)
    requires id !in s.intents
    ensures var r := CreateIntent(s, order, attempt, source, destination, sequence, fee, memo, expiresAt, digest, key, request, id);
            && (!r.Done? || KeyKnown(s, key) ==> r.after == s)
            && (r.Done? && !KeyKnown(s, key) ==>
                  && order in s.orders && id in r.after.intents && r.after == s.(intents := s.intents[id := r.after.intents[id]])
                  && Asks(r.after.intents[id], s.orders[order])
                  && IsNew(r.after.intents[id], order, attempt, source, destination, sequence, memo, expiresAt, digest, key, request))
  {
    hide Envelope.Body;
  }

  ghost predicate IsNew(intent: Intent, order: OrderId, attempt: AttemptId, source: Text, destination: Text, sequence: Envelope.i64,
                        memo: Text, expiresAt: Envelope.i64, digest: string, key: string, request: string) {
    && intent.order == order && intent.attempt == attempt && intent.status == AwaitingSignature
    && intent.draft.source == source && intent.draft.destination == destination && intent.draft.sequence == sequence
    && intent.draft.memo == memo && intent.draft.expiresAt == expiresAt && intent.draft.bodyHash == digest
    && intent.key == key && intent.request == request
  }

  /** A signed envelope is taken exactly if its intent awaits it, has not expired, asks for what the
      envelope says, and neither the transaction nor the envelope is known; an expired intent is
      closed; a repeated envelope changes nothing. */
  lemma EnvelopeIff(s: State, id: IntentId, envelope: string, hash: string, digest: string, fields: Envelope.Fields)
    ensures var r := AcceptEnvelope(s, id, envelope, hash, digest, fields);
            && (id in s.intents && id in s.transactions ==>
                  r.after == s && (r.Done? <==> s.transactions[id].envelope == envelope))
            && (id in s.intents && id !in s.transactions ==>
                  && (r.Done? <==>
                        && s.intents[id].status == AwaitingSignature && s.intents[id].draft.expiresAt > s.now
                        && digest == s.intents[id].draft.bodyHash && EnvelopeProofs.Says(fields, s.intents[id].draft)
                        && forall i :: i in s.transactions ==> s.transactions[i].hash != hash && s.transactions[i].envelope != envelope)
                  && (r.Done? ==>
                        r.after == s.(transactions := s.transactions[id := Transaction(Signed, envelope, hash, fields)],
                                      intents := s.intents[id := s.intents[id].(status := IntentSigned)]))
                  && (!r.Done? ==>
                        r.after == if s.intents[id].status == AwaitingSignature && s.intents[id].draft.expiresAt <= s.now
                                   then s.(intents := s.intents[id := s.intents[id].(status := IntentExpired)]) else s))
            && (id !in s.intents ==> !r.Done? && r.after == s)
  {
    if id in s.intents {
      EnvelopeProofs.ValidMeansSays(digest, fields, s.intents[id].draft);
    }
    hide EnvelopeProofs.ValidateDigest, EnvelopeProofs.Says;
  }

  /** A receipt is taken exactly if the network answered with success and the hash of the signed
      transaction; a repeated one changes nothing. */
  lemma ReceiptIff(s: State, id: IntentId, hash: string, code: int, responseHash: Option<string>)
    requires Inv(s)
    ensures var r := RecordReceipt(s, id, hash, code, responseHash);
            && (r.Done? <==>
                  && 200 <= code < 300 && responseHash == Some(hash) && id in s.intents && id in s.transactions
                  && s.transactions[id].hash == hash)
            && (r.Done? && s.transactions[id].stage != Signed ==> r.after == s)
            && (r.Done? && s.transactions[id].stage == Signed ==>
                  r.after == s.(transactions := s.transactions[id := s.transactions[id].(stage := Submitted)],
                                intents := s.intents[id := s.intents[id].(status := IntentSubmitted)]))
            && (!r.Done? ==> r.after == s)
  {
    if id in s.intents {
      assert IntentOk(s, id);
    }
    hide Evidences, Attempts;
  }

  // ----- chain evidence -----

  /** The report and the chain's own records are the successful payment the intent asks for. */
  ghost predicate Proves(intent: Intent, tx: Transaction, e: ChainEvidence) {
    && intent.status == IntentSubmitted && tx.stage == Submitted && e.successful && e.hash == tx.hash
    && e.source == intent.draft.source && e.destination == intent.draft.destination && e.memo == intent.draft.memo
    && e.amount == intent.draft.amount && e.asset == Asset(intent.draft.assetCode, intent.scale, intent.draft.assetIssuer)
    && e.rawTransaction == RawTransaction(Some(e.hash), Some(true), Some(e.ledger), Some("text"), Some(e.memo), At(e.closedAt))
    && e.rawOperation.kind == Some("payment") && e.rawOperation.hash == Some(e.hash) && e.rawOperation.token == Some(e.token)
    && e.rawOperation.source == Some(e.source) && e.rawOperation.to == Some(e.destination)
    && e.rawOperation.amount.Some? && Decimal.Minor(e.rawOperation.amount.value, e.asset.scale) == Some(e.amount)
    && (if e.asset.code == [88, 76, 77] then e.rawOperation.assetType == Some("native")
        else e.rawOperation.assetCode == Some(e.asset.code) && e.rawOperation.assetIssuer == e.asset.issuer)
  }

  lemma ProvesIff(intent: Intent, tx: Transaction, e: ChainEvidence)
    ensures Reconcile(intent, tx, e) == None <==> Proves(intent, tx, e)
  {
    MatchesIff(intent, tx, e);
    hide Decimal.Minor, Reconcile;
  }

  lemma EvidenceAnswers(s: State, id: IntentId, e: ChainEvidence)
    ensures RecordEvidence(s, id, e).Refused? ==> RecordEvidence(s, id, e).after == s
    ensures RecordEvidence(s, id, e).Done? ==>
              && e.ledger >= 1 && e.operation >= 0 && e.amount >= 1 && 0 <= e.asset.scale <= 7 && e.closedAt <= s.now + 300
              && id in s.intents && id in s.transactions
              && var at := OperationKey(e.hash, e.operation);
                 && (at in s.evidence ==> s.evidence[at].intent == id && s.evidence[at].digest == e.digest && RecordEvidence(s, id, e).after == s)
                 && (at !in s.evidence ==> !HasAccepted(s, id))
  {
    hide Reconcile, HasAccepted, ConfirmPayment;
  }

  /** New evidence of a transaction is judged once: it confirms transaction, intent and attempt and
      pays the order exactly if it proves the payment, and is recorded as refused otherwise. */
  lemma EvidenceDoes(s: State, id: IntentId, e: ChainEvidence)
    requires Inv(s) && RecordEvidence(s, id, e).Done? && OperationKey(e.hash, e.operation) !in s.evidence
    ensures id in s.intents && id in s.transactions && s.intents[id].attempt in s.attempts && s.intents[id].order in s.orders
    ensures var s', intent := RecordEvidence(s, id, e).after, s.intents[id];
            var proven := Proves(intent, s.transactions[id], e);
            && s'.evidence == s.evidence[OperationKey(e.hash, e.operation) := Recorded(id, e.digest, proven, e.ledger, e.token)]
            && s'.now == s.now && s'.events == s.events
            && (!proven ==> s' == s.(evidence := s'.evidence))
            && (proven ==>
                  && s.attempts[intent.attempt].phase == Active && s.orders[intent.order].state == AwaitingPayment
                  && s'.transactions == s.transactions[id := s.transactions[id].(stage := Confirmed)]
                  && s'.intents == s.intents[id := intent.(status := IntentConfirmed)]
                  && s'.attempts == s.attempts[intent.attempt := s.attempts[intent.attempt].(phase := AttemptConfirmed)]
                  && s'.orders == s.orders[intent.order := s.orders[intent.order].(state := Paid)]
                  && s'.cursor == Some(Greatest(s.cursor, Cursor(e.ledger, e.token))))
  {
    EvidenceAnswers(s, id, e);
    assert IntentOk(s, id);
    ProvesIff(s.intents[id], s.transactions[id], e);
    hide Inv, Rows, Attempts, Evidences, IntentOk, Reconcile, HasAccepted, Proves, ConfirmPayment;
    if Proves(s.intents[id], s.transactions[id], e) {
      ConfirmingIs(s, id);
    }
  }

  lemma ConfirmingIs(s: State, id: IntentId)
    requires id in s.intents && id in s.transactions && s.intents[id].attempt in s.attempts && s.intents[id].order in s.orders
    ensures ConfirmPayment(s, id).Some? ==>
              var s', intent := ConfirmPayment(s, id).value, s.intents[id];
              && s' == s.(transactions := s'.transactions, intents := s'.intents, attempts := s'.attempts, orders := s'.orders)
              && s.attempts[intent.attempt].phase == Active && s.orders[intent.order].state == AwaitingPayment
              && s'.transactions == s.transactions[id := s.transactions[id].(stage := Confirmed)]
              && s'.intents == s.intents[id := intent.(status := IntentConfirmed)]
              && s'.attempts == s.attempts[intent.attempt := s.attempts[intent.attempt].(phase := AttemptConfirmed)]
              && s'.orders == s.orders[intent.order := s.orders[intent.order].(state := Paid)]
  {
  }

  /** The later of two positions: by ledger, then by token. */
  function Greatest(cursor: Option<Cursor>, to: Cursor): Cursor {
    match cursor
    case None => to
    case Some(c) => if to.ledger > c.ledger || (to.ledger == c.ledger && to.token > c.token) then to else c
  }

  /** When evidence is recorded, or was. */
  lemma EvidenceIff(s: State, id: IntentId, e: ChainEvidence)
    requires Inv(s)
    ensures RecordEvidence(s, id, e).Done? <==>
              && e.ledger >= 1 && e.operation >= 0 && e.amount >= 1 && 0 <= e.asset.scale <= 7 && e.closedAt <= s.now + 300
              && id in s.intents && id in s.transactions
              && var at := OperationKey(e.hash, e.operation);
                 if at in s.evidence then s.evidence[at].intent == id && s.evidence[at].digest == e.digest
                 else
                   && (forall x :: x in s.evidence && s.evidence[x].intent == id ==> !s.evidence[x].accepted)
                   && s.intents[id].attempt in s.attempts && s.intents[id].order in s.orders
                   && (Proves(s.intents[id], s.transactions[id], e) ==>
                         s.attempts[s.intents[id].attempt].phase == Active && s.orders[s.intents[id].order].state == AwaitingPayment)
  {
    EvidenceAnswers(s, id, e);
    if id in s.intents && id in s.transactions {
      assert IntentOk(s, id);
      ProvesIff(s.intents[id], s.transactions[id], e);
      ProvenIsSubmitted(s.intents[id], s.transactions[id], e);
    }
    hide Inv, Reconcile, Proves;
  }

  lemma ProvenIsSubmitted(intent: Intent, tx: Transaction, e: ChainEvidence)
    ensures Proves(intent, tx, e) ==> intent.status == IntentSubmitted && tx.stage == Submitted
  {
    hide Decimal.Minor;
  }

  // ----- what pays an order, over runs -----

  /** Every intent asks for the price of its order. */
  ghost predicate AllAsk(s: State) {
    forall id :: id in s.intents ==> s.intents[id].order in s.orders && Asks(s.intents[id], s.orders[s.intents[id].order])
  }

  /** Prices and what is asked for stay; only a new intent is to be looked at. */
  ghost predicate KeepsPrices(s: State, s': State) {
    && (forall o :: o in s.orders ==> o in s'.orders && s'.orders[o].price == s.orders[o].price && s'.orders[o].asset == s.orders[o].asset)
    && (forall i :: i in s'.intents && i in s.intents ==>
          s'.intents[i].order == s.intents[i].order && s'.intents[i].draft == s.intents[i].draft && s'.intents[i].scale == s.intents[i].scale)
    && (forall i :: i in s'.intents && i !in s.intents ==> s'.intents[i].order in s.orders && Asks(s'.intents[i], s.orders[s'.intents[i].order]))
  }

  lemma PricesStay(s: State, s': State)
    requires AllAsk(s) && KeepsPrices(s, s')
    ensures AllAsk(s')
  {
  }

  lemma SamePrices(s: State, s': State)
    requires s'.intents == s.intents
    requires forall o :: o in s.orders ==> o in s'.orders && s'.orders[o].price == s.orders[o].price && s'.orders[o].asset == s.orders[o].asset
    ensures KeepsPrices(s, s')
  {
  }

  lemma OneStatus(s: State, s': State, id: IntentId)
    requires id in s.intents && exists status :: s'.intents == s.intents[id := s.intents[id].(status := status)]
    requires forall o :: o in s.orders ==> o in s'.orders && s'.orders[o].price == s.orders[o].price && s'.orders[o].asset == s.orders[o].asset
    ensures KeepsPrices(s, s')
  {
  }

  lemma IntentKeepsPrices(s: State, step: Step)
    requires step.DoCreateIntent?
    ensures KeepsPrices(s, After(s, step))
  {
    hide CreateAttempt, AcceptEnvelope, RecordReceipt, RecordEvidence, RecordEvent, SetOrder, Envelope.Body, KeepsPrices;
    var s' := After(s, step);
    if s'.intents == s.intents {
      SamePrices(s, s');
    } else {
      IntentDoes(s, step.order, step.attempt, step.source, step.destination, step.sequence, step.fee, step.memo, step.expiresAt,
                 step.digest, step.key, step.request, step.id);
      hide CreateIntent, Asks, After;
      NewIntent(s, s', step.id, step.order);
    }
  }

  lemma NewIntent(s: State, s': State, id: IntentId, order: OrderId)
    requires id !in s.intents && id in s'.intents && order in s.orders && s' == s.(intents := s.intents[id := s'.intents[id]])
    requires s'.intents[id].order == order && Asks(s'.intents[id], s.orders[order])
    ensures KeepsPrices(s, s')
  {
  }

  lemma EnvelopeKeepsPrices(s: State, id: IntentId, envelope: string, hash: string, digest: string, fields: Envelope.Fields)
    ensures KeepsPrices(s, AcceptEnvelope(s, id, envelope, hash, digest, fields).after)
  {
    hide KeepsPrices, EnvelopeProofs.ValidateDigest;
    var s' := AcceptEnvelope(s, id, envelope, hash, digest, fields).after;
    if s'.intents == s.intents {
      SamePrices(s, s');
    } else {
      OneStatus(s, s', id);
    }
  }

  lemma ReceiptKeepsPrices(s: State, id: IntentId, hash: string, code: int, responseHash: Option<string>)
    ensures KeepsPrices(s, RecordReceipt(s, id, hash, code, responseHash).after)
  {
    hide KeepsPrices;
    var s' := RecordReceipt(s, id, hash, code, responseHash).after;
    if s'.intents == s.intents {
      SamePrices(s, s');
    } else {
      OneStatus(s, s', id);
    }
  }

  lemma EvidenceKeepsPrices(s: State, id: IntentId, e: ChainEvidence)
    ensures KeepsPrices(s, RecordEvidence(s, id, e).after)
  {
    hide KeepsPrices, RecordEvidence;
    var s' := RecordEvidence(s, id, e).after;
    EvidenceAnswers(s, id, e);
    if id in s.intents && id in s.transactions {
      AllOrNothing(s, id, e);
      if s'.intents == s.intents {
        SamePrices(s, s');
      } else {
        OneStatus(s, s', id);
      }
    } else {
      SamePrices(s, s');
    }
  }

  lemma EventKeepsPrices(s: State, id: AttemptId, e: ProviderEvent, verified: bool)
    ensures KeepsPrices(s, RecordEvent(s, id, e, verified).after)
  {
    hide KeepsPrices;
    SamePrices(s, RecordEvent(s, id, e, verified).after);
  }

  lemma OrderStepKeepsPrices(s: State, step: Step)
    requires step.OrderPlaced? || step.OrderMovesOn? || step.OrderLapses? || step.DoCreateAttempt? || step.ClockAdvances?
    ensures KeepsPrices(s, After(s, step))
  {
    hide KeepsPrices, HasActive, ReferenceTaken, CreateIntent, AcceptEnvelope, RecordReceipt, RecordEvidence, RecordEvent;
    SamePrices(s, After(s, step));
  }

  lemma StepKeepsPrices(s: State, step: Step)
    ensures KeepsPrices(s, After(s, step))
  {
    hide KeepsPrices, AcceptEnvelope, RecordReceipt, RecordEvidence, RecordEvent;
    match step
    case DoCreateIntent(_, _, _, _, _, _, _, _, _, _, _, _) => IntentKeepsPrices(s, step);
    case DoAcceptEnvelope(id, envelope, hash, digest, fields) => EnvelopeKeepsPrices(s, id, envelope, hash, digest, fields);
    case DoRecordReceipt(id, hash, code, responseHash) => ReceiptKeepsPrices(s, id, hash, code, responseHash);
    case DoRecordEvidence(id, sent) => EvidenceKeepsPrices(s, id, sent);
    case DoRecordEvent(attempt, event, verified) => EventKeepsPrices(s, attempt, event, verified);
    case _ =>
      hide After;
      OrderStepKeepsPrices(s, step);
  }

  /** In every reachable state each intent asks for exactly what its order costs. */
  lemma {:induction false} AsksThePrice(steps: seq<Step>)
    ensures AllAsk(Run(INIT, steps))
  {
    hide After, KeepsPrices;
    if |steps| > 0 {
      AsksThePrice(steps[..|steps| - 1]);
      StepKeepsPrices(Run(INIT, steps[..|steps| - 1]), steps[|steps| - 1]);
      PricesStay(Run(INIT, steps[..|steps| - 1]), Run(INIT, steps));
    }
  }

  /** A step that pays for an order: a verified confirmation by the provider, or a transaction the
      chain has recorded, of the price in the asset of the order. */
  ghost predicate PaysFor(s: State, step: Step, o: OrderId)
    requires o in s.orders
  {
    var order := s.orders[o];
    match step
    case DoRecordEvent(id, e, verified) =>
      && verified && e.confirmed && e.sameEnvironment && e.amount == order.price && e.asset == order.asset
      && id in s.attempts && s.attempts[id].order == o && s.attempts[id].phase == Active
    case DoRecordEvidence(id, e) =>
      && id in s.intents && s.intents[id].order == o && id in s.transactions && Proves(s.intents[id], s.transactions[id], e)
      && e.successful && e.amount == order.price && e.asset == order.asset
    case _ => false
  }

  ghost predicate IsPaid(s: State, o: OrderId) {
    o in s.orders && s.orders[o].state in {Paid, PastPayment}
  }

  lemma EventPays(s: State, id: AttemptId, e: ProviderEvent, verified: bool, o: OrderId)
    requires !IsPaid(s, o) && IsPaid(RecordEvent(s, id, e, verified).after, o)
    ensures o in s.orders && s.orders[o].state == AwaitingPayment && PaysFor(s, DoRecordEvent(id, e, verified), o)
  {
    EventIff(s, id, e, verified);
    if RecordEvent(s, id, e, verified).Done? {
      EventDoes(s, id, e, verified);
    }
    hide RecordEvent;
  }

  lemma EvidencePays(s: State, id: IntentId, e: ChainEvidence, o: OrderId)
    requires Inv(s) && AllAsk(s) && !IsPaid(s, o) && IsPaid(RecordEvidence(s, id, e).after, o)
    ensures o in s.orders && s.orders[o].state == AwaitingPayment && PaysFor(s, DoRecordEvidence(id, e), o)
  {
    EvidenceAnswers(s, id, e);
    hide RecordEvidence, Inv;
    if OperationKey(e.hash, e.operation) !in s.evidence {
      EvidenceDoes(s, id, e);
      assert Asks(s.intents[id], s.orders[s.intents[id].order]);
    }
  }

  lemma OthersPayNothing(s: State, step: Step, o: OrderId)
    requires !step.DoRecordEvent? && !step.DoRecordEvidence? && !IsPaid(s, o)
    ensures !IsPaid(After(s, step), o)
  {
    hide HasActive, ReferenceTaken, Envelope.Body, EnvelopeProofs.ValidateDigest;
  }

  lemma StepPays(s: State, step: Step, o: OrderId)
    requires Inv(s) && AllAsk(s) && !IsPaid(s, o) && IsPaid(After(s, step), o)
    ensures o in s.orders && s.orders[o].state == AwaitingPayment && PaysFor(s, step, o)
  {
    hide Inv, AllAsk, IsPaid, PaysFor, RecordEvent, RecordEvidence;
    match step
    case DoRecordEvent(id, e, verified) => EventPays(s, id, e, verified, o);
    case DoRecordEvidence(id, e) => EvidencePays(s, id, e, o);
    case _ =>
      hide After;
      OthersPayNothing(s, step, o);
  }

  /** An order is paid only by its price: for every paid order of a run there is a step that paid
      for it. */
  lemma {:induction false} PaidOnlyByItsPrice(steps: seq<Step>, o: OrderId) returns (at: nat)
    requires IsPaid(Run(INIT, steps), o)
    ensures at < |steps| && o in Run(INIT, steps[..at]).orders && PaysFor(Run(INIT, steps[..at]), steps[at], o)
  {
    hide After, PaysFor;
    at := |steps|;
    if |steps| > 0 {
      var before := steps[..|steps| - 1];
      if IsPaid(Run(INIT, before), o) {
        at := PaidOnlyByItsPrice(before, o);
        assert steps[..at] == before[..at];
      } else {
        at := |before|;
        PaymentsHold(before);
        AsksThePrice(before);
        StepPays(Run(INIT, before), steps[at], o);
      }
    }
  }
}
