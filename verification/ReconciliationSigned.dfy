/** What is signed is what was asked for, and what is paid is what was signed. */
module ReconciliationSigned {
  import opened Wrappers
  import Envelope
  import EnvelopeProofs
  import opened Reconciliation
  import opened ReconciliationProofs

  /** Every recorded transaction says what its intent asks for. */
  ghost predicate SaysIt(s: State, id: IntentId)
    requires id in s.transactions
  {
    id in s.intents && EnvelopeProofs.Says(s.transactions[id].fields, s.intents[id].draft)
  }

  ghost predicate AllSayIt(s: State) {
    forall id :: id in s.transactions ==> SaysIt(s, id)
  }

  /** Drafts never change, and neither does what was signed. */
  ghost predicate KeepsTexts(s: State, s': State) {
    && (forall id :: id in s.intents ==> id in s'.intents && s'.intents[id].draft == s.intents[id].draft)
    && (forall id :: id in s'.transactions ==> id in s.transactions && s'.transactions[id].fields == s.transactions[id].fields)
  }

  lemma TextsStay(s: State, s': State)
    requires AllSayIt(s) && KeepsTexts(s, s')
    ensures AllSayIt(s')
  {
    forall id | id in s'.transactions
      ensures SaysIt(s', id)
    {
      assert SaysIt(s, id);
    }
  }

  lemma SigningIs(s: State, id: IntentId, envelope: string, hash: string, digest: string, fields: Envelope.Fields)
    ensures var s' := AcceptEnvelope(s, id, envelope, hash, digest, fields).after;
            && (forall i :: i in s.intents ==> i in s'.intents && s'.intents[i].draft == s.intents[i].draft)
            && (s'.transactions == s.transactions
                || (&& id in s.intents && EnvelopeProofs.ValidateDigest(digest, fields, s.intents[id].draft).Ok?
                    && s'.transactions == s.transactions[id := Transaction(Signed, envelope, hash, fields)]))
  {
    hide EnvelopeProofs.ValidateDigest;
  }

  lemma SigningSaysIt(s: State, id: IntentId, envelope: string, hash: string, digest: string, fields: Envelope.Fields)
    requires AllSayIt(s)
    ensures AllSayIt(AcceptEnvelope(s, id, envelope, hash, digest, fields).after)
  {
    hide AllSayIt, AcceptEnvelope, EnvelopeProofs.ValidateDigest, EnvelopeProofs.Says;
    SigningIs(s, id, envelope, hash, digest, fields);
    if id in s.intents {
      EnvelopeProofs.ValidMeansSays(digest, fields, s.intents[id].draft);
    }
    OneMoreSaysIt(s, AcceptEnvelope(s, id, envelope, hash, digest, fields).after, id);
  }

  lemma OneMoreSaysIt(s: State, s': State, id: IntentId)
    requires AllSayIt(s)
    requires forall i :: i in s.intents ==> i in s'.intents && s'.intents[i].draft == s.intents[i].draft
    requires forall i :: i in s'.transactions && i != id ==> i in s.transactions && s'.transactions[i] == s.transactions[i]
    requires id in s'.transactions ==>
               || (id in s.transactions && s'.transactions[id] == s.transactions[id])
               || (id in s.intents && EnvelopeProofs.Says(s'.transactions[id].fields, s.intents[id].draft))
    ensures AllSayIt(s')
  {
    hide EnvelopeProofs.Says;
    forall i | i in s'.transactions
      ensures SaysIt(s', i)
    {
      if i in s.transactions {
        assert SaysIt(s, i);
      }
    }
  }

  lemma EvidenceKeepsTexts(s: State, id: IntentId, e: ChainEvidence)
    ensures KeepsTexts(s, RecordEvidence(s, id, e).after)
  {
    var s' := RecordEvidence(s, id, e).after;
    if id in s.intents && id in s.transactions {
      AllOrNothing(s, id, e);
      hide RecordEvidence, KeepsTexts;
      if s'.intents == s.intents && s'.transactions == s.transactions {
        SameTexts(s, s');
      } else {
        StatusKeepsTexts(s, s', id);
      }
    } else {
      hide KeepsTexts, Reconcile, HasAccepted, ConfirmPayment;
      SameTexts(s, s');
    }
  }

  lemma IntentKeepsTexts(s: State, step: Step)
    requires step.DoCreateIntent?
    ensures KeepsTexts(s, After(s, step))
  {
    hide Envelope.Body, CreateAttempt, AcceptEnvelope, RecordReceipt, RecordEvidence, RecordEvent;
  }

  /** One intent gets a new status, and its transaction a new stage. */
  lemma StatusKeepsTexts(s: State, s': State, id: IntentId)
    requires id in s.intents && id in s.transactions
    requires exists status :: s'.intents == s.intents[id := s.intents[id].(status := status)]
    requires exists stage :: s'.transactions == s.transactions[id := s.transactions[id].(stage := stage)]
    ensures KeepsTexts(s, s')
  {
  }

  lemma ReceiptKeepsTexts(s: State, id: IntentId, hash: string, code: int, responseHash: Option<string>)
    ensures KeepsTexts(s, RecordReceipt(s, id, hash, code, responseHash).after)
  {
    hide KeepsTexts;
    var s' := RecordReceipt(s, id, hash, code, responseHash).after;
    if s' == s {
      SameTexts(s, s');
    } else {
      StatusKeepsTexts(s, s', id);
    }
  }

  lemma SameTexts(s: State, s': State)
    requires s'.intents == s.intents && s'.transactions == s.transactions
    ensures KeepsTexts(s, s')
  {
  }

  /** Orders, attempts and provider events do not touch intents or transactions. */
  lemma OthersKeepTexts(s: State, step: Step)
    requires step.OrderPlaced? || step.OrderMovesOn? || step.OrderLapses? || step.DoCreateAttempt? || step.DoRecordEvent? || step.ClockAdvances?
    ensures After(s, step).intents == s.intents && After(s, step).transactions == s.transactions
  {
    hide CreateIntent, AcceptEnvelope, RecordReceipt, RecordEvidence, HasActive, ReferenceTaken;
  }

  lemma StepKeepsTexts(s: State, step: Step)
    requires AllSayIt(s)
    ensures AllSayIt(After(s, step))
  {
    match step
    case DoAcceptEnvelope(id, envelope, hash, digest, fields) =>
      hide AllSayIt, AcceptEnvelope;
      SigningSaysIt(s, id, envelope, hash, digest, fields);
    case DoRecordEvidence(id, sent) =>
      hide AllSayIt, RecordEvidence, KeepsTexts;
      EvidenceKeepsTexts(s, id, sent);
      TextsStay(s, After(s, step));
    case DoCreateIntent(_, _, _, _, _, _, _, _, _, _, _, _) =>
      hide AllSayIt, CreateIntent, KeepsTexts;
      IntentKeepsTexts(s, step);
      TextsStay(s, After(s, step));
    case DoRecordReceipt(id, hash, code, responseHash) =>
      hide AllSayIt, RecordReceipt, KeepsTexts;
      ReceiptKeepsTexts(s, id, hash, code, responseHash);
      TextsStay(s, After(s, step));
    case _ =>
      hide AllSayIt, After;
      OthersKeepTexts(s, step);
      TextsStay(s, After(s, step));
  }

  /** After every run each recorded transaction, whatever its stage and signatures, says exactly
      what its intent asks for: source, destination, sequence, fee, amount, asset, memo, expiry. */
  lemma {:induction false} SignedAsAsked(steps: seq<Step>)
    ensures AllSayIt(Run(INIT, steps))
  {
    hide After, AllSayIt;
    if |steps| == 0 {
      NothingSigned();
    } else {
      SignedAsAsked(steps[..|steps| - 1]);
      StepKeepsTexts(Run(INIT, steps[..|steps| - 1]), steps[|steps| - 1]);
    }
  }

  lemma NothingSigned()
    ensures AllSayIt(INIT)
  {
  }

  /** The chain's report of a payment, read like the fields of an envelope. */
  ghost predicate Pays(e: ChainEvidence, fields: Envelope.Fields) {
    && Envelope.Account(e.source) == Envelope.Ok(fields.source)
    && Envelope.Account(e.destination) == Envelope.Ok(fields.destination)
    && e.amount == fields.amount && e.asset.code == fields.asset.code
    && EnvelopeProofs.ExpectedIssuer(e.asset.issuer) == Envelope.Ok(fields.asset.issuer)
    && Some(e.memo) == fields.memo
  }

  /** In every reachable state, evidence that confirms a payment reports the transaction that was
      signed for the intent, field by field; so does the chain's own record of it. */
  lemma PaidAsSigned(steps: seq<Step>, id: IntentId, e: ChainEvidence)
    requires var s := Run(INIT, steps);
             && OperationKey(e.hash, e.operation) !in s.evidence
             && OperationKey(e.hash, e.operation) in RecordEvidence(s, id, e).after.evidence
             && RecordEvidence(s, id, e).after.evidence[OperationKey(e.hash, e.operation)].accepted
    ensures var s := Run(INIT, steps);
            && id in s.intents && id in s.transactions
            && e.hash == s.transactions[id].hash && Pays(e, s.transactions[id].fields)
            && ChainSays(s.intents[id], s.transactions[id], e)
  {
    var s := Run(INIT, steps);
    SignedAsAsked(steps);
    AcceptedMatches(s, id, e);
    hide Run, RecordEvidence, Reconcile, ChainSays;
    assert SaysIt(s, id);
    MatchesIff(s.intents[id], s.transactions[id], e);
  }

  lemma AcceptedMatches(s: State, id: IntentId, e: ChainEvidence)
    requires OperationKey(e.hash, e.operation) !in s.evidence
    requires OperationKey(e.hash, e.operation) in RecordEvidence(s, id, e).after.evidence
    requires RecordEvidence(s, id, e).after.evidence[OperationKey(e.hash, e.operation)].accepted
    ensures id in s.intents && id in s.transactions && Reconcile(s.intents[id], s.transactions[id], e) == None
  {
    hide Reconcile, HasAccepted;
  }
}
