/** A run in which matching chain evidence is refused. */
module ReconciliationLate {
  import opened Wrappers
  import Decimal
  import Envelope
  import EnvelopeProofs
  import Bits
  import StrKey
  import opened Reconciliation
  import opened ReconciliationProofs

  /** The payment that the evidence will report, with a fee of 100 and an hour to go. */
  function Asked(e: ChainEvidence): Envelope.Payment
    requires 0 < e.amount < 0x8000_0000_0000_0000
  {
    Envelope.Payment(e.source, e.destination, 1, 100, e.amount, e.asset.code, e.asset.issuer, e.memo, 3600)
  }

  /** A successful payment that the builder can ask for and whose raw records say what the report
      says. */
  ghost predicate Genuine(e: ChainEvidence) {
    && e.ledger > 0 && e.operation >= 0 && 0 < e.amount < 0x8000_0000_0000_0000 && 0 <= e.asset.scale <= 7 && e.closedAt <= 300
    && e.successful && RawTransactionFailure(e) == None && RawOperationFailure(e) == None
    && Envelope.Body(Asked(e)).Ok?
  }

  /** The provider reports that the attempt has failed while its signed payment, the one that e
      will report, is on its way. */
  function FailedMeanwhile(id: nat, name: string, e: ChainEvidence): seq<Step>
    requires 0 < e.amount < 0x8000_0000_0000_0000 && Envelope.Body(Asked(e)).Ok?
  {
    [OrderPlaced(id, e.amount, e.asset),
     DoCreateAttempt(id, name, None, None, id),
     DoCreateIntent(id, id, e.source, e.destination, 1, 100, e.memo, 3600, name, name, name, id),
     DoAcceptEnvelope(id, name, e.hash, name, EnvelopeProofs.FieldsOf(Asked(e))),
     DoRecordReceipt(id, e.hash, 200, Some(e.hash)),
     DoRecordEvent(id, ProviderEvent(name, false, e.amount, e.asset, None, true, name), true)]
  }

  /** The evidence matches the intent in every respect and is refused. */
  ghost predicate Late(s: State, id: nat, e: ChainEvidence) {
    && id in s.intents && id in s.transactions
    && Reconcile(s.intents[id], s.transactions[id], e) == None
    && RecordEvidence(s, id, e) == Refused(s, ConfirmationStateChanged)
  }

  // ----- the states of the run -----

  function Placed(id: nat, e: ChainEvidence): map<OrderId, Order>
    requires 0 < e.amount < 0x8000_0000_0000_0000
  {
    map[id := Order(AwaitingPayment, e.amount, e.asset)]
  }

  function Attempted(id: nat, name: string, phase: AttemptStatus): map<AttemptId, Attempt> {
    map[id := Attempt(id, phase, name, None, None)]
  }

  function Intended(id: nat, name: string, e: ChainEvidence, status: IntentStatus): map<IntentId, Intent>
    requires 0 < e.amount < 0x8000_0000_0000_0000
  {
    map[id := Intent(id, id, status, EnvelopeProofs.DraftOf(Asked(e), name), e.asset.scale, name, name)]
  }

  function Sent(id: nat, name: string, e: ChainEvidence, stage: TransactionStatus): map<IntentId, Transaction>
    requires 0 < e.amount < 0x8000_0000_0000_0000 && Envelope.Body(Asked(e)).Ok?
  {
    map[id := Transaction(stage, name, e.hash, EnvelopeProofs.FieldsOf(Asked(e)))]
  }

  lemma StepsToAttempt(id: nat, name: string, e: ChainEvidence)
    requires Genuine(e)
    ensures var t := FailedMeanwhile(id, name, e);
            After(After(INIT, t[0]), t[1]) ==
            State(0, Placed(id, e), Attempted(id, name, Active), map[], map[], map[], map[], None)
  {
    hide Envelope.Body, RawTransactionFailure, RawOperationFailure, EnvelopeProofs.FieldsOf;
  }

  lemma StepToIntent(id: nat, name: string, e: ChainEvidence)
    requires Genuine(e)
    ensures After(State(0, Placed(id, e), Attempted(id, name, Active), map[], map[], map[], map[], None), FailedMeanwhile(id, name, e)[2]) ==
            State(0, Placed(id, e), Attempted(id, name, Active), Intended(id, name, e, AwaitingSignature), map[], map[], map[], None)
  {
    hide Envelope.Body, RawTransactionFailure, RawOperationFailure, EnvelopeProofs.FieldsOf, EnvelopeProofs.DraftOf;
    assert PaymentFor(Placed(id, e)[id], e.source, e.destination, 1, 100, e.memo, 3600) == Asked(e);
  }

  lemma FirstSignature(s: State, id: nat, intent: Intent, envelope: string, hash: string, digest: string, fields: Envelope.Fields)
    requires s.intents == map[id := intent] && s.transactions == map[] && intent.status == AwaitingSignature
    requires intent.draft.expiresAt > s.now && EnvelopeProofs.ValidateDigest(digest, fields, intent.draft) == Envelope.Ok(())
    ensures AcceptEnvelope(s, id, envelope, hash, digest, fields) ==
            Done(s.(transactions := map[id := Transaction(Signed, envelope, hash, fields)], intents := map[id := intent.(status := IntentSigned)]))
  {
    hide EnvelopeProofs.ValidateDigest;
  }

  lemma StepToSignature(id: nat, name: string, e: ChainEvidence)
    requires Genuine(e)
    ensures After(State(0, Placed(id, e), Attempted(id, name, Active), Intended(id, name, e, AwaitingSignature), map[], map[], map[], None),
                  FailedMeanwhile(id, name, e)[3]) ==
            State(0, Placed(id, e), Attempted(id, name, Active), Intended(id, name, e, IntentSigned), Sent(id, name, e, Signed), map[], map[], None)
  {
    var s := State(0, Placed(id, e), Attempted(id, name, Active), Intended(id, name, e, AwaitingSignature), map[], map[], map[], None);
    var draft := EnvelopeProofs.DraftOf(Asked(e), name);
    assert draft.expiresAt == 3600;
    EnvelopeProofs.DraftAccepted(Asked(e), name);
    hide Genuine, Envelope.Body, EnvelopeProofs.FieldsOf, EnvelopeProofs.DraftOf, EnvelopeProofs.ValidateDigest, AcceptEnvelope;
    FirstSignature(s, id, s.intents[id], name, e.hash, name, EnvelopeProofs.FieldsOf(Asked(e)));
  }

  lemma StepToSubmission(id: nat, name: string, e: ChainEvidence)
    requires Genuine(e)
    ensures After(State(0, Placed(id, e), Attempted(id, name, Active), Intended(id, name, e, IntentSigned), Sent(id, name, e, Signed), map[], map[], None),
                  FailedMeanwhile(id, name, e)[4]) ==
            State(0, Placed(id, e), Attempted(id, name, Active), Intended(id, name, e, IntentSubmitted), Sent(id, name, e, Submitted), map[], map[], None)
  {
    hide Envelope.Body, RawTransactionFailure, RawOperationFailure, EnvelopeProofs.FieldsOf, EnvelopeProofs.DraftOf;
  }

  lemma StepToFailure(id: nat, name: string, e: ChainEvidence)
    requires Genuine(e)
    ensures After(State(0, Placed(id, e), Attempted(id, name, Active), Intended(id, name, e, IntentSubmitted), Sent(id, name, e, Submitted), map[], map[], None),
                  FailedMeanwhile(id, name, e)[5]) ==
            State(0, Placed(id, e), Attempted(id, name, AttemptFailed), Intended(id, name, e, IntentSubmitted), Sent(id, name, e, Submitted), map[],
                  map[EventKey(name, name) := EventRecord(id, name, true)], None)
  {
    hide Envelope.Body, RawTransactionFailure, RawOperationFailure, EnvelopeProofs.FieldsOf, EnvelopeProofs.DraftOf;
    hide CreateAttempt, CreateIntent, AcceptEnvelope, RecordReceipt, RecordEvidence;
  }

  lemma SixSteps(s: State, t: seq<Step>)
    requires |t| == 6
    ensures Run(s, t) == After(After(After(After(After(After(s, t[0]), t[1]), t[2]), t[3]), t[4]), t[5])
  {
    hide After;
    RunSplit(s, t, 5); RunSplit(s, t, 4); RunSplit(s, t, 3); RunSplit(s, t, 2); RunSplit(s, t, 1); RunSplit(s, t, 0);
    assert t[..6] == t;
  }

  lemma RunSplit(s: State, t: seq<Step>, n: nat)
    requires n < |t|
    ensures Run(s, t[..n + 1]) == After(Run(s, t[..n]), t[n])
  {
    assert t[..n + 1][..n] == t[..n];
  }

  /** Every genuine payment can come too late. */
  lemma MatchingEvidenceComesLate(id: nat, name: string, e: ChainEvidence)
    requires Genuine(e)
    ensures Late(Run(INIT, FailedMeanwhile(id, name, e)), id, e)
  {
    SixSteps(INIT, FailedMeanwhile(id, name, e));
    StepsToAttempt(id, name, e);
    StepToIntent(id, name, e);
    StepToSignature(id, name, e);
    StepToSubmission(id, name, e);
    StepToFailure(id, name, e);
    hide Run, After, FailedMeanwhile, RawTransactionFailure, RawOperationFailure, Envelope.Body, EnvelopeProofs.FieldsOf;
  }

  // ----- one such payment -----

  /** The address whose key repeats one byte. */
  function Address(b: Bits.byte): Text {
    StrKey.Encode(seq(32, _ => b))
  }

  /** Five lumens, as the chain reports them. */
  function FiveLumens(): ChainEvidence {
    ChainEvidence("hash", 1, 0, 0, Address(1), Address(2), 5, Asset(XLM, 0, None), [67], true, 0, "digest",
                  RawTransaction(Some("hash"), Some(true), Some(1), Some(TEXT), Some([67]), At(0)),
                  RawOperation(Some(PAYMENT), Some("hash"), Some(0), Some(Address(1)), Some(Address(2)),
                               Some(Decimal.Format(5, 0)), Some(NATIVE), None, None))
  }

  lemma AddressIsAccount(b: Bits.byte)
    ensures Envelope.Account(Address(b)).Ok?
  {
    StrKey.EncodingsDecode(seq(32, _ => b));
    hide StrKey.Encode, StrKey.Decoded;
  }

  lemma FiveLumensCanBeAsked()
    ensures Envelope.Body(Asked(FiveLumens())).Ok?
  {
    hide Address, Envelope.Account, Envelope.SourcePart, Envelope.TimePart, Envelope.MemoPart, Envelope.OperationPart, Envelope.AmountPart;
    AddressIsAccount(1);
    AddressIsAccount(2);
    var p := Asked(FiveLumens());
    FiveLumensAsk(p);
    hide Asked, FiveLumens;
    assert Envelope.AssetBytes(p.assetCode, p.assetIssuer).Ok?;
  }

  lemma FiveLumensAsk(p: Envelope.Payment)
    requires p == Asked(FiveLumens())
    ensures p.source == Address(1) && p.destination == Address(2) && |p.memo| == 1 && p.assetCode == Envelope.XLM && p.assetIssuer == None
    ensures p.amount > 0 && p.expiresAt > 0
  {
    hide Address;
  }

  lemma FiveLumensAreGenuine()
    ensures Genuine(FiveLumens())
  {
    hide Envelope.Body, Address;
    FiveLumensCanBeAsked();
    Decimal.ReadsFormatted(5, 0);
    hide Decimal.Minor, Decimal.Format;
  }

  /** For instance: a payment of five lumens that is refused although it matches. */
  lemma FiveLumensComeLate()
    ensures Genuine(FiveLumens()) && Late(Run(INIT, FailedMeanwhile(0, "provider", FiveLumens())), 0, FiveLumens())
  {
    FiveLumensAreGenuine();
    hide Late, Run, FailedMeanwhile, FiveLumens;
    MatchingEvidenceComesLate(0, "provider", FiveLumens());
  }
}
