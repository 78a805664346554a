/** What every run of the payout handlers keeps. */
module PayoutsProofs {
  import opened Wrappers
  import opened Payouts
  import Decimal

  // ----- one batch -----

  ghost predicate ThreeTransfers(batch: Batch) {
    batch.transfers.Keys == {Candidate, Organizer, Platform}
  }

  function Expected(batch: Batch, role: Role): int {
    if role in batch.transfers then batch.transfers[role].expected else 0
  }

  /** What a transfer has been proven to pay. */
  function Actual(batch: Batch, role: Role): int {
    if role in batch.transfers && batch.transfers[role].state == Settled && batch.transfers[role].actual.Some?
    then batch.transfers[role].actual.value else 0
  }

  function ActualTotal(batch: Batch): int {
    Actual(batch, Candidate) + Actual(batch, Organizer) + Actual(batch, Platform)
  }

  /** A settled transfer was proven to pay exactly what was planned. */
  ghost predicate TransferOk(batch: Batch, t: Transfer) {
    && t.expected > 0
    && (t.state == Settled <==> t.actual.Some?) && (t.state == Settled <==> t.operation.Some?)
    && (t.state == Settled ==> t.actual == Some(t.expected))
    && (batch.status == Prepared <==> t.state == Pending)
    && (batch.failed ==> t.state in {Settled, Failed})
    && (t.state == Failed ==> batch.failed)
  }

  ghost predicate BatchOk(batch: Batch) {
    && ThreeTransfers(batch)
    && (forall r :: r in batch.transfers ==> TransferOk(batch, batch.transfers[r]))
    && Expected(batch, Candidate) + Expected(batch, Organizer) + Expected(batch, Platform) == batch.amount
    && batch.confirmedCount == SettledCount(batch)
    && (batch.hash.Some? <==> batch.status != Prepared)
    && (batch.status == Confirmed <==> batch.confirmedCount == 3)
    && (batch.status == Partial <==> 1 <= batch.confirmedCount <= 2)
    && (batch.status == BatchFailed ==> batch.failed)
    && (batch.status == Submitted ==> !batch.failed)
    && (batch.failed ==> batch.confirmedCount < 3 && batch.status in {Partial, BatchFailed})
  }

  /** What has been proven paid never exceeds the order amount, and reaches it exactly when the
      batch is confirmed. */
  lemma ConfirmedIffFullyPaid(batch: Batch)
    requires BatchOk(batch)
    ensures 0 <= ActualTotal(batch) <= batch.amount
    ensures ActualTotal(batch) == batch.amount <==> batch.status == Confirmed
    ensures batch.confirmedCount == SettledCount(batch)
  {
    OneTransfer(batch, Candidate);
    OneTransfer(batch, Organizer);
    OneTransfer(batch, Platform);
  }

  lemma OneTransfer(batch: Batch, role: Role)
    requires BatchOk(batch)
    ensures Expected(batch, role) > 0
    ensures Actual(batch, role) == if SettledOne(batch, role) == 1 then Expected(batch, role) else 0
  {
    assert role in batch.transfers;
    assert TransferOk(batch, batch.transfers[role]);
  }

  // ----- the tables -----

  predicate IsSettled(batch: Batch, role: Role) {
    role in batch.transfers && batch.transfers[role].state == Settled
  }

  predicate SettledIn(s: State, id: BatchId, role: Role) {
    id in s.batches && IsSettled(s.batches[id], role)
  }

  /** Where the proof of a settled transfer is recorded. */
  function ProofOf(batch: Batch, role: Role): OperationKey
    requires role in batch.transfers
  {
    OperationKey(if batch.hash.Some? then batch.hash.value else "",
                 if batch.transfers[role].operation.Some? then batch.transfers[role].operation.value else -1)
  }

  /** An accepted proof belongs to a settled transfer of its batch's transaction. */
  ghost predicate ProofOk(batches: map<BatchId, Batch>, at: OperationKey, e: Recorded) {
    e.accepted ==> e.batch in batches && IsSettled(batches[e.batch], e.role) && ProofOf(batches[e.batch], e.role) == at
  }

  ghost predicate TransferProven(evidence: map<OperationKey, Recorded>, id: BatchId, batch: Batch, role: Role) {
    IsSettled(batch, role) ==>
      var at := ProofOf(batch, role);
      at in evidence && evidence[at].accepted && evidence[at].batch == id && evidence[at].role == role
  }

  ghost predicate BatchProven(evidence: map<OperationKey, Recorded>, id: BatchId, batch: Batch) {
    && TransferProven(evidence, id, batch, Candidate)
    && TransferProven(evidence, id, batch, Organizer)
    && TransferProven(evidence, id, batch, Platform)
  }

  ghost predicate Batches(s: State) {
    && (forall id :: id in s.batches ==> BatchOk(s.batches[id]))
    && (forall i, j :: i in s.batches && j in s.batches && i != j ==> s.batches[i].order != s.batches[j].order)
  }

  ghost predicate Proofs(s: State) {
    && (forall at :: at in s.evidence ==> ProofOk(s.batches, at, s.evidence[at]))
    && (forall id :: id in s.batches ==> BatchProven(s.evidence, id, s.batches[id]))
  }

  ghost predicate Inv(s: State) {
    Batches(s) && Proofs(s)
  }

  /** No ledger operation ever confirms two transfers. */
  lemma OperationsConfirmOnce(s: State, i: BatchId, a: Role, j: BatchId, b: Role)
    requires Inv(s) && SettledIn(s, i, a) && SettledIn(s, j, b)
    requires ProofOf(s.batches[i], a) == ProofOf(s.batches[j], b)
    ensures i == j && a == b
  {
    hide Batches;
    assert BatchProven(s.evidence, i, s.batches[i]) && BatchProven(s.evidence, j, s.batches[j]);
  }

  // ----- the handlers -----

  lemma NewBatchIsOk(sale: Sale, split: Split, key: string, request: string)
    requires split.candidate > 0 && split.organizer > 0 && split.platform > 0
    requires split.candidate + split.organizer + split.platform == sale.amount
    ensures BatchOk(NewBatch(sale, split, key, request))
  {
  }

  lemma CreateKeepsInv(s: State, sale: Sale, eligible: bool, key: string, request: string, id: BatchId)
    requires Inv(s)
    ensures var r := Create(s, sale, eligible, key, request, id); r.Ok? ==> Inv(r.value)
  {
    hide BatchOk, Inv;
    var r := Create(s, sale, eligible, key, request, id);
    if r.Ok? && r.value != s {
      var split := CalculateSplit(sale.amount, sale.candidateBps, sale.organizerBps, sale.platformBps).split;
      NewBatchIsOk(sale, split, key, request);
      NewBatchAdds(s, id, NewBatch(sale, split, key, request));
    }
  }

  lemma PendingProvesNothing(batch: Batch, evidence: map<OperationKey, Recorded>, id: BatchId)
    requires BatchOk(batch) && batch.status == Prepared
    ensures BatchProven(evidence, id, batch)
  {
    forall r | r in batch.transfers
      ensures batch.transfers[r].state == Pending
    {
      assert TransferOk(batch, batch.transfers[r]);
    }
  }

  lemma NewBatchAdds(s: State, id: BatchId, batch: Batch)
    requires Inv(s) && id !in s.batches && BatchOk(batch) && batch.status == Prepared
    requires forall b :: b in s.batches ==> s.batches[b].order != batch.order
    ensures Inv(s.(batches := s.batches[id := batch]))
  {
    hide BatchOk, BatchProven, IsSettled, ProofOf;
    PendingProvesNothing(batch, s.evidence, id);
    var s' := s.(batches := s.batches[id := batch]);
    forall at | at in s'.evidence
      ensures ProofOk(s'.batches, at, s'.evidence[at])
    {
      assert ProofOk(s.batches, at, s.evidence[at]);
    }
  }

  /** A batch may change while its settled transfers and its transaction stay. */
  ghost predicate KeepsSettled(batch: Batch, batch': Batch) {
    && batch'.order == batch.order && batch'.transfers.Keys == batch.transfers.Keys
    && (batch.hash.Some? ==> batch'.hash == batch.hash)
    && forall r :: r in batch.transfers ==>
         if batch.transfers[r].state == Settled then batch'.transfers[r] == batch.transfers[r] else batch'.transfers[r].state != Settled
  }

  lemma SettledStays(batch: Batch, batch': Batch, role: Role)
    requires BatchOk(batch) && KeepsSettled(batch, batch')
    ensures IsSettled(batch', role) <==> IsSettled(batch, role)
    ensures IsSettled(batch, role) ==> ProofOf(batch', role) == ProofOf(batch, role)
  {
    SettledHasHash(batch);
  }

  /** The proofs of a batch look only at its settled transfers. */
  ghost predicate SameSettled(batch: Batch, batch': Batch) {
    forall role :: (IsSettled(batch', role) <==> IsSettled(batch, role))
                   && (IsSettled(batch, role) ==> ProofOf(batch', role) == ProofOf(batch, role))
  }

  lemma SameSettledIs(batch: Batch, batch': Batch)
    requires BatchOk(batch) && KeepsSettled(batch, batch')
    ensures SameSettled(batch, batch')
  {
    forall role
      ensures IsSettled(batch', role) <==> IsSettled(batch, role)
      ensures IsSettled(batch, role) ==> ProofOf(batch', role) == ProofOf(batch, role)
    {
      SettledStays(batch, batch', role);
    }
  }

  lemma ChangeKeepsProofs(s: State, id: BatchId, batch': Batch)
    requires Proofs(s) && id in s.batches && SameSettled(s.batches[id], batch')
    ensures Proofs(s.(batches := s.batches[id := batch']))
  {
    hide IsSettled, ProofOf;
    var s' := s.(batches := s.batches[id := batch']);
    forall at | at in s'.evidence
      ensures ProofOk(s'.batches, at, s'.evidence[at])
    {
      assert ProofOk(s.batches, at, s.evidence[at]);
    }
    forall b | b in s'.batches
      ensures BatchProven(s'.evidence, b, s'.batches[b])
    {
      assert BatchProven(s.evidence, b, s.batches[b]);
    }
  }

  lemma ChangeKeepsBatches(s: State, id: BatchId, batch': Batch)
    requires Batches(s) && id in s.batches && BatchOk(batch') && batch'.order == s.batches[id].order
    ensures Batches(s.(batches := s.batches[id := batch']))
  {
    hide BatchOk;
  }

  lemma ChangeKeepsInv(s: State, id: BatchId, batch': Batch)
    requires Inv(s) && id in s.batches && BatchOk(batch') && KeepsSettled(s.batches[id], batch')
    ensures Inv(s.(batches := s.batches[id := batch']))
  {
    SameSettledIs(s.batches[id], batch');
    hide BatchOk, SameSettled, Proofs;
    ChangeKeepsBatches(s, id, batch');
    ChangeKeepsProofs(s, id, batch');
  }

  lemma SettledHasHash(batch: Batch)
    requires BatchOk(batch)
    ensures forall r :: r in batch.transfers && batch.transfers[r].state == Settled ==> batch.hash.Some?
  {
    forall r | r in batch.transfers && batch.transfers[r].state == Settled
      ensures batch.hash.Some?
    {
      assert TransferOk(batch, batch.transfers[r]);
    }
  }

  lemma SubmittingIsOk(batch: Batch, hash: string)
    requires BatchOk(batch) && batch.status == Prepared
    ensures BatchOk(Submitting(batch, hash)) && KeepsSettled(batch, Submitting(batch, hash))
  {
    forall r | r in batch.transfers
      ensures batch.transfers[r].state == Pending
    {
      assert TransferOk(batch, batch.transfers[r]);
    }
  }

  lemma FailingIsOk(batch: Batch)
    requires BatchOk(batch) && batch.status in {Submitted, Partial}
    ensures BatchOk(Failing(batch)) && KeepsSettled(batch, Failing(batch))
  {
    var batch' := Failing(batch);
    forall r | r in batch'.transfers
      ensures TransferOk(batch', batch'.transfers[r])
    {
      assert TransferOk(batch, batch.transfers[r]);
    }
    assert SettledCount(batch') == SettledCount(batch);
  }

  lemma SettlingIsOk(batch: Batch, e: Evidence)
    requires BatchOk(batch) && e.role in batch.transfers && batch.status in {Submitted, Partial}
    requires batch.transfers[e.role].state == InFlight && e.amount == batch.transfers[e.role].expected
    ensures BatchOk(Settling(batch, e))
    ensures SettledCount(Settling(batch, e)) == SettledCount(batch) + 1
  {
    var batch' := Settling(batch, e);
    assert TransferOk(batch, batch.transfers[e.role]);
    assert !batch.failed;
    forall r | r in batch'.transfers
      ensures TransferOk(batch', batch'.transfers[r])
    {
      assert TransferOk(batch, batch.transfers[r]);
    }
  }

  /** After a failure nothing is in flight, so nothing more is ever confirmed. */
  lemma FailedAcceptsNothing(batch: Batch, e: Evidence)
    requires BatchOk(batch) && batch.failed && e.role in batch.transfers
    ensures Reconcile(batch, batch.transfers[e.role], e) == Some(NotSubmitted)
  {
    assert TransferOk(batch, batch.transfers[e.role]);
  }

  ghost predicate Accepts(s: State, id: BatchId, e: Evidence) {
    && id in s.batches && e.role in s.batches[id].transfers
    && OperationKey(e.hash, e.operation) !in s.evidence
    && Reconcile(s.batches[id], s.batches[id].transfers[e.role], e) == None
  }

  lemma AcceptedIs(s: State, id: BatchId, e: Evidence)
    requires Batches(s) && Accepts(s, id, e)
    ensures var batch := s.batches[id];
            && batch.status in {Submitted, Partial} && batch.hash == Some(e.hash)
            && batch.transfers[e.role].state == InFlight && e.amount == batch.transfers[e.role].expected
  {
  }

  lemma SettlingIs(batch: Batch, e: Evidence)
    requires e.role in batch.transfers && batch.transfers[e.role].state == InFlight && batch.hash == Some(e.hash)
    ensures IsSettled(Settling(batch, e), e.role) && !IsSettled(batch, e.role)
    ensures ProofOf(Settling(batch, e), e.role) == OperationKey(e.hash, e.operation)
    ensures Settling(batch, e).order == batch.order
  {
  }

  lemma SettlingLeaves(batch: Batch, e: Evidence, role: Role)
    requires e.role in batch.transfers && role != e.role
    ensures IsSettled(Settling(batch, e), role) <==> IsSettled(batch, role)
    ensures IsSettled(batch, role) ==> ProofOf(Settling(batch, e), role) == ProofOf(batch, role)
  {
  }

  /** The new proof is at a free key, so all others stay. */
  lemma SettledProven(s: State, id: BatchId, e: Evidence, role: Role)
    requires Proofs(s) && Accepts(s, id, e)
    requires s.batches[id].transfers[e.role].state == InFlight && s.batches[id].hash == Some(e.hash)
    ensures TransferProven(s.evidence[OperationKey(e.hash, e.operation) := Recorded(id, e.role, e.digest, true, e.amount)],
                           id, Settling(s.batches[id], e), role)
  {
    var batch := s.batches[id];
    SettlingIs(batch, e);
    if role != e.role {
      SettlingLeaves(batch, e, role);
    }
    hide IsSettled, ProofOf, Settling, Reconcile;
    assert BatchProven(s.evidence, id, batch);
    assert TransferProven(s.evidence, id, batch, role) by {
      match role
      case Candidate =>
      case Organizer =>
      case Platform =>
    }
  }

  /** The evidence after a transfer settled, against the batches after it. */
  lemma AcceptedProofsStand(s: State, id: BatchId, e: Evidence, x: OperationKey)
    requires Proofs(s) && Accepts(s, id, e) && x in s.evidence
    requires s.batches[id].transfers[e.role].state == InFlight && s.batches[id].hash == Some(e.hash)
    ensures ProofOk(s.batches[id := Settling(s.batches[id], e)], x, s.evidence[x])
  {
    var batch := s.batches[id];
    SettlingIs(batch, e);
    assert ProofOk(s.batches, x, s.evidence[x]);
    if s.evidence[x].role != e.role {
      SettlingLeaves(batch, e, s.evidence[x].role);
    }
  }

  lemma SettledProofOk(s: State, id: BatchId, e: Evidence)
    requires Inv(s) && Accepts(s, id, e)
    ensures ProofOk(s.batches[id := Settling(s.batches[id], e)], OperationKey(e.hash, e.operation), Recorded(id, e.role, e.digest, true, e.amount))
  {
    AcceptedIs(s, id, e);
    SettlingIs(s.batches[id], e);
    hide Inv, Settling, Reconcile;
  }

  lemma SettlingKeepsProofs(s: State, id: BatchId, e: Evidence)
    requires Inv(s) && Accepts(s, id, e)
    ensures var s' := s.(evidence := s.evidence[OperationKey(e.hash, e.operation) := Recorded(id, e.role, e.digest, true, e.amount)],
                         batches := s.batches[id := Settling(s.batches[id], e)]);
            Proofs(s')
  {
    hide Batches, Reconcile, TransferProven, Settling, IsSettled, ProofOf, ProofOk;
    AcceptedIs(s, id, e);
    SettledProven(s, id, e, Candidate);
    SettledProven(s, id, e, Organizer);
    SettledProven(s, id, e, Platform);
    SettledProofOk(s, id, e);
    var at, proof := OperationKey(e.hash, e.operation), Recorded(id, e.role, e.digest, true, e.amount);
    var s' := s.(evidence := s.evidence[at := proof], batches := s.batches[id := Settling(s.batches[id], e)]);
    forall x | x in s'.evidence
      ensures ProofOk(s'.batches, x, s'.evidence[x])
    {
      if x != at {
        AcceptedProofsStand(s, id, e, x);
      }
    }
    forall b | b in s'.batches
      ensures BatchProven(s'.evidence, b, s'.batches[b])
    {
      if b != id {
        OthersProven(s, at, proof, b);
      }
    }
  }

  lemma OthersProven(s: State, at: OperationKey, e: Recorded, id: BatchId)
    requires Proofs(s) && at !in s.evidence && id in s.batches
    ensures BatchProven(s.evidence[at := e], id, s.batches[id])
  {
    assert BatchProven(s.evidence, id, s.batches[id]);
    hide IsSettled, ProofOf;
  }

  lemma RejectionKeepsProofs(s: State, at: OperationKey, e: Recorded)
    requires Proofs(s) && at !in s.evidence && !e.accepted
    ensures Proofs(s.(evidence := s.evidence[at := e]))
  {
    hide IsSettled, ProofOf, BatchProven;
    var s' := s.(evidence := s.evidence[at := e]);
    forall id | id in s'.batches
      ensures BatchProven(s'.evidence, id, s'.batches[id])
    {
      OthersProven(s, at, e, id);
    }
  }

  lemma ProveKeepsInv(s: State, id: BatchId, e: Evidence)
    requires Inv(s)
    ensures Prove(s, id, e).Ok? ==> Inv(Prove(s, id, e).value)
    ensures Prove(s, id, e) != Err(StateChanged)
  {
    hide Proofs, BatchOk, Settling;
    if Accepts(s, id, e) {
      AcceptedIs(s, id, e);
      SettlingIsOk(s.batches[id], e);
      SettlingKeepsProofs(s, id, e);
      SettlingIs(s.batches[id], e);
    } else if id in s.batches && e.role in s.batches[id].transfers && OperationKey(e.hash, e.operation) !in s.evidence {
      RejectionKeepsProofs(s, OperationKey(e.hash, e.operation), Recorded(id, e.role, e.digest, false, e.amount));
    }
    hide Reconcile;
  }

  lemma SubmitKeepsInv(s: State, id: BatchId, hash: string, responseHash: Option<string>)
    requires Inv(s)
    ensures Submit(s, id, hash, responseHash).Ok? ==> Inv(Submit(s, id, hash, responseHash).value)
  {
    hide Inv, Submitting, KeepsSettled, BatchOk;
    if id in s.batches && s.batches[id].status == Prepared {
      BatchIsOk(s, id);
      SubmittingIsOk(s.batches[id], hash);
      ChangeKeepsInv(s, id, Submitting(s.batches[id], hash));
    }
  }

  lemma FailKeepsInv(s: State, id: BatchId)
    requires Inv(s)
    ensures Fail(s, id).Ok? ==> Inv(Fail(s, id).value)
  {
    hide Inv, Failing, KeepsSettled, BatchOk;
    if id in s.batches && s.batches[id].status in {Submitted, Partial} {
      BatchIsOk(s, id);
      FailingIsOk(s.batches[id]);
      ChangeKeepsInv(s, id, Failing(s.batches[id]));
    }
  }

  lemma BatchIsOk(s: State, id: BatchId)
    requires Inv(s) && id in s.batches
    ensures BatchOk(s.batches[id])
  {
  }

  // ----- runs -----

  lemma StepKeepsInv(s: State, step: Step)
    requires Inv(s)
    ensures Inv(After(s, step))
  {
    hide Inv, Create, Submit, Prove, Fail;
    match step
    case DoCreate(sale, eligible, key, request, created) => CreateKeepsInv(s, sale, eligible, key, request, created);
    case DoSubmit(id, hash, responseHash) => SubmitKeepsInv(s, id, hash, responseHash);
    case DoProve(id, sent) => ProveKeepsInv(s, id, sent);
    case DoFail(id) => FailKeepsInv(s, id);
  }

  lemma {:induction false} RunKeepsInv(s: State, steps: seq<Step>)
    requires Inv(s)
    ensures Inv(Run(s, steps))
  {
    hide Inv, After;
    if |steps| > 0 {
      RunKeepsInv(s, steps[..|steps| - 1]);
      StepKeepsInv(Run(s, steps[..|steps| - 1]), steps[|steps| - 1]);
    }
  }

  lemma PayoutsHold(steps: seq<Step>)
    ensures Inv(Run(INIT, steps))
  {
    RunKeepsInv(INIT, steps);
  }

  /** In every reachable state the count of a batch counts its confirmed transfers, and what
      they were proven to pay is at most the order amount, and all of it exactly when the batch
      is confirmed. */
  lemma BatchesPayTheirOrder(steps: seq<Step>, id: BatchId)
    requires id in Run(INIT, steps).batches
    ensures var batch := Run(INIT, steps).batches[id];
            && batch.confirmedCount == SettledCount(batch)
            && ActualTotal(batch) <= batch.amount
            && (ActualTotal(batch) == batch.amount <==> batch.status == Confirmed)
  {
    hide Run, SettledCount, ActualTotal, BatchOk, Inv;
    PayoutsHold(steps);
    BatchIsOk(Run(INIT, steps), id);
    ConfirmedIffFullyPaid(Run(INIT, steps).batches[id]);
  }

  /** A batch that recorded a failure keeps it, and is never confirmed. */
  lemma FailureStays(s: State, step: Step, id: BatchId)
    requires Inv(s) && id in s.batches && s.batches[id].failed
    ensures id in After(s, step).batches && After(s, step).batches[id].failed
  {
    hide Proofs, BatchOk, Create, Settling, SettledCount;
    BatchIsOk(s, id);
    match step
    case DoCreate(sale, eligible, key, request, created) => CreateKeepsBatches(s, sale, eligible, key, request, created, id);
    case DoSubmit(other, _, _) => FailedIsNotPrepared(s.batches[id]);
    case DoProve(other, sent) =>
      if other == id && sent.role in s.batches[id].transfers {
        FailedAcceptsNothing(s.batches[id], sent);
      }
    case DoFail(_) =>
  }

  lemma FailedIsNotPrepared(batch: Batch)
    requires BatchOk(batch) && batch.failed
    ensures batch.status in {Partial, BatchFailed}
  {
  }

  lemma CreateKeepsBatches(s: State, sale: Sale, eligible: bool, key: string, request: string, created: BatchId, id: BatchId)
    requires id in s.batches
    ensures var r := Create(s, sale, eligible, key, request, created); r.Ok? ==> id in r.value.batches && r.value.batches[id] == s.batches[id]
  {
  }

  lemma {:induction false} FailedIsNeverConfirmed(s: State, steps: seq<Step>, id: BatchId)
    requires Inv(s) && id in s.batches && s.batches[id].failed
    ensures Inv(Run(s, steps)) && id in Run(s, steps).batches
    ensures Run(s, steps).batches[id].failed && Run(s, steps).batches[id].status != Confirmed
  {
    hide Inv, After, BatchOk;
    if |steps| > 0 {
      var before := Run(s, steps[..|steps| - 1]);
      FailedIsNeverConfirmed(s, steps[..|steps| - 1], id);
      StepKeepsInv(before, steps[|steps| - 1]);
      FailureStays(before, steps[|steps| - 1], id);
    }
    BatchIsOk(Run(s, steps), id);
    FailedIsNotPrepared(Run(s, steps).batches[id]);
  }

  // ----- rejected evidence -----

  lemma RecordsStay(s: State, step: Step, at: OperationKey)
    requires at in s.evidence
    ensures at in After(s, step).evidence && After(s, step).evidence[at] == s.evidence[at]
  {
    hide Create, Submitting, Failing, Settling, Reconcile;
    if step.DoCreate? {
      CreateKeepsEvidence(s, step.sale, step.eligible, step.key, step.request, step.created);
    }
  }

  lemma CreateKeepsEvidence(s: State, sale: Sale, eligible: bool, key: string, request: string, created: BatchId)
    ensures var r := Create(s, sale, eligible, key, request, created); r.Ok? ==> r.value.evidence == s.evidence
  {
  }

  lemma {:induction false} RejectionIsFinal(s: State, steps: seq<Step>, at: OperationKey)
    requires at in s.evidence
    ensures at in Run(s, steps).evidence && Run(s, steps).evidence[at] == s.evidence[at]
  {
    hide After;
    if |steps| > 0 {
      RejectionIsFinal(s, steps[..|steps| - 1], at);
      RecordsStay(Run(s, steps[..|steps| - 1]), steps[|steps| - 1], at);
    }
  }

  /** An operation of a batch's transaction that was once recorded as rejected never confirms a
      transfer, whatever evidence comes later. */
  lemma RejectedNeverConfirms(s: State, steps: seq<Step>, at: OperationKey, id: BatchId, role: Role)
    requires Inv(s) && at in s.evidence && !s.evidence[at].accepted
    requires SettledIn(Run(s, steps), id, role)
    ensures ProofOf(Run(s, steps).batches[id], role) != at
  {
    hide Batches, Run;
    RunKeepsInv(s, steps);
    RejectionIsFinal(s, steps, at);
    var e := Run(s, steps);
    assert BatchProven(e.evidence, id, e.batches[id]);
  }
}
