/** Payout batches: an order's amount is split three ways, submitted as one transaction and
    confirmed transfer by transfer from indexed evidence. Each handler is one atomic step. */
module Payouts {
  import opened Wrappers
  import Decimal

  type BatchId = nat
  type OrderId = nat

  datatype Role = Candidate | Organizer | Platform

  // ----- the split -----

  datatype Split = Split(candidate: int, organizer: int, platform: int)

  datatype SplitError = InvalidTotal | InvalidBasisPoints

  datatype SplitResult = Shares(split: Split) | NoSplit(reason: SplitError)

  predicate ValidBps(candidate: int, organizer: int, platform: int) {
    && 0 <= candidate <= 10_000 && 0 <= organizer <= 10_000 && 0 <= platform <= 10_000
    && candidate + organizer + platform == 10_000
  }

  /** calculate_split; the intermediate products fit 128 bits and the shares fit 64. */
  function CalculateSplit(total: int, candidate: int, organizer: int, platform: int): SplitResult {
    if total <= 0 then NoSplit(InvalidTotal)
    else if !ValidBps(candidate, organizer, platform) then NoSplit(InvalidBasisPoints)
    else
      var c, o := total * candidate / 10_000, total * organizer / 10_000;
      Shares(Split(c, o, total - c - o))
  }

  lemma FloorBounds(total: int, bps: int)
    requires 0 <= total && 0 <= bps <= 10_000
    ensures 0 <= total * bps / 10_000 <= total
    ensures total * bps / 10_000 * 10_000 <= total * bps < total * bps / 10_000 * 10_000 + 10_000
  {
    var p := total * bps;
    assert 0 <= p <= total * 10_000;
  }

  lemma DistributeBps(total: int, c: int, o: int, p: int)
    requires c + o + p == 10_000
    ensures total * c + total * o + total * p == total * 10_000
  {
    assert total * (c + o + p) == total * c + total * o + total * p;
  }

  /** The candidate and the organizer get their basis points of the total, rounded down, and the
      platform the rest, at most two units more than its own floor: the shares lie between zero and
      the total and add up to it exactly. */
  lemma SplitIsExact(total: int, candidate: int, organizer: int, platform: int)
    requires 0 < total && 0 <= candidate && 0 <= organizer && 0 <= platform && candidate + organizer + platform == 10_000
    ensures CalculateSplit(total, candidate, organizer, platform).Shares?
    ensures var s := CalculateSplit(total, candidate, organizer, platform).split;
            && s.candidate * 10_000 <= total * candidate < (s.candidate + 1) * 10_000
            && s.organizer * 10_000 <= total * organizer < (s.organizer + 1) * 10_000
            && s.candidate + s.organizer + s.platform == total
            && 0 <= s.candidate <= total && 0 <= s.organizer <= total && 0 <= s.platform <= total
            && total * platform / 10_000 <= s.platform <= total * platform / 10_000 + 2
  {
    FloorBounds(total, candidate);
    FloorBounds(total, organizer);
    FloorBounds(total, platform);
    DistributeBps(total, candidate, organizer, platform);
  }

  /** Everything else is refused. */
  lemma SplitRefusedIff(total: int, candidate: int, organizer: int, platform: int)
    ensures CalculateSplit(total, candidate, organizer, platform) == NoSplit(InvalidTotal) <==> total <= 0
    ensures CalculateSplit(total, candidate, organizer, platform) == NoSplit(InvalidBasisPoints) <==>
            total > 0 && (candidate < 0 || organizer < 0 || platform < 0 || candidate + organizer + platform != 10_000)
  {
  }

  // ----- evidence of a transfer -----

  datatype Asset = Asset(code: string, scale: int, issuer: Option<string>)

  datatype BatchStatus = Prepared | Submitted | Partial | Confirmed | BatchFailed
  datatype TransferStatus = Pending | InFlight | Settled | Failed

  datatype Transfer = Transfer(recipient: string, expected: int, state: TransferStatus, actual: Option<int>, operation: Option<int>)

  datatype Batch = Batch(
    order: OrderId, key: string, request: string, status: BatchStatus, amount: int, asset: Asset, payer: string,
    confirmedCount: int, hash: Option<string>, failed: bool, transfers: map<Role, Transfer>)

  /** What an indexer reports, with the operation as the chain recorded it. */
  datatype Evidence = Evidence(
    role: Role, hash: string, operation: int, source: string, recipient: string, amount: int, asset: Asset,
    ledger: int, successful: bool, raw: RawOperation, digest: string)

  datatype RawOperation = RawOperation(
    kind: Option<string>, hash: Option<string>, operation: Option<int>, ledger: Option<int>, source: Option<string>,
    to: Option<string>, amount: Option<Decimal.Text>, assetType: Option<string>, assetCode: Option<string>, assetIssuer: Option<string>)

  datatype Mismatch =
    | NotSubmitted | HashMismatch | SourceMismatch | RecipientMismatch | AmountMismatch | AssetMismatch | FailedOnChain
    | RawTypeMismatch | RawHashMismatch | RawPositionMismatch | RawAccountMismatch | RawAmountMissing | RawAmountMismatch | RawAssetMismatch

  const NATIVE: string := "native"
  const PAYMENT: string := "payment"
  const XLM: string := "XLM"

  function RawFailure(e: Evidence): Option<Mismatch> {
    var raw := e.raw;
    if raw.kind != Some(PAYMENT) then Some(RawTypeMismatch)
    else if raw.hash != Some(e.hash) then Some(RawHashMismatch)
    else if raw.operation != Some(e.operation) || raw.ledger != Some(e.ledger) then Some(RawPositionMismatch)
    else if raw.source != Some(e.source) || raw.to != Some(e.recipient) then Some(RawAccountMismatch)
    else if raw.amount.None? then Some(RawAmountMissing)
    else if Decimal.Minor(raw.amount.value, e.asset.scale) != Some(e.amount) then Some(RawAmountMismatch)
    else if e.asset.code == XLM then
      if raw.assetType != Some(NATIVE) then Some(RawAssetMismatch) else None
    else if raw.assetCode != Some(e.asset.code) || raw.assetIssuer != e.asset.issuer then Some(RawAssetMismatch)
    else None
  }

  function Reconcile(batch: Batch, transfer: Transfer, e: Evidence): Option<Mismatch> {
    if batch.status !in {Submitted, Partial} || transfer.state != InFlight then Some(NotSubmitted)
    else if batch.hash != Some(e.hash) then Some(HashMismatch)
    else if e.source != batch.payer then Some(SourceMismatch)
    else if e.recipient != transfer.recipient then Some(RecipientMismatch)
    else if e.amount != transfer.expected then Some(AmountMismatch)
    else if e.asset != batch.asset then Some(AssetMismatch)
    else if !e.successful then Some(FailedOnChain)
    else RawFailure(e)
  }

  /** The chain's own record of the planned transfer, at the reported position. */
  ghost predicate ChainSays(batch: Batch, transfer: Transfer, e: Evidence) {
    var raw := e.raw;
    && raw.kind == Some(PAYMENT) && raw.hash == batch.hash
    && raw.operation == Some(e.operation) && raw.ledger == Some(e.ledger)
    && raw.source == Some(batch.payer) && raw.to == Some(transfer.recipient)
    && raw.amount.Some? && Decimal.Minor(raw.amount.value, batch.asset.scale) == Some(transfer.expected)
    && (if batch.asset.code == XLM then raw.assetType == Some(NATIVE)
        else raw.assetCode == Some(batch.asset.code) && raw.assetIssuer == batch.asset.issuer)
  }

  /** Evidence matches exactly when the transfer is in flight and both the report and the raw
      record are the successful payment the plan asked for. */
  lemma MatchesIff(batch: Batch, transfer: Transfer, e: Evidence)
    ensures Reconcile(batch, transfer, e) == None <==>
      && batch.status in {Submitted, Partial} && transfer.state == InFlight
      && batch.hash == Some(e.hash) && e.source == batch.payer && e.recipient == transfer.recipient
      && e.amount == transfer.expected && e.asset == batch.asset && e.successful
      && ChainSays(batch, transfer, e)
  {
    hide Decimal.Minor;
  }

  // ----- the handlers -----

  datatype Recorded = Recorded(batch: BatchId, role: Role, digest: string, accepted: bool, amount: int)

  datatype OperationKey = OperationKey(hash: string, index: int)

  /** The orders ready for a payout with their amounts, the batches, and the recorded evidence. */
  datatype State = State(batches: map<BatchId, Batch>, evidence: map<OperationKey, Recorded>)

  datatype Error =
    | NotEligible | NoShares(why: SplitError) | ZeroShare | KeyReused | AlreadyExists | NotFound
    | ResponseHashMismatch | AlreadySubmitted | NotPrepared | InvalidNumbers | EvidenceReused | AlreadyConfirmed
    | StateChanged | NotInFlight

  datatype Result<+T> = Ok(value: T) | Err(error: Error)

  /** A fulfilled order and the payout rule that applies to it. */
  datatype Sale = Sale(
    order: OrderId, amount: int, asset: Asset, payer: string, candidate: string, organizer: string, platform: string,
    candidateBps: int, organizerBps: int, platformBps: int)

  function Fresh(recipient: string, amount: int): Transfer {
    Transfer(recipient, amount, Pending, None, None)
  }

  function NewBatch(sale: Sale, split: Split, key: string, request: string): Batch {
    Batch(sale.order, key, request, Prepared, sale.amount, sale.asset, sale.payer, 0, None, false,
          map[Candidate := Fresh(sale.candidate, split.candidate),
              Organizer := Fresh(sale.organizer, split.organizer),
              Platform := Fresh(sale.platform, split.platform)])
  }

  /** create_payout_batch; eligible stands for the checks on the order, its payment and the rule. */
  function Create(s: State, sale: Sale, eligible: bool, key: string, request: string, id: BatchId): Result<State> {
    if !eligible then Err(NotEligible)
    else
      match CalculateSplit(sale.amount, sale.candidateBps, sale.organizerBps, sale.platformBps)
      case NoSplit(reason) => Err(NoShares(reason))
      case Shares(split) =>
        if split.candidate <= 0 || split.organizer <= 0 || split.platform <= 0 then Err(ZeroShare)
        else if exists b :: b in s.batches && s.batches[b].key == key then
          if exists b :: b in s.batches && s.batches[b].key == key && s.batches[b].request != request then Err(KeyReused) else Ok(s)
        else if id in s.batches || exists b :: b in s.batches && s.batches[b].order == sale.order then Err(AlreadyExists)
        else Ok(s.(batches := s.batches[id := NewBatch(sale, split, key, request)]))
  }

  function Launched(t: Transfer): Transfer {
    if t.state == Pending then t.(state := InFlight) else t
  }

  function Submitting(batch: Batch, hash: string): Batch {
    batch.(status := Submitted, hash := Some(hash), failed := false,
           transfers := map r | r in batch.transfers :: Launched(batch.transfers[r]))
  }

  /** record_payout_submission; responseHash is the hash the response carries. */
  function Submit(s: State, id: BatchId, hash: string, responseHash: Option<string>): Result<State> {
    if responseHash != Some(hash) then Err(ResponseHashMismatch)
    else if id !in s.batches then Err(NotFound)
    else
      var batch := s.batches[id];
      if batch.status in {Submitted, Partial, Confirmed} then
        if batch.hash != Some(hash) then Err(AlreadySubmitted) else Ok(s)
      else if batch.status != Prepared then Err(NotPrepared)
      else Ok(s.(batches := s.batches[id := Submitting(batch, hash)]))
  }

  function SettledOne(batch: Batch, role: Role): nat {
    if role in batch.transfers && batch.transfers[role].state == Settled then 1 else 0
  }

  /** The count over the three transfers of a batch. */
  function SettledCount(batch: Batch): nat {
    SettledOne(batch, Candidate) + SettledOne(batch, Organizer) + SettledOne(batch, Platform)
  }

  /** refresh_batch_status */
  function Refresh(batch: Batch): Batch {
    var n := SettledCount(batch);
    batch.(status := if n == 0 then Submitted else if n <= 2 then Partial else Confirmed, confirmedCount := n, failed := false)
  }

  function Settling(batch: Batch, e: Evidence): Batch
    requires e.role in batch.transfers
  {
    Refresh(batch.(transfers := batch.transfers[e.role :=
      batch.transfers[e.role].(state := Settled, actual := Some(e.amount), operation := Some(e.operation))]))
  }

  /** record_transfer_evidence: a mismatch is recorded and stays. */
  function Prove(s: State, id: BatchId, e: Evidence): Result<State> {
    if e.operation < 0 || e.amount < 0 || e.ledger <= 0 || e.asset.scale < 0 || e.asset.scale > 7 then Err(InvalidNumbers)
    else if id !in s.batches || e.role !in s.batches[id].transfers then Err(NotFound)
    else
      var batch := s.batches[id];
      var transfer := batch.transfers[e.role];
      var at := OperationKey(e.hash, e.operation);
      if at in s.evidence then
        if s.evidence[at].batch != id || s.evidence[at].role != e.role || s.evidence[at].digest != e.digest
        then Err(EvidenceReused) else Ok(s)
      else if transfer.state == Settled then Err(AlreadyConfirmed)
      else if Reconcile(batch, transfer, e).Some? then
        Ok(s.(evidence := s.evidence[at := Recorded(id, e.role, e.digest, false, e.amount)]))
      else if transfer.state != InFlight then Err(StateChanged)
      else
        Ok(s.(evidence := s.evidence[at := Recorded(id, e.role, e.digest, true, e.amount)],
              batches := s.batches[id := Settling(batch, e)]))
  }

  function Dropped(t: Transfer): Transfer {
    if t.state == InFlight then t.(state := Failed) else t
  }

  function Failing(batch: Batch): Batch {
    batch.(status := if batch.confirmedCount > 0 then Partial else BatchFailed, failed := true,
           transfers := map r | r in batch.transfers :: Dropped(batch.transfers[r]))
  }

  /** record_payout_failure */
  function Fail(s: State, id: BatchId): Result<State> {
    if id !in s.batches then Err(NotFound)
    else if s.batches[id].status !in {Submitted, Partial} then Err(NotInFlight)
    else Ok(s.(batches := s.batches[id := Failing(s.batches[id])]))
  }

  // ----- runs -----

  datatype Step =
    | DoCreate(sale: Sale, eligible: bool, key: string, request: string, created: BatchId)
    | DoSubmit(id: BatchId, hash: string, responseHash: Option<string>)
    | DoProve(id: BatchId, sent: Evidence)
    | DoFail(id: BatchId)

  function Invoke(s: State, step: Step): Result<State> {
    match step
    case DoCreate(sale, eligible, key, request, created) => Create(s, sale, eligible, key, request, created)
    case DoSubmit(id, hash, responseHash) => Submit(s, id, hash, responseHash)
    case DoProve(id, sent) => Prove(s, id, sent)
    case DoFail(id) => Fail(s, id)
  }

  function After(s: State, step: Step): State {
    if Invoke(s, step).Ok? then Invoke(s, step).value else s
  }

  function Run(s: State, steps: seq<Step>): State {
    if |steps| == 0 then s else After(Run(s, steps[..|steps| - 1]), steps[|steps| - 1])
  }

  const INIT: State := State(map[], map[])
}
