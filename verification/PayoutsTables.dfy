/** The payout handlers as they update their rows. */
module PayoutsTables {
  import opened Wrappers
  import opened Payouts
  import opened PayoutsProofs

  class Tables {
    var batches: map<BatchId, Batch>
    var evidence: map<OperationKey, Recorded>

    ghost function Rows(): State
      reads this
    {
      State(batches, evidence)
    }

    /** The handler ended as specified; a refusal left the rows alone. */
    ghost predicate Ended(before: State, result: Result<State>, r: Option<Error>)
      reads this
    {
      && Rows() == (if result.Ok? then result.value else before)
      && r == match result case Ok(_) => None case Err(e) => Some(e)
    }

    constructor ()
      ensures Rows() == INIT && Inv(Rows())
    {
      batches, evidence := map[], map[];
    }

    method CreatePayoutBatch(sale: Sale, eligible: bool, key: string, request: string, id: BatchId) returns (r: Option<Error>)
      modifies this
      ensures Ended(old(Rows()), Create(old(Rows()), sale, eligible, key, request, id), r)
      ensures Inv(old(Rows())) ==> Inv(Rows())
    {
      hide Inv;
      if Inv(Rows()) { CreateKeepsInv(Rows(), sale, eligible, key, request, id); }
      if !eligible {
        return Some(NotEligible);
      }
      var shares := CalculateSplit(sale.amount, sale.candidateBps, sale.organizerBps, sale.platformBps);
      if shares.NoSplit? {
        return Some(NoShares(shares.reason));
      }
      var split := shares.split;
      if split.candidate <= 0 || split.organizer <= 0 || split.platform <= 0 {
        return Some(ZeroShare);
      }
      if exists b :: b in batches && batches[b].key == key {
        if exists b :: b in batches && batches[b].key == key && batches[b].request != request {
          return Some(KeyReused);
        }
        return None;
      }
      if id in batches || exists b :: b in batches && batches[b].order == sale.order {
        return Some(AlreadyExists);
      }
      batches := batches[id := NewBatch(sale, split, key, request)];
      return None;
    }

    method RecordPayoutSubmission(id: BatchId, hash: string, responseHash: Option<string>) returns (r: Option<Error>)
      modifies this
      ensures Ended(old(Rows()), Submit(old(Rows()), id, hash, responseHash), r)
      ensures Inv(old(Rows())) ==> Inv(Rows())
    {
      hide Inv;
      if Inv(Rows()) { SubmitKeepsInv(Rows(), id, hash, responseHash); }
      if responseHash != Some(hash) {
        return Some(ResponseHashMismatch);
      }
      if id !in batches {
        return Some(NotFound);
      }
      var batch := batches[id];
      if batch.status in {Submitted, Partial, Confirmed} {
        return if batch.hash != Some(hash) then Some(AlreadySubmitted) else None;
      }
      if batch.status != Prepared {
        return Some(NotPrepared);
      }
      batch := batch.(status := Submitted, hash := Some(hash), failed := false);
      var transfers := map t | t in batch.transfers :: Launched(batch.transfers[t]);
      batches := batches[id := batch.(transfers := transfers)];
      return None;
    }

    method RecordTransferEvidence(id: BatchId, e: Evidence) returns (r: Option<Error>)
      modifies this
      ensures Ended(old(Rows()), Prove(old(Rows()), id, e), r)
      ensures Inv(old(Rows())) ==> Inv(Rows()) && r != Some(StateChanged)
    {
      hide Inv, Reconcile;
      if Inv(Rows()) { ProveKeepsInv(Rows(), id, e); }
      if e.operation < 0 || e.amount < 0 || e.ledger <= 0 || e.asset.scale < 0 || e.asset.scale > 7 {
        return Some(InvalidNumbers);
      }
      if id !in batches || e.role !in batches[id].transfers {
        return Some(NotFound);
      }
      var batch := batches[id];
      var transfer := batch.transfers[e.role];
      var at := OperationKey(e.hash, e.operation);
      if at in evidence {
        var existing := evidence[at];
        if existing.batch != id || existing.role != e.role || existing.digest != e.digest {
          return Some(EvidenceReused);
        }
        return None;
      }
      if transfer.state == Settled {
        return Some(AlreadyConfirmed);
      }
      var failure := Reconcile(batch, transfer, e);
      if failure.Some? {
        evidence := evidence[at := Recorded(id, e.role, e.digest, false, e.amount)];
        return None;
      }
      if transfer.state != InFlight {
        return Some(StateChanged);
      }
      evidence := evidence[at := Recorded(id, e.role, e.digest, true, e.amount)];
      transfer := transfer.(state := Settled, operation := Some(e.operation), actual := Some(e.amount));
      batches := batches[id := batch.(transfers := batch.transfers[e.role := transfer])];
      RefreshBatchStatus(id);
      return None;
    }

    method RefreshBatchStatus(id: BatchId)
      requires id in batches
      modifies this`batches
      ensures batches == old(batches)[id := Refresh(old(batches)[id])]
    {
      var batch := batches[id];
      var confirmed := 0;
      if SettledOne(batch, Candidate) == 1 {
        confirmed := confirmed + 1;
      }
      if SettledOne(batch, Organizer) == 1 {
        confirmed := confirmed + 1;
      }
      if SettledOne(batch, Platform) == 1 {
        confirmed := confirmed + 1;
      }
      var status := if confirmed == 0 then Submitted else if confirmed <= 2 then Partial else Confirmed;
      batches := batches[id := batch.(status := status, confirmedCount := confirmed, failed := false)];
    }

    method RecordPayoutFailure(id: BatchId) returns (r: Option<Error>)
      modifies this
      ensures Ended(old(Rows()), Fail(old(Rows()), id), r)
      ensures Inv(old(Rows())) ==> Inv(Rows())
    {
      hide Inv;
      if Inv(Rows()) { FailKeepsInv(Rows(), id); }
      if id !in batches {
        return Some(NotFound);
      }
      var batch := batches[id];
      if batch.status !in {Submitted, Partial} {
        return Some(NotInFlight);
      }
      batch := batch.(status := if batch.confirmedCount > 0 then Partial else BatchFailed, failed := true);
      var transfers := map t | t in batch.transfers :: Dropped(batch.transfers[t]);
      batches := batches[id := batch.(transfers := transfers)];
      return None;
    }
  }
}
