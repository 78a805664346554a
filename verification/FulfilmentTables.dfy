/** The fulfilment handlers as they update their rows. */
module FulfilmentTables {
  import opened Wrappers
  import opened Fulfilment
  import opened FulfilmentProofs

  class Tables {
    var now: int
    var orders: map<OrderId, Order>
    var jobs: map<JobId, Job>
    var evidence: map<EventKey, Recorded>
    var owned: map<Asset, JobId>
    var inventory: map<ProductId, Inventory>

    ghost function Rows(): State
      reads this
    {
      State(now, orders, jobs, evidence, owned, inventory)
    }

    ghost predicate Ended(outcome: Outcome, r: Option<Error>)
      reads this
    {
      Rows() == outcome.after && r == if outcome.Done? then None else Some(outcome.error)
    }

    constructor ()
      ensures Rows() == INIT && Inv(Rows())
    {
      now, orders, jobs, evidence, owned, inventory := 0, map[], map[], map[], map[], map[];
    }

    method CreateFulfillmentJob(order: OrderId, key: string, payload: string, maxAttempts: int, eligible: bool,
                                indexed: bool, id: JobId, contract: string, recipient: string)
      returns (r: Option<Error>)
      modifies this
      ensures Ended(Create(old(Rows()), order, key, payload, maxAttempts, eligible, indexed, id, contract, recipient), r)
      ensures Inv(old(Rows())) ==> Inv(Rows())
    {
      hide Inv;
      if Inv(Rows()) { CreateKeepsInv(Rows(), order, key, payload, maxAttempts, eligible, indexed, id, contract, recipient); }
      if maxAttempts < 1 || maxAttempts > 20 {
        return Some(InvalidMaxAttempts);
      }
      if order !in orders {
        return Some(NotFound);
      }
      if !eligible || orders[order].quantity != 1 {
        return Some(NotEligible);
      }
      if !indexed {
        return Some(PaymentNotIndexed);
      }
      if exists j :: j in jobs && jobs[j].key == key {
        if exists j :: j in jobs && jobs[j].key == key && jobs[j].payload != payload {
          return Some(KeyReused);
        }
        return None;
      }
      if orders[order].progress != Paid {
        return Some(OrderNotPaid);
      }
      if id in jobs || exists j :: j in jobs && jobs[j].order == order {
        return Some(AlreadyExists);
      }
      jobs := jobs[id := Job(order, Queued, key, payload, 0, maxAttempts, now, None, Mint(MintQueued, contract, recipient, None, None))];
      orders := orders[order := orders[order].(progress := Fulfilling)];
      return None;
    }

    /** The exhausted-attempts branch commits before it refuses; in a consistent state it is dead. */
    method ClaimFulfillmentJob(id: JobId, worker: string) returns (r: Option<Error>)
      modifies this
      ensures Ended(Claim(old(Rows()), id, worker), r)
      ensures Inv(old(Rows())) ==> Inv(Rows()) && r != Some(AttemptsExhausted)
    {
      hide Inv;
      if Inv(Rows()) {
        ClaimKeepsInv(Rows(), id, worker);
        BuriesNothing(Rows(), id, worker);
      }
      if id !in jobs {
        return Some(NotFound);
      }
      var job := jobs[id];
      if job.phase == Running && job.lockedBy == Some(worker) {
        return None;
      }
      if job.phase != Queued && job.phase != Failed {
        return Some(NotClaimable);
      }
      if job.availableAt > now {
        return Some(NotAvailable);
      }
      if job.attempts >= job.maxAttempts {
        jobs := jobs[id := job.(phase := DeadLetter, lockedBy := None)];
        return Some(AttemptsExhausted);
      }
      var mint := job.mint;
      if mint.status == MintFailed {
        mint := mint.(status := MintQueued);
      }
      jobs := jobs[id := job.(phase := Running, attempts := job.attempts + 1, lockedBy := Some(worker), mint := mint)];
      return None;
    }

    method RecordMintSubmission(id: JobId, worker: string, hash: string, token: string) returns (r: Option<Error>)
      modifies this
      ensures Ended(Submit(old(Rows()), id, worker, hash, token), r)
      ensures Inv(old(Rows())) ==> Inv(Rows())
    {
      hide Inv;
      if Inv(Rows()) { SubmitKeepsInv(Rows(), id, worker, hash, token); }
      if id !in jobs {
        return Some(NotFound);
      }
      var job := jobs[id];
      var mint := job.mint;
      if job.phase == AwaitingChain && mint.status == MintSubmitted && mint.hash == Some(hash) && mint.token == Some(token) {
        return None;
      }
      if job.phase != Running || job.lockedBy != Some(worker) {
        return Some(NotOwnedByWorker);
      }
      if mint.status != MintQueued {
        return Some(MintNotQueued);
      }
      mint := mint.(token := Some(token), hash := Some(hash), status := MintSubmitted);
      jobs := jobs[id := job.(phase := AwaitingChain, lockedBy := None, mint := mint)];
      return None;
    }

    method RecordFulfillmentFailure(id: JobId, worker: string, retryable: bool, retryAfter: int) returns (r: Option<Error>)
      modifies this
      ensures Ended(Fail(old(Rows()), id, worker, retryable, retryAfter), r)
      ensures Inv(old(Rows())) ==> Inv(Rows())
    {
      hide Inv;
      if Inv(Rows()) { FailKeepsInv(Rows(), id, worker, retryable, retryAfter); }
      if retryAfter < 0 || retryAfter > 86_400 {
        return Some(InvalidRetry);
      }
      if id !in jobs {
        return Some(NotFound);
      }
      var job := jobs[id];
      if job.phase != Running || job.lockedBy != Some(worker) {
        return Some(NotOwnedByWorker);
      }
      var willRetry := retryable && job.attempts < job.maxAttempts;
      var mint := job.mint;
      if mint.status == MintQueued {
        mint := mint.(status := MintFailed);
      }
      jobs := jobs[id := job.(phase := if willRetry then Failed else DeadLetter, availableAt := now + retryAfter, lockedBy := None, mint := mint)];
      if !willRetry && job.order in orders && orders[job.order].progress == Fulfilling {
        orders := orders[job.order := orders[job.order].(progress := OrderFailed)];
      }
      return None;
    }

    method RecordMintEvidence(id: JobId, e: Evidence) returns (r: Option<Error>)
      modifies this
      ensures Ended(Prove(old(Rows()), id, e), r)
      ensures Inv(old(Rows())) ==> Inv(Rows())
    {
      hide Inv, Reconcile, Confirm;
      if Inv(Rows()) { ProveKeepsInv(Rows(), id, e); }
      if e.ledger <= 0 || e.index < 0 {
        return Some(InvalidNumbers);
      }
      if id !in jobs {
        return Some(NotFound);
      }
      var at := EventKey(e.hash, e.index);
      if at in evidence {
        if evidence[at].job != id || evidence[at].digest != e.digest {
          return Some(EvidenceReused);
        }
        return None;
      }
      var failure := Reconcile(jobs[id], e);
      if failure.Some? {
        evidence := evidence[at := Recorded(id, e.digest, false)];
        return None;
      }
      if exists other :: other in evidence && evidence[other].job == id && evidence[other].accepted {
        return Some(AlreadyConfirmed);
      }
      var saved := evidence;
      evidence := evidence[at := Recorded(id, e.digest, true)];
      RefusalChangesNothing(Rows(), id, e);
      r := ConfirmMint(id, e);
      if r.Some? {
        evidence := saved;
      }
    }

    /** Updates the mint, the job, the ownership, the inventory and the order, or none of them. */
    method ConfirmMint(id: JobId, e: Evidence) returns (r: Option<Error>)
      requires id in jobs
      modifies this
      ensures Ended(Confirm(old(Rows()), id, e), r)
    {
      var job := jobs[id];
      if job.mint.status != MintSubmitted || job.phase != AwaitingChain {
        return Some(MintStateChanged);
      }
      if Asset(e.contract, e.token) in owned {
        return Some(AlreadyExists);
      }
      if job.order !in orders || orders[job.order].product !in inventory {
        return Some(InventoryStateChanged);
      }
      var order := orders[job.order];
      var stock := inventory[order.product];
      if stock.reserved < order.quantity {
        return Some(InventoryStateChanged);
      }
      var jobs' := jobs[id := job.(phase := Fulfilled, lockedBy := None, mint := job.mint.(status := MintConfirmed))];
      var last := forall j :: j in jobs' && jobs'[j].order == job.order ==> jobs'[j].phase == Fulfilled;
      if last && order.progress != Fulfilling {
        return Some(OrderStateChanged);
      }
      jobs := jobs';
      owned := owned[Asset(e.contract, e.token) := id];
      inventory := inventory[order.product := Inventory(stock.reserved - order.quantity, stock.fulfilled + order.quantity)];
      if last {
        orders := orders[job.order := order.(progress := OrderFulfilled)];
      }
      return None;
    }
  }

  lemma RefusalChangesNothing(s: State, id: JobId, e: Evidence)
    requires id in s.jobs
    ensures Confirm(s, id, e).Refused? ==> Confirm(s, id, e).after == s
  {
  }

  lemma BuriesNothing(s: State, id: JobId, worker: string)
    requires Inv(s)
    ensures Claim(s, id, worker).Refused? ==> Claim(s, id, worker).error != AttemptsExhausted
  {
    ClaimNeverBuries(s, id, worker);
  }
}
