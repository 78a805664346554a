/** When exactly each fulfilment request succeeds and what it leaves, and what fulfils a job, in
    plain terms. */
module FulfilmentRules {
  import opened Wrappers
  import opened Fulfilment
  import opened FulfilmentProofs

  // ----- jobs -----

  ghost predicate KeyKnown(s: State, key: string) {
    exists j :: j in s.jobs && s.jobs[j].key == key
  }

  /** A job is made exactly for a paid order of one eligible item whose payment is indexed and that
      has no job yet, with 1 to 20 attempts; a repeated key finds its job. */
  lemma CreateIff(s: State, order: OrderId, key: string, payload: string, maxAttempts: int,
                  eligible: bool, indexed: bool, id: JobId, contract: string, recipient: string)
    requires id !in s.jobs
    ensures Create(s, order, key, payload, maxAttempts, eligible, indexed, id, contract, recipient).Done? <==>
              && 1 <= maxAttempts <= 20 && order in s.orders && eligible && s.orders[order].quantity == 1 && indexed
              && (KeyKnown(s, key) ==> forall j :: j in s.jobs && s.jobs[j].key == key ==> s.jobs[j].payload == payload)
              && (!KeyKnown(s, key) ==>
                    s.orders[order].progress == Paid && forall j :: j in s.jobs ==> s.jobs[j].order != order)
  {
  }

  lemma CreateDoes(s: State, order: OrderId, key: string, payload: string, maxAttempts: int,
                   eligible: bool, indexed: bool, id: JobId, contract: string, recipient: string)
    requires id !in s.jobs
    ensures var r := Create(s, order, key, payload, maxAttempts, eligible, indexed, id, contract, recipient);
            && (!r.Done? || KeyKnown(s, key) ==> r.after == s)
            && (r.Done? && !KeyKnown(s, key) ==>
                  && order in s.orders && id in r.after.jobs
                  && r.after == s.(jobs := s.jobs[id := r.after.jobs[id]],
                                   orders := s.orders[order := s.orders[order].(progress := Fulfilling)])
                  && IsNew(r.after.jobs[id], order, key, payload, maxAttempts, s.now, contract, recipient))
  {
  }

  ghost predicate IsNew(job: Job, order: OrderId, key: string, payload: string, maxAttempts: int, now: int, contract: string, recipient: string) {
    && job.order == order && job.phase == Queued && job.key == key && job.payload == payload
    && job.attempts == 0 && job.maxAttempts == maxAttempts && job.availableAt == now && job.lockedBy == None
    && job.mint.status == MintQueued && job.mint.contract == contract && job.mint.recipient == recipient
    && job.mint.hash == None && job.mint.token == None
  }

  /** A worker gets a job exactly if it has it already, or the job waits, its time has come; every
      such claim counts as an attempt and puts the mint back into the queue. */
  lemma ClaimIff(s: State, id: JobId, worker: string)
    requires Inv(s)
    ensures var r := Claim(s, id, worker);
            && (r.Done? <==>
                  && id in s.jobs
                  && ((s.jobs[id].phase == Running && s.jobs[id].lockedBy == Some(worker))
                      || (s.jobs[id].phase in {Queued, Failed} && s.jobs[id].availableAt <= s.now)))
            && (!r.Done? ==> r.after == s)
            && (r.Done? && s.jobs[id].phase == Running ==> r.after == s)
            && (r.Done? && s.jobs[id].phase != Running ==>
                  var job := s.jobs[id];
                  && job.attempts < job.maxAttempts
                  && r.after == s.(jobs := s.jobs[id :=
                       Job(job.order, Running, job.key, job.payload, job.attempts + 1, job.maxAttempts, job.availableAt, Some(worker),
                           Mint(MintQueued, job.mint.contract, job.mint.recipient, None, None))]))
  {
    hide Lockstep, Orders, Stock, EvidenceOk;
    if id in s.jobs {
      Looks(s, id);
    }
  }

  /** A mint is submitted exactly by the worker that has the job; the same submission again changes
      nothing. */
  lemma SubmitIff(s: State, id: JobId, worker: string, hash: string, token: string)
    requires Inv(s)
    ensures var r := Submit(s, id, worker, hash, token);
            && (r.Done? <==>
                  && id in s.jobs
                  && ((s.jobs[id].phase == Running && s.jobs[id].lockedBy == Some(worker))
                      || (s.jobs[id].phase == AwaitingChain && s.jobs[id].mint.hash == Some(hash) && s.jobs[id].mint.token == Some(token))))
            && (!r.Done? ==> r.after == s)
            && (r.Done? && s.jobs[id].phase == AwaitingChain ==> r.after == s)
            && (r.Done? && s.jobs[id].phase == Running ==>
                  var job := s.jobs[id];
                  r.after == s.(jobs := s.jobs[id :=
                    job.(phase := AwaitingChain, lockedBy := None,
                         mint := Mint(MintSubmitted, job.mint.contract, job.mint.recipient, Some(hash), Some(token)))]))
  {
    hide Lockstep, Orders, Stock, EvidenceOk;
    if id in s.jobs {
      Looks(s, id);
    }
  }

  /** A failure is reported exactly by the worker that has the job, with a delay of a day at most;
      the job waits for it if it may be retried and has attempts left, and is dead otherwise, and
      the order with it. */
  lemma FailIff(s: State, id: JobId, worker: string, retryable: bool, retryAfter: int)
    requires Inv(s)
    ensures var r := Fail(s, id, worker, retryable, retryAfter);
            && (r.Done? <==>
                  0 <= retryAfter <= 24 * 60 * 60 && id in s.jobs && s.jobs[id].phase == Running && s.jobs[id].lockedBy == Some(worker))
            && (!r.Done? ==> r.after == s)
            && (r.Done? ==>
                  var job := s.jobs[id];
                  var again := retryable && job.attempts < job.maxAttempts;
                  && job.order in s.orders
                  && r.after == s.(jobs := s.jobs[id :=
                                     job.(phase := if again then Failed else DeadLetter, availableAt := s.now + retryAfter, lockedBy := None,
                                          mint := job.mint.(status := MintFailed))],
                                   orders := if again then s.orders
                                             else s.orders[job.order := s.orders[job.order].(progress := OrderFailed)]))
  {
    hide Lockstep, Orders, Stock, EvidenceOk;
    if id in s.jobs {
      Looks(s, id);
    }
  }

  // ----- proof of ownership -----

  /** The report and the event of the chain are the successful mint the job waits for. */
  ghost predicate Proves(job: Job, e: Evidence) {
    && job.phase == AwaitingChain && job.mint.status == MintSubmitted && e.successful
    && job.mint.hash == Some(e.hash) && job.mint.token == Some(e.token)
    && job.mint.contract == e.contract && job.mint.recipient == e.owner
    && e.raw == RawEvent(Some("mint"), Some(e.hash), Some(e.contract), Some(e.token), Some(e.owner), Some(e.ledger), Some(true))
  }

  lemma ProvesIff(job: Job, e: Evidence)
    ensures Reconcile(job, e) == None <==> Proves(job, e)
  {
    AcceptedIffExpected(job, e);
  }

  /** The three ways in which new evidence of a known job is judged. */
  lemma Judged(s: State, id: JobId, e: Evidence)
    requires Inv(s) && id in s.jobs && e.ledger >= 1 && e.index >= 0 && EventKey(e.hash, e.index) !in s.evidence
    ensures Joined(s, id)
    ensures Prove(s, id, e) ==
              if !Proves(s.jobs[id], e) then Done(Record(s, id, e, false))
              else if Asset(e.contract, e.token) in s.owned then Refused(s, AlreadyExists)
              else Done(Delivered(s, id, e))
  {
    hide Inv, Reconcile, Confirm, Proves, Delivered, Record;
    JobIsJoined(s, id);
    ProvesIff(s.jobs[id], e);
    WaitsWhenProven(s.jobs[id], e);
    NotYetAccepted(s, id);
    if s.jobs[id].phase == AwaitingChain {
      ConfirmSucceeds(s, id, e);
    }
  }

  lemma KnownEvidence(s: State, id: JobId, e: Evidence)
    ensures Prove(s, id, e).Done? ==> e.ledger >= 1 && e.index >= 0 && id in s.jobs
    ensures e.ledger >= 1 && e.index >= 0 && id in s.jobs && EventKey(e.hash, e.index) in s.evidence ==>
              && (Prove(s, id, e).Done? <==>
                    s.evidence[EventKey(e.hash, e.index)].job == id && s.evidence[EventKey(e.hash, e.index)].digest == e.digest)
              && Prove(s, id, e).after == s
    ensures !Prove(s, id, e).Done? ==> Prove(s, id, e).after == s
  {
    hide Reconcile, Confirm, Record;
  }

  /** When evidence is judged, or was. */
  lemma ProveIff(s: State, id: JobId, e: Evidence)
    requires Inv(s)
    ensures Prove(s, id, e).Done? <==>
              && e.ledger >= 1 && e.index >= 0 && id in s.jobs
              && (EventKey(e.hash, e.index) in s.evidence ==>
                    s.evidence[EventKey(e.hash, e.index)].job == id && s.evidence[EventKey(e.hash, e.index)].digest == e.digest)
              && (EventKey(e.hash, e.index) !in s.evidence && Proves(s.jobs[id], e) ==> Asset(e.contract, e.token) !in s.owned)
    ensures !Prove(s, id, e).Done? ==> Prove(s, id, e).after == s
  {
    hide Inv, Prove, Proves, Delivered, Record;
    KnownEvidence(s, id, e);
    if id in s.jobs && e.ledger >= 1 && e.index >= 0 && EventKey(e.hash, e.index) !in s.evidence {
      Judged(s, id, e);
    }
  }

  lemma WaitsWhenProven(job: Job, e: Evidence)
    ensures Proves(job, e) ==> job.phase == AwaitingChain
  {
  }

  lemma NotYetAccepted(s: State, id: JobId)
    requires Inv(s) && id in s.jobs
    ensures s.jobs[id].phase == AwaitingChain ==> forall at :: at in s.evidence && s.evidence[at].job == id ==> !s.evidence[at].accepted
  {
  }

  /** An event is judged once: it fulfils the job and its order and moves the stock exactly if it
      proves the mint, and is recorded as refused otherwise. */
  lemma ProveDoes(s: State, id: JobId, e: Evidence)
    requires Inv(s) && Prove(s, id, e).Done? && EventKey(e.hash, e.index) !in s.evidence
    ensures id in s.jobs && s.jobs[id].order in s.orders && s.orders[s.jobs[id].order].product in s.inventory
    ensures var s', job := Prove(s, id, e).after, s.jobs[id];
            var order := s.orders[job.order];
            var stock := s.inventory[order.product];
            && s'.evidence == s.evidence[EventKey(e.hash, e.index) := Recorded(id, e.digest, Proves(job, e))]
            && (!Proves(job, e) ==> s' == s.(evidence := s'.evidence))
            && (Proves(job, e) ==>
                  && s'.now == s.now
                  && s'.jobs == s.jobs[id := job.(phase := Fulfilled, lockedBy := None, mint := job.mint.(status := MintConfirmed))]
                  && s'.orders == s.orders[job.order := order.(progress := OrderFulfilled)]
                  && s'.owned == s.owned[Asset(e.contract, e.token) := id]
                  && s'.inventory == s.inventory[order.product := Inventory(stock.reserved - order.quantity, stock.fulfilled + order.quantity)])
  {
    hide Inv, Prove, Proves;
    KnownEvidence(s, id, e);
    Judged(s, id, e);
  }

  lemma JobIsJoined(s: State, id: JobId)
    requires Inv(s) && id in s.jobs
    ensures s.jobs[id].order in s.orders && s.orders[s.jobs[id].order].product in s.inventory
  {
    assert JobOk(s, id);
    assert OrderOk(s, s.jobs[id].order);
  }

  // ----- what a job goes through -----

  /** Between two statuses of a job lies one request. */
  ghost predicate Allowed(s: State, step: Step, id: JobId, job': Job)
    requires id in s.jobs
  {
    var job := s.jobs[id];
    match step
    case DoClaim(claimed, worker) =>
      && claimed == id && job.phase in {Queued, Failed} && job'.phase == Running && job.availableAt <= s.now
      && job'.attempts == job.attempts + 1
    case DoSubmit(submitted, worker, _, _) =>
      submitted == id && job.phase == Running && job'.phase == AwaitingChain && job.lockedBy == Some(worker)
    case DoFail(failed, worker, retryable, _) =>
      && failed == id && job.phase == Running && job.lockedBy == Some(worker)
      && job'.phase == if retryable && job.attempts < job.maxAttempts then Failed else DeadLetter
    case DoProve(proven, sent) =>
      proven == id && job.phase == AwaitingChain && job'.phase == Fulfilled && Proves(job, sent)
    case _ => false
  }

  ghost predicate Moves(s: State, step: Step, id: JobId, s': State)
    requires id in s.jobs
  {
    && id in s'.jobs && s'.jobs[id].maxAttempts == s.jobs[id].maxAttempts
    && (s'.jobs[id].phase != s.jobs[id].phase ==> Allowed(s, step, id, s'.jobs[id]))
    && (s'.jobs[id].phase == s.jobs[id].phase ==> s'.jobs[id] == s.jobs[id])
  }

  lemma StaysPut(s: State, step: Step, id: JobId, s': State)
    requires id in s.jobs && id in s'.jobs && s'.jobs[id] == s.jobs[id]
    ensures Moves(s, step, id, s')
  {
  }

  lemma ProveMoves(s: State, proven: JobId, e: Evidence, id: JobId)
    requires Inv(s) && id in s.jobs
    ensures Moves(s, DoProve(proven, e), id, Prove(s, proven, e).after)
  {
    hide Inv, Prove, Proves;
    KnownEvidence(s, proven, e);
    if Prove(s, proven, e).Done? && EventKey(e.hash, e.index) !in s.evidence {
      ProveDoes(s, proven, e);
      WaitsWhenProven(s.jobs[proven], e);
    }
  }

  lemma ClaimMoves(s: State, claimed: JobId, worker: string, id: JobId)
    requires Inv(s) && id in s.jobs
    ensures Moves(s, DoClaim(claimed, worker), id, Claim(s, claimed, worker).after)
  {
    hide Inv, Claim;
    ClaimIff(s, claimed, worker);
  }

  lemma SubmitMoves(s: State, submitted: JobId, worker: string, hash: string, token: string, id: JobId)
    requires Inv(s) && id in s.jobs
    ensures Moves(s, DoSubmit(submitted, worker, hash, token), id, Submit(s, submitted, worker, hash, token).after)
  {
    hide Inv, Submit;
    SubmitIff(s, submitted, worker, hash, token);
  }

  lemma FailMoves(s: State, failed: JobId, worker: string, retryable: bool, retryAfter: int, id: JobId)
    requires Inv(s) && id in s.jobs
    ensures Moves(s, DoFail(failed, worker, retryable, retryAfter), id, Fail(s, failed, worker, retryable, retryAfter).after)
  {
    hide Inv, Fail;
    FailIff(s, failed, worker, retryable, retryAfter);
  }

  /** Whatever step is taken, a job changes status only by the request that is made for this
      change. */
  lemma StepMoves(s: State, step: Step, id: JobId)
    requires Inv(s) && id in s.jobs
    ensures Moves(s, step, id, After(s, step))
  {
    hide Inv, Claim, Submit, Fail, Prove, Moves, Create;
    match step
    case DoProve(proven, sent) => ProveMoves(s, proven, sent, id);
    case DoClaim(claimed, worker) => ClaimMoves(s, claimed, worker, id);
    case DoSubmit(submitted, worker, hash, token) => SubmitMoves(s, submitted, worker, hash, token, id);
    case DoFail(failed, worker, retryable, retryAfter) => FailMoves(s, failed, worker, retryable, retryAfter, id);
    case DoCreate(order, key, payload, maxAttempts, eligible, indexed, created, contract, recipient) =>
      CreateKeepsJobs(s, order, key, payload, maxAttempts, eligible, indexed, created, contract, recipient, id);
      StaysPut(s, step, id, After(s, step));
    case OrderPlaced(_, _, _) => StaysPut(s, step, id, After(s, step));
    case OrderPaid(_) => StaysPut(s, step, id, After(s, step));
    case ClockAdvances(_) => StaysPut(s, step, id, After(s, step));
  }

  lemma NoOtherStarts(s: State, step: Step)
    requires !step.DoCreate? && !step.DoProve?
    ensures After(s, step).jobs.Keys == s.jobs.Keys
  {
    hide Prove;
  }

  lemma ProveStartsNone(s: State, proven: JobId, e: Evidence)
    requires Inv(s)
    ensures Prove(s, proven, e).after.jobs.Keys == s.jobs.Keys
  {
    hide Inv, Prove, Proves;
    KnownEvidence(s, proven, e);
    if Prove(s, proven, e).Done? && EventKey(e.hash, e.index) !in s.evidence {
      ProveDoes(s, proven, e);
    }
  }

  lemma StartsQueued(s: State, step: Step, id: JobId)
    requires Inv(s) && id !in s.jobs && id in After(s, step).jobs
    ensures After(s, step).jobs[id].phase == Queued && After(s, step).jobs[id].attempts == 0 && 1 <= After(s, step).jobs[id].maxAttempts <= 20
  {
    hide Inv, Prove, Create, Claim, Submit, Fail;
    match step
    case DoProve(proven, sent) => ProveStartsNone(s, proven, sent);
    case DoCreate(order, key, payload, maxAttempts, eligible, indexed, created, contract, recipient) =>
      if created !in s.jobs {
        CreateIff(s, order, key, payload, maxAttempts, eligible, indexed, created, contract, recipient);
        CreateDoes(s, order, key, payload, maxAttempts, eligible, indexed, created, contract, recipient);
      } else {
        CreateStartsNone(s, order, key, payload, maxAttempts, eligible, indexed, created, contract, recipient);
      }
    case _ => NoOtherStarts(s, step);
  }

  lemma CreateStartsNone(s: State, order: OrderId, key: string, payload: string, maxAttempts: int,
                         eligible: bool, indexed: bool, id: JobId, contract: string, recipient: string)
    requires id in s.jobs
    ensures Create(s, order, key, payload, maxAttempts, eligible, indexed, id, contract, recipient).after == s
  {
  }

  /** In every run a fulfilled job was fulfilled by a step that brought the chain's own record of
      its mint, and no job has been attempted more than 20 times. */
  lemma {:induction false} FulfilledByTheChain(steps: seq<Step>, id: JobId) returns (at: nat)
    requires id in Run(INIT, steps).jobs
    ensures 0 <= Run(INIT, steps).jobs[id].attempts <= Run(INIT, steps).jobs[id].maxAttempts <= 20
    ensures Run(INIT, steps).jobs[id].phase == Fulfilled ==>
              && at < |steps| && steps[at].DoProve? && steps[at].id == id && id in Run(INIT, steps[..at]).jobs
              && Proves(Run(INIT, steps[..at]).jobs[id], steps[at].sent)
  {
    hide After, Proves, Inv;
    at := |steps|;
    LockstepHolds(steps);
    AttemptsWithin(Run(INIT, steps), id);
    if |steps| > 0 {
      var before, step := steps[..|steps| - 1], steps[|steps| - 1];
      var s := Run(INIT, before);
      LockstepHolds(before);
      if id in s.jobs {
        at := FulfilledByTheChain(before, id);
        StepMoves(s, step, id);
        if at < |before| {
          assert steps[..at] == before[..at];
        }
        if s.jobs[id].phase != Fulfilled {
          at := |before|;
        }
      } else {
        StartsQueued(s, step, id);
      }
    }
  }

  lemma AttemptsWithin(s: State, id: JobId)
    requires Inv(s) && id in s.jobs
    ensures 0 <= s.jobs[id].attempts <= s.jobs[id].maxAttempts
  {
    Looks(s, id);
  }
}
