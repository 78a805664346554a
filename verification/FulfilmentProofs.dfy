/** What every run of the fulfilment handlers keeps. */
module FulfilmentProofs {
  import opened Wrappers
  import opened MapSums
  import opened Fulfilment

  // ----- one job changes, its order may follow -----

  /** The rows after one job got a new value and its order a new status. */
  function Moved(s: State, id: JobId, job: Job, progress: OrderStatus): State
    requires id in s.jobs && s.jobs[id].order in s.orders
  {
    var order := s.jobs[id].order;
    s.(jobs := s.jobs[id := job], orders := s.orders[order := s.orders[order].(progress := progress)])
  }

  lemma MovedKeepsLockstep(s: State, id: JobId, job: Job, progress: OrderStatus)
    requires Lockstep(s) && Orders(s) && id in s.jobs && s.jobs[id].order in s.orders
    requires job.order == s.jobs[id].order && InStep(job, progress)
    ensures Lockstep(Moved(s, id, job, progress)) && Orders(Moved(s, id, job, progress))
  {
    hide InStep;
    var s' := Moved(s, id, job, progress);
    forall j | j in s'.jobs
      ensures JobOk(s', j)
    {
      assert JobOk(s, j);
    }
    forall o | o in s'.orders
      ensures OrderOk(s', o)
    {
      assert OrderOk(s, o);
      if s.orders[o].progress !in {AwaitingPayment, Paid} {
        var j :| j in s.jobs && s.jobs[j].order == o;
        assert s'.jobs[j].order == o;
      } else if o == job.order {
        assert s'.jobs[id].order == o;
      }
    }
  }

  lemma MovedKeepsStock(s: State, id: JobId, job: Job, progress: OrderStatus)
    requires Stock(s) && id in s.jobs && s.jobs[id].order in s.orders
    requires progress == OrderFulfilled <==> s.orders[s.jobs[id].order].progress == OrderFulfilled
    ensures Stock(Moved(s, id, job, progress))
  {
    var s' := Moved(s, id, job, progress);
    var order := s.jobs[id].order;
    forall p | p in s'.inventory
      ensures Counted(s', p)
    {
      assert Counted(s, p);
      SumUpdate(s.orders, HeldFor(p), order, s'.orders[order]);
      SumUpdate(s.orders, DeliveredFor(p), order, s'.orders[order]);
    }
  }

  lemma MovedKeepsEvidence(s: State, id: JobId, job: Job, progress: OrderStatus)
    requires EvidenceOk(s) && id in s.jobs && s.jobs[id].order in s.orders
    requires job.phase != Fulfilled && s.jobs[id].phase != Fulfilled
    ensures EvidenceOk(Moved(s, id, job, progress))
  {
    var s' := Moved(s, id, job, progress);
    forall j | j in s'.jobs && s'.jobs[j].phase == Fulfilled
      ensures exists at :: at in s'.evidence && s'.evidence[at].accepted && s'.evidence[at].job == j
    {
      var at :| at in s.evidence && s.evidence[at].accepted && s.evidence[at].job == j;
      assert s'.evidence[at].accepted;
    }
  }

  /** A job that is not about to be fulfilled may change in step with its order. */
  lemma MovedKeepsInv(s: State, id: JobId, job: Job, progress: OrderStatus)
    requires Inv(s) && id in s.jobs && s.jobs[id].order in s.orders && job.order == s.jobs[id].order
    requires InStep(job, progress) && job.phase != Fulfilled && s.jobs[id].phase != Fulfilled
    ensures Inv(Moved(s, id, job, progress))
  {
    hide Lockstep, Orders, Stock, EvidenceOk, Moved;
    NotDelivered(s, id);
    MovedKeepsLockstep(s, id, job, progress);
    MovedKeepsStock(s, id, job, progress);
    MovedKeepsEvidence(s, id, job, progress);
  }

  lemma NotDelivered(s: State, id: JobId)
    requires Lockstep(s) && id in s.jobs
    ensures s.jobs[id].order in s.orders
    ensures s.orders[s.jobs[id].order].progress == OrderFulfilled <==> s.jobs[id].phase == Fulfilled
  {
    assert JobOk(s, id);
  }

  lemma Looks(s: State, id: JobId)
    requires Lockstep(s) && id in s.jobs
    ensures JobOk(s, id)
  {
  }

  lemma SameOrders(s: State, id: JobId, job: Job)
    requires id in s.jobs && s.jobs[id].order in s.orders
    ensures Moved(s, id, job, s.orders[s.jobs[id].order].progress) == s.(jobs := s.jobs[id := job])
  {
    var order := s.jobs[id].order;
    assert s.orders[order := s.orders[order].(progress := s.orders[order].progress)] == s.orders;
  }

  // ----- the handlers -----

  /** The branch of the claim that buries an exhausted job is never taken. */
  lemma ClaimNeverBuries(s: State, id: JobId, worker: string)
    requires Lockstep(s)
    ensures Claim(s, id, worker) != Refused(Claim(s, id, worker).after, AttemptsExhausted)
  {
    if id in s.jobs {
      Looks(s, id);
    }
  }

  lemma ClaimKeepsInv(s: State, id: JobId, worker: string)
    requires Inv(s)
    ensures Inv(Claim(s, id, worker).after)
  {
    hide Orders, Stock, EvidenceOk, Lockstep;
    var s' := Claim(s, id, worker).after;
    if s' != s {
      Looks(s, id);
      ClaimNeverBuries(s, id, worker);
      MovedKeepsInv(s, id, s'.jobs[id], Fulfilling);
      SameOrders(s, id, s'.jobs[id]);
    }
  }

  lemma SubmitKeepsInv(s: State, id: JobId, worker: string, hash: string, token: string)
    requires Inv(s)
    ensures Inv(Submit(s, id, worker, hash, token).after)
  {
    hide Orders, Stock, EvidenceOk, Lockstep;
    var s' := Submit(s, id, worker, hash, token).after;
    if s' != s {
      Looks(s, id);
      MovedKeepsInv(s, id, s'.jobs[id], Fulfilling);
      SameOrders(s, id, s'.jobs[id]);
    }
  }

  lemma FailKeepsInv(s: State, id: JobId, worker: string, retryable: bool, retryAfter: int)
    requires Inv(s)
    ensures Inv(Fail(s, id, worker, retryable, retryAfter).after)
  {
    hide Orders, Stock, EvidenceOk, Lockstep;
    var s' := Fail(s, id, worker, retryable, retryAfter).after;
    if s' != s {
      Looks(s, id);
      if s'.jobs[id].phase == Failed {
        MovedKeepsInv(s, id, s'.jobs[id], Fulfilling);
        SameOrders(s, id, s'.jobs[id]);
      } else {
        MovedKeepsInv(s, id, s'.jobs[id], OrderFailed);
      }
    }
  }

  lemma CreateKeepsRows(s: State, order: OrderId, key: string, payload: string, maxAttempts: int,
                        eligible: bool, indexed: bool, id: JobId, contract: string, recipient: string)
    requires Lockstep(s) && Orders(s)
    ensures var s' := Create(s, order, key, payload, maxAttempts, eligible, indexed, id, contract, recipient).after;
            Lockstep(s') && Orders(s')
  {
    var s' := Create(s, order, key, payload, maxAttempts, eligible, indexed, id, contract, recipient).after;
    if s' != s {
      forall j | j in s'.jobs
        ensures JobOk(s', j)
      {
        if j != id {
          assert JobOk(s, j);
        }
      }
      forall o | o in s'.orders
        ensures OrderOk(s', o)
      {
        assert OrderOk(s, o);
        if o == order {
          assert s'.jobs[id].order == o;
        } else if s.orders[o].progress !in {AwaitingPayment, Paid} {
          var j :| j in s.jobs && s.jobs[j].order == o;
          assert s'.jobs[j].order == o;
        }
      }
    }
  }

  lemma CreateKeepsRest(s: State, order: OrderId, key: string, payload: string, maxAttempts: int,
                        eligible: bool, indexed: bool, id: JobId, contract: string, recipient: string)
    requires Stock(s) && EvidenceOk(s)
    ensures var s' := Create(s, order, key, payload, maxAttempts, eligible, indexed, id, contract, recipient).after;
            Stock(s') && EvidenceOk(s')
  {
    var s' := Create(s, order, key, payload, maxAttempts, eligible, indexed, id, contract, recipient).after;
    if s' != s {
      forall p | p in s'.inventory
        ensures Counted(s', p)
      {
        assert Counted(s, p);
        SumUpdate(s.orders, HeldFor(p), order, s'.orders[order]);
        SumUpdate(s.orders, DeliveredFor(p), order, s'.orders[order]);
      }
      forall j | j in s'.jobs && s'.jobs[j].phase == Fulfilled
        ensures exists at :: at in s'.evidence && s'.evidence[at].accepted && s'.evidence[at].job == j
      {
        var at :| at in s.evidence && s.evidence[at].accepted && s.evidence[at].job == j;
        assert s'.evidence[at].accepted;
      }
    }
  }

  lemma PlaceKeepsInv(s: State, order: OrderId, product: ProductId, quantity: int)
    requires Inv(s)
    ensures Inv(Place(s, order, product, quantity))
  {
    var s' := Place(s, order, product, quantity);
    if s' != s {
      PlaceKeepsStock(s, order, product, quantity);
      PlaceKeepsRows(s, order, product, quantity);
    }
  }

  lemma PlaceKeepsStock(s: State, order: OrderId, product: ProductId, quantity: int)
    requires Stock(s) && Orders(s) && order !in s.orders && quantity > 0
    ensures Stock(Place(s, order, product, quantity))
  {
    var s' := Place(s, order, product, quantity);
    forall p | p in s'.inventory
      ensures Counted(s', p)
    {
      SumUpdate(s.orders, HeldFor(p), order, s'.orders[order]);
      SumUpdate(s.orders, DeliveredFor(p), order, s'.orders[order]);
      if p in s.inventory {
        assert Counted(s, p);
      } else {
        NothingOf(s, p);
      }
    }
  }

  lemma NothingOf(s: State, p: ProductId)
    requires Orders(s) && p !in s.inventory
    ensures Sum(s.orders, HeldFor(p)) == 0 && Sum(s.orders, DeliveredFor(p)) == 0
  {
    forall o | o in s.orders
      ensures s.orders[o].product != p
    {
      assert OrderOk(s, o);
    }
    SumZero(s.orders, HeldFor(p));
    SumZero(s.orders, DeliveredFor(p));
  }

  lemma PlaceKeepsRows(s: State, order: OrderId, product: ProductId, quantity: int)
    requires Lockstep(s) && Orders(s) && EvidenceOk(s) && order !in s.orders && quantity > 0
    ensures var s' := Place(s, order, product, quantity); Lockstep(s') && Orders(s') && EvidenceOk(s')
  {
    var s' := Place(s, order, product, quantity);
    forall j | j in s'.jobs
      ensures JobOk(s', j)
    {
      assert JobOk(s, j);
    }
    forall o | o in s'.orders
      ensures OrderOk(s', o)
    {
      if o != order {
        assert OrderOk(s, o);
      }
    }
  }

  lemma PayKeepsInv(s: State, order: OrderId)
    requires Inv(s)
    ensures Inv(Pay(s, order))
  {
    var s' := Pay(s, order);
    if s' != s {
      forall j | j in s'.jobs
        ensures JobOk(s', j)
      {
        assert JobOk(s, j);
      }
      forall o | o in s'.orders
        ensures OrderOk(s', o)
      {
        assert OrderOk(s, o);
      }
      forall p | p in s'.inventory
        ensures Counted(s', p)
      {
        assert Counted(s, p);
        SumUpdate(s.orders, HeldFor(p), order, s'.orders[order]);
        SumUpdate(s.orders, DeliveredFor(p), order, s'.orders[order]);
      }
    }
  }

  // ----- proof of ownership -----

  lemma RejectionKeepsInv(s: State, id: JobId, e: Evidence)
    requires Inv(s) && EventKey(e.hash, e.index) !in s.evidence
    ensures Inv(Record(s, id, e, false))
  {
    var s' := Record(s, id, e, false);
    forall j | j in s'.jobs
      ensures JobOk(s', j)
    {
      assert JobOk(s, j);
    }
    forall o | o in s'.orders
      ensures OrderOk(s', o)
    {
      assert OrderOk(s, o);
    }
    forall p | p in s'.inventory
      ensures Counted(s', p)
    {
      assert Counted(s, p);
    }
    RecordingKeepsEvidence(s, id, e);
  }

  lemma RecordingKeepsEvidence(s: State, id: JobId, e: Evidence)
    requires EvidenceOk(s) && EventKey(e.hash, e.index) !in s.evidence
    ensures EvidenceOk(Record(s, id, e, false))
  {
    var s' := Record(s, id, e, false);
    forall j | j in s'.jobs && s'.jobs[j].phase == Fulfilled
      ensures exists at :: at in s'.evidence && s'.evidence[at].accepted && s'.evidence[at].job == j
    {
      var at :| at in s.evidence && s.evidence[at].accepted && s.evidence[at].job == j;
      assert s'.evidence[at].accepted;
    }
  }

  /** An unfulfilled order is covered by the counter of its product. */
  lemma StockCovers(s: State, order: OrderId)
    requires Stock(s) && Orders(s) && order in s.orders && s.orders[order].progress != OrderFulfilled
    ensures s.orders[order].product in s.inventory
    ensures s.inventory[s.orders[order].product].reserved >= s.orders[order].quantity > 0
  {
    var p := s.orders[order].product;
    assert OrderOk(s, order) && Counted(s, p);
    forall o | o in s.orders
      ensures 0 <= HeldFor(p)(o, s.orders[o])
    {
      assert OrderOk(s, o);
    }
    SumBoundsEntry(s.orders, HeldFor(p), order);
  }

  /** The rows after a mint is confirmed. */
  function Delivered(s: State, id: JobId, e: Evidence): State
    requires id in s.jobs && s.jobs[id].order in s.orders && s.orders[s.jobs[id].order].product in s.inventory
  {
    var job := s.jobs[id];
    var order := s.orders[job.order];
    var stock := s.inventory[order.product];
    Record(s, id, e, true).(
      jobs := s.jobs[id := job.(phase := Fulfilled, lockedBy := None, mint := job.mint.(status := MintConfirmed))],
      owned := s.owned[Asset(e.contract, e.token) := id],
      inventory := s.inventory[order.product := Inventory(stock.reserved - order.quantity, stock.fulfilled + order.quantity)],
      orders := s.orders[job.order := order.(progress := OrderFulfilled)])
  }

  /** Confirming an accepted mint never meets a changed row: only a token that is already owned
      can refuse it. */
  lemma ConfirmSucceeds(s: State, id: JobId, e: Evidence)
    requires Inv(s) && id in s.jobs && s.jobs[id].phase == AwaitingChain
    ensures Joined(s, id)
    ensures Confirm(Record(s, id, e, true), id, e) ==
            if Asset(e.contract, e.token) in s.owned then Refused(Record(s, id, e, true), AlreadyExists) else Done(Delivered(s, id, e))
  {
    hide Stock, Orders, EvidenceOk;
    Looks(s, id);
    StockCovers(s, s.jobs[id].order);
    var s3 := s.jobs[id := s.jobs[id].(phase := Fulfilled, lockedBy := None, mint := s.jobs[id].mint.(status := MintConfirmed))];
    assert forall j :: j in s3 && s3[j].order == s.jobs[id].order ==> j == id;
  }

  predicate Joined(s: State, id: JobId) {
    id in s.jobs && s.jobs[id].order in s.orders && s.orders[s.jobs[id].order].product in s.inventory
  }

  lemma DeliveredKeepsRows(s: State, id: JobId, e: Evidence)
    requires Lockstep(s) && Orders(s) && Joined(s, id) && s.jobs[id].phase == AwaitingChain
    ensures Lockstep(Delivered(s, id, e)) && Orders(Delivered(s, id, e))
  {
    var s' := Delivered(s, id, e);
    assert JobOk(s, id);
    forall j | j in s'.jobs
      ensures JobOk(s', j)
    {
      assert JobOk(s, j);
    }
    forall o | o in s'.orders
      ensures OrderOk(s', o)
    {
      assert OrderOk(s, o);
      if o == s.jobs[id].order {
        assert s'.jobs[id].order == o;
      } else if s.orders[o].progress !in {AwaitingPayment, Paid} {
        var j :| j in s.jobs && s.jobs[j].order == o;
        assert s'.jobs[j].order == o;
      }
    }
  }

  lemma DeliveredKeepsStock(s: State, id: JobId, e: Evidence)
    requires Lockstep(s) && Stock(s) && Joined(s, id) && s.jobs[id].phase == AwaitingChain
    ensures Stock(Delivered(s, id, e))
  {
    var s' := Delivered(s, id, e);
    var order := s.jobs[id].order;
    assert JobOk(s, id);
    forall p | p in s'.inventory
      ensures Counted(s', p)
    {
      assert Counted(s, p);
      SumUpdate(s.orders, HeldFor(p), order, s'.orders[order]);
      SumUpdate(s.orders, DeliveredFor(p), order, s'.orders[order]);
    }
  }

  lemma DeliveredKeepsEvidence(s: State, id: JobId, e: Evidence)
    requires EvidenceOk(s) && Joined(s, id) && s.jobs[id].phase == AwaitingChain && EventKey(e.hash, e.index) !in s.evidence
    ensures EvidenceOk(Delivered(s, id, e))
  {
    var s' := Delivered(s, id, e);
    var new_ := EventKey(e.hash, e.index);
    forall a, b | a in s'.evidence && b in s'.evidence && SameAccepted(s'.evidence[a], s'.evidence[b])
      ensures a == b
    {
    }
    forall j | j in s'.jobs && s'.jobs[j].phase == Fulfilled
      ensures exists at :: at in s'.evidence && s'.evidence[at].accepted && s'.evidence[at].job == j
    {
      if j == id {
        assert s'.evidence[new_].accepted;
      } else {
        var at :| at in s.evidence && s.evidence[at].accepted && s.evidence[at].job == j;
        assert s'.evidence[at].accepted;
      }
    }
  }

  lemma ProveKeepsInv(s: State, id: JobId, e: Evidence)
    requires Inv(s)
    ensures Inv(Prove(s, id, e).after)
  {
    hide Lockstep, Orders, Stock, EvidenceOk, Confirm, Reconcile, Record, Delivered;
    if id in s.jobs && EventKey(e.hash, e.index) !in s.evidence && e.ledger > 0 && e.index >= 0 {
      if Reconcile(s.jobs[id], e).Some? {
        RejectionKeepsInv(s, id, e);
      } else {
        AcceptedIffExpected(s.jobs[id], e);
        ConfirmSucceeds(s, id, e);
        DeliveredKeepsRows(s, id, e);
        DeliveredKeepsStock(s, id, e);
        DeliveredKeepsEvidence(s, id, e);
      }
    }
  }

  /** Accepting evidence never fails half-way: the mint, the job, the inventory and the order
      have not changed under it, and the mint is not confirmed already. */
  lemma ProofNeverConflicts(s: State, id: JobId, e: Evidence)
    requires Inv(s)
    ensures Prove(s, id, e).Refused? ==>
              Prove(s, id, e).error in {InvalidNumbers, NotFound, EvidenceReused, AlreadyExists}
  {
    hide Lockstep, Orders, Stock, Confirm, Reconcile, Record, Delivered;
    if id in s.jobs && Reconcile(s.jobs[id], e) == None {
      AcceptedIffExpected(s.jobs[id], e);
      ConfirmSucceeds(s, id, e);
    }
  }

  // ----- runs -----

  lemma StepKeepsInv(s: State, step: Step)
    requires Inv(s)
    ensures Inv(After(s, step))
  {
    hide Inv, Create, Claim, Submit, Fail, Prove, Place, Pay;
    match step
    case OrderPlaced(placed, product, quantity) => PlaceKeepsInv(s, placed, product, quantity);
    case OrderPaid(paid) => PayKeepsInv(s, paid);
    case DoCreate(order, key, payload, maxAttempts, eligible, indexed, created, contract, recipient) =>
      CreateKeepsInv(s, order, key, payload, maxAttempts, eligible, indexed, created, contract, recipient);
    case DoClaim(id, worker) => ClaimKeepsInv(s, id, worker);
    case DoSubmit(id, worker, hash, token) => SubmitKeepsInv(s, id, worker, hash, token);
    case DoFail(id, worker, retryable, retryAfter) => FailKeepsInv(s, id, worker, retryable, retryAfter);
    case DoProve(id, sent) => ProveKeepsInv(s, id, sent);
    case ClockAdvances(elapsed) => ClockKeepsInv(s, elapsed);
  }

  lemma CreateKeepsInv(s: State, order: OrderId, key: string, payload: string, maxAttempts: int,
                       eligible: bool, indexed: bool, id: JobId, contract: string, recipient: string)
    requires Inv(s)
    ensures Inv(Create(s, order, key, payload, maxAttempts, eligible, indexed, id, contract, recipient).after)
  {
    hide Lockstep, Orders, Stock, EvidenceOk, Create;
    CreateKeepsRows(s, order, key, payload, maxAttempts, eligible, indexed, id, contract, recipient);
    CreateKeepsRest(s, order, key, payload, maxAttempts, eligible, indexed, id, contract, recipient);
  }

  lemma ClockKeepsInv(s: State, elapsed: nat)
    requires Inv(s)
    ensures Inv(s.(now := s.now + elapsed))
  {
    hide InStep;
    var s' := s.(now := s.now + elapsed);
    assert forall j :: j in s'.jobs ==> JobOk(s, j) ==> JobOk(s', j);
    assert forall o :: o in s'.orders ==> OrderOk(s, o) ==> OrderOk(s', o);
    assert forall p :: p in s'.inventory ==> Counted(s, p) ==> Counted(s', p);
  }

  /** In every reachable state jobs, mints and orders are in step, the inventory counts them,
      and each fulfilled job has exactly one accepted proof. */
  lemma {:induction false} LockstepHolds(steps: seq<Step>)
    ensures Inv(Run(INIT, steps))
  {
    hide After;
    if |steps| > 0 {
      hide Inv;
      LockstepHolds(steps[..|steps| - 1]);
      StepKeepsInv(Run(INIT, steps[..|steps| - 1]), steps[|steps| - 1]);
    }
  }

  // ----- progress -----

  function Rank(phase: JobStatus): nat {
    match phase
    case Running => 2
    case AwaitingChain => 1
    case _ => 0
  }

  /** How far a job is from its end. */
  function Measure(job: Job): int {
    3 * (job.maxAttempts - job.attempts) + Rank(job.phase)
  }

  lemma MeasureIsNatural(s: State, id: JobId)
    requires Lockstep(s) && id in s.jobs
    ensures Measure(s.jobs[id]) >= 0
  {
    Looks(s, id);
  }

  /** A job keeps its status, or gets a new one nearer to the end. */
  ghost predicate Descends(job: Job, job': Job) {
    if job'.phase == job.phase then Measure(job') == Measure(job) else Measure(job') < Measure(job)
  }

  lemma ClaimDescends(s: State, claimed: JobId, worker: string, id: JobId)
    requires Lockstep(s) && id in s.jobs
    ensures id in Claim(s, claimed, worker).after.jobs && Descends(s.jobs[id], Claim(s, claimed, worker).after.jobs[id])
  {
    ClaimNeverBuries(s, claimed, worker);
    Looks(s, id);
  }

  lemma SubmitDescends(s: State, submitted: JobId, worker: string, hash: string, token: string, id: JobId)
    requires id in s.jobs
    ensures var s' := Submit(s, submitted, worker, hash, token).after; id in s'.jobs && Descends(s.jobs[id], s'.jobs[id])
  {
  }

  lemma FailDescends(s: State, failed: JobId, worker: string, retryable: bool, retryAfter: int, id: JobId)
    requires id in s.jobs
    ensures var s' := Fail(s, failed, worker, retryable, retryAfter).after; id in s'.jobs && Descends(s.jobs[id], s'.jobs[id])
  {
  }

  /** A step keeps every job, and every change of a job's status brings it nearer to its end. */
  lemma StatusChangesDescend(s: State, step: Step, id: JobId)
    requires Inv(s) && id in s.jobs
    ensures id in After(s, step).jobs && Descends(s.jobs[id], After(s, step).jobs[id])
  {
    hide Lockstep, Orders, Stock, EvidenceOk, Create, Claim, Submit, Fail, Prove;
    match step
    case OrderPlaced(_, _, _) =>
    case OrderPaid(_) =>
    case DoCreate(order, key, payload, maxAttempts, eligible, indexed, created, contract, recipient) =>
      CreateKeepsJobs(s, order, key, payload, maxAttempts, eligible, indexed, created, contract, recipient, id);
    case DoClaim(claimed, worker) => ClaimDescends(s, claimed, worker, id);
    case DoSubmit(submitted, worker, hash, token) => SubmitDescends(s, submitted, worker, hash, token, id);
    case DoFail(failed, worker, retryable, retryAfter) => FailDescends(s, failed, worker, retryable, retryAfter, id);
    case DoProve(proven, sent) => ProveMovesJob(s, proven, sent, id);
    case ClockAdvances(_) =>
  }

  lemma CreateKeepsJobs(s: State, order: OrderId, key: string, payload: string, maxAttempts: int,
                        eligible: bool, indexed: bool, created: JobId, contract: string, recipient: string, id: JobId)
    requires id in s.jobs
    ensures var s' := Create(s, order, key, payload, maxAttempts, eligible, indexed, created, contract, recipient).after;
            id in s'.jobs && s'.jobs[id] == s.jobs[id]
  {
  }

  lemma ProveMovesJob(s: State, proven: JobId, e: Evidence, id: JobId)
    requires Inv(s) && id in s.jobs
    ensures var s' := Prove(s, proven, e).after;
            && id in s'.jobs
            && (s'.jobs[id] == s.jobs[id]
                || (s.jobs[id].phase == AwaitingChain && s'.jobs[id].phase == Fulfilled
                    && s'.jobs[id].attempts == s.jobs[id].attempts && s'.jobs[id].maxAttempts == s.jobs[id].maxAttempts))
  {
    hide Lockstep, Orders, Stock, EvidenceOk, Confirm, Reconcile;
    if proven in s.jobs && Reconcile(s.jobs[proven], e) == None {
      AcceptedIffExpected(s.jobs[proven], e);
      ConfirmSucceeds(s, proven, e);
    }
  }

  ghost function Changes(s: State, steps: seq<Step>, id: JobId): nat {
    if |steps| == 0 then 0
    else
      var before := Run(s, steps[..|steps| - 1]);
      var after := After(before, steps[|steps| - 1]);
      Changes(s, steps[..|steps| - 1], id)
      + if id in before.jobs && id in after.jobs && after.jobs[id].phase != before.jobs[id].phase then 1 else 0
  }

  /** However often it is retried, a job changes status at most as often as its measure says. */
  lemma {:induction false} StatusChangesAreBounded(s: State, steps: seq<Step>, id: JobId)
    requires Inv(s) && id in s.jobs
    ensures Inv(Run(s, steps)) && id in Run(s, steps).jobs
    ensures Changes(s, steps, id) + Measure(Run(s, steps).jobs[id]) <= Measure(s.jobs[id])
    ensures Changes(s, steps, id) <= Measure(s.jobs[id])
  {
    hide Inv, After, Measure;
    if |steps| > 0 {
      var init, before := steps[..|steps| - 1], Run(s, steps[..|steps| - 1]);
      StatusChangesAreBounded(s, init, id);
      StatusChangesDescend(before, steps[|steps| - 1], id);
      StepKeepsInv(before, steps[|steps| - 1]);
    }
    LockstepOf(Run(s, steps));
    MeasureIsNatural(Run(s, steps), id);
  }

  lemma LockstepOf(s: State)
    requires Inv(s)
    ensures Lockstep(s)
  {
  }

  // ----- rejected evidence -----

  lemma RecordsStay(s: State, step: Step, at: EventKey)
    requires at in s.evidence
    ensures at in After(s, step).evidence && After(s, step).evidence[at] == s.evidence[at]
  {
    hide Prove;
    if step.DoProve? {
      ProveKeepsRecords(s, step.id, step.sent, at);
    }
  }

  lemma ProveKeepsRecords(s: State, id: JobId, e: Evidence, at: EventKey)
    requires at in s.evidence
    ensures at in Prove(s, id, e).after.evidence && Prove(s, id, e).after.evidence[at] == s.evidence[at]
  {
    hide Reconcile, AllJobsFulfilled;
  }

  /** A recorded report closes its place in the transaction for good: a rejected one is never
      replaced by another, however right. */
  lemma {:induction false} RejectionIsFinal(s: State, steps: seq<Step>, at: EventKey)
    requires at in s.evidence
    ensures at in Run(s, steps).evidence && Run(s, steps).evidence[at] == s.evidence[at]
  {
    hide After;
    if |steps| > 0 {
      RejectionIsFinal(s, steps[..|steps| - 1], at);
      RecordsStay(Run(s, steps[..|steps| - 1]), steps[|steps| - 1], at);
    }
  }
}
