/** Collectible fulfilment: a queued job, its mint and its order move in step from payment to
    the proof of ownership. Each handler is one atomic step. */
module Fulfilment {
  import opened Wrappers
  import opened MapSums

  type JobId = nat
  type OrderId = nat
  type ProductId = nat

  datatype JobStatus = Queued | Running | AwaitingChain | Fulfilled | Failed | DeadLetter
  datatype MintStatus = MintQueued | MintSubmitted | MintConfirmed | MintFailed
  datatype OrderStatus = AwaitingPayment | Paid | Fulfilling | OrderFulfilled | OrderFailed

  datatype Mint = Mint(
    status: MintStatus, contract: string, recipient: string, hash: Option<string>, token: Option<string>)

  datatype Job = Job(
    order: OrderId, phase: JobStatus, key: string, payload: string, attempts: int, maxAttempts: int,
    availableAt: int, lockedBy: Option<string>, mint: Mint)

  datatype Order = Order(progress: OrderStatus, product: ProductId, quantity: int)

  datatype Inventory = Inventory(reserved: int, fulfilled: int)

  /** What an indexer reports of a mint, with the event as the chain emitted it. */
  datatype Evidence = Evidence(
    hash: string, contract: string, token: string, owner: string, ledger: int, index: int,
    successful: bool, raw: RawEvent, digest: string)

  datatype RawEvent = RawEvent(
    eventType: Option<string>, hash: Option<string>, contract: Option<string>, token: Option<string>,
    owner: Option<string>, ledger: Option<int>, successful: Option<bool>)

  datatype Recorded = Recorded(job: JobId, digest: string, accepted: bool)

  /** A transaction and the position of an event in it. */
  datatype EventKey = EventKey(hash: string, index: int)

  datatype Asset = Asset(contract: string, token: string)

  datatype State = State(
    now: int, orders: map<OrderId, Order>, jobs: map<JobId, Job>, evidence: map<EventKey, Recorded>,
    owned: map<Asset, JobId>, inventory: map<ProductId, Inventory>)

  datatype Error =
    | InvalidMaxAttempts | NotFound | NotEligible | PaymentNotIndexed | KeyReused | OrderNotPaid | AlreadyExists
    | NotClaimable | NotAvailable | AttemptsExhausted | NotOwnedByWorker | MintNotQueued | InvalidRetry
    | InvalidNumbers | EvidenceReused | AlreadyConfirmed | MintStateChanged | InventoryStateChanged | OrderStateChanged

  /** Some refusals are committed together with a change. */
  datatype Outcome = Done(after: State) | Refused(after: State, error: Error)

  // ----- reconciliation of a mint -----

  datatype Mismatch =
    | MintNotSubmitted | HashMismatch | ContractMismatch | TokenMismatch | OwnerMismatch | FailedOnChain
    | RawTypeMismatch | RawHashMismatch | RawIdentityMismatch | RawResultMismatch

  const MINT_EVENT: string := "mint"

  function RawFailure(e: Evidence): Option<Mismatch> {
    if e.raw.eventType != Some(MINT_EVENT) then Some(RawTypeMismatch)
    else if e.raw.hash != Some(e.hash) then Some(RawHashMismatch)
    else if e.raw.contract != Some(e.contract) || e.raw.token != Some(e.token) || e.raw.owner != Some(e.owner) then Some(RawIdentityMismatch)
    else if e.raw.ledger != Some(e.ledger) || e.raw.successful != Some(e.successful) then Some(RawResultMismatch)
    else None
  }

  function Reconcile(job: Job, e: Evidence): Option<Mismatch> {
    var mint := job.mint;
    if job.phase != AwaitingChain || mint.status != MintSubmitted then Some(MintNotSubmitted)
    else if mint.hash != Some(e.hash) then Some(HashMismatch)
    else if mint.contract != e.contract then Some(ContractMismatch)
    else if mint.token != Some(e.token) then Some(TokenMismatch)
    else if mint.recipient != e.owner then Some(OwnerMismatch)
    else if !e.successful then Some(FailedOnChain)
    else RawFailure(e)
  }

  /** The event the job is waiting for, as the chain must have emitted it. */
  function ExpectedEvent(job: Job, ledger: int): RawEvent {
    RawEvent(Some(MINT_EVENT), job.mint.hash, Some(job.mint.contract), job.mint.token,
             Some(job.mint.recipient), Some(ledger), Some(true))
  }

  /** Evidence is accepted exactly when the job waits for it and both the report and the raw
      event are the successful mint of the submitted token to the recipient. */
  lemma AcceptedIffExpected(job: Job, e: Evidence)
    ensures Reconcile(job, e) == None <==>
      && job.phase == AwaitingChain && job.mint.status == MintSubmitted
      && job.mint.hash.Some? && job.mint.token.Some?
      && e.raw == ExpectedEvent(job, e.ledger)
      && e == Evidence(job.mint.hash.value, job.mint.contract, job.mint.token.value, job.mint.recipient,
                       e.ledger, e.index, true, e.raw, e.digest)
  {
  }

  // ----- the handlers -----

  /** create_fulfillment_job; eligible stands for the checks on the item, the edition, the
      contract and the buyer's wallet, indexed for an accepted payment reconciliation. */
  function Create(s: State, order: OrderId, key: string, payload: string, maxAttempts: int,
                  eligible: bool, indexed: bool, id: JobId, contract: string, recipient: string): Outcome
  {
    if !(1 <= maxAttempts <= 20) then Refused(s, InvalidMaxAttempts)
    else if order !in s.orders then Refused(s, NotFound)
    else if !eligible || s.orders[order].quantity != 1 then Refused(s, NotEligible)
    else if !indexed then Refused(s, PaymentNotIndexed)
    else if exists j :: j in s.jobs && s.jobs[j].key == key then
      if exists j :: j in s.jobs && s.jobs[j].key == key && s.jobs[j].payload != payload then Refused(s, KeyReused) else Done(s)
    else if s.orders[order].progress != Paid then Refused(s, OrderNotPaid)
    else if id in s.jobs || exists j :: j in s.jobs && s.jobs[j].order == order then Refused(s, AlreadyExists)
    else
      Done(s.(jobs := s.jobs[id := Job(order, Queued, key, payload, 0, maxAttempts, s.now, None,
                                       Mint(MintQueued, contract, recipient, None, None))],
              orders := s.orders[order := s.orders[order].(progress := Fulfilling)]))
  }

  /** claim_fulfillment_job */
  function Claim(s: State, id: JobId, worker: string): Outcome {
    if id !in s.jobs then Refused(s, NotFound)
    else
      var job := s.jobs[id];
      if job.phase == Running && job.lockedBy == Some(worker) then Done(s)
      else if job.phase != Queued && job.phase != Failed then Refused(s, NotClaimable)
      else if job.availableAt > s.now then Refused(s, NotAvailable)
      else if job.attempts >= job.maxAttempts then
        Refused(s.(jobs := s.jobs[id := job.(phase := DeadLetter, lockedBy := None)]), AttemptsExhausted)
      else
        var mint := if job.mint.status == MintFailed then job.mint.(status := MintQueued) else job.mint;
        Done(s.(jobs := s.jobs[id := job.(phase := Running, attempts := job.attempts + 1, lockedBy := Some(worker), mint := mint)]))
  }

  /** record_mint_submission */
  function Submit(s: State, id: JobId, worker: string, hash: string, token: string): Outcome {
    if id !in s.jobs then Refused(s, NotFound)
    else
      var job := s.jobs[id];
      if job.phase == AwaitingChain && job.mint.status == MintSubmitted && job.mint.hash == Some(hash) && job.mint.token == Some(token)
      then Done(s)
      else if job.phase != Running || job.lockedBy != Some(worker) then Refused(s, NotOwnedByWorker)
      else if job.mint.status != MintQueued then Refused(s, MintNotQueued)
      else
        var mint := job.mint.(status := MintSubmitted, hash := Some(hash), token := Some(token));
        Done(s.(jobs := s.jobs[id := job.(phase := AwaitingChain, lockedBy := None, mint := mint)]))
  }

  /** record_fulfillment_failure */
  function Fail(s: State, id: JobId, worker: string, retryable: bool, retryAfter: int): Outcome {
    if !(0 <= retryAfter <= 86_400) then Refused(s, InvalidRetry)
    else if id !in s.jobs then Refused(s, NotFound)
    else
      var job := s.jobs[id];
      if job.phase != Running || job.lockedBy != Some(worker) then Refused(s, NotOwnedByWorker)
      else
        var willRetry := retryable && job.attempts < job.maxAttempts;
        var mint := if job.mint.status == MintQueued then job.mint.(status := MintFailed) else job.mint;
        var s1 := s.(jobs := s.jobs[id := job.(phase := if willRetry then Failed else DeadLetter,
                                               availableAt := s.now + retryAfter, lockedBy := None, mint := mint)]);
        Done(if willRetry then s1 else FailOrder(s1, job.order))
  }

  function FailOrder(s: State, order: OrderId): State {
    if order in s.orders && s.orders[order].progress == Fulfilling
    then s.(orders := s.orders[order := s.orders[order].(progress := OrderFailed)])
    else s
  }

  predicate AllJobsFulfilled(s: State, order: OrderId) {
    forall j :: j in s.jobs && s.jobs[j].order == order ==> s.jobs[j].phase == Fulfilled
  }

  /** confirm_mint, on the rows as the evidence found them. */
  function Confirm(s: State, id: JobId, e: Evidence): Outcome
    requires id in s.jobs
  {
    var job := s.jobs[id];
    if job.mint.status != MintSubmitted || job.phase != AwaitingChain then Refused(s, MintStateChanged)
    else
      var s1 := s.(jobs := s.jobs[id := job.(phase := Fulfilled, lockedBy := None, mint := job.mint.(status := MintConfirmed))]);
      if Asset(e.contract, e.token) in s.owned then Refused(s, AlreadyExists)
      else
        var s2 := s1.(owned := s1.owned[Asset(e.contract, e.token) := id]);
        if job.order !in s.orders || s.orders[job.order].product !in s.inventory then Refused(s, InventoryStateChanged)
        else
          var order := s.orders[job.order];
          var stock := s.inventory[order.product];
          if stock.reserved < order.quantity then Refused(s, InventoryStateChanged)
          else
            var s3 := s2.(inventory := s2.inventory[order.product := Inventory(stock.reserved - order.quantity, stock.fulfilled + order.quantity)]);
            if !AllJobsFulfilled(s3, job.order) then Done(s3)
            else if order.progress != Fulfilling then Refused(s, OrderStateChanged)
            else Done(s3.(orders := s3.orders[job.order := order.(progress := OrderFulfilled)]))
  }

  function Record(s: State, id: JobId, e: Evidence, accepted: bool): State {
    s.(evidence := s.evidence[EventKey(e.hash, e.index) := Recorded(id, e.digest, accepted)])
  }

  /** record_mint_evidence: a mismatch is recorded and stays. */
  function Prove(s: State, id: JobId, e: Evidence): Outcome {
    if e.ledger <= 0 || e.index < 0 then Refused(s, InvalidNumbers)
    else if id !in s.jobs then Refused(s, NotFound)
    else
      var at := EventKey(e.hash, e.index);
      if at in s.evidence then
        if s.evidence[at].job != id || s.evidence[at].digest != e.digest then Refused(s, EvidenceReused) else Done(s)
      else if Reconcile(s.jobs[id], e).Some? then Done(Record(s, id, e, false))
      else if exists other :: other in s.evidence && s.evidence[other].job == id && s.evidence[other].accepted then
        Refused(s, AlreadyConfirmed)
      else
        match Confirm(Record(s, id, e, true), id, e)
        case Done(after) => Done(after)
        case Refused(_, error) => Refused(s, error)
  }

  // ----- runs -----

  datatype Step =
    | OrderPlaced(placed: OrderId, product: ProductId, quantity: int)
    | OrderPaid(paid: OrderId)
    | DoCreate(order: OrderId, key: string, payload: string, maxAttempts: int, eligible: bool, indexed: bool,
               created: JobId, contract: string, recipient: string)
    | DoClaim(id: JobId, worker: string)
    | DoSubmit(id: JobId, worker: string, hash: string, token: string)
    | DoFail(id: JobId, worker: string, retryable: bool, retryAfter: int)
    | DoProve(id: JobId, sent: Evidence)
    | ClockAdvances(elapsed: nat)

  /** An order reserves its quantity when it is placed. */
  function Place(s: State, order: OrderId, product: ProductId, quantity: int): State {
    if order in s.orders || quantity <= 0 then s
    else
      var stock := if product in s.inventory then s.inventory[product] else Inventory(0, 0);
      s.(orders := s.orders[order := Order(AwaitingPayment, product, quantity)],
         inventory := s.inventory[product := stock.(reserved := stock.reserved + quantity)])
  }

  function Pay(s: State, order: OrderId): State {
    if order in s.orders && s.orders[order].progress == AwaitingPayment
    then s.(orders := s.orders[order := s.orders[order].(progress := Paid)])
    else s
  }

  function After(s: State, step: Step): State {
    match step
    case OrderPlaced(placed, product, quantity) => Place(s, placed, product, quantity)
    case OrderPaid(paid) => Pay(s, paid)
    case DoCreate(order, key, payload, maxAttempts, eligible, indexed, created, contract, recipient) =>
      Create(s, order, key, payload, maxAttempts, eligible, indexed, created, contract, recipient).after
    case DoClaim(id, worker) => Claim(s, id, worker).after
    case DoSubmit(id, worker, hash, token) => Submit(s, id, worker, hash, token).after
    case DoFail(id, worker, retryable, retryAfter) => Fail(s, id, worker, retryable, retryAfter).after
    case DoProve(id, sent) => Prove(s, id, sent).after
    case ClockAdvances(elapsed) => s.(now := s.now + elapsed)
  }

  function Run(s: State, steps: seq<Step>): State {
    if |steps| == 0 then s else After(Run(s, steps[..|steps| - 1]), steps[|steps| - 1])
  }

  const INIT: State := State(0, map[], map[], map[], map[], map[])

  // ----- lockstep -----

  ghost predicate NothingSent(mint: Mint) {
    mint.hash == None && mint.token == None
  }

  ghost predicate Sent(mint: Mint) {
    mint.hash.Some? && mint.token.Some?
  }

  /** What the phase of a job says about its mint, its attempts and its order. */
  ghost predicate InStep(job: Job, progress: OrderStatus) {
    && 0 <= job.attempts <= job.maxAttempts && 1 <= job.maxAttempts
    && (job.lockedBy.Some? <==> job.phase == Running)
    && (job.phase in {Queued, Failed} ==> job.attempts < job.maxAttempts)
    && (job.phase in {Queued, Running, AwaitingChain, Failed} <==> progress == Fulfilling)
    && (job.phase == Fulfilled <==> progress == OrderFulfilled)
    && (job.phase == DeadLetter <==> progress == OrderFailed)
    && (job.phase in {Queued, Running} <==> job.mint.status == MintQueued)
    && (job.phase == AwaitingChain <==> job.mint.status == MintSubmitted)
    && (job.phase == Fulfilled <==> job.mint.status == MintConfirmed)
    && (job.phase in {Failed, DeadLetter} <==> job.mint.status == MintFailed)
    && (job.phase in {AwaitingChain, Fulfilled} ==> Sent(job.mint))
    && (job.phase !in {AwaitingChain, Fulfilled} ==> NothingSent(job.mint))
  }

  ghost predicate JobOk(s: State, id: JobId)
    requires id in s.jobs
  {
    s.jobs[id].order in s.orders && InStep(s.jobs[id], s.orders[s.jobs[id].order].progress)
  }

  ghost predicate Lockstep(s: State) {
    && (forall id :: id in s.jobs ==> JobOk(s, id))
    && (forall i, j :: i in s.jobs && j in s.jobs && i != j ==> s.jobs[i].order != s.jobs[j].order)
  }

  /** Only an order with a job is past payment. */
  ghost predicate OrderOk(s: State, o: OrderId)
    requires o in s.orders
  {
    && s.orders[o].quantity > 0 && s.orders[o].product in s.inventory
    && (s.orders[o].progress !in {AwaitingPayment, Paid} ==> exists id :: id in s.jobs && s.jobs[id].order == o)
  }

  ghost predicate Orders(s: State) {
    forall o :: o in s.orders ==> OrderOk(s, o)
  }

  ghost function HeldFor(p: ProductId): (OrderId, Order) -> int {
    (id: OrderId, o: Order) => if o.product == p && o.progress != OrderFulfilled then o.quantity else 0
  }

  ghost function DeliveredFor(p: ProductId): (OrderId, Order) -> int {
    (id: OrderId, o: Order) => if o.product == p && o.progress == OrderFulfilled then o.quantity else 0
  }

  ghost predicate Counted(s: State, p: ProductId)
    requires p in s.inventory
  {
    s.inventory[p].reserved == Sum(s.orders, HeldFor(p)) && s.inventory[p].fulfilled == Sum(s.orders, DeliveredFor(p))
  }

  ghost predicate Stock(s: State) {
    forall p :: p in s.inventory ==> Counted(s, p)
  }

  ghost predicate SameAccepted(a: Recorded, b: Recorded) {
    a.accepted && b.accepted && a.job == b.job
  }

  /** Accepted evidence is that of a fulfilled job, one for each. */
  ghost predicate EvidenceOk(s: State) {
    && (forall at :: at in s.evidence && s.evidence[at].accepted ==>
          s.evidence[at].job in s.jobs && s.jobs[s.evidence[at].job].phase == Fulfilled)
    && (forall a, b :: a in s.evidence && b in s.evidence && SameAccepted(s.evidence[a], s.evidence[b]) ==> a == b)
    && (forall id :: id in s.jobs && s.jobs[id].phase == Fulfilled ==>
          exists at :: at in s.evidence && s.evidence[at].accepted && s.evidence[at].job == id)
  }

  ghost predicate Inv(s: State) {
    Lockstep(s) && Orders(s) && Stock(s) && EvidenceOk(s)
  }
}
