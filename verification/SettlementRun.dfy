/** One settlement run: its items are submitted and confirmed one by one until the run is
    confirmed. Every handler locks its rows, so it is one atomic step; a refused request
    changes nothing. */
module SettlementRun {
  import opened Wrappers
  import opened MapSums
  import SettlementPlan

  type ItemId = nat
  type Hash = string

  datatype Kind = Payout | Refund
  datatype RunStatus = RunPlanned | Submitting | RunSubmitted | RunConfirmed | RunFailed | RunCancelled
  datatype ItemStatus = Planned | Submitted | Confirmed | Failed
  datatype MarketStatus = Settling | Settled | OtherStatus
  datatype PositionStatus = Active | PositionSettled | PositionRefunded | Inactive

  datatype Item = Item(position: nat, recipient: string, payout: int, status: ItemStatus, hash: Option<Hash>)

  datatype Evidence = Evidence(hash: Hash, ledger: int, operation: int, reference: string, amount: int)

  /** The rows the handlers touch. The hashes, operations and references of all other runs
      are in the three sets: the tables keep them unique across runs. */
  datatype State = State(
    kind: Kind, run: RunStatus, items: map<ItemId, Item>, evidence: map<ItemId, Evidence>,
    market: MarketStatus, positions: map<nat, PositionStatus>,
    otherHashes: set<Hash>, otherOperations: set<(Hash, int)>, otherReferences: set<string>)

  datatype Error =
    | InvalidEvidence | NotFound | Forbidden | AlreadyConfirmed | SubmissionConflict | NotSubmittable
    | EvidenceConflict | NotSubmitted | EvidenceMismatch | ResourceAlreadyExists

  datatype Result<+T> = Ok(value: T) | Err(error: Error)

  // ----- the two handlers -----

  predicate HashInUse(s: State, hash: Hash) {
    hash in s.otherHashes || exists id :: id in s.items && s.items[id].hash == Some(hash)
  }

  predicate OperationInUse(s: State, hash: Hash, operation: int) {
    (hash, operation) in s.otherOperations
    || exists id :: id in s.evidence && s.evidence[id].hash == hash && s.evidence[id].operation == operation
  }

  predicate ReferenceInUse(s: State, reference: string) {
    reference in s.otherReferences || exists id :: id in s.evidence && s.evidence[id].reference == reference
  }

  /** record_submission; allowed is the market's current policy decision. */
  function Submit(s: State, id: ItemId, hash: Hash, allowed: bool): Result<State> {
    if id !in s.items then Err(NotFound)
    else if !allowed then Err(Forbidden)
    else
      var item := s.items[id];
      if id in s.evidence || item.status == Confirmed then Err(AlreadyConfirmed)
      else if item.status == Submitted then
        if item.hash != Some(hash) then Err(SubmissionConflict) else Ok(s)
      else if item.status != Planned || s.run !in {RunPlanned, Submitting, RunSubmitted} then Err(NotSubmittable)
      else if HashInUse(s, hash) then Err(ResourceAlreadyExists)
      else Ok(WithSubmission(s, id, hash))
  }

  function WithSubmission(s: State, id: ItemId, hash: Hash): State
    requires id in s.items
  {
    s.(items := s.items[id := s.items[id].(status := Submitted, hash := Some(hash))],
       run := if s.run == RunPlanned then Submitting else s.run)
  }

  /** accept_settlement_evidence */
  function Accept(s: State, id: ItemId, e: Evidence, recipient: string, allowed: bool): Result<State> {
    if e.ledger <= 0 || e.operation < 0 || e.amount < 0 then Err(InvalidEvidence)
    else if id !in s.items then Err(NotFound)
    else if !allowed then Err(Forbidden)
    else
      var item := s.items[id];
      if id in s.evidence then
        if s.evidence[id].hash != e.hash || s.evidence[id].amount != e.amount || s.evidence[id].reference != e.reference
        then Err(EvidenceConflict)
        else Ok(s)
      else if item.status != Submitted || item.hash != Some(e.hash) then Err(NotSubmitted)
      else if item.recipient != recipient || item.payout != e.amount then Err(EvidenceMismatch)
      else if OperationInUse(s, e.hash, e.operation) || ReferenceInUse(s, e.reference) then Err(ResourceAlreadyExists)
      else Ok(FinalizeIfComplete(Confirm(s, id, e)))
  }

  function Confirm(s: State, id: ItemId, e: Evidence): State
    requires id in s.items
  {
    s.(items := s.items[id := s.items[id].(status := Confirmed)], evidence := s.evidence[id := e])
  }

  predicate AllConfirmed(s: State) {
    forall id :: id in s.items ==> s.items[id].status == Confirmed
  }

  function FinalizeIfComplete(s: State): State {
    if !AllConfirmed(s) then s
    else
      s.(run := RunConfirmed,
         positions := map p | p in s.positions :: ClosedAs(s.kind, s.positions[p]),
         market := if s.market == Settling then Settled else s.market)
  }

  function ClosedAs(kind: Kind, status: PositionStatus): PositionStatus {
    if status != Active then status else if kind == Refund then PositionRefunded else PositionSettled
  }

  // ----- runs -----

  /** A request, or something another handler does to rows this one shares. */
  datatype Step =
    | DoSubmit(id: ItemId, hash: Hash, allowed: bool)
    | DoAccept(id: ItemId, sent: Evidence, recipient: string, allowed: bool)
    | MarketMoves(status: MarketStatus)
    | PositionChanges(position: nat, positionStatus: PositionStatus)
    | OthersUse(hashes: set<Hash>, operations: set<(Hash, int)>, references: set<string>)

  function After(s: State, step: Step): State {
    match step
    case DoSubmit(id, hash, allowed) =>
      (match Submit(s, id, hash, allowed)
       case Ok(s') => s'
       case Err(_) => s)
    case DoAccept(id, sent, recipient, allowed) =>
      (match Accept(s, id, sent, recipient, allowed)
       case Ok(s') => s'
       case Err(_) => s)
    case MarketMoves(status) => s.(market := status)
    case PositionChanges(position, status) => s.(positions := s.positions[position := status])
    case OthersUse(hashes, operations, references) =>
      s.(otherHashes := s.otherHashes + hashes,
         otherOperations := s.otherOperations + operations,
         otherReferences := s.otherReferences + references)
  }

  function Run(s: State, steps: seq<Step>): State {
    if |steps| == 0 then s else After(Run(s, steps[..|steps| - 1]), steps[|steps| - 1])
  }

  // ----- what a plan starts with -----

  ghost function PayoutOf(): (ItemId, Item) -> int {
    (id: ItemId, item: Item) => item.payout
  }

  /** The rows right after planning: every item planned, nothing proved, something to pay. */
  ghost predicate Fresh(s: State) {
    && s.run == RunPlanned && s.items != map[] && s.evidence == map[]
    && forall id :: id in s.items ==> s.items[id].status == Planned && s.items[id].hash == None
  }

  // ----- invariants -----

  function ProofOf(s: State, id: ItemId): Option<Evidence> {
    if id in s.evidence then Some(s.evidence[id]) else None
  }

  /** An item and its proof: the hash appears with the submission, the proof with the
      confirmation, and the proof names the hash and the planned payout. */
  ghost predicate ItemOk(item: Item, proof: Option<Evidence>) {
    && item.status != Failed
    && (item.status == Planned <==> item.hash == None)
    && (item.status == Confirmed <==> proof.Some?)
    && (proof.Some? ==> item.hash == Some(proof.value.hash) && proof.value.amount == item.payout)
  }

  ghost predicate ItemsConsistent(s: State) {
    && s.evidence.Keys <= s.items.Keys
    && forall id :: id in s.items ==> ItemOk(s.items[id], ProofOf(s, id))
  }

  ghost predicate RunConsistent(s: State) {
    && s.items != map[]
    && s.run in {RunPlanned, Submitting, RunConfirmed}
    && (s.run == RunConfirmed <==> AllConfirmed(s))
    && (s.run == RunPlanned <==> forall id :: id in s.items ==> s.items[id].status == Planned)
  }

  /** No two items share a transaction, and no two proofs an operation or a reference. */
  ghost predicate NothingShared(s: State) {
    && (forall i, j :: i in s.items && j in s.items && i != j && s.items[i].hash.Some? ==> s.items[i].hash != s.items[j].hash)
    && (forall i, j :: i in s.evidence && j in s.evidence && i != j ==> s.evidence[i].reference != s.evidence[j].reference)
  }

  ghost predicate Inv(s: State) {
    ItemsConsistent(s) && RunConsistent(s) && NothingShared(s)
  }

  function Rank(status: ItemStatus): nat {
    match status
    case Planned => 0
    case Submitted => 1
    case Confirmed => 2
    case Failed => 3
  }

  ghost predicate ItemAdvances(item: Item, item': Item) {
    && item'.position == item.position && item'.payout == item.payout && item'.recipient == item.recipient
    && Rank(item.status) <= Rank(item'.status)
    && (item.hash.Some? ==> item'.hash == item.hash)
  }

  /** What a step may do: payouts stay, statuses only rise, a proof stays as it is, and a
      confirmed run is closed. */
  ghost predicate Advances(s: State, s': State) {
    && s'.items.Keys == s.items.Keys && s'.kind == s.kind
    && (forall id :: id in s.items ==> ItemAdvances(s.items[id], s'.items[id]))
    && (forall id :: id in s.evidence ==> id in s'.evidence && s'.evidence[id] == s.evidence[id])
    && (s.run == RunConfirmed ==> s'.run == RunConfirmed && s'.items == s.items && s'.evidence == s.evidence)
  }

  ghost predicate Sound(s: State, s': State) {
    ItemsConsistent(s') && RunConsistent(s') && NothingShared(s') && Advances(s, s')
  }

  lemma SubmittingKeepsItems(s: State, id: ItemId, hash: Hash)
    requires Inv(s) && id in s.items && s.items[id].status == Planned && s.run in {RunPlanned, Submitting, RunSubmitted}
    ensures ItemsConsistent(WithSubmission(s, id, hash)) && Advances(s, WithSubmission(s, id, hash))
  {
    var s' := WithSubmission(s, id, hash);
    forall i | i in s'.items
      ensures ItemOk(s'.items[i], ProofOf(s', i)) && ItemAdvances(s.items[i], s'.items[i])
    {
      assert ItemOk(s.items[i], ProofOf(s, i));
    }
  }

  lemma SubmittingKeepsRun(s: State, id: ItemId, hash: Hash)
    requires Inv(s) && id in s.items && s.items[id].status == Planned && s.run in {RunPlanned, Submitting, RunSubmitted}
    ensures RunConsistent(WithSubmission(s, id, hash))
  {
    hide ItemsConsistent, NothingShared;
    assert WithSubmission(s, id, hash).items[id].status == Submitted;
  }

  lemma SubmittingSharesNothing(s: State, id: ItemId, hash: Hash)
    requires NothingShared(s) && id in s.items && !HashInUse(s, hash)
    ensures NothingShared(WithSubmission(s, id, hash))
  {
  }

  lemma SubmitIsSound(s: State, id: ItemId, hash: Hash, allowed: bool)
    requires Inv(s) && Submit(s, id, hash, allowed).Ok?
    ensures Sound(s, Submit(s, id, hash, allowed).value)
  {
    hide ItemsConsistent, RunConsistent, NothingShared, HashInUse, ItemAdvances;
    if Submit(s, id, hash, allowed).value != s {
      SubmittingKeepsItems(s, id, hash);
      SubmittingKeepsRun(s, id, hash);
      SubmittingSharesNothing(s, id, hash);
    } else {
      Unchanged(s);
    }
  }

  lemma Unchanged(s: State)
    requires Inv(s)
    ensures Sound(s, s)
  {
  }

  lemma ConfirmKeepsItems(s: State, id: ItemId, e: Evidence)
    requires ItemsConsistent(s) && id in s.items && s.items[id].status == Submitted
    requires s.items[id].hash == Some(e.hash) && s.items[id].payout == e.amount
    ensures ItemsConsistent(Confirm(s, id, e))
  {
    var s' := Confirm(s, id, e);
    forall i | i in s'.items
      ensures ItemOk(s'.items[i], ProofOf(s', i))
    {
      assert ItemOk(s.items[i], ProofOf(s, i));
    }
  }

  lemma ConfirmAdvances(s: State, id: ItemId, e: Evidence)
    requires id in s.items && s.items[id].status == Submitted && id !in s.evidence && s.run != RunConfirmed
    ensures Advances(s, Confirm(s, id, e))
  {
  }

  lemma ConfirmSharesNothing(s: State, id: ItemId, e: Evidence)
    requires NothingShared(s) && id in s.items && !ReferenceInUse(s, e.reference)
    ensures NothingShared(Confirm(s, id, e))
  {
  }

  lemma ConfirmKeepsRun(s: State, id: ItemId, e: Evidence)
    requires Inv(s) && id in s.items && s.items[id].status == Submitted
    ensures RunConsistent(FinalizeIfComplete(Confirm(s, id, e)))
  {
    hide ItemsConsistent, NothingShared;
    var s' := FinalizeIfComplete(Confirm(s, id, e));
    assert s'.items[id].status == Confirmed;
    assert s.run == Submitting;
  }

  lemma FinalizeKeepsRows(s: State, c: State)
    requires ItemsConsistent(c) && NothingShared(c) && Advances(s, c)
    requires s.run != RunConfirmed
    ensures var s' := FinalizeIfComplete(c); ItemsConsistent(s') && NothingShared(s') && Advances(s, s')
  {
    hide ItemOk, ItemAdvances, AllConfirmed;
    var s' := FinalizeIfComplete(c);
    assert forall id :: id in s'.items ==> ProofOf(s', id) == ProofOf(c, id);
  }

  lemma NotYetConfirmed(s: State, id: ItemId)
    requires Inv(s) && id in s.items && s.items[id].status == Submitted
    ensures s.run == Submitting
  {
  }

  lemma AcceptIsSound(s: State, id: ItemId, e: Evidence, recipient: string, allowed: bool)
    requires Inv(s) && Accept(s, id, e, recipient, allowed).Ok?
    ensures Sound(s, Accept(s, id, e, recipient, allowed).value)
  {
    hide ItemsConsistent, RunConsistent, NothingShared, ItemAdvances, Advances, FinalizeIfComplete, Confirm,
         OperationInUse, ReferenceInUse;
    if id !in s.evidence {
      NotYetConfirmed(s, id);
      ConfirmKeepsItems(s, id, e);
      ConfirmAdvances(s, id, e);
      ConfirmSharesNothing(s, id, e);
      ConfirmKeepsRun(s, id, e);
      FinalizeKeepsRows(s, Confirm(s, id, e));
    } else {
      Unchanged(s);
    }
  }

  lemma ElsewhereIsSound(s: State, step: Step)
    requires Inv(s) && !step.DoSubmit? && !step.DoAccept?
    ensures Sound(s, After(s, step))
  {
    hide ItemOk;
    var s' := After(s, step);
    assert s'.items == s.items && s'.evidence == s.evidence && s'.run == s.run;
    assert forall id :: id in s'.items ==> ProofOf(s', id) == ProofOf(s, id);
  }

  lemma StepIsSound(s: State, step: Step)
    requires Inv(s)
    ensures Sound(s, After(s, step))
  {
    hide Submit, Accept, ItemsConsistent, RunConsistent, NothingShared, Advances, Inv;
    match step
    case DoSubmit(id, hash, allowed) =>
      if Submit(s, id, hash, allowed).Ok? {
        SubmitIsSound(s, id, hash, allowed);
      } else {
        Unchanged(s);
      }
    case DoAccept(id, sent, recipient, allowed) =>
      if Accept(s, id, sent, recipient, allowed).Ok? {
        AcceptIsSound(s, id, sent, recipient, allowed);
      } else {
        Unchanged(s);
      }
    case MarketMoves(_) => ElsewhereIsSound(s, step);
    case PositionChanges(_, _) => ElsewhereIsSound(s, step);
    case OthersUse(_, _, _) => ElsewhereIsSound(s, step);
  }

  lemma StepKeepsInv(s: State, step: Step)
    requires Inv(s)
    ensures Inv(After(s, step)) && Advances(s, After(s, step))
  {
    hide ItemsConsistent, RunConsistent, NothingShared, Advances, After;
    StepIsSound(s, step);
  }

  lemma FreshIsConsistent(s: State)
    requires Fresh(s)
    ensures Inv(s)
  {
    assert exists id :: id in s.items by {
      var id :| id in s.items.Keys;
      assert id in s.items;
    }
  }

  lemma {:induction false} RunIsSound(s: State, steps: seq<Step>)
    requires Inv(s)
    ensures Inv(Run(s, steps)) && Advances(s, Run(s, steps))
  {
    hide After, ItemsConsistent, RunConsistent, NothingShared;
    if |steps| == 0 {
      Unchanged(s);
    } else {
      var before := Run(s, steps[..|steps| - 1]);
      RunIsSound(s, steps[..|steps| - 1]);
      StepIsSound(before, steps[|steps| - 1]);
      AdvancesTwice(s, before, Run(s, steps));
    }
  }

  lemma AdvancesTwice(a: State, b: State, c: State)
    requires Advances(a, b) && Advances(b, c)
    ensures Advances(a, c)
  {
    forall id | id in a.items
      ensures ItemAdvances(a.items[id], c.items[id])
    {
      assert ItemAdvances(a.items[id], b.items[id]) && ItemAdvances(b.items[id], c.items[id]);
    }
  }

  // ----- what a run pays -----

  ghost function ProvenFor(s: State): (ItemId, Item) -> int {
    (id: ItemId, item: Item) => if id in s.evidence then s.evidence[id].amount else 0
  }

  /** The amounts of all accepted proofs. */
  ghost function Proven(s: State): int {
    Sum(s.items, ProvenFor(s))
  }

  /** What the plan set out to pay. */
  ghost function PlannedTotal(s: State): int {
    Sum(s.items, PayoutOf())
  }

  lemma PlannedTotalStays(s: State, s': State)
    requires Advances(s, s')
    ensures PlannedTotal(s') == PlannedTotal(s)
  {
    forall id | id in s.items
      ensures PayoutOf()(id, s.items[id]) == PayoutOf()(id, s'.items[id])
    {
      assert ItemAdvances(s.items[id], s'.items[id]);
    }
    SumCongruent(s.items, s'.items, PayoutOf(), PayoutOf());
  }

  /** In every state a run can reach: each item has at most one proof and it is for the
      planned payout; the run is confirmed exactly when all its items are; and then the proofs
      add up to what was planned. */
  lemma RunPaysThePlan(s: State, steps: seq<Step>)
    requires Fresh(s)
    ensures var e := Run(s, steps);
            && (forall id :: id in e.evidence ==> id in s.items && e.evidence[id].amount == s.items[id].payout)
            && (e.run == RunConfirmed <==> forall id :: id in s.items ==> id in e.evidence)
            && (e.run == RunConfirmed ==> Proven(e) == PlannedTotal(s))
  {
    hide Run, Advances;
    FreshIsConsistent(s);
    RunIsSound(s, steps);
    var e := Run(s, steps);
    ProofsMatchPlan(s, e);
    PlannedTotalStays(s, e);
    if e.run == RunConfirmed {
      SumCongruent(e.items, e.items, ProvenFor(e), PayoutOf());
    }
  }

  lemma ProofsMatchPlan(s: State, e: State)
    requires Inv(e) && Advances(s, e)
    ensures e.items.Keys == s.items.Keys
    ensures forall id :: id in e.evidence ==> id in s.items && e.evidence[id].amount == s.items[id].payout == e.items[id].payout
    ensures e.run == RunConfirmed <==> forall id :: id in s.items ==> id in e.evidence
  {
    forall id | id in e.items
      ensures e.items[id].status == Confirmed <==> id in e.evidence
      ensures id in e.evidence ==> e.evidence[id].amount == s.items[id].payout == e.items[id].payout
    {
      assert ItemOk(e.items[id], ProofOf(e, id)) && ItemAdvances(s.items[id], e.items[id]);
    }
  }

  /** Once confirmed, always confirmed, with the same items and proofs. */
  lemma ConfirmedIsFinal(s: State, steps: seq<Step>)
    requires Inv(s) && s.run == RunConfirmed
    ensures var e := Run(s, steps); e.run == RunConfirmed && e.items == s.items && e.evidence == s.evidence
  {
    RunIsSound(s, steps);
  }

  // ----- from plan to run -----

  /** The rows inserted for a plan: item i pays row i. */
  ghost predicate Starts(plan: SettlementPlan.Plan, s: State) {
    && Fresh(s)
    && (forall id :: id in s.items <==> id < |plan.rows|)
    && forall id :: id in s.items ==> s.items[id].payout == plan.rows[id].payout
  }

  ghost predicate BelowN(n: nat, m: map<ItemId, Item>) {
    forall id :: id in m <==> id < n
  }

  lemma {:induction false} ItemsSumUp(rows: seq<SettlementPlan.Row>, m: map<ItemId, Item>, n: nat)
    requires n <= |rows| && BelowN(n, m) && forall id :: id in m ==> m[id].payout == rows[id].payout
    ensures Sum(m, PayoutOf()) == SettlementPlan.Paid(rows, n)
    decreases n
  {
    if n == 0 {
      SumZero(m, PayoutOf());
    } else {
      var k: ItemId := n - 1;
      assert k in m;
      SumPick(m, PayoutOf(), k);
      ItemsSumUp(rows, m - {k}, n - 1);
    }
  }

  /** From the plan to the last confirmation: whatever happens in between, a confirmed run has
      paid out exactly the total stake less the fee. */
  lemma ConfirmedRunPaysStakeLessFee(kind: SettlementPlan.Kind, ps: seq<SettlementPlan.Position>,
                                     winner: Option<nat>, feeBps: int, plan: SettlementPlan.Plan,
                                     s: State, steps: seq<Step>)
    requires SettlementPlan.Positive(ps) && |ps| > 0 && 0 <= feeBps <= 10_000
    requires SettlementPlan.Planned(kind, ps, winner, feeBps, plan) && Starts(plan, s)
    requires Run(s, steps).run == RunConfirmed
    ensures Proven(Run(s, steps)) == plan.totalStake - plan.fee
  {
    hide SettlementPlan.Planned, SettlementPlan.Paid, Run, Fresh;
    SettlementPlan.PlanConserves(kind, ps, winner, feeBps, plan);
    RunPaysThePlan(s, steps);
    ItemsSumUp(plan.rows, s.items, |plan.rows|);
  }

  // ----- the handlers on their tables -----

  /** The tables of one run. A handler that refuses rolls back, so it writes only once nothing
      can fail any more. */
  class Tables {
    const kind: Kind
    var run: RunStatus
    var items: map<ItemId, Item>
    var evidence: map<ItemId, Evidence>
    var market: MarketStatus
    var positions: map<nat, PositionStatus>
    var otherHashes: set<Hash>
    var otherOperations: set<(Hash, int)>
    var otherReferences: set<string>

    ghost function Rows(): State
      reads this
    {
      State(kind, run, items, evidence, market, positions, otherHashes, otherOperations, otherReferences)
    }

    constructor (k: Kind, planned: map<ItemId, Item>, active: map<nat, PositionStatus>)
      ensures Rows() == State(k, RunPlanned, planned, map[], Settling, active, {}, {}, {})
    {
      kind, run, items, evidence := k, RunPlanned, planned, map[];
      market, positions := Settling, active;
      otherHashes, otherOperations, otherReferences := {}, {}, {};
    }

    method RecordSubmission(id: ItemId, hash: Hash, allowed: bool) returns (r: Option<Error>)
      modifies this
      ensures Rows() == After(old(Rows()), DoSubmit(id, hash, allowed))
      ensures r == match Submit(old(Rows()), id, hash, allowed) case Ok(_) => None case Err(e) => Some(e)
      ensures Inv(old(Rows())) ==> Inv(Rows()) && Advances(old(Rows()), Rows())
    {
      hide Inv, Advances;
      if Inv(Rows()) { StepKeepsInv(Rows(), DoSubmit(id, hash, allowed)); }
      if id !in items {
        return Some(NotFound);
      }
      if !allowed {
        return Some(Forbidden);
      }
      var item := items[id];
      if id in evidence || item.status == Confirmed {
        return Some(AlreadyConfirmed);
      }
      if item.status == Submitted {
        return if item.hash != Some(hash) then Some(SubmissionConflict) else None;
      }
      if item.status != Planned || run !in {RunPlanned, Submitting, RunSubmitted} {
        return Some(NotSubmittable);
      }
      if hash in otherHashes || exists other :: other in items && items[other].hash == Some(hash) {
        return Some(ResourceAlreadyExists);
      }
      items := items[id := item.(status := Submitted, hash := Some(hash))];
      if run == RunPlanned {
        run := Submitting;
      }
      return None;
    }

    method AcceptSettlementEvidence(id: ItemId, e: Evidence, recipient: string, allowed: bool) returns (r: Option<Error>)
      modifies this
      ensures Rows() == After(old(Rows()), DoAccept(id, e, recipient, allowed))
      ensures r == match Accept(old(Rows()), id, e, recipient, allowed) case Ok(_) => None case Err(x) => Some(x)
      ensures Inv(old(Rows())) ==> Inv(Rows()) && Advances(old(Rows()), Rows())
    {
      hide Inv, Advances;
      if Inv(Rows()) { StepKeepsInv(Rows(), DoAccept(id, e, recipient, allowed)); }
      if e.ledger <= 0 || e.operation < 0 || e.amount < 0 {
        return Some(InvalidEvidence);
      }
      if id !in items {
        return Some(NotFound);
      }
      if !allowed {
        return Some(Forbidden);
      }
      if id in evidence {
        var existing := evidence[id];
        if existing.hash != e.hash || existing.amount != e.amount || existing.reference != e.reference {
          return Some(EvidenceConflict);
        }
        return None;
      }
      var item := items[id];
      if item.status != Submitted || item.hash != Some(e.hash) {
        return Some(NotSubmitted);
      }
      if item.recipient != recipient || item.payout != e.amount {
        return Some(EvidenceMismatch);
      }
      if (e.hash, e.operation) in otherOperations
         || exists other :: other in evidence && evidence[other].hash == e.hash && evidence[other].operation == e.operation {
        return Some(ResourceAlreadyExists);
      }
      if e.reference in otherReferences || exists other :: other in evidence && evidence[other].reference == e.reference {
        return Some(ResourceAlreadyExists);
      }
      evidence := evidence[id := e];
      items := items[id := item.(status := Confirmed)];
      FinalizeRun();
      return None;
    }

    /** finalize_if_complete */
    method FinalizeRun()
      modifies this
      ensures Rows() == FinalizeIfComplete(old(Rows()))
    {
      if exists id :: id in items && items[id].status != Confirmed {
        return;
      }
      run := RunConfirmed;
      positions := map p | p in positions :: ClosedAs(kind, positions[p]);
      if market == Settling {
        market := Settled;
      }
    }
  }
}
