/** When exactly each payout request succeeds and what it leaves, and whom a batch pays, in plain
    numbers. */
module PayoutRules {
  import opened Wrappers
  import opened Payouts
  import opened PayoutsProofs
  import Decimal

  /** A transfer of so many basis points of an amount, rounded down. */
  ghost predicate PaysShare(t: Transfer, recipient: string, amount: int, bps: int) {
    t.recipient == recipient && t.expected * 10_000 <= amount * bps < (t.expected + 1) * 10_000
  }

  /** The batch pays the sale: its parties, each with their share, and the whole amount. */
  ghost predicate PaysSale(batch: Batch, sale: Sale) {
    && batch.order == sale.order && batch.amount == sale.amount && batch.asset == sale.asset && batch.payer == sale.payer
    && batch.transfers.Keys == {Candidate, Organizer, Platform}
    && PaysShare(batch.transfers[Candidate], sale.candidate, sale.amount, sale.candidateBps)
    && PaysShare(batch.transfers[Organizer], sale.organizer, sale.amount, sale.organizerBps)
    && batch.transfers[Platform].recipient == sale.platform
    && batch.transfers[Candidate].expected + batch.transfers[Organizer].expected + batch.transfers[Platform].expected == sale.amount
  }

  ghost predicate Untouched(t: Transfer) {
    t.state == Pending && t.actual == None && t.operation == None
  }

  /** Basis points that add up to the whole, and enough for each party to get something. */
  ghost predicate Divides(sale: Sale) {
    && sale.amount > 0
    && 0 <= sale.candidateBps && 0 <= sale.organizerBps && 0 <= sale.platformBps
    && sale.candidateBps + sale.organizerBps + sale.platformBps == 10_000
    && sale.amount * sale.candidateBps >= 10_000 && sale.amount * sale.organizerBps >= 10_000
    && exists c: int, o: int :: c + o < sale.amount && IsFloor(c, sale.amount * sale.candidateBps) && IsFloor(o, sale.amount * sale.organizerBps)
  }

  ghost predicate IsFloor(q: int, x: int) {
    q * 10_000 <= x < (q + 1) * 10_000
  }

  lemma FloorIs(q: int, x: int)
    ensures IsFloor(q, x) <==> q == x / 10_000
  {
  }

  lemma SplitIs(sale: Sale)
    ensures var r := CalculateSplit(sale.amount, sale.candidateBps, sale.organizerBps, sale.platformBps);
            && (Divides(sale) <==> r.Shares? && r.split.candidate > 0 && r.split.organizer > 0 && r.split.platform > 0)
            && (r.Shares? ==>
                  && IsFloor(r.split.candidate, sale.amount * sale.candidateBps)
                  && IsFloor(r.split.organizer, sale.amount * sale.organizerBps)
                  && r.split.candidate + r.split.organizer + r.split.platform == sale.amount)
  {
    var x, y := sale.amount * sale.candidateBps, sale.amount * sale.organizerBps;
    FloorIs(x / 10_000, x);
    FloorIs(y / 10_000, y);
    if Divides(sale) {
      var c: int, o: int :| c + o < sale.amount && IsFloor(c, x) && IsFloor(o, y);
      FloorIs(c, x);
      FloorIs(o, y);
    }
  }

  /** A batch is added exactly for an eligible, divisible sale with a new key and no batch yet, and
      it pays that sale. */
  lemma CreateIff(s: State, sale: Sale, eligible: bool, key: string, request: string, id: BatchId)
    requires id !in s.batches
    ensures var r := Create(s, sale, eligible, key, request, id);
            var known := exists b :: b in s.batches && s.batches[b].key == key;
            && (r.Ok? <==>
                  && eligible && Divides(sale)
                  && (if known then forall b :: b in s.batches && s.batches[b].key == key ==> s.batches[b].request == request
                      else forall b :: b in s.batches ==> s.batches[b].order != sale.order))
            && (r.Ok? && known ==> r.value == s)
            && (r.Ok? && !known ==>
                  && id in r.value.batches && r.value == s.(batches := s.batches[id := r.value.batches[id]])
                  && IsNew(r.value.batches[id], sale, key, request))
  {
    SplitIs(sale);
    hide CalculateSplit, Divides;
  }

  ghost predicate IsNew(batch: Batch, sale: Sale, key: string, request: string) {
    && PaysSale(batch, sale) && batch.key == key && batch.request == request
    && batch.status == Prepared && batch.confirmedCount == 0 && batch.hash == None && !batch.failed
    && (forall r :: r in batch.transfers ==> Untouched(batch.transfers[r]))
  }

  /** A prepared batch is submitted with the hash the response carries; a repeated submission
      changes nothing. */
  lemma SubmitIff(s: State, id: BatchId, hash: string, responseHash: Option<string>)
    requires Inv(s)
    ensures var r := Submit(s, id, hash, responseHash);
            && (r.Ok? <==>
                  && responseHash == Some(hash) && id in s.batches
                  && (s.batches[id].status == Prepared
                      || (s.batches[id].status in {Submitted, Partial, Confirmed} && s.batches[id].hash == Some(hash))))
            && (r.Ok? && s.batches[id].status != Prepared ==> r.value == s)
            && (r.Ok? && s.batches[id].status == Prepared ==>
                  && id in r.value.batches && r.value == s.(batches := s.batches[id := r.value.batches[id]])
                  && var b, b' := s.batches[id], r.value.batches[id];
                     && b' == b.(status := Submitted, hash := Some(hash), failed := false, transfers := b'.transfers)
                     && b'.transfers.Keys == b.transfers.Keys
                     && forall x :: x in b.transfers ==> b'.transfers[x] == b.transfers[x].(state := InFlight))
  {
    if id in s.batches && s.batches[id].status == Prepared {
      assert BatchOk(s.batches[id]);
      AllPending(s.batches[id]);
    }
    hide Inv, BatchOk;
  }

  lemma AllPending(batch: Batch)
    requires BatchOk(batch) && batch.status == Prepared
    ensures forall r :: r in batch.transfers ==> batch.transfers[r].state == Pending
  {
    forall r | r in batch.transfers
      ensures batch.transfers[r].state == Pending
    {
      assert TransferOk(batch, batch.transfers[r]);
    }
  }

  /** A failure drops what is still in flight; what was confirmed stays. */
  lemma FailIff(s: State, id: BatchId)
    ensures var r := Fail(s, id);
            && (r.Ok? <==> id in s.batches && s.batches[id].status in {Submitted, Partial})
            && (r.Ok? ==>
                  && id in r.value.batches && r.value == s.(batches := s.batches[id := r.value.batches[id]])
                  && var b, b' := s.batches[id], r.value.batches[id];
                     && b' == b.(status := b'.status, failed := true, transfers := b'.transfers)
                     && b'.status == (if b.confirmedCount >= 1 then Partial else BatchFailed)
                     && b'.transfers.Keys == b.transfers.Keys
                     && forall x :: x in b.transfers ==>
                          b'.transfers[x] == if b.transfers[x].state == InFlight then b.transfers[x].(state := Failed) else b.transfers[x])
  {
  }

  /** The report and the chain's own record are the successful payment the plan asked for. */
  ghost predicate Proves(batch: Batch, t: Transfer, e: Evidence) {
    && batch.status in {Submitted, Partial} && t.state == InFlight && e.successful
    && batch.hash == Some(e.hash) && e.source == batch.payer && e.recipient == t.recipient
    && e.amount == t.expected && e.asset == batch.asset
    && e.raw.kind == Some("payment") && e.raw.hash == Some(e.hash)
    && e.raw.operation == Some(e.operation) && e.raw.ledger == Some(e.ledger)
    && e.raw.source == Some(batch.payer) && e.raw.to == Some(t.recipient)
    && e.raw.amount.Some? && Decimal.Minor(e.raw.amount.value, batch.asset.scale) == Some(t.expected)
    && (if batch.asset.code == "XLM" then e.raw.assetType == Some("native")
        else e.raw.assetCode == Some(batch.asset.code) && e.raw.assetIssuer == batch.asset.issuer)
  }

  lemma ProvesIff(batch: Batch, t: Transfer, e: Evidence)
    ensures Reconcile(batch, t, e) == None <==> Proves(batch, t, e)
  {
    MatchesIff(batch, t, e);
    hide Decimal.Minor, Reconcile;
  }

  /** One transfer is settled, and the batch counts it. */
  ghost predicate Counted(b: Batch, b': Batch, e: Evidence) {
    && e.role in b.transfers
    && b' == b.(transfers := b.transfers[e.role := b.transfers[e.role].(state := Settled, actual := Some(e.amount), operation := Some(e.operation))],
                confirmedCount := b.confirmedCount + 1, failed := false,
                status := if b.confirmedCount + 1 == 3 then Confirmed else Partial)
  }

  lemma SettlingCounts(batch: Batch, e: Evidence)
    requires BatchOk(batch) && e.role in batch.transfers && batch.transfers[e.role].state == InFlight
    ensures Counted(batch, Settling(batch, e), e)
  {
    assert batch.transfers.Keys == {Candidate, Organizer, Platform};
  }

  lemma NumbersOk(s: State, id: BatchId, e: Evidence)
    ensures Prove(s, id, e).Ok? <==>
            && e.operation >= 0 && e.amount >= 0 && e.ledger >= 1 && 0 <= e.asset.scale <= 7
            && id in s.batches && e.role in s.batches[id].transfers
            && var at := OperationKey(e.hash, e.operation);
               if at in s.evidence
               then s.evidence[at].batch == id && s.evidence[at].role == e.role && s.evidence[at].digest == e.digest
               else s.batches[id].transfers[e.role].state != Settled
  {
    hide RawFailure, Settling;
  }

  /** Evidence of a ledger operation is judged once: it settles the transfer exactly if it proves
      it, and is recorded as refused otherwise. */
  lemma ProveIff(s: State, id: BatchId, e: Evidence)
    requires Inv(s) && Prove(s, id, e).Ok?
    ensures var s', at := Prove(s, id, e).value, OperationKey(e.hash, e.operation);
            && id in s.batches && e.role in s.batches[id].transfers
            && (at in s.evidence ==> s' == s)
            && (at !in s.evidence ==>
                  var b := s.batches[id];
                  var accepted := Proves(b, b.transfers[e.role], e);
                  && s'.evidence == s.evidence[at := Recorded(id, e.role, e.digest, accepted, e.amount)]
                  && (!accepted ==> s'.batches == s.batches)
                  && (accepted ==> id in s'.batches && s'.batches == s.batches[id := s'.batches[id]] && Counted(b, s'.batches[id], e)))
  {
    NumbersOk(s, id, e);
    var b := s.batches[id];
    ProvesIff(b, b.transfers[e.role], e);
    assert BatchOk(b);
    hide Inv, BatchOk, Reconcile, Proves, Counted, Settling;
    if b.transfers[e.role].state == InFlight {
      SettlingCounts(b, e);
    }
    InFlightWhenProven(b, b.transfers[e.role], e);
  }

  lemma InFlightWhenProven(batch: Batch, t: Transfer, e: Evidence)
    ensures Proves(batch, t, e) ==> t.state == InFlight
  {
    hide Decimal.Minor;
  }

  // ----- whom a batch pays, over runs -----

  /** The plan of a batch, with whatever became of it. */
  ghost predicate SamePlan(b: Batch, b': Batch) {
    && b'.order == b.order && b'.amount == b.amount && b'.asset == b.asset && b'.payer == b.payer
    && b'.transfers.Keys == b.transfers.Keys
    && forall r :: r in b.transfers ==> b'.transfers[r].recipient == b.transfers[r].recipient && b'.transfers[r].expected == b.transfers[r].expected
  }

  lemma SamePlanPays(b: Batch, b': Batch, sale: Sale)
    requires SamePlan(b, b') && PaysSale(b, sale)
    ensures PaysSale(b', sale)
  {
    assert Candidate in b.transfers && Organizer in b.transfers && Platform in b.transfers;
  }

  lemma CountedKeepsPlan(b: Batch, b': Batch, e: Evidence)
    requires Counted(b, b', e)
    ensures SamePlan(b, b')
  {
  }

  lemma PlanStays(b: Batch)
    ensures SamePlan(b, b)
  {
  }

  lemma ProveKeepsPlan(s: State, other: BatchId, sent: Evidence, id: BatchId)
    requires Inv(s) && id in s.batches && Prove(s, other, sent).Ok?
    ensures var s' := Prove(s, other, sent).value; id in s'.batches && SamePlan(s.batches[id], s'.batches[id])
  {
    ProveIff(s, other, sent);
    PlanStays(s.batches[id]);
    hide Prove, Inv, Proves, Counted, SamePlan;
    var s' := Prove(s, other, sent).value;
    if id == other && s'.batches != s.batches {
      CountedKeepsPlan(s.batches[id], s'.batches[id], sent);
    }
  }

  lemma SubmitKeepsPlan(s: State, other: BatchId, hash: string, responseHash: Option<string>, id: BatchId)
    requires Inv(s) && id in s.batches && Submit(s, other, hash, responseHash).Ok?
    ensures var s' := Submit(s, other, hash, responseHash).value; id in s'.batches && SamePlan(s.batches[id], s'.batches[id])
  {
    SubmitIff(s, other, hash, responseHash);
    hide Submit, Inv;
  }

  lemma FailKeepsPlan(s: State, other: BatchId, id: BatchId)
    requires id in s.batches && Fail(s, other).Ok?
    ensures var s' := Fail(s, other).value; id in s'.batches && SamePlan(s.batches[id], s'.batches[id])
  {
    FailIff(s, other);
    hide Fail;
  }

  lemma StepKeepsPlan(s: State, step: Step, id: BatchId)
    requires Inv(s) && id in s.batches
    ensures id in After(s, step).batches && SamePlan(s.batches[id], After(s, step).batches[id])
  {
    hide Create, Submit, Prove, Fail, Inv;
    if Invoke(s, step).Ok? {
      match step
      case DoCreate(sale, eligible, key, request, created) =>
        CreateKeepsBatches(s, sale, eligible, key, request, created, id);
      case DoSubmit(other, hash, responseHash) =>
        SubmitKeepsPlan(s, other, hash, responseHash, id);
      case DoProve(other, sent) =>
        ProveKeepsPlan(s, other, sent, id);
      case DoFail(other) =>
        FailKeepsPlan(s, other, id);
    }
  }

  lemma StepAddsPlan(s: State, step: Step, id: BatchId)
    requires id !in s.batches && id in After(s, step).batches
    ensures step.DoCreate? && step.created == id && PaysSale(After(s, step).batches[id], step.sale)
  {
    match step
    case DoCreate(sale, eligible, key, request, created) =>
      if created !in s.batches {
        CreateIff(s, sale, eligible, key, request, created);
      }
    case DoSubmit(_, _, _) =>
    case DoProve(_, _) => hide RawFailure, Settling, Reconcile;
    case DoFail(_) =>
  }

  /** Every batch pays a sale it was requested for. */
  lemma {:induction false} BatchesPayTheirSale(steps: seq<Step>, id: BatchId) returns (at: nat)
    requires id in Run(INIT, steps).batches
    ensures at < |steps| && steps[at].DoCreate? && steps[at].created == id && PaysSale(Run(INIT, steps).batches[id], steps[at].sale)
  {
    hide After, PaysSale, SamePlan;
    at := |steps|;
    if |steps| > 0 {
      var before, step := steps[..|steps| - 1], steps[|steps| - 1];
      var s := Run(INIT, before);
      PayoutsHold(before);
      if id in s.batches {
        at := BatchesPayTheirSale(before, id);
        StepKeepsPlan(s, step, id);
        SamePlanPays(s.batches[id], After(s, step).batches[id], steps[at].sale);
      } else {
        at := |steps| - 1;
        StepAddsPlan(s, step, id);
      }
    }
  }

  /** A confirmed batch has paid every party of its sale, each with a ledger operation. */
  lemma ConfirmedPaysTheSale(steps: seq<Step>, id: BatchId) returns (at: nat)
    requires id in Run(INIT, steps).batches && Run(INIT, steps).batches[id].status == Confirmed
    ensures at < |steps| && steps[at].DoCreate? && steps[at].created == id
    ensures var b, sale := Run(INIT, steps).batches[id], steps[at].sale;
            && PaysSale(b, sale)
            && (forall r :: r in b.transfers ==>
                  b.transfers[r].state == Settled && b.transfers[r].actual == Some(b.transfers[r].expected) && b.transfers[r].operation.Some?)
  {
    hide PaysSale;
    at := BatchesPayTheirSale(steps, id);
    PayoutsHold(steps);
    hide Run;
    AllSettled(Run(INIT, steps).batches[id]);
  }

  lemma AllSettled(batch: Batch)
    requires BatchOk(batch) && batch.status == Confirmed
    ensures forall r :: r in batch.transfers ==>
              batch.transfers[r].state == Settled && batch.transfers[r].actual == Some(batch.transfers[r].expected) && batch.transfers[r].operation.Some?
  {
    forall r | r in batch.transfers
      ensures TransferOk(batch, batch.transfers[r]) && SettledOne(batch, r) == 1
    {
      assert TransferOk(batch, batch.transfers[r]);
    }
  }
}
