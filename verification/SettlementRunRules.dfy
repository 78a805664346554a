/** When exactly a settlement item is submitted and confirmed, and what that leaves, in plain
    terms. */
module SettlementRunRules {
  import opened Wrappers
  import opened SettlementRun

  /** An item is submitted exactly while it is planned, by a caller the policy allows, with a
      transaction nobody else has; the same submission again changes nothing. */
  lemma SubmitIff(s: State, id: ItemId, hash: Hash, allowed: bool)
    requires Inv(s)
    ensures var r := Submit(s, id, hash, allowed);
            && (r.Ok? <==>
                  && id in s.items && allowed
                  && (|| (s.items[id].status == Submitted && s.items[id].hash == Some(hash))
                      || (s.items[id].status == Planned && hash !in s.otherHashes
                          && forall i :: i in s.items ==> s.items[i].hash != Some(hash))))
            && (r.Ok? && s.items[id].status == Submitted ==> r.value == s)
            && (r.Ok? && s.items[id].status == Planned ==>
                  r.value == s.(items := s.items[id := s.items[id].(status := Submitted, hash := Some(hash))], run := Submitting))
  {
    if id in s.items {
      ItemIs(s, id);
      if s.items[id].status == Planned {
        NotOver(s, id);
      }
    }
    hide Inv;
  }

  lemma ItemIs(s: State, id: ItemId)
    requires Inv(s) && id in s.items
    ensures s.items[id].status in {Planned, Submitted, Confirmed}
    ensures id in s.evidence <==> s.items[id].status == Confirmed
  {
    assert ItemOk(s.items[id], ProofOf(s, id));
  }

  lemma NotOver(s: State, id: ItemId)
    requires Inv(s) && id in s.items && s.items[id].status != Confirmed
    ensures s.run in {RunPlanned, Submitting}
  {
  }

  /** A payment on the ledger that no other item or run has. */
  ghost predicate Unused(s: State, e: Evidence) {
    && (e.hash, e.operation) !in s.otherOperations && e.reference !in s.otherReferences
    && forall i :: i in s.evidence ==> (s.evidence[i].hash != e.hash || s.evidence[i].operation != e.operation) && s.evidence[i].reference != e.reference
  }

  lemma UnusedIs(s: State, e: Evidence)
    ensures Unused(s, e) <==> !OperationInUse(s, e.hash, e.operation) && !ReferenceInUse(s, e.reference)
  {
  }

  /** An item is confirmed exactly by evidence of its own transaction that pays its payout to its
      recipient, and that no other item has. */
  lemma AcceptIff(s: State, id: ItemId, e: Evidence, recipient: string, allowed: bool)
    requires Inv(s)
    ensures Accept(s, id, e, recipient, allowed).Ok? <==>
              && e.ledger >= 1 && e.operation >= 0 && e.amount >= 0 && id in s.items && allowed
              && (id in s.evidence ==>
                    s.evidence[id].hash == e.hash && s.evidence[id].amount == e.amount && s.evidence[id].reference == e.reference)
              && (id !in s.evidence ==>
                    && s.items[id].status == Submitted && s.items[id].hash == Some(e.hash)
                    && s.items[id].recipient == recipient && s.items[id].payout == e.amount && Unused(s, e))
    ensures Accept(s, id, e, recipient, allowed).Ok? && id in s.evidence ==> Accept(s, id, e, recipient, allowed).value == s
  {
    UnusedIs(s, e);
    hide Inv, OperationInUse, ReferenceInUse, FinalizeIfComplete, Confirm, Unused;
  }

  /** Every other item is confirmed. */
  ghost predicate LastOne(s: State, id: ItemId) {
    forall i :: i in s.items && i != id ==> s.items[i].status == Confirmed
  }

  /** The confirmation of the last item closes the run, settles or refunds the positions that are
      active, and settles the market if it is settling. */
  lemma AcceptDoes(s: State, id: ItemId, e: Evidence, recipient: string, allowed: bool)
    requires Inv(s) && Accept(s, id, e, recipient, allowed).Ok? && id in s.items && id !in s.evidence
    ensures var s' := Accept(s, id, e, recipient, allowed).value;
            && s' == s.(items := s.items[id := s.items[id].(status := Confirmed)], evidence := s.evidence[id := e],
                        run := s'.run, market := s'.market, positions := s'.positions)
            && s'.run == (if LastOne(s, id) then RunConfirmed else s.run)
            && s'.market == (if LastOne(s, id) && s.market == Settling then Settled else s.market)
            && s'.positions.Keys == s.positions.Keys
            && (forall p :: p in s.positions ==>
                  s'.positions[p] == if !LastOne(s, id) || s.positions[p] != Active then s.positions[p]
                                     else if s.kind == Refund then PositionRefunded else PositionSettled)
  {
    LastIs(s, id, e);
    hide Inv, OperationInUse, ReferenceInUse, AllConfirmed, LastOne;
  }

  lemma LastIs(s: State, id: ItemId, e: Evidence)
    requires id in s.items
    ensures AllConfirmed(Confirm(s, id, e)) <==> LastOne(s, id)
  {
    var c := Confirm(s, id, e);
    forall i | i in s.items && i != id
      ensures c.items[i] == s.items[i]
    {
    }
  }

  /** What brought an item to its status. */
  ghost predicate Allowed(s: State, step: Step, id: ItemId, item': Item)
    requires id in s.items
  {
    var item := s.items[id];
    match step
    case DoSubmit(submitted, hash, allowed) =>
      submitted == id && allowed && item.status == Planned && item' == item.(status := Submitted, hash := Some(hash))
    case DoAccept(accepted, e, recipient, allowed) =>
      && accepted == id && allowed && item.status == Submitted && item' == item.(status := Confirmed)
      && item.hash == Some(e.hash) && item.recipient == recipient && e.amount == item.payout
    case _ => false
  }

  lemma StepMoves(s: State, step: Step, id: ItemId)
    requires Inv(s) && id in s.items
    ensures id in After(s, step).items
    ensures After(s, step).items[id] != s.items[id] ==> Allowed(s, step, id, After(s, step).items[id])
  {
    hide Inv, Submit, Accept;
    match step
    case DoSubmit(submitted, hash, allowed) => SubmitIff(s, submitted, hash, allowed);
    case DoAccept(accepted, e, recipient, allowed) =>
      AcceptIff(s, accepted, e, recipient, allowed);
      if accepted in s.items && accepted !in s.evidence && Accept(s, accepted, e, recipient, allowed).Ok? {
        AcceptDoes(s, accepted, e, recipient, allowed);
      }
    case _ =>
  }

  /** In every run from a fresh plan, each confirmed item was confirmed by a step that brought
      evidence of its payout to its recipient in the transaction that was submitted for it. */
  lemma {:induction false} ConfirmedByEvidence(s: State, steps: seq<Step>, id: ItemId) returns (at: nat)
    requires Inv(s) && id in s.items && s.items[id].status != Confirmed
    ensures Inv(Run(s, steps)) && id in Run(s, steps).items
    ensures Run(s, steps).items[id].status == Confirmed ==>
              && at < |steps| && steps[at].DoAccept? && steps[at].id == id && id in Run(s, steps[..at]).items
              && Allowed(Run(s, steps[..at]), steps[at], id, Run(s, steps).items[id])
  {
    hide After, Allowed, Inv;
    at := |steps|;
    if |steps| > 0 {
      var before, step := steps[..|steps| - 1], steps[|steps| - 1];
      var t := Run(s, before);
      at := ConfirmedByEvidence(s, before, id);
      StepMoves(t, step, id);
      StepKeepsInv(t, step);
      if at < |before| {
        assert steps[..at] == before[..at];
      }
      if t.items[id].status != Confirmed {
        at := |before|;
      }
      OnlyAccepting(t, step, id);
    }
  }

  lemma OnlyAccepting(s: State, step: Step, id: ItemId)
    requires Inv(s) && id in s.items && id in After(s, step).items
    ensures s.items[id].status != Confirmed && After(s, step).items[id].status == Confirmed ==> step.DoAccept? && step.id == id
    ensures s.items[id].status == Confirmed ==> After(s, step).items[id] == s.items[id]
  {
    StepMoves(s, step, id);
    hide After, Inv;
  }
}
