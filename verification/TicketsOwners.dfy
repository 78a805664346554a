/** What accepted ownership evidence says about tickets and their orders in every run. */
module TicketsOwners {
  import opened Wrappers
  import opened MapSums
  import opened Tickets
  import opened TicketsProofs

  /** A ticket is issued exactly when its mint was reported, and every mint is one ticket's. */
  ghost predicate Owned(s: State) {
    && (forall k :: k in s.owners <==> k in s.issuances && s.issuances[k].state == Issued)
    && (forall i, j :: i in s.owners && j in s.owners && i != j ==>
          s.owners[i].token != s.owners[j].token && s.owners[i].hash != s.owners[j].hash && s.owners[i].event != s.owners[j].event)
  }

  /** An order with tickets is fulfilled exactly when all of them are issued. */
  ghost predicate Delivered(s: State, o: OrderId)
    requires o in s.orders
  {
    s.orders[o].status in {Fulfilling, Fulfilled} ==> (s.orders[o].status == Fulfilled <==> AllIssued(s, o))
  }

  ghost predicate Deliveries(s: State) {
    forall o :: o in s.orders ==> Delivered(s, o)
  }

  ghost predicate OwnerInv(s: State) {
    Owned(s) && Deliveries(s)
  }

  /** Tickets and mints stay, and no order starts or ends being delivered. */
  lemma TicketsUntouched(s: State, s': State)
    requires OwnerInv(s) && s'.issuances == s.issuances && s'.owners == s.owners
    requires forall o :: o in s'.orders && s'.orders[o].status in {Fulfilling, Fulfilled} ==>
               o in s.orders && s.orders[o].status == s'.orders[o].status
    ensures OwnerInv(s')
  {
    forall o | o in s'.orders
      ensures Delivered(s', o)
    {
      if o in s.orders {
        assert Delivered(s, o);
      }
    }
  }

  lemma {:induction false} ReleaseDeliversNothing(s: State, ids: seq<ReservationId>)
    ensures var s' := ReleaseAll(s, ids);
            forall o :: o in s'.orders && s'.orders[o].status in {Fulfilling, Fulfilled} ==>
              o in s.orders && s.orders[o].status == s'.orders[o].status
  {
    if |ids| > 0 {
      ReleaseDeliversNothing(s, ids[..|ids| - 1]);
    }
  }

  lemma PlacingDeliversNothing(s: State, q: Request, taken: int)
    requires Place(s, q, taken).Ok?
    ensures var s' := Place(s, q, taken).value;
            && s'.issuances == s.issuances && s'.owners == s.owners
            && forall o :: o in s'.orders && s'.orders[o].status in {Fulfilling, Fulfilled} ==>
                 o in s.orders && s.orders[o].status == s'.orders[o].status
  {
    hide SameKey, SameRequest, OverSupply, Open;
  }

  lemma ReserveKeepsOwners(s: State, q: Request, ids: seq<ReservationId>)
    requires OwnerInv(s) && Reserve(s, q, ids).Ok?
    ensures OwnerInv(Reserve(s, q, ids).value)
  {
    hide OwnerInv, Place, ReleaseAll;
    var released := ReleaseAll(s, ids);
    ReleaseTouches(s, ids);
    ReleaseDeliversNothing(s, ids);
    PlacingDeliversNothing(released, q, Sum(released.reservations, TakenBy(q.product, q.buyer)));
    TicketsUntouched(s, Reserve(s, q, ids).value);
  }

  /** The tickets of other orders stay as they are. */
  lemma OtherTickets(s: State, s': State, o: OrderId)
    requires s.issuances.Keys <= s'.issuances.Keys
    requires forall k :: k in s.issuances && s.issuances[k].forOrder == o ==> s'.issuances[k] == s.issuances[k]
    requires forall k :: k in s'.issuances && s'.issuances[k].forOrder == o ==> k in s.issuances && s.issuances[k].forOrder == o
    ensures AllIssued(s', o) <==> AllIssued(s, o)
  {
    if AllIssued(s', o) {
      forall k | k in s.issuances && s.issuances[k].forOrder == o
        ensures s.issuances[k].state == Issued
      {
        assert s'.issuances[k] == s.issuances[k];
      }
    }
  }

  /** One order gets a new status, and only its tickets change. */
  lemma OneDelivery(s: State, s': State, order: OrderId)
    requires Deliveries(s) && order in s'.orders && Delivered(s', order)
    requires forall o :: o in s'.orders && o != order ==> o in s.orders && s'.orders[o] == s.orders[o]
    requires s.issuances.Keys <= s'.issuances.Keys
    requires forall k :: k in s.issuances && s.issuances[k].forOrder != order ==> s'.issuances[k] == s.issuances[k]
    requires forall k :: k in s.issuances && s.issuances[k].forOrder == order ==> s'.issuances[k].forOrder == order
    requires forall k :: k in s'.issuances && k !in s.issuances ==> s'.issuances[k].forOrder == order
    ensures Deliveries(s')
  {
    forall o | o in s'.orders
      ensures Delivered(s', o)
    {
      if o != order {
        assert Delivered(s, o);
        hide AllIssued;
        OtherTickets(s, s', o);
      }
    }
  }

  lemma ConvertingKeepsOwners(s: State, id: ReservationId, from: nat)
    requires Numbered(s) && OwnerInv(s) && Joined(s, id) && s.reservations[id].quantity > 0 && from == |s.issuances|
    requires s.orders[s.reservations[id].order].status == Paid
    ensures OwnerInv(Converting(s, id, from))
  {
    var s', r := Converting(s, id, from), s.reservations[id];
    TicketsAdded(s.issuances, r.product, r.order, from, r.quantity);
    hide WithTickets;
    var first: nat := from + 1;
    assert s'.issuances[first] == Issuance(r.product, r.order, Pending);
    assert !AllIssued(s', r.order);
    OneDelivery(s, s', r.order);
  }

  /** New tickets are pending, and the order they belong to starts to be delivered. */
  lemma IssueKeepsOwners(s: State, id: ReservationId, hasWallet: bool, serial: nat)
    requires Inv(s) && OwnerInv(s) && IsMaxSerial(s.issuances, serial) && Issue(s, id, hasWallet, serial).Ok?
    ensures OwnerInv(Issue(s, id, hasWallet, serial).value)
  {
    hide OwnerInv, Products, Limits, Links, Numbered, TicketOk, Converting, HasTickets, IsMaxSerial;
    if Issue(s, id, hasWallet, serial).value != s {
      QuantityIsPositive(s, id);
      MaxSerialIsCount(s, serial);
      ConvertingKeepsOwners(s, id, serial);
    }
  }

  lemma OwningKeepsOwned(s: State, serial: nat, e: Ownership)
    requires Owned(s) && serial in s.issuances && s.issuances[serial].state == Pending && !SharedMint(s, e)
    ensures Owned(WithOwner(s, serial, e))
  {
  }

  lemma OwningKeepsOwners(s: State, serial: nat, e: Ownership, status: OrderStatus)
    requires OwnerInv(s) && serial in s.issuances && s.issuances[serial].state == Pending && !SharedMint(s, e)
    requires s.issuances[serial].forOrder in s.orders
    requires s.orders[s.issuances[serial].forOrder].status in {Fulfilling, Fulfilled}
    requires status == if AllIssued(WithOwner(s, serial, e), s.issuances[serial].forOrder) then Fulfilled else Fulfilling
    ensures var order := s.issuances[serial].forOrder;
            OwnerInv(WithOwner(s, serial, e).(orders := s.orders[order := s.orders[order].(status := status)]))
  {
    var order := s.issuances[serial].forOrder;
    var s1 := WithOwner(s, serial, e);
    var s' := s1.(orders := s.orders[order := s.orders[order].(status := status)]);
    OwningKeepsOwned(s, serial, e);
    assert Owned(s') <==> Owned(s1);
    hide SharedMint, Owned, Deliveries;
    assert AllIssued(s', order) <==> AllIssued(s1, order);
    hide AllIssued;
    OneDelivery(s, s', order);
  }

  /** What is left when accepting evidence changes something. */
  lemma AcceptedIs(s: State, serial: nat, e: Ownership, wallet: Option<string>)
    requires AcceptOwnership(s, serial, e, wallet).Ok? && AcceptOwnership(s, serial, e, wallet).value != s
    ensures serial in s.issuances && s.issuances[serial].state == Pending && !SharedMint(s, e)
    ensures var order := s.issuances[serial].forOrder;
            order in s.orders && s.orders[order].status == Fulfilling ==>
              var status := if AllIssued(WithOwner(s, serial, e), order) then Fulfilled else Fulfilling;
              AcceptOwnership(s, serial, e, wallet).value ==
              WithOwner(s, serial, e).(orders := s.orders[order := s.orders[order].(status := status)])
  {
    hide SharedMint, AllIssued;
    var order := s.issuances[serial].forOrder;
    if order in s.orders && s.orders[order].status == Fulfilling {
      assert s.orders[order := s.orders[order].(status := Fulfilling)] == s.orders;
    }
  }

  /** The report of a mint issues one ticket; the last one fulfils the order. */
  lemma AcceptanceKeepsOwners(s: State, serial: nat, e: Ownership, wallet: Option<string>)
    requires Inv(s) && OwnerInv(s) && AcceptOwnership(s, serial, e, wallet).Ok?
    ensures OwnerInv(AcceptOwnership(s, serial, e, wallet).value)
  {
    hide Inv, OwnerInv, AcceptOwnership, WithOwner, AllIssued, SharedMint;
    if AcceptOwnership(s, serial, e, wallet).value != s {
      AcceptedIs(s, serial, e, wallet);
      TicketIsBeingDelivered(s, serial);
      PendingIsNotFulfilled(s, serial);
      var order := s.issuances[serial].forOrder;
      OwningKeepsOwners(s, serial, e, if AllIssued(WithOwner(s, serial, e), order) then Fulfilled else Fulfilling);
    }
  }

  lemma PendingIsNotFulfilled(s: State, serial: nat)
    requires OwnerInv(s) && serial in s.issuances && s.issuances[serial].state == Pending && s.issuances[serial].forOrder in s.orders
    ensures s.orders[s.issuances[serial].forOrder].status != Fulfilled
  {
    var order := s.issuances[serial].forOrder;
    assert Delivered(s, order);
    assert !AllIssued(s, order);
  }

  /** A ticket belongs to an order that is being delivered or has been. */
  lemma TicketIsBeingDelivered(s: State, serial: nat)
    requires Inv(s) && serial in s.issuances
    ensures var o := s.issuances[serial].forOrder; o in s.orders && s.orders[o].status in {Fulfilling, Fulfilled}
  {
    hide Products, Limits, Numbered;
    assert TicketOk(s, s.issuances[serial]);
    var id :| id in s.reservations && s.reservations[id].order == s.issuances[serial].forOrder;
    assert Linked(s, id);
    assert HasTickets(s, s.issuances[serial].forOrder);
    if s.reservations[id].status != Converted {
      NoTicketsYet(s, id);
    }
  }

  lemma StepKeepsOwners(s: State, step: Step)
    requires Inv(s) && WellFormed(s, step) && OwnerInv(s)
    ensures OwnerInv(After(s, step))
  {
    hide Inv, OwnerInv, Reserve, Issue, AcceptOwnership, Enumerates, IsMaxSerial, OverSupply;
    match step
    case DoReserve(q, ids) => if Reserve(s, q, ids).Ok? { ReserveKeepsOwners(s, q, ids); }
    case DoOrder(_, _, _, _) => TicketsUntouched(s, After(s, step));
    case DoIssue(id, hasWallet, serial) => if Issue(s, id, hasWallet, serial).Ok? { IssueKeepsOwners(s, id, hasWallet, serial); }
    case DoAcceptOwnership(ticket, e, wallet) => if AcceptOwnership(s, ticket, e, wallet).Ok? { AcceptanceKeepsOwners(s, ticket, e, wallet); }
    case PaymentArrives(_, _) => TicketsUntouched(s, After(s, step));
    case SupplySet(_, _) => TicketsUntouched(s, After(s, step));
    case SaleSet(_, _) => TicketsUntouched(s, After(s, step));
    case ProductAdded(_, _, _, _, _, _) => TicketsUntouched(s, After(s, step));
    case ClockAdvances(_) => TicketsUntouched(s, After(s, step));
  }

  /** In every reachable state issued tickets and reported mints correspond one to one, and an
      order is fulfilled exactly when all its tickets are issued. */
  lemma {:induction false} OwnersHold(steps: seq<Step>)
    requires Runs(INIT, steps)
    ensures OwnerInv(Run(INIT, steps))
  {
    hide After, WellFormed, Inv;
    if |steps| > 0 {
      hide OwnerInv;
      OwnersHold(steps[..|steps| - 1]);
      InventoryHolds(steps[..|steps| - 1]);
      StepKeepsOwners(Run(INIT, steps[..|steps| - 1]), steps[|steps| - 1]);
    }
  }
}
