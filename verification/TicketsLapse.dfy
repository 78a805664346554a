/** A run in which a paid reservation lapses. */
module TicketsLapse {
  import opened Wrappers
  import opened MapSums
  import opened Tickets
  import opened TicketsProofs

  /** Two buyers who ask for one ticket each of a product. */
  predicate TwoBuyers(p: ProductId, first: Request, second: Request) {
    && first.product == p && first.quantity == 1 && first.buyerValid
    && second.product == p && second.quantity == 1 && second.buyerValid
    && first.key != second.key && first.reservation != second.reservation && first.order != second.order
  }

  /** The first one reserves and pays at once; a quarter of an hour later the second one comes. */
  function LapsingRun(p: ProductId, first: Request, second: Request): seq<Step> {
    [ProductAdded(p, None, 1, 5, 0, 2000),
     SaleSet(p, true),
     DoReserve(first, []),
     PaymentArrives(first.order, true),
     ClockAdvances(900),
     DoReserve(second, [first.reservation])]
  }

  function OnSale(p: ProductId, reserved: int): map<ProductId, Product> {
    map[p := Product(None, reserved, 0, 1, 5, true, 0, 2000)]
  }

  function Held(q: Request, status: ReservationStatus): map<ReservationId, Reservation> {
    map[q.reservation := Reservation(q.product, q.order, q.buyer, 1, status, q.key, 900)]
  }

  function Ordered(q: Request, status: OrderStatus): map<OrderId, Order> {
    map[q.order := Order(status, q.key, q.product, 1, true)]
  }

  lemma StepsToSale(p: ProductId, first: Request, second: Request)
    ensures var t := LapsingRun(p, first, second);
            After(After(INIT, t[0]), t[1]) == State(0, OnSale(p, 0), map[], map[], map[], {}, map[])
  {
  }

  lemma StepToReservation(p: ProductId, first: Request, second: Request)
    requires TwoBuyers(p, first, second)
    ensures var s := State(0, OnSale(p, 0), map[], map[], map[], {}, map[]);
            && Enumerates(s, p, [])
            && After(s, LapsingRun(p, first, second)[2]) ==
               State(0, OnSale(p, 1), Held(first, Reserved), Ordered(first, AwaitingPayment), map[], {}, map[])
  {
    var s := State(0, OnSale(p, 0), map[], map[], map[], {}, map[]);
    assert ReleaseAll(s, []) == s;
    assert Sum(s.reservations, TakenBy(p, first.buyer)) == 0;
    hide Sum, Issue, AcceptOwnership, OrderDirectly;
    assert Place(s, first, 0) == Ok(WithReservation(s, first));
  }

  lemma StepsToTheHour(p: ProductId, first: Request, second: Request)
    ensures var s, t := State(0, OnSale(p, 1), Held(first, Reserved), Ordered(first, AwaitingPayment), map[], {}, map[]), LapsingRun(p, first, second);
            After(After(s, t[3]), t[4]) == State(900, OnSale(p, 1), Held(first, Reserved), Ordered(first, Paid), map[], {first.order}, map[])
  {
  }

  lemma StepToLapse(p: ProductId, first: Request, second: Request)
    requires TwoBuyers(p, first, second)
    ensures var s := State(900, OnSale(p, 1), Held(first, Reserved), Ordered(first, Paid), map[], {first.order}, map[]);
            && Enumerates(s, p, [first.reservation]) && Lapsed(s, p, first.reservation)
            && Reserve(s, second, [first.reservation]).Ok?
  {
    var s := State(900, OnSale(p, 1), Held(first, Reserved), Ordered(first, Paid), map[], {first.order}, map[]);
    var released := State(900, OnSale(p, 0), Held(first, Expired), Ordered(first, Paid), map[], {first.order}, map[]);
    var ids := [first.reservation];
    assert ids[..0] == [] && ReleaseAll(s, ids[..0]) == s;
    assert ReleaseAll(s, ids) == ReleaseOne(s, first.reservation) == released;
    SumPick(released.reservations, TakenBy(p, second.buyer), first.reservation);
    assert released.reservations - {first.reservation} == map[];
    assert Sum(released.reservations, TakenBy(p, second.buyer)) == 0;
    hide Sum, ReleaseAll, ReleaseOne;
    assert Place(released, second, 0) == Ok(WithReservation(released, second));
  }

  lemma SixSteps(s: State, t: seq<Step>)
    requires |t| == 6
    requires var s3 := After(After(After(s, t[0]), t[1]), t[2]);
             && !t[0].DoReserve? && !t[0].DoIssue? && !t[1].DoReserve? && !t[1].DoIssue?
             && WellFormed(After(After(s, t[0]), t[1]), t[2])
             && !t[3].DoReserve? && !t[3].DoIssue? && !t[4].DoReserve? && !t[4].DoIssue?
             && WellFormed(After(After(s3, t[3]), t[4]), t[5])
    ensures Runs(s, t) && Runs(s, t[..5])
    ensures Run(s, t[..5]) == After(After(After(After(After(s, t[0]), t[1]), t[2]), t[3]), t[4])
    ensures Run(s, t) == After(Run(s, t[..5]), t[5])
  {
    hide After, Enumerates, IsMaxSerial;
    RunSplit(s, t, 0); RunSplit(s, t, 1); RunSplit(s, t, 2); RunSplit(s, t, 3); RunSplit(s, t, 4); RunSplit(s, t, 5);
    assert t[..6] == t;
  }

  lemma RunSplit(s: State, t: seq<Step>, n: nat)
    requires n < |t|
    ensures Run(s, t[..n + 1]) == After(Run(s, t[..n]), t[n])
    ensures Runs(s, t[..n + 1]) <==> Runs(s, t[..n]) && WellFormed(Run(s, t[..n]), t[n])
  {
    assert t[..n + 1][..n] == t[..n];
  }

  /** A reservation whose order is paid and proven has expired and can never be issued. */
  ghost predicate PaidAndLapsed(s: State, id: ReservationId, order: OrderId) {
    && id in s.reservations && s.reservations[id].order == order && s.reservations[id].status == Expired
    && order in s.orders && s.orders[order].status == Paid && order in s.evidence
  }

  function PaidInTime(p: ProductId, first: Request): State {
    State(900, OnSale(p, 1), Held(first, Reserved), Ordered(first, Paid), map[], {first.order}, map[])
  }

  lemma RunToTheHour(p: ProductId, first: Request, second: Request)
    requires TwoBuyers(p, first, second)
    ensures var t := LapsingRun(p, first, second);
            && Runs(INIT, t) && Runs(INIT, t[..5]) && Run(INIT, t[..5]) == PaidInTime(p, first)
            && Run(INIT, t) == After(PaidInTime(p, first), t[5])
  {
    StepsToSale(p, first, second);
    StepToReservation(p, first, second);
    StepsToTheHour(p, first, second);
    StepToLapse(p, first, second);
    hide Enumerates, Reserve, Place;
    SixSteps(INIT, LapsingRun(p, first, second));
  }

  /** Every first buyer who pays at once loses the ticket to any second one who comes a quarter of
      an hour later. */
  lemma PaidReservationCanLapse(p: ProductId, first: Request, second: Request)
    requires TwoBuyers(p, first, second)
    ensures Runs(INIT, LapsingRun(p, first, second))
    ensures PaidAndLapsed(Run(INIT, LapsingRun(p, first, second)), first.reservation, first.order)
  {
    var t, s, ids := LapsingRun(p, first, second), PaidInTime(p, first), [first.reservation];
    RunToTheHour(p, first, second);
    InventoryHolds(t[..5]);
    StepToLapse(p, first, second);
    ReleaseTouches(s, ids);
    hide Inv, Run, Runs, Enumerates, ReleaseAll, SameKey, SameRequest, OverSupply;
    assert first.order in Reserve(s, second, ids).value.evidence;
    hide Reserve;
    PaidReservationLapses(s, second, ids, first.reservation);
    LapsedKeepsOrder(s, second, ids, first.reservation);
  }

  lemma LapsedKeepsOrder(s: State, q: Request, ids: seq<ReservationId>, id: ReservationId)
    requires Inv(s) && Enumerates(s, q.product, ids) && Lapsed(s, q.product, id) && Reserve(s, q, ids).Ok?
    ensures var s' := Reserve(s, q, ids).value; id in s'.reservations && s'.reservations[id].order == s.reservations[id].order
  {
    hide Inv, SameKey, SameRequest, ReleaseAll, OverSupply;
    EnumeratedAreReserved(s, q.product, ids);
    ReleaseAllKeepsInv(s, ids);
  }

  /** For instance: the first of two requests for product 0. */
  lemma FirstBuyerLoses()
    ensures var first, second := Request(0, 0, 1, "first", true, 0, 0), Request(0, 1, 1, "second", true, 1, 1);
            && Runs(INIT, LapsingRun(0, first, second))
            && PaidAndLapsed(Run(INIT, LapsingRun(0, first, second)), 0, 0)
  {
    var first, second := Request(0, 0, 1, "first", true, 0, 0), Request(0, 1, 1, "second", true, 1, 1);
    assert "first"[0] != "second"[0];
    hide Runs, Run, PaidAndLapsed, LapsingRun;
    PaidReservationCanLapse(0, first, second);
  }
}
