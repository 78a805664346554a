/** What every reachable state of the ticket tables keeps. */
module TicketsProofs {
  import opened Wrappers
  import opened MapSums
  import opened Tickets

  // ----- the invariant -----

  /** The two counters of a product count what they are meant to count, within the supply. */
  ghost predicate Counted(s: State, p: ProductId)
    requires p in s.products
  {
    var product := s.products[p];
    && product.reserved == Sum(s.reservations, HeldFor(p)) + Sum(s.orders, OrderedFor(p))
    && product.fulfilled == Sum(s.issuances, IssuedFor(p))
    && (product.supply.Some? ==> product.reserved + product.fulfilled <= product.supply.value)
  }

  ghost predicate WithinLimit(s: State, p: ProductId, buyer: User)
    requires p in s.products
  {
    Sum(s.reservations, TakenBy(p, buyer)) <= s.products[p].perUserLimit
  }

  /** A reservation and the order created with it. */
  ghost predicate Linked(s: State, id: ReservationId)
    requires id in s.reservations
  {
    var r := s.reservations[id];
    && r.quantity > 0 && Joined(s, id)
    && s.orders[r.order].ticketed && s.orders[r.order].item == r.product
    && Sum(s.issuances, IssuedOn(r.order)) == (if r.status == Converted then r.quantity else 0)
    && (r.status == Reserved ==> s.orders[r.order].status in {AwaitingPayment, Paid})
    && (r.status == Converted <==> s.orders[r.order].status in {Fulfilling, Fulfilled})
    && (r.status == Expired ==> s.orders[r.order].status in {OrderExpired, Paid})
  }

  /** Serials are 1 to N without a gap, and every ticket belongs to a converted reservation. */
  ghost predicate Numbered(s: State) {
    forall k :: k in s.issuances <==> 1 <= k <= |s.issuances|
  }

  ghost predicate TicketOk(s: State, ticket: Issuance) {
    && ticket.kind in s.products && ticket.forOrder in s.orders
    && exists id :: id in s.reservations && s.reservations[id].order == ticket.forOrder
  }

  ghost predicate OrderOk(s: State, o: Order) {
    o.item in s.products && o.count > 0 && (!o.ticketed ==> o.status in {AwaitingPayment, Paid})
  }

  ghost predicate Products(s: State) {
    forall p :: p in s.products ==> Counted(s, p)
  }

  ghost predicate Limits(s: State) {
    forall p, buyer :: p in s.products ==> WithinLimit(s, p, buyer)
  }

  ghost predicate Links(s: State) {
    && (forall id :: id in s.reservations ==> Linked(s, id))
    && (forall i, j :: i in s.reservations && j in s.reservations && i != j ==> s.reservations[i].order != s.reservations[j].order)
    && (forall o :: o in s.orders ==> OrderOk(s, s.orders[o]))
  }

  ghost predicate Serials(s: State) {
    Numbered(s) && forall k :: k in s.issuances ==> TicketOk(s, s.issuances[k])
  }

  ghost predicate Inv(s: State) {
    Products(s) && Limits(s) && Links(s) && Serials(s)
  }

  // ----- expiry -----

  lemma HeldIsPositive(s: State, p: ProductId)
    requires Links(s)
    ensures forall id :: id in s.reservations ==> 0 <= HeldFor(p)(id, s.reservations[id])
    ensures forall o :: o in s.orders ==> 0 <= OrderedFor(p)(o, s.orders[o])
  {
    forall id | id in s.reservations
      ensures 0 <= HeldFor(p)(id, s.reservations[id])
    {
      assert Linked(s, id);
    }
  }

  /** A reserved reservation is covered by its product's counter: the GREATEST clamp of the
      expiry loop and the drift check of the issue never take effect. */
  lemma CounterCovers(s: State, id: ReservationId)
    requires Products(s) && Links(s) && id in s.reservations && s.reservations[id].status == Reserved
    ensures Joined(s, id) && s.products[s.reservations[id].product].reserved >= s.reservations[id].quantity > 0
  {
    var p := s.reservations[id].product;
    assert Linked(s, id) && Counted(s, p);
    HeldIsPositive(s, p);
    SumBoundsEntry(s.reservations, HeldFor(p), id);
    SumNonNegative(s.orders, OrderedFor(p));
  }

  lemma ReleaseKeepsProducts(s: State, id: ReservationId)
    requires Inv(s) && id in s.reservations && s.reservations[id].status == Reserved
    ensures Products(ReleaseOne(s, id))
  {
    hide Limits, Serials, Counted, Linked;
    CounterCovers(s, id);
    var s' := ReleaseOne(s, id);
    forall p | p in s'.products
      ensures Counted(s', p)
    {
      assert Counted(s, p);
      ReleaseCounts(s, id, p);
    }
  }

  lemma ReleaseCounts(s: State, id: ReservationId, p: ProductId)
    requires Joined(s, id) && p in s.products && Counted(s, p) && s.reservations[id].status == Reserved
    requires s.products[s.reservations[id].product].reserved >= s.reservations[id].quantity
    requires s.reservations[id].quantity >= 0
    ensures Counted(ReleaseOne(s, id), p)
  {
    var s' := ReleaseOne(s, id);
    var r := s.reservations[id];
    SumUpdate(s.reservations, HeldFor(p), id, s'.reservations[id]);
    SumUpdate(s.orders, OrderedFor(p), r.order, s'.orders[r.order]);
    SameMap(s.orders, s'.orders, r.order);
  }

  lemma SameMap<K, V>(m: map<K, V>, m': map<K, V>, k: K)
    requires k in m && m'.Keys == m.Keys && forall j :: j in m && j != k ==> m'[j] == m[j]
    ensures m' == m[k := m'[k]]
  {
  }

  lemma ReleaseKeepsLimits(s: State, id: ReservationId)
    requires Inv(s) && id in s.reservations && s.reservations[id].status == Reserved
    ensures Limits(ReleaseOne(s, id))
  {
    hide Products, Serials;
    assert Linked(s, id);
    var s' := ReleaseOne(s, id);
    forall p, buyer | p in s'.products
      ensures WithinLimit(s', p, buyer)
    {
      assert WithinLimit(s, p, buyer);
      SumUpdate(s.reservations, TakenBy(p, buyer), id, s'.reservations[id]);
    }
  }

  lemma ReleaseKeepsLinks(s: State, id: ReservationId)
    requires Inv(s) && id in s.reservations && s.reservations[id].status == Reserved
    ensures Links(ReleaseOne(s, id))
  {
    hide Products, Limits, Serials;
    var s' := ReleaseOne(s, id);
    assert Linked(s, id);
    forall other | other in s'.reservations
      ensures Linked(s', other)
    {
      assert Linked(s, other);
    }
    forall o | o in s'.orders
      ensures OrderOk(s', s'.orders[o])
    {
      assert OrderOk(s, s.orders[o]);
    }
  }

  lemma ReleaseKeepsSerials(s: State, id: ReservationId)
    requires Serials(s) && Joined(s, id)
    ensures Serials(ReleaseOne(s, id))
  {
    var s' := ReleaseOne(s, id);
    forall k | k in s'.issuances
      ensures TicketOk(s', s'.issuances[k])
    {
      assert TicketOk(s, s.issuances[k]);
      var other :| other in s.reservations && s.reservations[other].order == s.issuances[k].forOrder;
      assert s'.reservations[other].order == s.issuances[k].forOrder;
    }
  }

  lemma ReleaseOneKeepsInv(s: State, id: ReservationId)
    requires Inv(s) && id in s.reservations && s.reservations[id].status == Reserved
    ensures Inv(ReleaseOne(s, id))
  {
    hide Products, Limits, Links, Serials, ReleaseOne;
    ReleaseKeepsProducts(s, id);
    ReleaseKeepsLimits(s, id);
    ReleaseKeepsLinks(s, id);
    JoinedRows(s, id);
    ReleaseKeepsSerials(s, id);
  }

  lemma JoinedRows(s: State, id: ReservationId)
    requires Links(s) && id in s.reservations
    ensures Joined(s, id)
  {
    assert Linked(s, id);
  }

  ghost predicate AllReserved(s: State, ids: seq<ReservationId>) {
    && (forall i :: 0 <= i < |ids| ==> ids[i] in s.reservations && s.reservations[ids[i]].status == Reserved)
    && (forall i, j :: 0 <= i < j < |ids| ==> ids[i] != ids[j])
  }

  /** The loop expires exactly the listed reservations. */
  ghost predicate ReleasedOnly(s: State, s': State, ids: seq<ReservationId>) {
    && s'.reservations.Keys == s.reservations.Keys && s'.orders.Keys == s.orders.Keys
    && s'.products.Keys == s.products.Keys && s'.issuances == s.issuances && s'.now == s.now && s'.evidence == s.evidence
    && forall id :: id in s.reservations ==>
         s'.reservations[id] == if id in ids then s.reservations[id].(status := Expired) else s.reservations[id]
  }

  lemma {:induction false} ReleaseAllKeepsInv(s: State, ids: seq<ReservationId>)
    requires Inv(s) && AllReserved(s, ids)
    ensures Inv(ReleaseAll(s, ids)) && ReleasedOnly(s, ReleaseAll(s, ids), ids)
  {
    hide Inv;
    if |ids| > 0 {
      var init, id := ids[..|ids| - 1], ids[|ids| - 1];
      ReleaseAllKeepsInv(s, init);
      var before := ReleaseAll(s, init);
      assert id !in init;
      assert before.reservations[id].status == Reserved;
      ReleaseOneKeepsInv(before, id);
      ReleasedOneOnly(s, before, init, id);
      assert ids == init + [id];
    }
  }

  /** The expiry loop leaves the clock, the tickets and the evidence alone. */
  lemma {:induction false} ReleaseTouches(s: State, ids: seq<ReservationId>)
    ensures var s' := ReleaseAll(s, ids);
            s'.now == s.now && s'.issuances == s.issuances && s'.evidence == s.evidence && s'.owners == s.owners
  {
    if |ids| > 0 {
      ReleaseTouches(s, ids[..|ids| - 1]);
    }
  }

  lemma ReleasedOneOnly(s: State, before: State, init: seq<ReservationId>, id: ReservationId)
    requires Inv(before) && ReleasedOnly(s, before, init) && id in s.reservations && id !in init
    ensures ReleasedOnly(s, ReleaseOne(before, id), init + [id])
  {
    hide Inv;
    assert Joined(before, id) by {
      LinkedRows(before, id);
    }
    var s' := ReleaseOne(before, id);
    forall other | other in s.reservations
      ensures s'.reservations[other] == if other in init + [id] then s.reservations[other].(status := Expired) else s.reservations[other]
    {
      assert other in init + [id] <==> other in init || other == id;
    }
  }

  lemma LinkedRows(s: State, id: ReservationId)
    requires Inv(s) && id in s.reservations
    ensures Joined(s, id)
  {
    JoinedRows(s, id);
  }

  // ----- reserving and ordering -----

  lemma NoTicketsFor(s: State, order: OrderId)
    requires Serials(s) && order !in s.orders
    ensures Sum(s.issuances, IssuedOn(order)) == 0
  {
    forall k | k in s.issuances
      ensures IssuedOn(order)(k, s.issuances[k]) == 0
    {
      assert TicketOk(s, s.issuances[k]);
    }
    SumZero(s.issuances, IssuedOn(order));
  }

  ghost predicate Placeable(s: State, q: Request) {
    && q.quantity > 0 && q.product in s.products && q.reservation !in s.reservations && q.order !in s.orders
    && !OverSupply(s.products[q.product], q.quantity)
    && Sum(s.reservations, TakenBy(q.product, q.buyer)) + q.quantity <= s.products[q.product].perUserLimit
  }

  lemma PlacingKeepsProducts(s: State, q: Request)
    requires Products(s) && Placeable(s, q)
    ensures Products(WithReservation(s, q))
  {
    var s' := WithReservation(s, q);
    forall p | p in s'.products
      ensures Counted(s', p)
    {
      assert Counted(s, p);
      SumUpdate(s.reservations, HeldFor(p), q.reservation, s'.reservations[q.reservation]);
      SumUpdate(s.orders, OrderedFor(p), q.order, s'.orders[q.order]);
    }
  }

  lemma PlacingKeepsLimits(s: State, q: Request)
    requires Limits(s) && Placeable(s, q)
    ensures Limits(WithReservation(s, q))
  {
    var s' := WithReservation(s, q);
    forall p, buyer | p in s'.products
      ensures WithinLimit(s', p, buyer)
    {
      assert WithinLimit(s, p, buyer);
      SumUpdate(s.reservations, TakenBy(p, buyer), q.reservation, s'.reservations[q.reservation]);
    }
  }

  lemma PlacingKeepsLinks(s: State, q: Request)
    requires Links(s) && Serials(s) && Placeable(s, q)
    ensures Links(WithReservation(s, q)) && Serials(WithReservation(s, q))
  {
    var s' := WithReservation(s, q);
    NoTicketsFor(s, q.order);
    forall id | id in s'.reservations
      ensures Linked(s', id)
    {
      if id != q.reservation {
        assert Linked(s, id);
      }
    }
    forall o | o in s'.orders
      ensures OrderOk(s', s'.orders[o])
    {
      if o != q.order {
        assert OrderOk(s, s.orders[o]);
      }
    }
    forall i, j | i in s'.reservations && j in s'.reservations && i != j
      ensures s'.reservations[i].order != s'.reservations[j].order
    {
      if i != q.reservation {
        assert Linked(s, i);
      }
      if j != q.reservation {
        assert Linked(s, j);
      }
    }
    TicketsStay(s, s');
  }

  /** Tickets keep their reservation and product when neither is taken away. */
  lemma TicketsStay(s: State, s': State)
    requires Serials(s) && s'.issuances == s.issuances
    requires s.products.Keys <= s'.products.Keys && s.orders.Keys <= s'.orders.Keys
    requires forall id :: id in s.reservations ==> id in s'.reservations && s'.reservations[id].order == s.reservations[id].order
    ensures Serials(s')
  {
    forall k | k in s'.issuances
      ensures TicketOk(s', s'.issuances[k])
    {
      assert TicketOk(s, s.issuances[k]);
      var id :| id in s.reservations && s.reservations[id].order == s.issuances[k].forOrder;
      assert s'.reservations[id].order == s.issuances[k].forOrder;
    }
  }

  lemma PlaceKeepsInv(s: State, q: Request)
    requires Inv(s) && q.quantity > 0
    ensures var r := Place(s, q, Sum(s.reservations, TakenBy(q.product, q.buyer))); r.Ok? ==> Inv(r.value)
  {
    hide Products, Limits, Links, Serials, WithReservation, SameKey, SameRequest;
    var r := Place(s, q, Sum(s.reservations, TakenBy(q.product, q.buyer)));
    if r.Ok? && Placeable(s, q) {
      PlacingKeepsProducts(s, q);
      PlacingKeepsLimits(s, q);
      PlacingKeepsLinks(s, q);
    }
  }

  lemma EnumeratedAreReserved(s: State, p: ProductId, ids: seq<ReservationId>)
    requires Enumerates(s, p, ids)
    ensures AllReserved(s, ids)
  {
    forall i | 0 <= i < |ids|
      ensures ids[i] in s.reservations && s.reservations[ids[i]].status == Reserved
    {
      assert Lapsed(s, p, ids[i]);
    }
  }

  lemma ReserveKeepsInv(s: State, q: Request, ids: seq<ReservationId>)
    requires Inv(s) && Enumerates(s, q.product, ids)
    ensures Reserve(s, q, ids).Ok? ==> Inv(Reserve(s, q, ids).value)
  {
    hide Inv, Place, ReleaseAll;
    if q.quantity > 0 {
      EnumeratedAreReserved(s, q.product, ids);
      ReleaseAllKeepsInv(s, ids);
      PlaceKeepsInv(ReleaseAll(s, ids), q);
    }
  }

  lemma OrderKeepsInv(s: State, p: ProductId, quantity: int, key: string, order: OrderId)
    requires Inv(s)
    ensures var r := OrderDirectly(s, p, quantity, key, order); r.Ok? ==> Inv(r.value)
  {
    hide Counted, Limits, Links, Serials;
    var r := OrderDirectly(s, p, quantity, key, order);
    if r.Ok? && r.value != s {
      var s' := r.value;
      forall x | x in s'.products
        ensures Counted(s', x)
      {
        assert Counted(s, x);
        OrderCounts(s, s', p, order, quantity, x);
      }
      OrderKeepsRest(s, s', p, order);
    }
  }

  lemma OrderCounts(s: State, s': State, p: ProductId, order: OrderId, quantity: int, x: ProductId)
    requires p in s.products && x in s.products && Counted(s, x) && order !in s.orders && !OverSupply(s.products[p], quantity)
    requires s'.reservations == s.reservations && s'.issuances == s.issuances
    requires exists key :: s'.orders == s.orders[order := Order(AwaitingPayment, key, p, quantity, false)]
    requires s'.products == s.products[p := s.products[p].(reserved := s.products[p].reserved + quantity)]
    ensures Counted(s', x)
  {
    SumUpdate(s.orders, OrderedFor(x), order, s'.orders[order]);
  }

  lemma OrderKeepsRest(s: State, s': State, p: ProductId, order: OrderId)
    requires Limits(s) && Links(s) && Serials(s) && order !in s.orders && p in s.products
    requires s'.reservations == s.reservations && s'.issuances == s.issuances
    requires s'.products.Keys == s.products.Keys && forall x :: x in s.products ==> s'.products[x].perUserLimit == s.products[x].perUserLimit
    requires exists o :: s'.orders == s.orders[order := o] && o.count > 0 && !o.ticketed && o.status == AwaitingPayment && o.item == p
    ensures Limits(s') && Links(s') && Serials(s')
  {
    forall x, buyer | x in s'.products
      ensures WithinLimit(s', x, buyer)
    {
      assert WithinLimit(s, x, buyer);
    }
    forall id | id in s'.reservations
      ensures Linked(s', id)
    {
      assert Linked(s, id);
    }
    forall o | o in s'.orders
      ensures OrderOk(s', s'.orders[o])
    {
      if o != order {
        assert OrderOk(s, s.orders[o]);
      }
    }
    TicketsStay(s, s');
  }

  // ----- issuing -----

  ghost predicate AllBelow(m: map<nat, Issuance>, n: nat) {
    forall k :: k in m ==> k <= n
  }

  lemma {:induction false} NextIsFree(m: map<nat, Issuance>, p: ProductId, order: OrderId, from: nat, n: nat)
    requires AllBelow(m, from)
    ensures AllBelow(WithTickets(m, p, order, from, n), from + n)
  {
    if n > 0 {
      NextIsFree(m, p, order, from, n - 1);
    }
  }

  lemma {:induction false} TicketsAdded(m: map<nat, Issuance>, p: ProductId, order: OrderId, from: nat, n: nat)
    requires (forall k :: k in m <==> 1 <= k <= from) && |m| == from
    ensures var m' := WithTickets(m, p, order, from, n);
            && |m'| == from + n
            && (forall k :: k in m' <==> 1 <= k <= from + n)
            && (forall k :: k in m ==> m'[k] == m[k])
            && (forall k :: from < k <= from + n ==> m'[k] == Issuance(p, order, Pending))
  {
    if n > 0 {
      TicketsAdded(m, p, order, from, n - 1);
      OneMore(WithTickets(m, p, order, from, n - 1), from + n, Issuance(p, order, Pending));
    }
  }

  lemma OneMore(m: map<nat, Issuance>, k: nat, ticket: Issuance)
    requires k !in m
    ensures |m[k := ticket]| == |m| + 1
  {
    assert m[k := ticket].Keys == m.Keys + {k};
  }

  lemma {:induction false} TicketsCountFor(m: map<nat, Issuance>, p: ProductId, order: OrderId, from: nat, n: nat, x: ProductId)
    requires AllBelow(m, from)
    ensures Sum(WithTickets(m, p, order, from, n), IssuedFor(x)) == Sum(m, IssuedFor(x)) + if x == p then n else 0
  {
    if n > 0 {
      TicketsCountFor(m, p, order, from, n - 1, x);
      NextIsFree(m, p, order, from, n - 1);
      var next: nat := from + n;
      SumUpdate(WithTickets(m, p, order, from, n - 1), IssuedFor(x), next, Issuance(p, order, Pending));
    }
  }

  lemma {:induction false} TicketsCountOn(m: map<nat, Issuance>, p: ProductId, order: OrderId, from: nat, n: nat, x: OrderId)
    requires AllBelow(m, from)
    ensures Sum(WithTickets(m, p, order, from, n), IssuedOn(x)) == Sum(m, IssuedOn(x)) + if x == order then n else 0
  {
    if n > 0 {
      TicketsCountOn(m, p, order, from, n - 1, x);
      NextIsFree(m, p, order, from, n - 1);
      var next: nat := from + n;
      SumUpdate(WithTickets(m, p, order, from, n - 1), IssuedOn(x), next, Issuance(p, order, Pending));
    }
  }

  lemma MaxSerialIsCount(s: State, serial: nat)
    requires Numbered(s) && IsMaxSerial(s.issuances, serial)
    ensures serial == |s.issuances|
  {
    var n := |s.issuances|;
    assert n == 0 || n in s.issuances;
  }

  /** What the issue of a paid, reserved and proven order changes. */
  ghost predicate Issuable(s: State, id: ReservationId, serial: nat) {
    && Joined(s, id) && s.reservations[id].status == Reserved && s.reservations[id].quantity > 0
    && s.orders[s.reservations[id].order].status == Paid && serial == |s.issuances|
  }

  lemma IssuingKeepsProducts(s: State, id: ReservationId, serial: nat)
    requires Products(s) && Numbered(s) && Issuable(s, id, serial)
    ensures Products(Converting(s, id, serial))
  {
    hide Numbered;
    var s' := Converting(s, id, serial);
    forall p | p in s'.products
      ensures Counted(s', p)
    {
      IssuingCounts(s, id, serial, p);
    }
  }

  lemma IssuingCounts(s: State, id: ReservationId, serial: nat, p: ProductId)
    requires Products(s) && Numbered(s) && Issuable(s, id, serial) && p in s.products
    ensures Counted(Converting(s, id, serial), p)
  {
    var s' := Converting(s, id, serial);
    var r := s.reservations[id];
    assert Counted(s, p) && AllBelow(s.issuances, serial);
    SumUpdate(s.reservations, HeldFor(p), id, s'.reservations[id]);
    SumUpdate(s.orders, OrderedFor(p), r.order, s'.orders[r.order]);
    TicketsCountFor(s.issuances, r.product, r.order, serial, r.quantity, p);
  }

  lemma IssuingKeepsLimits(s: State, id: ReservationId, serial: nat)
    requires Limits(s) && Issuable(s, id, serial)
    ensures Limits(Converting(s, id, serial))
  {
    var s' := Converting(s, id, serial);
    forall p, buyer | p in s'.products
      ensures WithinLimit(s', p, buyer)
    {
      assert WithinLimit(s, p, buyer);
      SumUpdate(s.reservations, TakenBy(p, buyer), id, s'.reservations[id]);
    }
  }

  lemma IssuingKeepsLinks(s: State, id: ReservationId, serial: nat)
    requires Links(s) && Numbered(s) && Issuable(s, id, serial)
    ensures Links(Converting(s, id, serial))
  {
    hide WithTickets;
    var s' := Converting(s, id, serial);
    assert Linked(s, id);
    assert AllBelow(s.issuances, serial);
    var r := s.reservations[id];
    forall other | other in s'.reservations
      ensures Linked(s', other)
    {
      assert Linked(s, other);
      TicketsCountOn(s.issuances, r.product, r.order, serial, r.quantity, s.reservations[other].order);
    }
    forall o | o in s'.orders
      ensures OrderOk(s', s'.orders[o])
    {
      assert OrderOk(s, s.orders[o]);
    }
  }

  lemma IssuingKeepsSerials(s: State, id: ReservationId, serial: nat)
    requires Serials(s) && Issuable(s, id, serial)
    ensures Serials(Converting(s, id, serial))
  {
    hide WithTickets;
    var s' := Converting(s, id, serial);
    var r := s.reservations[id];
    TicketsAdded(s.issuances, r.product, r.order, serial, r.quantity);
    forall k | k in s'.issuances
      ensures TicketOk(s', s'.issuances[k])
    {
      if k in s.issuances {
        assert TicketOk(s, s.issuances[k]);
        var other :| other in s.reservations && s.reservations[other].order == s.issuances[k].forOrder;
        assert s'.reservations[other].order == s.issuances[k].forOrder;
      } else {
        assert s'.reservations[id].order == r.order;
      }
    }
  }

  lemma IssueKeepsInv(s: State, id: ReservationId, hasWallet: bool, serial: nat)
    requires Inv(s) && IsMaxSerial(s.issuances, serial)
    ensures var r := Issue(s, id, hasWallet, serial); r.Ok? ==> Inv(r.value)
  {
    hide Products, Limits, Links, Numbered, TicketOk, Converting, HasTickets, IsMaxSerial;
    MaxSerialIsCount(s, serial);
    if Joined(s, id) {
      QuantityIsPositive(s, id);
      if Issuable(s, id, serial) {
        IssuingKeepsProducts(s, id, serial);
        IssuingKeepsLimits(s, id, serial);
        IssuingKeepsLinks(s, id, serial);
        IssuingKeepsSerials(s, id, serial);
      }
    }
  }

  lemma QuantityIsPositive(s: State, id: ReservationId)
    requires Links(s) && id in s.reservations
    ensures s.reservations[id].quantity > 0
  {
    assert Linked(s, id);
  }

  /** The drift check never fails. */
  lemma NoDrift(s: State, id: ReservationId, hasWallet: bool, serial: nat)
    requires Inv(s) && id in s.reservations
    ensures Issue(s, id, hasWallet, serial) != Err(ProjectionDrift)
  {
    hide Products, Limits, Links, Serials, HasTickets;
    if s.reservations[id].status == Reserved {
      CounterCovers(s, id);
    }
  }

  // ----- the other steps -----

  ghost predicate SameOrder(o: Order, o': Order) {
    o'.item == o.item && o'.count == o.count && o'.ticketed == o.ticketed
  }

  /** Changing the status of one order along its reservation keeps every sum. */
  lemma OrderMoves(s: State, order: OrderId, o': Order)
    requires Inv(s) && order in s.orders && SameOrder(s.orders[order], o') && OrderOk(s, o')
    requires forall id :: id in s.reservations && s.reservations[id].order == order ==>
               && (s.reservations[id].status == Reserved ==> o'.status in {AwaitingPayment, Paid})
               && (s.reservations[id].status == Converted <==> o'.status in {Fulfilling, Fulfilled})
               && (s.reservations[id].status == Expired ==> o'.status in {OrderExpired, Paid})
    ensures Inv(s.(orders := s.orders[order := o']))
  {
    var s' := s.(orders := s.orders[order := o']);
    forall p | p in s'.products
      ensures Counted(s', p)
    {
      assert Counted(s, p);
      SumUpdate(s.orders, OrderedFor(p), order, o');
    }
    OrderMovesRest(s, order, o');
  }

  lemma OrderMovesRest(s: State, order: OrderId, o': Order)
    requires Inv(s) && order in s.orders && SameOrder(s.orders[order], o') && OrderOk(s, o')
    requires forall id :: id in s.reservations && s.reservations[id].order == order ==>
               && (s.reservations[id].status == Reserved ==> o'.status in {AwaitingPayment, Paid})
               && (s.reservations[id].status == Converted <==> o'.status in {Fulfilling, Fulfilled})
               && (s.reservations[id].status == Expired ==> o'.status in {OrderExpired, Paid})
    ensures var s' := s.(orders := s.orders[order := o']); Limits(s') && Links(s') && Serials(s')
  {
    hide Products;
    var s' := s.(orders := s.orders[order := o']);
    forall p, buyer | p in s'.products
      ensures WithinLimit(s', p, buyer)
    {
      assert WithinLimit(s, p, buyer);
    }
    forall id | id in s'.reservations
      ensures Linked(s', id)
    {
      assert Linked(s, id);
    }
    forall o | o in s'.orders
      ensures OrderOk(s', s'.orders[o])
    {
      assert OrderOk(s, s.orders[o]);
    }
    TicketsStay(s, s');
  }

  lemma PayKeepsInv(s: State, order: OrderId, indexed: bool)
    requires Inv(s)
    ensures Inv(Pay(s, order, indexed))
  {
    hide Products, Limits, Serials;
    var s' := Pay(s, order, indexed);
    if s' != s {
      var o := s.orders[order];
      assert OrderOk(s, o);
      forall id | id in s.reservations && s.reservations[id].order == order
        ensures s.reservations[id].status == Reserved
      {
        assert Linked(s, id);
      }
      OrderMoves(s, order, o.(status := Paid));
      SameInv(s.(orders := s.orders[order := o.(status := Paid)]), s');
    }
  }

  lemma SameInv(s: State, s': State)
    requires Inv(s) && s'.products == s.products && s'.reservations == s.reservations && s'.orders == s.orders && s'.issuances == s.issuances
    ensures Inv(s')
  {
    forall p | p in s'.products
      ensures Counted(s', p)
    {
      assert Counted(s, p);
    }
    SameRest(s, s');
  }

  /** Nothing but counters and supplies of products may differ. */
  lemma SameRest(s: State, s': State)
    requires Limits(s) && Links(s) && Serials(s)
    requires s'.reservations == s.reservations && s'.orders == s.orders && s'.issuances == s.issuances
    requires s.products.Keys <= s'.products.Keys && forall p :: p in s.products ==> s'.products[p].perUserLimit == s.products[p].perUserLimit
    requires forall p :: p in s'.products && p !in s.products ==> s'.products[p].perUserLimit >= 0
    ensures Limits(s') && Links(s') && Serials(s')
  {
    forall p, buyer | p in s'.products
      ensures WithinLimit(s', p, buyer)
    {
      if p in s.products {
        assert WithinLimit(s, p, buyer);
      } else {
        NothingTaken(s, p, buyer);
      }
    }
    forall id | id in s'.reservations
      ensures Linked(s', id)
    {
      assert Linked(s, id);
    }
    forall o | o in s'.orders
      ensures OrderOk(s', s'.orders[o])
    {
      assert OrderOk(s, s.orders[o]);
    }
    TicketsStay(s, s');
  }

  lemma NothingTaken(s: State, p: ProductId, buyer: User)
    requires Links(s) && p !in s.products
    ensures Sum(s.reservations, TakenBy(p, buyer)) == 0
  {
    forall id | id in s.reservations
      ensures TakenBy(p, buyer)(id, s.reservations[id]) == 0
    {
      assert Linked(s, id);
    }
    SumZero(s.reservations, TakenBy(p, buyer));
  }

  lemma NothingCounted(s: State, p: ProductId)
    requires Links(s) && Serials(s) && p !in s.products
    ensures Sum(s.reservations, HeldFor(p)) == 0 && Sum(s.orders, OrderedFor(p)) == 0 && Sum(s.issuances, IssuedFor(p)) == 0
  {
    forall id | id in s.reservations
      ensures HeldFor(p)(id, s.reservations[id]) == 0
    {
      assert Linked(s, id);
    }
    SumZero(s.reservations, HeldFor(p));
    forall o | o in s.orders
      ensures OrderedFor(p)(o, s.orders[o]) == 0
    {
      assert OrderOk(s, s.orders[o]);
    }
    SumZero(s.orders, OrderedFor(p));
    forall k | k in s.issuances
      ensures IssuedFor(p)(k, s.issuances[k]) == 0
    {
      assert TicketOk(s, s.issuances[k]);
    }
    SumZero(s.issuances, IssuedFor(p));
  }

  ghost predicate SupplyHolds(s: State, p: ProductId)
    requires p in s.products
  {
    var product := s.products[p];
    product.supply.Some? ==> product.reserved + product.fulfilled <= product.supply.value
  }

  /** Changes to the catalogue leave the counters alone and respect what is taken. */
  lemma CatalogueRow(s: State, s': State, p: ProductId)
    requires Inv(s) && s'.reservations == s.reservations && s'.orders == s.orders && s'.issuances == s.issuances
    requires p in s'.products && SupplyHolds(s', p)
    requires if p in s.products then s'.products[p].reserved == s.products[p].reserved && s'.products[p].fulfilled == s.products[p].fulfilled
             else s'.products[p].reserved == 0 && s'.products[p].fulfilled == 0
    ensures Counted(s', p)
  {
    if p in s.products {
      assert Counted(s, p);
    } else {
      NothingCounted(s, p);
    }
  }

  /** All a step on the catalogue may do. */
  ghost predicate CatalogueOnly(s: State, s': State) {
    && s'.reservations == s.reservations && s'.orders == s.orders && s'.issuances == s.issuances
    && s.products.Keys <= s'.products.Keys
    && forall p :: p in s'.products ==>
         && SupplyHolds(s', p)
         && if p in s.products then
              s'.products[p].reserved == s.products[p].reserved && s'.products[p].fulfilled == s.products[p].fulfilled
              && s'.products[p].perUserLimit == s.products[p].perUserLimit
            else s'.products[p].reserved == 0 && s'.products[p].fulfilled == 0 && s'.products[p].perUserLimit >= 0
  }

  lemma CatalogueKeepsInv(s: State, s': State)
    requires Inv(s) && CatalogueOnly(s, s')
    ensures Inv(s')
  {
    hide Limits, Links, Serials, Counted, SupplyHolds;
    forall p | p in s'.products
      ensures Counted(s', p)
    {
      CatalogueRow(s, s', p);
    }
    SameRest(s, s');
  }

  lemma SuppliesHold(s: State)
    requires Products(s)
    ensures forall p :: p in s.products ==> SupplyHolds(s, p)
  {
    forall p | p in s.products
      ensures SupplyHolds(s, p)
    {
      assert Counted(s, p);
    }
  }

  lemma SettingSupply(s: State, p: ProductId, supply: int)
    requires Products(s)
    ensures CatalogueOnly(s, SetSupply(s, p, supply))
  {
    SuppliesHold(s);
    hide Products;
  }

  lemma SettingSale(s: State, p: ProductId, onSale: bool)
    requires Products(s)
    ensures CatalogueOnly(s, SetSale(s, p, onSale))
  {
    SuppliesHold(s);
    hide Products;
  }

  lemma AddingProduct(s: State, p: ProductId, supply: Option<int>, perUserLimit: int, price: int, starts: int, ends: int)
    requires Products(s)
    ensures CatalogueOnly(s, AddProduct(s, p, supply, perUserLimit, price, starts, ends))
  {
    SuppliesHold(s);
    hide Products;
  }

  lemma CatalogueSteps(s: State, step: Step)
    requires Products(s) && (step.SupplySet? || step.SaleSet? || step.ProductAdded? || step.ClockAdvances?)
    ensures CatalogueOnly(s, After(s, step))
  {
    hide Products, SetSupply, SetSale, AddProduct;
    match step
    case SupplySet(p, supply) => SettingSupply(s, p, supply);
    case SaleSet(p, onSale) => SettingSale(s, p, onSale);
    case ProductAdded(p, initial, perUserLimit, price, starts, ends) => AddingProduct(s, p, initial, perUserLimit, price, starts, ends);
    case ClockAdvances(_) => SuppliesHold(s);
  }

  lemma AcceptanceKeepsInv(s: State, serial: nat, e: Ownership, wallet: Option<string>)
    requires Inv(s)
    ensures var r := AcceptOwnership(s, serial, e, wallet); r.Ok? ==> Inv(r.value)
  {
    hide Inv, AllIssued, SharedMint;
    var r := AcceptOwnership(s, serial, e, wallet);
    if r.Ok? && r.value != s {
      var s1 := s.(issuances := s.issuances[serial := s.issuances[serial].(state := Issued)]);
      IssuedKeepsInv(s, serial);
      SameInv(s1, WithOwner(s, serial, e));
      if r.value != WithOwner(s, serial, e) {
        FulfilledKeepsInv(WithOwner(s, serial, e), s.issuances[serial].forOrder);
      }
    }
  }

  lemma FulfilledKeepsInv(s: State, order: OrderId)
    requires Inv(s) && order in s.orders && s.orders[order].status == Fulfilling
    ensures Inv(s.(orders := s.orders[order := s.orders[order].(status := Fulfilled)]))
  {
    hide Products, Limits, Serials;
    assert OrderOk(s, s.orders[order]);
    forall id | id in s.reservations && s.reservations[id].order == order
      ensures s.reservations[id].status == Converted
    {
      assert Linked(s, id);
    }
    OrderMoves(s, order, s.orders[order].(status := Fulfilled));
  }

  lemma IssuedKeepsInv(s: State, serial: nat)
    requires Inv(s) && serial in s.issuances
    ensures Inv(s.(issuances := s.issuances[serial := s.issuances[serial].(state := Issued)]))
  {
    var s' := s.(issuances := s.issuances[serial := s.issuances[serial].(state := Issued)]);
    forall p | p in s'.products
      ensures Counted(s', p)
    {
      assert Counted(s, p);
      SumUpdate(s.issuances, IssuedFor(p), serial, s'.issuances[serial]);
    }
    IssuedKeepsRest(s, serial);
  }

  lemma IssuedKeepsRest(s: State, serial: nat)
    requires Limits(s) && Links(s) && Serials(s) && serial in s.issuances
    ensures var s' := s.(issuances := s.issuances[serial := s.issuances[serial].(state := Issued)]);
            Limits(s') && Links(s') && Serials(s')
  {
    var s' := s.(issuances := s.issuances[serial := s.issuances[serial].(state := Issued)]);
    forall p, buyer | p in s'.products
      ensures WithinLimit(s', p, buyer)
    {
      assert WithinLimit(s, p, buyer);
    }
    forall id | id in s'.reservations
      ensures Linked(s', id)
    {
      assert Linked(s, id);
      SumUpdate(s.issuances, IssuedOn(s.reservations[id].order), serial, s'.issuances[serial]);
    }
    forall o | o in s'.orders
      ensures OrderOk(s', s'.orders[o])
    {
      assert OrderOk(s, s.orders[o]);
    }
    assert Limits(s') && Links(s');
    hide Limits, Links, Serials;
    IssuedKeepsSerials(s, serial);
  }

  lemma IssuedKeepsSerials(s: State, serial: nat)
    requires Serials(s) && serial in s.issuances
    ensures Serials(s.(issuances := s.issuances[serial := s.issuances[serial].(state := Issued)]))
  {
    var s' := s.(issuances := s.issuances[serial := s.issuances[serial].(state := Issued)]);
    assert |s'.issuances| == |s.issuances| by {
      assert s'.issuances.Keys == s.issuances.Keys;
    }
    forall k | k in s'.issuances
      ensures TicketOk(s', s'.issuances[k])
    {
      assert TicketOk(s, s.issuances[k]);
      var id :| id in s.reservations && s.reservations[id].order == s.issuances[k].forOrder;
      assert s'.reservations[id].order == s'.issuances[k].forOrder;
    }
  }

  // ----- runs -----

  lemma CatalogueIsSound(s: State, step: Step)
    requires Inv(s) && (step.SupplySet? || step.SaleSet? || step.ProductAdded? || step.ClockAdvances?)
    ensures Inv(After(s, step))
  {
    hide Products, Limits, Links, Serials, CatalogueOnly, After;
    CatalogueSteps(s, step);
    CatalogueKeepsInv(s, After(s, step));
  }

  lemma StepKeepsInv(s: State, step: Step)
    requires Inv(s) && WellFormed(s, step)
    ensures Inv(After(s, step))
  {
    hide Inv, Reserve, OrderDirectly, Issue, AcceptOwnership, Pay, SetSupply, SetSale, AddProduct, Enumerates, IsMaxSerial;
    match step
    case DoReserve(q, ids) => ReserveKeepsInv(s, q, ids);
    case DoOrder(p, quantity, key, order) => OrderKeepsInv(s, p, quantity, key, order);
    case DoIssue(id, hasWallet, serial) => IssueKeepsInv(s, id, hasWallet, serial);
    case DoAcceptOwnership(ticket, e, wallet) => AcceptanceKeepsInv(s, ticket, e, wallet);
    case PaymentArrives(paid, indexed) => PayKeepsInv(s, paid, indexed);
    case SupplySet(_, _) => CatalogueIsSound(s, step);
    case SaleSet(_, _) => CatalogueIsSound(s, step);
    case ProductAdded(_, _, _, _, _, _) => CatalogueIsSound(s, step);
    case ClockAdvances(_) => CatalogueIsSound(s, step);
  }

  /** In every reachable state the counters, the limits, the links and the serials hold. */
  lemma {:induction false} InventoryHolds(steps: seq<Step>)
    requires Runs(INIT, steps)
    ensures Inv(Run(INIT, steps))
  {
    hide After, WellFormed;
    if |steps| == 0 {
      InitHolds();
    } else {
      hide Inv;
      InventoryHolds(steps[..|steps| - 1]);
      StepKeepsInv(Run(INIT, steps[..|steps| - 1]), steps[|steps| - 1]);
    }
  }

  lemma InitHolds()
    ensures Inv(INIT)
  {
  }

  // ----- the lapse of a paid order -----

  /** The request to issue a paid, proven order of an owner with a wallet succeeds exactly when
      its reservation has not lapsed, short of the end of the serial numbers. */
  lemma IssueSucceedsIff(s: State, id: ReservationId, serial: nat)
    requires Inv(s) && IsMaxSerial(s.issuances, serial) && Joined(s, id)
    requires s.orders[s.reservations[id].order].status == Paid && s.reservations[id].order in s.evidence
    requires serial + s.reservations[id].quantity <= I64_MAX
    ensures Issue(s, id, true, serial).Ok? <==> s.reservations[id].status == Reserved
  {
    hide Products, Limits, Numbered, IsMaxSerial, Converting;
    assert Linked(s, id);
    NoTicketsYet(s, id);
    if s.reservations[id].status == Reserved {
      CounterCovers(s, id);
    }
  }

  lemma NoTicketsYet(s: State, id: ReservationId)
    requires Links(s) && id in s.reservations && s.reservations[id].status != Converted
    ensures !HasTickets(s, s.reservations[id].order)
  {
    assert Linked(s, id);
    var order := s.reservations[id].order;
    forall k | k in s.issuances
      ensures s.issuances[k].forOrder != order
    {
      SumBoundsEntry(s.issuances, IssuedOn(order), k);
    }
  }

  lemma ReserveKeepsLapsed(s: State, q: Request, ids: seq<ReservationId>, id: ReservationId)
    requires Inv(s) && Enumerates(s, q.product, ids) && id in s.reservations && s.reservations[id].status == Expired
    ensures var s' := Committed(s, Reserve(s, q, ids)); id in s'.reservations && s'.reservations[id] == s.reservations[id]
  {
    hide Inv, Enumerates, SameKey, SameRequest, ReleaseAll;
    EnumeratedAreReserved(s, q.product, ids);
    ReleaseAllKeepsInv(s, ids);
  }

  lemma IssueKeepsLapsed(s: State, issued: ReservationId, hasWallet: bool, serial: nat, id: ReservationId)
    requires id in s.reservations && s.reservations[id].status == Expired
    ensures var s' := Committed(s, Issue(s, issued, hasWallet, serial)); id in s'.reservations && s'.reservations[id] == s.reservations[id]
  {
    hide HasTickets, WithTickets;
  }

  /** A lapsed reservation stays lapsed, whatever happens to its order. */
  lemma LapseIsFinal(s: State, step: Step, id: ReservationId)
    requires Inv(s) && WellFormed(s, step) && id in s.reservations && s.reservations[id].status == Expired
    ensures id in After(s, step).reservations && After(s, step).reservations[id] == s.reservations[id]
  {
    hide Inv, Reserve, Issue, Enumerates, IsMaxSerial, AllIssued, OverSupply;
    match step
    case DoReserve(q, ids) => ReserveKeepsLapsed(s, q, ids, id);
    case DoOrder(_, _, _, _) =>
    case DoIssue(issued, hasWallet, serial) => IssueKeepsLapsed(s, issued, hasWallet, serial, id);
    case DoAcceptOwnership(_, _, _) =>
    case PaymentArrives(_, _) =>
    case SupplySet(_, _) =>
    case SaleSet(_, _) =>
    case ProductAdded(_, _, _, _, _, _) =>
    case ClockAdvances(_) =>
  }

  /** So a lapsed reservation, paid for or not, is never issued: not after any further run. */
  lemma {:induction false} LapsedIsNeverIssued(s: State, steps: seq<Step>, id: ReservationId, hasWallet: bool, serial: nat)
    requires Inv(s) && id in s.reservations && s.reservations[id].status == Expired
    requires Runs(s, steps)
    ensures var e := Run(s, steps); Inv(e) && id in e.reservations && e.reservations[id] == s.reservations[id]
    ensures Issue(Run(s, steps), id, hasWallet, serial) == Err(NotReady)
  {
    hide Inv, After, WellFormed, Issue;
    if |steps| > 0 {
      var init := steps[..|steps| - 1];
      LapsedIsNeverIssued(s, init, id, hasWallet, serial);
      StepKeepsInv(Run(s, init), steps[|steps| - 1]);
      LapseIsFinal(Run(s, init), steps[|steps| - 1], id);
    }
    LapsedIsRefused(Run(s, steps), id, hasWallet, serial);
  }

  lemma LapsedIsRefused(s: State, id: ReservationId, hasWallet: bool, serial: nat)
    requires Inv(s) && id in s.reservations && s.reservations[id].status == Expired
    ensures Issue(s, id, hasWallet, serial) == Err(NotReady)
  {
    hide Products, Limits, Serials, HasTickets, Linked;
    JoinedRows(s, id);
    NoTicketsYet(s, id);
    QuantityIsPositive(s, id);
  }

  lemma {:induction false} PaidStaysPaid(s: State, ids: seq<ReservationId>, order: OrderId)
    requires order in s.orders && s.orders[order].status == Paid
    ensures order in ReleaseAll(s, ids).orders && ReleaseAll(s, ids).orders[order] == s.orders[order]
  {
    if |ids| > 0 {
      PaidStaysPaid(s, ids[..|ids| - 1], order);
    }
  }

  /** The expiry loop does not ask whether the order is paid: once the time of a paid
      reservation is up, the next successful request for the product expires the reservation and
      leaves the order paid. */
  lemma PaidReservationLapses(s: State, q: Request, ids: seq<ReservationId>, id: ReservationId)
    requires Inv(s) && Enumerates(s, q.product, ids) && Lapsed(s, q.product, id)
    requires s.reservations[id].order in s.orders && s.orders[s.reservations[id].order].status == Paid
    requires Reserve(s, q, ids).Ok?
    ensures var s' := Reserve(s, q, ids).value;
            && id in s'.reservations && s'.reservations[id].status == Expired
            && s.reservations[id].order in s'.orders && s'.orders[s.reservations[id].order].status == Paid
  {
    hide Inv, SameKey, SameRequest, ReleaseAll, OverSupply;
    assert id in ids;
    EnumeratedAreReserved(s, q.product, ids);
    ReleaseAllKeepsInv(s, ids);
    LinkedRows(s, id);
    PaidStaysPaid(s, ids, s.reservations[id].order);
  }
}
