/** When exactly each ticket request succeeds and what it leaves, in sums over the rows as they
    are before the request. */
module TicketsRules {
  import opened Wrappers
  import opened MapSums
  import opened Tickets
  import opened TicketsProofs

  // ----- what counts at the moment of a request -----

  ghost predicate IsLapsed(r: Reservation, p: ProductId, now: int) {
    r.product == p && r.status == Reserved && r.expiresAt <= now
  }

  /** Reservations of a product whose time is not up. */
  ghost function StillHeld(p: ProductId, now: int): (ReservationId, Reservation) -> int {
    (id: ReservationId, r: Reservation) => if r.product == p && r.status == Reserved && r.expiresAt > now then r.quantity else 0
  }

  /** What a buyer still holds of a product, or has been issued. */
  ghost function StillTaken(p: ProductId, buyer: User, now: int): (ReservationId, Reservation) -> int {
    (id: ReservationId, r: Reservation) =>
      if r.product == p && r.buyer == buyer && (r.status == Converted || (r.status == Reserved && r.expiresAt > now)) then r.quantity else 0
  }

  /** Direct orders of a product. */
  ghost function Direct(p: ProductId): (OrderId, Order) -> int {
    (id: OrderId, o: Order) => if o.item == p && !o.ticketed then o.count else 0
  }

  ghost function Minted(p: ProductId): (nat, Issuance) -> int {
    (serial: nat, i: Issuance) => if i.kind == p then 1 else 0
  }

  /** The part of a product's supply that is spoken for. */
  ghost function Spoken(s: State, p: ProductId): int {
    Sum(s.reservations, StillHeld(p, s.now)) + Sum(s.orders, Direct(p)) + Sum(s.issuances, Minted(p))
  }

  // ----- expiry -----

  /** The order of a reservation of the list. */
  ghost predicate OrderIn(s: State, ids: seq<ReservationId>, o: OrderId) {
    exists i :: 0 <= i < |ids| && ids[i] in s.reservations && s.reservations[ids[i]].order == o
  }

  /** What the loop does to orders and products. */
  ghost predicate ReleasedRows(s: State, s': State, ids: seq<ReservationId>, p: ProductId) {
    && s'.orders.Keys == s.orders.Keys && s'.products.Keys == s.products.Keys
    && (forall o :: o in s.orders ==>
          s'.orders[o] == if OrderIn(s, ids, o) && s.orders[o].status == AwaitingPayment then s.orders[o].(status := OrderExpired) else s.orders[o])
    && (forall x :: x in s.products && x != p ==> s'.products[x] == s.products[x])
    && (p in s.products ==> s'.products[p] == s.products[p].(reserved := s'.products[p].reserved))
  }

  lemma OneReleased(s: State, before: State, init: seq<ReservationId>, id: ReservationId, p: ProductId)
    requires ReleasedRows(s, before, init, p) && Joined(before, id) && id in s.reservations
    requires before.reservations[id].product == p == s.reservations[id].product && before.reservations[id].order == s.reservations[id].order
    ensures ReleasedRows(s, ReleaseOne(before, id), init + [id], p)
  {
    var ids, s' := init + [id], ReleaseOne(before, id);
    forall o | o in s.orders
      ensures OrderIn(s, ids, o) <==> OrderIn(s, init, o) || o == s.reservations[id].order
    {
      if OrderIn(s, init, o) {
        var i :| 0 <= i < |init| && init[i] in s.reservations && s.reservations[init[i]].order == o;
        assert ids[i] == init[i];
      }
      if o == s.reservations[id].order {
        assert ids[|init|] == id;
      }
    }
    hide OrderIn;
  }

  lemma {:induction false} AllReleased(s: State, ids: seq<ReservationId>, p: ProductId)
    requires Inv(s) && AllReserved(s, ids)
    requires forall i :: 0 <= i < |ids| ==> s.reservations[ids[i]].product == p
    ensures ReleasedRows(s, ReleaseAll(s, ids), ids, p)
    decreases |ids|
  {
    hide Inv, ReleasedRows;
    if |ids| == 0 {
      NoneReleased(s, ids, p);
    } else {
      var init, id := ids[..|ids| - 1], ids[|ids| - 1];
      AllReleased(s, init, p);
      ReleaseAllKeepsInv(s, init);
      var before := ReleaseAll(s, init);
      assert id !in init;
      LinkedRows(before, id);
      assert ids == init + [id];
      hide ReleaseOne;
      OneReleased(s, before, init, id, p);
    }
  }

  lemma NoneReleased(s: State, ids: seq<ReservationId>, p: ProductId)
    requires |ids| == 0
    ensures ReleasedRows(s, s, ids, p)
  {
  }

  /** Which rows a request finds after the expiry: the lapsed reservations of the product have
      expired, their unpaid orders with them, and the counter counts what is still held. */
  ghost predicate Tidied(s: State, s': State, p: ProductId) {
    && s'.now == s.now && s'.issuances == s.issuances && s'.evidence == s.evidence && s'.owners == s.owners
    && s'.reservations.Keys == s.reservations.Keys && s'.orders.Keys == s.orders.Keys && s'.products.Keys == s.products.Keys
    && (forall id :: id in s.reservations ==>
          s'.reservations[id] == if IsLapsed(s.reservations[id], p, s.now) then s.reservations[id].(status := Expired) else s.reservations[id])
    && (forall o :: o in s.orders ==>
          s'.orders[o] == if s.orders[o].status == AwaitingPayment && LapsedFor(s, p, o) then s.orders[o].(status := OrderExpired) else s.orders[o])
    && (forall x :: x in s.products && x != p ==> s'.products[x] == s.products[x])
    && (p in s.products ==> s'.products[p] == s.products[p].(reserved := Sum(s.reservations, StillHeld(p, s.now)) + Sum(s.orders, Direct(p))))
  }

  ghost predicate LapsedFor(s: State, p: ProductId, o: OrderId) {
    exists id :: id in s.reservations && IsLapsed(s.reservations[id], p, s.now) && s.reservations[id].order == o
  }

  lemma ListedAreLapsed(s: State, p: ProductId, ids: seq<ReservationId>)
    requires Enumerates(s, p, ids)
    ensures forall id :: id in s.reservations ==> (id in ids <==> IsLapsed(s.reservations[id], p, s.now))
    ensures forall o :: OrderIn(s, ids, o) <==> LapsedFor(s, p, o)
    ensures forall i :: 0 <= i < |ids| ==> ids[i] in s.reservations && s.reservations[ids[i]].product == p
  {
    forall id | id in s.reservations
      ensures id in ids <==> IsLapsed(s.reservations[id], p, s.now)
    {
      assert Lapsed(s, p, id) <==> IsLapsed(s.reservations[id], p, s.now);
    }
    forall i | 0 <= i < |ids|
      ensures ids[i] in s.reservations && s.reservations[ids[i]].product == p
    {
      assert Lapsed(s, p, ids[i]);
    }
    forall o
      ensures OrderIn(s, ids, o) <==> LapsedFor(s, p, o)
    {
      hide IsLapsed;
      if LapsedFor(s, p, o) {
        var id :| id in s.reservations && IsLapsed(s.reservations[id], p, s.now) && s.reservations[id].order == o;
        var i :| 0 <= i < |ids| && ids[i] == id;
      }
    }
  }

  lemma SumsAfter(s: State, s': State, p: ProductId)
    requires s'.reservations.Keys == s.reservations.Keys && s'.orders.Keys == s.orders.Keys
    requires forall id :: id in s.reservations ==>
      s'.reservations[id] == if IsLapsed(s.reservations[id], p, s.now) then s.reservations[id].(status := Expired) else s.reservations[id]
    requires forall o :: o in s.orders ==> s'.orders[o] == s.orders[o].(status := s'.orders[o].status)
    ensures Sum(s'.reservations, HeldFor(p)) == Sum(s.reservations, StillHeld(p, s.now))
    ensures forall buyer :: Sum(s'.reservations, TakenBy(p, buyer)) == Sum(s.reservations, StillTaken(p, buyer, s.now))
    ensures Sum(s'.orders, OrderedFor(p)) == Sum(s.orders, Direct(p))
  {
    SumCongruent(s'.reservations, s.reservations, HeldFor(p), StillHeld(p, s.now));
    SumCongruent(s'.orders, s.orders, OrderedFor(p), Direct(p));
    forall buyer
      ensures Sum(s'.reservations, TakenBy(p, buyer)) == Sum(s.reservations, StillTaken(p, buyer, s.now))
    {
      SumCongruent(s'.reservations, s.reservations, TakenBy(p, buyer), StillTaken(p, buyer, s.now));
    }
  }

  lemma ExpiryTidies(s: State, p: ProductId, ids: seq<ReservationId>)
    requires Inv(s) && Enumerates(s, p, ids)
    ensures Inv(ReleaseAll(s, ids)) && Tidied(s, ReleaseAll(s, ids), p)
    ensures forall buyer :: Sum(ReleaseAll(s, ids).reservations, TakenBy(p, buyer)) == Sum(s.reservations, StillTaken(p, buyer, s.now))
  {
    hide Inv, Enumerates, ReleaseAll, OrderIn, LapsedFor, IsLapsed, HeldFor, TakenBy, OrderedFor, StillHeld, StillTaken, Direct;
    EnumeratedAreReserved(s, p, ids);
    ListedAreLapsed(s, p, ids);
    ReleaseAllKeepsInv(s, ids);
    AllReleased(s, ids, p);
    ReleaseTouches(s, ids);
    var s' := ReleaseAll(s, ids);
    SumsAfter(s, s', p);
    if p in s.products {
      CountedIn(s', p);
    }
  }

  lemma CountedIn(s: State, p: ProductId)
    requires Inv(s) && p in s.products
    ensures s.products[p].reserved == Sum(s.reservations, HeldFor(p)) + Sum(s.orders, OrderedFor(p))
    ensures s.products[p].fulfilled == Sum(s.issuances, IssuedFor(p))
  {
    assert Counted(s, p);
  }

  lemma FulfilledIs(s: State, p: ProductId)
    requires Inv(s) && p in s.products
    ensures s.products[p].fulfilled == Sum(s.issuances, Minted(p))
  {
    CountedIn(s, p);
    SumCongruent(s.issuances, s.issuances, IssuedFor(p), Minted(p));
  }

  // ----- reservations -----

  ghost predicate KeyKnown(s: State, q: Request) {
    exists id :: id in s.reservations && s.reservations[id].buyer == q.buyer && s.reservations[id].key == q.key
  }

  ghost predicate KeyAgrees(s: State, q: Request) {
    forall id :: id in s.reservations && s.reservations[id].buyer == q.buyer && s.reservations[id].key == q.key ==>
      s.reservations[id].product == q.product && s.reservations[id].quantity == q.quantity
  }

  /** What is free of the product covers the request: of its supply, of the buyer's limit, and of
      the amounts that can be written. */
  ghost predicate Covers(s: State, q: Request)
    requires q.product in s.products
  {
    var product := s.products[q.product];
    && Sum(s.reservations, StillTaken(q.product, q.buyer, s.now)) + q.quantity <= product.perUserLimit
    && (product.supply.Some? ==> Spoken(s, q.product) + q.quantity <= product.supply.value)
    && product.price * q.quantity <= 9_223_372_036_854_775_807
  }

  /** When a reservation is made, or was. */
  ghost predicate Reservable(s: State, q: Request) {
    && q.quantity >= 1 && q.buyerValid && q.product in s.products
    && s.products[q.product].onSale && s.products[q.product].saleStarts <= s.now && s.now < s.products[q.product].saleEnds
    && (if KeyKnown(s, q) then KeyAgrees(s, q)
        else Covers(s, q) && forall o :: o in s.orders ==> s.orders[o].key != q.key)
  }

  lemma KeysStay(s: State, s': State, q: Request)
    requires Tidied(s, s', q.product)
    ensures (exists id :: id in s'.reservations && SameKey(s', q, id)) <==> KeyKnown(s, q)
    ensures (exists id :: id in s'.reservations && SameKey(s', q, id) && !SameRequest(s', q, id)) <==> !KeyAgrees(s, q)
    ensures (exists o :: o in s'.orders && s'.orders[o].key == q.key) <==> !forall o :: o in s.orders ==> s.orders[o].key != q.key
  {
    forall id | id in s.reservations
      ensures SameKey(s', q, id) <==> s.reservations[id].buyer == q.buyer && s.reservations[id].key == q.key
      ensures SameRequest(s', q, id) <==> SameKey(s', q, id) && s.reservations[id].product == q.product && s.reservations[id].quantity == q.quantity
    {
    }
    forall o | o in s.orders
      ensures s'.orders[o].key == s.orders[o].key
    {
    }
    hide IsLapsed, LapsedFor;
  }

  lemma PlaceIs(t: State, q: Request, taken: int, known: bool, reused: bool, newKey: bool)
    requires known <==> exists id :: id in t.reservations && SameKey(t, q, id)
    requires reused <==> exists id :: id in t.reservations && SameKey(t, q, id) && !SameRequest(t, q, id)
    requires newKey <==> !exists o :: o in t.orders && t.orders[o].key == q.key
    requires q.reservation !in t.reservations && q.order !in t.orders
    ensures Place(t, q, taken).Ok? <==>
              && q.product in t.products && q.buyerValid
              && var product := t.products[q.product];
                 && product.onSale && product.saleStarts <= t.now < product.saleEnds
                 && (known ==> !reused)
                 && (!known ==>
                       && newKey && taken + q.quantity <= product.perUserLimit
                       && (product.supply.Some? ==> product.reserved + product.fulfilled + q.quantity <= product.supply.value)
                       && product.price * q.quantity <= 9_223_372_036_854_775_807)
    ensures Place(t, q, taken).Ok? ==> q.product in t.products && Place(t, q, taken).value == if known then t else WithReservation(t, q)
  {
    hide SameKey, SameRequest;
  }

  lemma ProductStays(s: State, t: State, p: ProductId)
    requires Tidied(s, t, p) && p in s.products && Inv(t)
    ensures p in t.products && t.now == s.now
    ensures var a, b := s.products[p], t.products[p];
            && b.onSale == a.onSale && b.saleStarts == a.saleStarts && b.saleEnds == a.saleEnds && b.perUserLimit == a.perUserLimit
            && b.price == a.price && b.supply == a.supply && b.reserved + b.fulfilled == Spoken(s, p)
  {
    FulfilledIs(t, p);
  }

  /** A reservation succeeds exactly if the product is on sale, the buyer may buy, and what is not
      spoken for covers it, not counting reservations whose time is up. */
  lemma ReserveIff(s: State, q: Request, ids: seq<ReservationId>)
    requires Inv(s) && Enumerates(s, q.product, ids) && q.reservation !in s.reservations && q.order !in s.orders
    ensures Reserve(s, q, ids).Ok? <==> Reservable(s, q)
  {
    hide Inv, Enumerates, ReleaseAll, SameKey, SameRequest, KeyKnown, KeyAgrees, Tidied, Spoken, Place, WithReservation;
    hide HeldFor, TakenBy, OrderedFor, StillHeld, StillTaken, Direct, Minted, IssuedFor;
    var t := ReleaseAll(s, ids);
    ExpiryTidies(s, q.product, ids);
    KeysStay(s, t, q);
    TidiedKeys(s, t, q.product);
    var taken := Sum(t.reservations, TakenBy(q.product, q.buyer));
    PlaceIs(t, q, taken, KeyKnown(s, q), !KeyAgrees(s, q), forall o :: o in s.orders ==> s.orders[o].key != q.key);
    if q.product in s.products {
      ProductStays(s, t, q.product);
    }
  }

  lemma TidiedKeys(s: State, t: State, p: ProductId)
    requires Tidied(s, t, p)
    ensures t.reservations.Keys == s.reservations.Keys && t.orders.Keys == s.orders.Keys && t.products.Keys == s.products.Keys && t.now == s.now
  {
  }

  /** The reservation that is added, and its order. */
  ghost predicate Added(t: State, q: Request, s': State) {
    && q.product in t.products
    && s' == t.(reservations := t.reservations[q.reservation :=
                    Reservation(q.product, q.order, q.buyer, q.quantity, Reserved, q.key, t.now + 900)],
                orders := t.orders[q.order := Order(AwaitingPayment, q.key, q.product, q.quantity, true)],
                products := t.products[q.product := t.products[q.product].(reserved := t.products[q.product].reserved + q.quantity)])
  }

  lemma AddedIs(t: State, q: Request)
    requires q.product in t.products
    ensures Added(t, q, WithReservation(t, q))
  {
  }

  /** A new reservation holds its quantity for 15 minutes, with an order that awaits payment; a
      repeated one only lets time take its course. */
  lemma ReserveDoes(s: State, q: Request, ids: seq<ReservationId>) returns (t: State)
    requires Inv(s) && Enumerates(s, q.product, ids) && Reserve(s, q, ids).Ok?
    requires q.reservation !in s.reservations && q.order !in s.orders
    ensures Tidied(s, t, q.product)
    ensures if KeyKnown(s, q) then Reserve(s, q, ids).value == t else Added(t, q, Reserve(s, q, ids).value)
  {
    hide Inv, Enumerates, ReleaseAll, SameKey, SameRequest, KeyKnown, KeyAgrees, Tidied, Place, WithReservation, Added;
    hide HeldFor, TakenBy, OrderedFor, StillHeld, StillTaken, Direct, Minted, IssuedFor;
    t := ReleaseAll(s, ids);
    ExpiryTidies(s, q.product, ids);
    KeysStay(s, t, q);
    TidiedKeys(s, t, q.product);
    PlaceIs(t, q, Sum(t.reservations, TakenBy(q.product, q.buyer)), KeyKnown(s, q), !KeyAgrees(s, q),
            forall o :: o in s.orders ==> s.orders[o].key != q.key);
    if q.product in t.products {
      AddedIs(t, q);
    }
  }

  // ----- direct orders -----

  /** A direct order succeeds exactly if its key is new, or that of the same order, the product is
      on sale, and counter and supply cover it; time plays no part. */
  lemma OrderIff(s: State, p: ProductId, quantity: int, key: string, order: OrderId)
    requires Inv(s) && order !in s.orders
    ensures var r := OrderDirectly(s, p, quantity, key, order);
            var known := exists o :: o in s.orders && s.orders[o].key == key;
            && (r.Ok? && known ==> r.value == s)
            && (r.Ok? && !known ==>
                  && p in s.products
                  && r.value == s.(orders := s.orders[order := Order(AwaitingPayment, key, p, quantity, false)],
                                   products := s.products[p := s.products[p].(reserved := s.products[p].reserved + quantity)]))
            && (r.Ok? <==>
                  && quantity >= 1
                  && (if known then forall o :: o in s.orders && s.orders[o].key == key ==>
                                      s.orders[o].item == p && s.orders[o].count == quantity && !s.orders[o].ticketed
                      else
                        && p in s.products && s.products[p].onSale && s.products[p].price * quantity <= 9_223_372_036_854_775_807
                        && (s.products[p].supply.Some? ==>
                              s.products[p].reserved + s.products[p].fulfilled + quantity <= s.products[p].supply.value)))
  {
    hide Inv;
  }

  // ----- tickets -----

  /** Tickets are issued, or were, exactly for a reservation that is still held, paid and proven,
      of a buyer with a wallet, while there are serial numbers. */
  lemma IssueIff(s: State, id: ReservationId, hasWallet: bool, serial: nat)
    requires Inv(s)
    ensures Issue(s, id, hasWallet, serial).Ok? <==>
              && id in s.reservations
              && (HasTickets(s, s.reservations[id].order)
                  || (&& s.reservations[id].status == Reserved && s.reservations[id].order in s.orders
                      && s.orders[s.reservations[id].order].status == Paid && s.reservations[id].order in s.evidence && hasWallet
                      && serial + s.reservations[id].quantity <= 9_223_372_036_854_775_807))
  {
    if id in s.reservations {
      LinkedRows(s, id);
      QuantityIsPositive(s, id);
      if s.reservations[id].status == Reserved {
        assert Products(s) && Links(s);
        CounterCovers(s, id);
      }
    }
    hide Inv, HasTickets, Converting;
  }

  /** The tickets of a reservation: its quantity of consecutive serials. */
  lemma IssueDoes(s: State, id: ReservationId, hasWallet: bool, serial: nat)
    requires Inv(s) && IsMaxSerial(s.issuances, serial) && Issue(s, id, hasWallet, serial).Ok?
    requires id in s.reservations && !HasTickets(s, s.reservations[id].order)
    ensures Joined(s, id)
    ensures var s', r := Issue(s, id, hasWallet, serial).value, s.reservations[id];
            var product, order := s.products[r.product], s.orders[r.order];
            && (forall k :: k in s'.issuances <==> k in s.issuances || serial + 1 <= k <= serial + r.quantity)
            && (forall k :: k in s.issuances ==> s'.issuances[k] == s.issuances[k])
            && (forall k :: serial + 1 <= k <= serial + r.quantity ==> s'.issuances[k] == Issuance(r.product, r.order, Pending))
            && s' == s.(issuances := s'.issuances,
                        products := s.products[r.product := product.(reserved := product.reserved - r.quantity, fulfilled := product.fulfilled + r.quantity)],
                        reservations := s.reservations[id := r.(status := Converted)],
                        orders := s.orders[r.order := order.(status := Fulfilling)])
  {
    assert Links(s);
    hide Inv, Links, HasTickets, IsMaxSerial, AllBelow, WithTickets, Converting;
    LinkedRows(s, id);
    QuantityIsPositive(s, id);
    var r := s.reservations[id];
    Below(s.issuances, serial);
    TicketsAre(s.issuances, r.product, r.order, serial, r.quantity);
    ConvertingIs(s, id, serial);
  }

  lemma ConvertingIs(s: State, id: ReservationId, serial: nat)
    requires Joined(s, id) && s.reservations[id].quantity >= 0 && s.orders[s.reservations[id].order].status == Paid
    ensures var s', r := Converting(s, id, serial), s.reservations[id];
            var product, order := s.products[r.product], s.orders[r.order];
            && s'.issuances == WithTickets(s.issuances, r.product, r.order, serial, r.quantity)
            && s' == s.(issuances := s'.issuances,
                        products := s.products[r.product := product.(reserved := product.reserved - r.quantity, fulfilled := product.fulfilled + r.quantity)],
                        reservations := s.reservations[id := r.(status := Converted)],
                        orders := s.orders[r.order := order.(status := Fulfilling)])
  {
  }

  lemma Below(m: map<nat, Issuance>, serial: nat)
    requires IsMaxSerial(m, serial)
    ensures AllBelow(m, serial)
  {
  }

  lemma {:induction false} TicketsAre(m: map<nat, Issuance>, p: ProductId, order: OrderId, from: nat, n: nat)
    requires AllBelow(m, from)
    ensures var m' := WithTickets(m, p, order, from, n);
            && (forall k :: k in m' <==> k in m || from + 1 <= k <= from + n)
            && (forall k :: k in m ==> m'[k] == m[k])
            && (forall k :: from + 1 <= k <= from + n ==> m'[k] == Issuance(p, order, Pending))
    decreases n
  {
    if n > 0 {
      TicketsAre(m, p, order, from, n - 1);
    }
  }

  // ----- ownership -----

  /** The last ticket of an order that is being delivered. */
  ghost predicate LastOf(s: State, serial: nat)
    requires serial in s.issuances
  {
    var order := s.issuances[serial].forOrder;
    && order in s.orders && s.orders[order].status == Fulfilling
    && forall k :: k in s.issuances && k != serial && s.issuances[k].forOrder == order ==> s.issuances[k].state == Issued
  }

  /** The chain's report of a mint is taken exactly for a pending ticket of the wallet's owner and
      with a token, a transaction and an event of its own; it issues the ticket, and the last one
      fulfils its order. */
  lemma OwnershipIff(s: State, serial: nat, e: Ownership, wallet: Option<string>)
    requires serial in s.issuances
    ensures var r := AcceptOwnership(s, serial, e, wallet);
            && (r.Ok? <==>
                  && e.ledger >= 1
                  && (if serial in s.owners then s.owners[serial].token == e.token && s.owners[serial].hash == e.hash
                      else
                        && s.issuances[serial].state == Pending && wallet == Some(e.owner)
                        && forall k :: k in s.owners ==> s.owners[k].token != e.token && s.owners[k].hash != e.hash && s.owners[k].event != e.event))
            && (r.Ok? && serial in s.owners ==> r.value == s)
            && (r.Ok? && serial !in s.owners ==>
                  r.value == s.(issuances := s.issuances[serial := s.issuances[serial].(state := Issued)],
                                owners := s.owners[serial := e],
                                orders := if LastOf(s, serial)
                                          then s.orders[s.issuances[serial].forOrder := s.orders[s.issuances[serial].forOrder].(status := Fulfilled)]
                                          else s.orders))
  {
    LastIs(s, serial, e);
    hide AllIssued, LastOf;
  }

  lemma LastIs(s: State, serial: nat, e: Ownership)
    requires serial in s.issuances
    ensures var order := s.issuances[serial].forOrder;
            LastOf(s, serial) <==> AllIssued(WithOwner(s, serial, e), order) && order in s.orders && s.orders[order].status == Fulfilling
  {
    var s', order := WithOwner(s, serial, e), s.issuances[serial].forOrder;
    forall k | k in s.issuances && k != serial
      ensures s'.issuances[k] == s.issuances[k]
    {
    }
    assert s'.issuances[serial].state == Issued;
  }
}
