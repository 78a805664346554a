/** The ticket handlers as they update their rows. */
module TicketsTables {
  import opened Wrappers
  import opened MapSums
  import opened Tickets
  import opened TicketsProofs

  class Tables {
    var now: int
    var products: map<ProductId, Product>
    var reservations: map<ReservationId, Reservation>
    var orders: map<OrderId, Order>
    var issuances: map<nat, Issuance>
    var evidence: set<OrderId>
    var owners: map<nat, Ownership>

    ghost function Rows(): State
      reads this
    {
      State(now, products, reservations, orders, issuances, evidence, owners)
    }

    constructor ()
      ensures Rows() == INIT && Inv(Rows())
    {
      now, products, reservations, orders, issuances, evidence, owners := 0, map[], map[], map[], map[], {}, map[];
    }

    /** The expiry loop over the rows its query returned. */
    method ReleaseExpired(ids: seq<ReservationId>)
      modifies this
      ensures Rows() == ReleaseAll(old(Rows()), ids)
    {
      assert ids[..0] == [];
      for i := 0 to |ids|
        invariant Rows() == ReleaseAll(old(Rows()), ids[..i])
      {
        assert ids[..i + 1][..i] == ids[..i];
        var id := ids[i];
        if id in reservations && reservations[id].product in products && reservations[id].order in orders {
          var r := reservations[id];
          var order, product := orders[r.order], products[r.product];
          reservations := reservations[id := r.(status := Expired)];
          if order.status == AwaitingPayment {
            orders := orders[r.order := order.(status := OrderExpired)];
          }
          products := products[r.product := product.(reserved := if product.reserved - r.quantity < 0 then 0 else product.reserved - r.quantity)];
        }
      }
      assert ids[..|ids|] == ids;
    }

    /** SELECT SUM(quantity) of what the buyer holds. */
    method QuantityTaken(p: ProductId, buyer: User) returns (n: int)
      ensures n == Sum(reservations, TakenBy(p, buyer))
    {
      n := 0;
      var left := reservations;
      while left != map[]
        invariant n + Sum(left, TakenBy(p, buyer)) == Sum(reservations, TakenBy(p, buyer))
        decreases |left|
      {
        var id :| id in left;
        SumPick(left, TakenBy(p, buyer), id);
        var r := left[id];
        if r.product == p && r.buyer == buyer && r.status in {Reserved, Converted} {
          n := n + r.quantity;
        }
        left := left - {id};
      }
    }

    /** A refused request rolls back, the expiry included. */
    method CreateReservation(q: Request, ids: seq<ReservationId>) returns (r: Option<Error>)
      modifies this
      ensures Rows() == Committed(old(Rows()), Reserve(old(Rows()), q, ids))
      ensures r == match Reserve(old(Rows()), q, ids) case Ok(_) => None case Err(e) => Some(e)
      ensures Inv(old(Rows())) && Enumerates(old(Rows()), q.product, ids) ==> Inv(Rows())
    {
      hide Inv, ReleaseAll, Enumerates;
      if Inv(Rows()) && Enumerates(Rows(), q.product, ids) { ReserveKeepsInv(Rows(), q, ids); }
      if q.quantity <= 0 {
        return Some(InvalidQuantity);
      }
      var savedReservations, savedOrders, savedProducts := reservations, orders, products;
      ghost var before := Rows();
      ReleaseExpired(ids);
      ReleaseTouches(before, ids);
      r := PlaceReservation(q);
      if r.Some? {
        reservations, orders, products := savedReservations, savedOrders, savedProducts;
      }
    }

    method PlaceReservation(q: Request) returns (r: Option<Error>)
      modifies this
      ensures var result := Place(old(Rows()), q, Sum(old(reservations), TakenBy(q.product, q.buyer)));
              Rows() == Committed(old(Rows()), result) && r == match result case Ok(_) => None case Err(e) => Some(e)
    {
      var taken := QuantityTaken(q.product, q.buyer);
      if q.product !in products {
        return Some(NotFound);
      }
      var product := products[q.product];
      if !product.onSale || now < product.saleStarts || now >= product.saleEnds {
        return Some(NotOnSale);
      }
      if !q.buyerValid {
        return Some(Forbidden);
      }
      var sameKey := set id | id in reservations && reservations[id].buyer == q.buyer && reservations[id].key == q.key;
      assert forall id :: id in reservations && SameKey(Rows(), q, id) <==> id in sameKey;
      if sameKey != {} {
        if exists id :: id in sameKey && (reservations[id].product != q.product || reservations[id].quantity != q.quantity) {
          return Some(KeyReused);
        }
        return None;
      }
      if taken + q.quantity > product.perUserLimit {
        return Some(PerUserLimit);
      }
      if product.supply.Some? && product.reserved + product.fulfilled + q.quantity > product.supply.value {
        return Some(Unavailable);
      }
      if product.price * q.quantity > I64_MAX {
        return Some(AmountOverflow);
      }
      if q.reservation in reservations || q.order in orders || exists o :: o in orders && orders[o].key == q.key {
        return Some(AlreadyExists);
      }
      orders := orders[q.order := Order(AwaitingPayment, q.key, q.product, q.quantity, true)];
      products := products[q.product := product.(reserved := product.reserved + q.quantity)];
      reservations := reservations[q.reservation :=
        Reservation(q.product, q.order, q.buyer, q.quantity, Reserved, q.key, now + RESERVATION_TIME)];
      return None;
    }

    /** create_order for a product of the event. */
    method CreateOrder(p: ProductId, quantity: int, key: string, order: OrderId) returns (r: Option<Error>)
      modifies this
      ensures Rows() == Committed(old(Rows()), OrderDirectly(old(Rows()), p, quantity, key, order))
      ensures r == match OrderDirectly(old(Rows()), p, quantity, key, order) case Ok(_) => None case Err(e) => Some(e)
      ensures Inv(old(Rows())) ==> Inv(Rows())
    {
      hide Inv;
      if Inv(Rows()) { OrderKeepsInv(Rows(), p, quantity, key, order); }
      if quantity <= 0 {
        return Some(InvalidQuantity);
      }
      if exists o :: o in orders && orders[o].key == key {
        if exists o :: o in orders && orders[o].key == key && (orders[o].item != p || orders[o].count != quantity || orders[o].ticketed) {
          return Some(KeyReused);
        }
        return None;
      }
      if p !in products {
        return Some(NotFound);
      }
      var product := products[p];
      if !product.onSale {
        return Some(NotOnSale);
      }
      if product.price * quantity > I64_MAX {
        return Some(AmountOverflow);
      }
      if product.supply.Some? && product.reserved + product.fulfilled + quantity > product.supply.value {
        return Some(Unavailable);
      }
      if order in orders {
        return Some(AlreadyExists);
      }
      orders := orders[order := Order(AwaitingPayment, key, p, quantity, false)];
      products := products[p := product.(reserved := product.reserved + quantity)];
      return None;
    }

    /** Evidence that was recorded before is answered again; new evidence issues the ticket, and
        the last ticket fulfils the order. */
    method AcceptOwnershipEvidence(serial: nat, e: Ownership, wallet: Option<string>) returns (r: Option<Error>)
      modifies this
      ensures Rows() == Committed(old(Rows()), AcceptOwnership(old(Rows()), serial, e, wallet))
      ensures r == match AcceptOwnership(old(Rows()), serial, e, wallet) case Ok(_) => None case Err(x) => Some(x)
      ensures Inv(old(Rows())) ==> Inv(Rows())
    {
      hide Inv;
      if Inv(Rows()) { AcceptanceKeepsInv(Rows(), serial, e, wallet); }
      if e.ledger <= 0 {
        return Some(InvalidEvidence);
      }
      if serial !in issuances {
        return Some(NotFound);
      }
      if serial in owners {
        var existing := owners[serial];
        return if existing.token != e.token || existing.hash != e.hash then Some(EvidenceConflict) else None;
      }
      var ticket := issuances[serial];
      if ticket.state != Pending {
        return Some(NotEvidenceReady);
      }
      if wallet.None? {
        return Some(WalletMissing);
      }
      if wallet.value != e.owner {
        return Some(OwnerMismatch);
      }
      if exists k :: k in owners && (owners[k].token == e.token || owners[k].hash == e.hash || owners[k].event == e.event) {
        return Some(AlreadyExists);
      }
      owners := owners[serial := e];
      issuances := issuances[serial := ticket.(state := Issued)];
      var allIssued := forall k :: k in issuances && issuances[k].forOrder == ticket.forOrder ==> issuances[k].state == Issued;
      if allIssued && ticket.forOrder in orders && orders[ticket.forOrder].status == Fulfilling {
        orders := orders[ticket.forOrder := orders[ticket.forOrder].(status := Fulfilled)];
      }
      return None;
    }

    /** SELECT COALESCE(MAX(serial_number), 0) */
    method GreatestSerial() returns (n: nat)
      ensures IsMaxSerial(issuances, n)
    {
      n := 0;
      var left := issuances.Keys;
      while left != {}
        invariant left <= issuances.Keys
        invariant (n == 0 || n in issuances) && forall k :: k in issuances && k !in left ==> k <= n
        decreases |left|
      {
        var k :| k in left;
        left := left - {k};
        if k > n {
          n := k;
        }
      }
    }

    /** The loop that inserts one ticket after the other. */
    method InsertTickets(p: ProductId, order: OrderId, from: nat, quantity: nat)
      modifies this`issuances
      ensures issuances == WithTickets(old(issuances), p, order, from, quantity)
    {
      for offset := 1 to quantity + 1
        invariant issuances == WithTickets(old(issuances), p, order, from, offset - 1)
      {
        issuances := issuances[from + offset := Issuance(p, order, Pending)];
      }
    }

    method PrepareIssuance(id: ReservationId, hasWallet: bool) returns (r: Option<Error>)
      modifies this
      ensures exists serial: nat ::
                && IsMaxSerial(old(issuances), serial)
                && Rows() == Committed(old(Rows()), Issue(old(Rows()), id, hasWallet, serial))
                && r == match Issue(old(Rows()), id, hasWallet, serial) case Ok(_) => None case Err(e) => Some(e)
      ensures Inv(old(Rows())) ==> Inv(Rows()) && r != Some(ProjectionDrift)
    {
      hide Inv, IsMaxSerial;
      var serial := GreatestSerial();
      if Inv(Rows()) {
        IssueKeepsInv(Rows(), id, hasWallet, serial);
        if id in reservations { NoDrift(Rows(), id, hasWallet, serial); }
      }
      if id !in reservations {
        return Some(NotFound);
      }
      var reservation := reservations[id];
      if reservation.product !in products || reservation.order !in orders || reservation.quantity < 0 {
        return Some(NotFound);
      }
      var order, product := orders[reservation.order], products[reservation.product];
      if exists k :: k in issuances && issuances[k].forOrder == reservation.order {
        return None;
      }
      if order.status != Paid || reservation.status != Reserved {
        return Some(NotReady);
      }
      if reservation.order !in evidence {
        return Some(EvidenceMissing);
      }
      if !hasWallet {
        return Some(WalletMissing);
      }
      if serial + reservation.quantity > I64_MAX {
        return Some(SerialOverflow);
      }
      if product.reserved < reservation.quantity {
        return Some(ProjectionDrift);
      }
      InsertTickets(reservation.product, reservation.order, serial, reservation.quantity);
      products := products[reservation.product := product.(reserved := product.reserved - reservation.quantity,
                                                           fulfilled := product.fulfilled + reservation.quantity)];
      reservations := reservations[id := reservation.(status := Converted)];
      if order.status == Paid {
        orders := orders[reservation.order := order.(status := Fulfilling)];
      }
      return None;
    }
  }
}
