/** Ticket inventory of one event: reservations, lazy expiry, direct orders and the issue of
    serial numbers. A handler locks its rows, so it is one atomic step, and a refused request
    leaves every row as it was. */
module Tickets {
  import opened Wrappers
  import opened MapSums

  const I64_MAX: int := 0x7FFF_FFFF_FFFF_FFFF
  const RESERVATION_TIME: int := 15 * 60

  type ProductId = nat
  type ReservationId = nat
  type OrderId = nat
  type User = nat

  datatype Product = Product(
    supply: Option<int>, reserved: int, fulfilled: int, perUserLimit: int, price: int,
    onSale: bool, saleStarts: int, saleEnds: int)

  datatype ReservationStatus = Reserved | Converted | Expired

  datatype Reservation = Reservation(
    product: ProductId, order: OrderId, buyer: User, quantity: int, status: ReservationStatus,
    key: string, expiresAt: int)

  datatype OrderStatus = AwaitingPayment | Paid | Fulfilling | Fulfilled | OrderExpired

  /** ticketed: the order was created together with a reservation. */
  datatype Order = Order(status: OrderStatus, key: string, item: ProductId, count: int, ticketed: bool)

  datatype IssuanceStatus = Pending | Issued

  datatype Issuance = Issuance(kind: ProductId, forOrder: OrderId, state: IssuanceStatus)

  /** What the chain has reported of the mint of a ticket. */
  datatype Ownership = Ownership(token: string, hash: string, event: string, ledger: int, owner: string)

  datatype State = State(
    now: int,
    products: map<ProductId, Product>,
    reservations: map<ReservationId, Reservation>,
    orders: map<OrderId, Order>,
    issuances: map<nat, Issuance>,
    evidence: set<OrderId>,
    owners: map<nat, Ownership>)

  datatype Error =
    | InvalidQuantity | NotFound | NotOnSale | Forbidden | KeyReused | PerUserLimit | Unavailable
    | AmountOverflow | AlreadyExists | NotReady | EvidenceMissing | WalletMissing | SerialOverflow
    | ProjectionDrift | NotEvidenceReady | InvalidEvidence | EvidenceConflict | OwnerMismatch

  datatype Result<+T> = Ok(value: T) | Err(error: Error)

  // ----- sums the handlers and the invariants speak of -----

  ghost function HeldFor(p: ProductId): (ReservationId, Reservation) -> int {
    (id: ReservationId, r: Reservation) => if r.product == p && r.status == Reserved then r.quantity else 0
  }

  /** What a buyer holds or has been issued of a product. */
  ghost function TakenBy(p: ProductId, buyer: User): (ReservationId, Reservation) -> int {
    (id: ReservationId, r: Reservation) =>
      if r.product == p && r.buyer == buyer && r.status in {Reserved, Converted} then r.quantity else 0
  }

  ghost function OrderedFor(p: ProductId): (OrderId, Order) -> int {
    (id: OrderId, o: Order) => if o.item == p && !o.ticketed then o.count else 0
  }

  ghost function IssuedFor(p: ProductId): (nat, Issuance) -> int {
    (serial: nat, i: Issuance) => if i.kind == p then 1 else 0
  }

  ghost function IssuedOn(order: OrderId): (nat, Issuance) -> int {
    (serial: nat, i: Issuance) => if i.forOrder == order then 1 else 0
  }

  // ----- lazy expiry -----

  predicate Lapsed(s: State, p: ProductId, id: ReservationId) {
    id in s.reservations && s.reservations[id].product == p && s.reservations[id].status == Reserved
    && s.reservations[id].expiresAt <= s.now
  }

  /** The rows the expiry query returns, each once, in whatever order. */
  predicate Enumerates(s: State, p: ProductId, ids: seq<ReservationId>) {
    && (forall i :: 0 <= i < |ids| ==> Lapsed(s, p, ids[i]))
    && (forall i, j :: 0 <= i < j < |ids| ==> ids[i] != ids[j])
    && (forall id :: id in s.reservations && Lapsed(s, p, id) ==> id in ids)
  }

  function Max0(x: int): int {
    if x < 0 then 0 else x
  }

  /** The rows a reservation refers to exist; foreign keys see to it. */
  predicate Joined(s: State, id: ReservationId) {
    id in s.reservations && s.reservations[id].product in s.products && s.reservations[id].order in s.orders
  }

  /** One turn of the expiry loop. */
  function ReleaseOne(s: State, id: ReservationId): State {
    if !Joined(s, id) then s
    else
      var r := s.reservations[id];
      var product, order := s.products[r.product], s.orders[r.order];
      s.(reservations := s.reservations[id := r.(status := Expired)],
         orders := if order.status == AwaitingPayment then s.orders[r.order := order.(status := OrderExpired)] else s.orders,
         products := s.products[r.product := product.(reserved := Max0(product.reserved - r.quantity))])
  }

  /** release_expired_for_product */
  function ReleaseAll(s: State, ids: seq<ReservationId>): State {
    if |ids| == 0 then s else ReleaseOne(ReleaseAll(s, ids[..|ids| - 1]), ids[|ids| - 1])
  }

  // ----- reserving -----

  /** A request to reserve. The identifiers are the ones the server draws; buyerValid says that
      the buyer is active and has a verified wallet. */
  datatype Request = Request(
    product: ProductId, buyer: User, quantity: int, key: string, buyerValid: bool,
    reservation: ReservationId, order: OrderId)

  predicate SameKey(s: State, q: Request, id: ReservationId) {
    id in s.reservations && s.reservations[id].buyer == q.buyer && s.reservations[id].key == q.key
  }

  predicate SameRequest(s: State, q: Request, id: ReservationId) {
    SameKey(s, q, id) && s.reservations[id].product == q.product && s.reservations[id].quantity == q.quantity
  }

  predicate Open(s: State, product: Product) {
    product.onSale && product.saleStarts <= s.now < product.saleEnds
  }

  predicate OverSupply(product: Product, quantity: int) {
    product.supply.Some? && product.reserved + product.fulfilled + quantity > product.supply.value
  }

  function WithReservation(s: State, q: Request): State
    requires q.product in s.products
  {
    var product := s.products[q.product];
    s.(reservations := s.reservations[q.reservation :=
           Reservation(q.product, q.order, q.buyer, q.quantity, Reserved, q.key, s.now + RESERVATION_TIME)],
       orders := s.orders[q.order := Order(AwaitingPayment, q.key, q.product, q.quantity, true)],
       products := s.products[q.product := product.(reserved := product.reserved + q.quantity)])
  }

  /** create_reservation after the expiry loop; taken is what the buyer already holds. */
  function Place(s: State, q: Request, taken: int): Result<State> {
    if q.product !in s.products then Err(NotFound)
    else
      var product := s.products[q.product];
      if !Open(s, product) then Err(NotOnSale)
      else if !q.buyerValid then Err(Forbidden)
      else if exists id :: id in s.reservations && SameKey(s, q, id) then
        if exists id :: id in s.reservations && SameKey(s, q, id) && !SameRequest(s, q, id) then Err(KeyReused) else Ok(s)
      else if taken + q.quantity > product.perUserLimit then Err(PerUserLimit)
      else if OverSupply(product, q.quantity) then Err(Unavailable)
      else if product.price * q.quantity > I64_MAX then Err(AmountOverflow)
      else if q.reservation in s.reservations || q.order in s.orders then Err(AlreadyExists)
      else if exists o :: o in s.orders && s.orders[o].key == q.key then Err(AlreadyExists)
      else Ok(WithReservation(s, q))
  }

  /** create_reservation: ids is the order in which the expiry query returns its rows. */
  ghost function Reserve(s: State, q: Request, ids: seq<ReservationId>): Result<State> {
    if q.quantity <= 0 then Err(InvalidQuantity)
    else
      var released := ReleaseAll(s, ids);
      Place(released, q, Sum(released.reservations, TakenBy(q.product, q.buyer)))
  }

  /** create_order for a product of the event, bought without a reservation. */
  function OrderDirectly(s: State, p: ProductId, quantity: int, key: string, order: OrderId): Result<State> {
    if quantity <= 0 then Err(InvalidQuantity)
    else if exists o :: o in s.orders && s.orders[o].key == key then
      if exists o :: o in s.orders && s.orders[o].key == key && (s.orders[o].item != p || s.orders[o].count != quantity || s.orders[o].ticketed)
      then Err(KeyReused) else Ok(s)
    else if p !in s.products then Err(NotFound)
    else
      var product := s.products[p];
      if !product.onSale then Err(NotOnSale)
      else if product.price * quantity > I64_MAX then Err(AmountOverflow)
      else if OverSupply(product, quantity) then Err(Unavailable)
      else if order in s.orders then Err(AlreadyExists)
      else Ok(s.(orders := s.orders[order := Order(AwaitingPayment, key, p, quantity, false)],
                 products := s.products[p := product.(reserved := product.reserved + quantity)]))
  }

  // ----- issuing -----

  /** The greatest serial in use, or zero. */
  ghost predicate IsMaxSerial(issuances: map<nat, Issuance>, n: nat) {
    (forall k :: k in issuances ==> k <= n) && (n == 0 || n in issuances)
  }

  /** The serials from + 1 to from + n, one after the other. */
  function WithTickets(issuances: map<nat, Issuance>, p: ProductId, order: OrderId, from: nat, n: nat): map<nat, Issuance> {
    if n == 0 then issuances
    else WithTickets(issuances, p, order, from, n - 1)[from + n := Issuance(p, order, Pending)]
  }

  predicate HasTickets(s: State, order: OrderId) {
    exists k :: k in s.issuances && s.issuances[k].forOrder == order
  }

  function Converting(s: State, id: ReservationId, from: nat): State
    requires Joined(s, id) && s.reservations[id].quantity >= 0
  {
    var r := s.reservations[id];
    var product, order := s.products[r.product], s.orders[r.order];
    s.(issuances := WithTickets(s.issuances, r.product, r.order, from, r.quantity),
       products := s.products[r.product := product.(reserved := product.reserved - r.quantity, fulfilled := product.fulfilled + r.quantity)],
       reservations := s.reservations[id := r.(status := Converted)],
       orders := if order.status == Paid then s.orders[r.order := order.(status := Fulfilling)] else s.orders)
  }

  /** prepare_issuance for the reservation the order was created with; serial is the greatest
      serial of the event. */
  function Issue(s: State, id: ReservationId, hasWallet: bool, serial: nat): Result<State> {
    if !Joined(s, id) || s.reservations[id].quantity < 0 then Err(NotFound)
    else
      var r := s.reservations[id];
      if HasTickets(s, r.order) then Ok(s)
      else if s.orders[r.order].status != Paid || r.status != Reserved then Err(NotReady)
      else if r.order !in s.evidence then Err(EvidenceMissing)
      else if !hasWallet then Err(WalletMissing)
      else if serial + r.quantity > I64_MAX then Err(SerialOverflow)
      else if s.products[r.product].reserved < r.quantity then Err(ProjectionDrift)
      else Ok(Converting(s, id, serial))
  }

  predicate AllIssued(s: State, order: OrderId) {
    forall k :: k in s.issuances && s.issuances[k].forOrder == order ==> s.issuances[k].state == Issued
  }

  /** No two tickets share a token, a transaction or a contract event. */
  predicate SharedMint(s: State, e: Ownership) {
    exists k :: k in s.owners && (s.owners[k].token == e.token || s.owners[k].hash == e.hash || s.owners[k].event == e.event)
  }

  function WithOwner(s: State, serial: nat, e: Ownership): State
    requires serial in s.issuances
  {
    s.(issuances := s.issuances[serial := s.issuances[serial].(state := Issued)], owners := s.owners[serial := e])
  }

  /** accept_ownership_evidence; wallet is the verified address of the ticket's owner, if there
      is one. */
  function AcceptOwnership(s: State, serial: nat, e: Ownership, wallet: Option<string>): Result<State> {
    if e.ledger <= 0 then Err(InvalidEvidence)
    else if serial !in s.issuances then Err(NotFound)
    else if serial in s.owners then
      if s.owners[serial].token != e.token || s.owners[serial].hash != e.hash then Err(EvidenceConflict) else Ok(s)
    else if s.issuances[serial].state != Pending then Err(NotEvidenceReady)
    else if wallet.None? then Err(WalletMissing)
    else if wallet.value != e.owner then Err(OwnerMismatch)
    else if SharedMint(s, e) then Err(AlreadyExists)
    else
      var s', order := WithOwner(s, serial, e), s.issuances[serial].forOrder;
      if AllIssued(s', order) && order in s.orders && s.orders[order].status == Fulfilling
      then Ok(s'.(orders := s.orders[order := s.orders[order].(status := Fulfilled)]))
      else Ok(s')
  }

  // ----- what other handlers do to the same rows -----

  /** A payment of an order arrives; indexed says that it was reconciled with the chain. */
  function Pay(s: State, order: OrderId, indexed: bool): State {
    if order !in s.orders || s.orders[order].status != AwaitingPayment then s
    else
      s.(orders := s.orders[order := s.orders[order].(status := Paid)],
         evidence := if indexed then s.evidence + {order} else s.evidence)
  }

  /** A manager sets the supply, never below what is already taken. */
  function SetSupply(s: State, p: ProductId, supply: int): State {
    if p !in s.products then s
    else
      var product := s.products[p];
      var taken := product.reserved + product.fulfilled;
      s.(products := s.products[p := product.(supply := Some(if supply < taken then taken else supply))])
  }

  function SetSale(s: State, p: ProductId, onSale: bool): State {
    if p !in s.products then s else s.(products := s.products[p := s.products[p].(onSale := onSale)])
  }

  function AddProduct(s: State, p: ProductId, supply: Option<int>, perUserLimit: int, price: int, starts: int, ends: int): State {
    if p in s.products || (supply.Some? && supply.value <= 0) || perUserLimit < 1 then s
    else s.(products := s.products[p := Product(supply, 0, 0, perUserLimit, price, false, starts, ends)])
  }

  // ----- runs -----

  datatype Step =
    | DoReserve(q: Request, ids: seq<ReservationId>)
    | DoOrder(product: ProductId, quantity: int, key: string, order: OrderId)
    | DoIssue(reservation: ReservationId, hasWallet: bool, serial: nat)
    | DoAcceptOwnership(ticket: nat, e: Ownership, wallet: Option<string>)
    | PaymentArrives(paid: OrderId, indexed: bool)
    | SupplySet(product: ProductId, supply: int)
    | SaleSet(product: ProductId, onSale: bool)
    | ProductAdded(product: ProductId, initial: Option<int>, perUserLimit: int, price: int, starts: int, ends: int)
    | ClockAdvances(elapsed: nat)

  /** What the database supplies to a step is what its queries return. */
  ghost predicate WellFormed(s: State, step: Step) {
    && (step.DoReserve? ==> Enumerates(s, step.q.product, step.ids))
    && (step.DoIssue? ==> IsMaxSerial(s.issuances, step.serial))
  }

  ghost function Committed(s: State, r: Result<State>): State {
    if r.Ok? then r.value else s
  }

  ghost function After(s: State, step: Step): State {
    match step
    case DoReserve(q, ids) => Committed(s, Reserve(s, q, ids))
    case DoOrder(p, quantity, key, order) => Committed(s, OrderDirectly(s, p, quantity, key, order))
    case DoIssue(id, hasWallet, serial) => Committed(s, Issue(s, id, hasWallet, serial))
    case DoAcceptOwnership(ticket, e, wallet) => Committed(s, AcceptOwnership(s, ticket, e, wallet))
    case PaymentArrives(paid, indexed) => Pay(s, paid, indexed)
    case SupplySet(p, supply) => SetSupply(s, p, supply)
    case SaleSet(p, onSale) => SetSale(s, p, onSale)
    case ProductAdded(p, initial, perUserLimit, price, starts, ends) => AddProduct(s, p, initial, perUserLimit, price, starts, ends)
    case ClockAdvances(elapsed) => s.(now := s.now + elapsed)
  }

  ghost function Run(s: State, steps: seq<Step>): State {
    if |steps| == 0 then s else After(Run(s, steps[..|steps| - 1]), steps[|steps| - 1])
  }

  /** Every step got what its queries return in the state it ran in. */
  ghost predicate Runs(s: State, steps: seq<Step>) {
    |steps| == 0 || (Runs(s, steps[..|steps| - 1]) && WellFormed(Run(s, steps[..|steps| - 1]), steps[|steps| - 1]))
  }

  const INIT: State := State(0, map[], map[], map[], map[], {}, map[])
}
