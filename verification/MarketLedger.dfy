/** The state of the prediction-market contract and what each of its entry points does
    to that state. A call either yields a new state or aborts, and an aborted Soroban
    invocation leaves no trace. Authorisation (require_auth) is the set of addresses that
    signed the call. */
module MarketLedger {
  import opened Wrappers

  const I128_MAX: int := 0x7FFF_FFFF_FFFF_FFFF_FFFF_FFFF_FFFF_FFFF
  const I128_MIN: int := -I128_MAX - 1
  const U64_MAX: int := 0xFFFF_FFFF_FFFF_FFFF
  const U32_MAX: int := 0xFFFF_FFFF
  const BPS_DENOMINATOR: int := 10_000
  const MAX_FEE_BPS: int := 1_000
  const MAX_OPTIONS: int := 32

  type i128 = x: int | I128_MIN <= x <= I128_MAX
  type u64 = x: int | 0 <= x <= U64_MAX
  type u32 = x: int | 0 <= x <= U32_MAX

  type Address = nat

  /** The contract's own address. */
  const SELF: Address := 0

  /** The contract's error codes, and two traps raised by the host and the token. */
  datatype Error =
    | NotInitialized | AlreadyInitialized | StakingPaused | MarketNotFound | InvalidOption
    | InvalidAmount | MarketClosed | MarketStillOpen | InvalidStatus | AlreadyClaimed
    | NothingToClaim | NotCancelled | InvalidParams | NoWinningStake | NothingToUnstake
    | ResolutionDelayActive | Arithmetic
    | Unauthorized | TokenFailure

  datatype Result<+T> = Ok(value: T) | Abort(error: Error) {
    predicate IsFailure() { Abort? }

    function PropagateFailure<U>(): Result<U>
      requires Abort?
    {
      Abort(error)
    }

    function Extract(): T
      requires Ok?
    {
      value
    }
  }

  datatype Status = Open | ResolutionPending | Resolved | Cancelled

  /** A user's holding on one option of a market. */
  datatype Holding = Holding(user: Address, option: nat)

  /** Everything storage keeps under one market id: the MarketInfo record and the
      Pool, Position and Claimed entries. */
  datatype Book = Book(
    numOptions: u32,
    closeTime: u64,
    resolutionDelay: u64,
    feeBps: u32,
    resolver: Address,
    treasury: Address,
    status: Status,
    winningOption: u32,
    proposedAt: u64,
    totalPool: i128,
    claimedGross: i128,
    claimedWinningStake: i128,
    pools: map<nat, i128>,
    positions: map<Holding, i128>,
    claimed: set<Address>)
  {
    function Pool(option: nat): i128 {
      if option in pools then pools[option] else 0
    }

    function Position(user: Address, option: nat): i128 {
      if Holding(user, option) in positions then positions[Holding(user, option)] else 0
    }
  }

  type Balances = map<Address, int>

  function Balance(balances: Balances, who: Address): int {
    if who in balances then balances[who] else 0
  }

  datatype State = State(
    admin: Option<Address>,
    paused: bool,
    marketCount: u32,
    books: map<nat, Book>,
    balances: Balances,
    now: u64)

  const INIT: State := State(None, false, 0, map[], map[], 0)

  /** What a successful call returns, and the fee its event reports. */
  datatype Receipt = Receipt(value: int, fee: int)

  // ----- checked arithmetic -----

  function CheckedAdd(left: i128, right: i128): Result<i128> {
    if I128_MIN <= left + right <= I128_MAX then Ok(left + right) else Abort(Arithmetic)
  }

  function CheckedSub(left: i128, right: i128): Result<i128> {
    if I128_MIN <= left - right <= I128_MAX then Ok(left - right) else Abort(Arithmetic)
  }

  function CheckedMul(left: i128, right: i128): Result<i128> {
    if I128_MIN <= left * right <= I128_MAX then Ok(left * right) else Abort(Arithmetic)
  }

  /** Rust's integer division, which rounds toward zero. */
  function Quotient(dividend: i128, divisor: i128): (q: i128)
    requires divisor > 0
    ensures dividend >= 0 ==> q == dividend / divisor
  {
    var d: int := dividend;
    if d >= 0 then d / divisor else -((-d) / divisor)
  }

  // ----- the token -----

  function Transfer(balances: Balances, sender: Address, recipient: Address, amount: int): Result<Balances> {
    if amount < 0 || Balance(balances, sender) < amount then Abort(TokenFailure)
    else
      var debited := balances[sender := Balance(balances, sender) - amount];
      Ok(debited[recipient := Balance(debited, recipient) + amount])
  }

  // ----- entry points, one book at a time -----

  function StakeInBook(b: Book, sender: Address, option: nat, amount: i128): Result<Book> {
    var pool :- CheckedAdd(b.Pool(option), amount);
    var position :- CheckedAdd(b.Position(sender, option), amount);
    var total :- CheckedAdd(b.totalPool, amount);
    Ok(b.(pools := b.pools[option := pool],
          positions := b.positions[Holding(sender, option) := position],
          totalPool := total))
  }

  function UnstakeFromBook(b: Book, sender: Address, option: nat): Result<Book> {
    var position := b.Position(sender, option);
    if position <= 0 then Abort(NothingToUnstake)
    else
      var pool :- CheckedSub(b.Pool(option), position);
      var total :- CheckedSub(b.totalPool, position);
      Ok(b.(pools := b.pools[option := pool],
            positions := b.positions[Holding(sender, option) := 0],
            totalPool := total))
  }

  datatype Payout = Payout(book: Book, gross: i128, fee: i128, net: i128)

  function GrossShare(b: Book, stake: i128, winningPool: i128, nextClaimedStake: i128): Result<i128>
    requires winningPool > 0
  {
    if nextClaimedStake == winningPool then
      CheckedSub(b.totalPool, b.claimedGross)
    else
      var product :- CheckedMul(stake, b.totalPool);
      Ok(Quotient(product, winningPool))
  }

  function ClaimFromBook(b: Book, sender: Address): Result<Payout> {
    if b.status != Resolved then Abort(InvalidStatus)
    else if sender in b.claimed then Abort(AlreadyClaimed)
    else
      var stake := b.Position(sender, b.winningOption);
      if stake <= 0 then Abort(NothingToClaim)
      else
        var winningPool := b.Pool(b.winningOption);
        if winningPool <= 0 then Abort(NoWinningStake)
        else
          var nextClaimedStake :- CheckedAdd(b.claimedWinningStake, stake);
          var gross :- GrossShare(b, stake, winningPool, nextClaimedStake);
          Settle(b, sender, stake, gross, nextClaimedStake)
  }

  /** Takes the fee out of the profit and records the claim. */
  function Settle(b: Book, sender: Address, stake: i128, gross: i128, nextClaimedStake: i128): Result<Payout> {
    var profit :- CheckedSub(gross, stake);
    var charge :- CheckedMul(profit, b.feeBps);
    var fee := Quotient(charge, BPS_DENOMINATOR);
    var net :- CheckedSub(gross, fee);
    var claimedGross :- CheckedAdd(b.claimedGross, gross);
    Ok(Payout(b.(claimedWinningStake := nextClaimedStake,
                 claimedGross := claimedGross,
                 claimed := b.claimed + {sender}),
              gross, fee, net))
  }

  /** The sum the refund loop holds after visiting the first n options. */
  function RefundTotal(b: Book, sender: Address, n: nat): Result<i128> {
    if n == 0 then Ok(0)
    else
      var total :- RefundTotal(b, sender, n - 1);
      CheckedAdd(total, b.Position(sender, n - 1))
  }

  // ----- entry points on the whole contract -----

  function ReadMarket(s: State, id: nat): Result<Book> {
    if id in s.books then Ok(s.books[id]) else Abort(MarketNotFound)
  }

  function TokenTransfer(s: State, sender: Address, recipient: Address, amount: int): Result<Balances> {
    if s.admin.None? then Abort(NotInitialized) else Transfer(s.balances, sender, recipient, amount)
  }

  function RequireAdmin(s: State, auth: set<Address>): Result<()> {
    if s.admin.None? then Abort(NotInitialized)
    else if s.admin.value !in auth then Abort(Unauthorized)
    else Ok(())
  }

  function Initialize(s: State, admin: Address): Result<(State, Receipt)> {
    if s.admin.Some? then Abort(AlreadyInitialized)
    else Ok((s.(admin := Some(admin), paused := false, marketCount := 0), Receipt(0, 0)))
  }

  function CreateMarket(s: State, auth: set<Address>, numOptions: u32, closeTime: u64, resolutionDelay: u64,
                        feeBps: u32, resolver: Address, treasury: Address): Result<(State, Receipt)>
  {
    var _ :- RequireAdmin(s, auth);
    if numOptions < 2 || numOptions > MAX_OPTIONS || closeTime <= s.now || feeBps > MAX_FEE_BPS then
      Abort(InvalidParams)
    else if s.marketCount == U32_MAX then
      Abort(Arithmetic)
    else
      var id := s.marketCount + 1;
      var b := Book(numOptions, closeTime, resolutionDelay, feeBps, resolver, treasury,
                    Open, 0, 0, 0, 0, 0, map[], map[], {});
      Ok((s.(books := s.books[id := b], marketCount := id), Receipt(id, 0)))
  }

  function Stake(s: State, auth: set<Address>, sender: Address, id: nat, option: nat, amount: i128): Result<(State, Receipt)> {
    if sender !in auth then Abort(Unauthorized)
    else if s.paused then Abort(StakingPaused)
    else if amount <= 0 then Abort(InvalidAmount)
    else
      var b :- ReadMarket(s, id);
      if b.status != Open || s.now >= b.closeTime then Abort(MarketClosed)
      else if option >= b.numOptions then Abort(InvalidOption)
      else
        var balances :- TokenTransfer(s, sender, SELF, amount);
        var b' :- StakeInBook(b, sender, option, amount);
        Ok((s.(books := s.books[id := b'], balances := balances), Receipt(0, 0)))
  }

  function Unstake(s: State, auth: set<Address>, sender: Address, id: nat, option: nat): Result<(State, Receipt)> {
    if sender !in auth then Abort(Unauthorized)
    else
      var b :- ReadMarket(s, id);
      if b.status != Open || s.now >= b.closeTime then Abort(MarketClosed)
      else if option >= b.numOptions then Abort(InvalidOption)
      else
        var b' :- UnstakeFromBook(b, sender, option);
        var balances :- TokenTransfer(s, SELF, sender, b.Position(sender, option));
        Ok((s.(books := s.books[id := b'], balances := balances), Receipt(b.Position(sender, option), 0)))
  }

  function ProposeResolution(s: State, auth: set<Address>, id: nat, winningOption: u32): Result<(State, Receipt)> {
    var b :- ReadMarket(s, id);
    if b.resolver !in auth then Abort(Unauthorized)
    else if b.status != Open then Abort(InvalidStatus)
    else if s.now < b.closeTime then Abort(MarketStillOpen)
    else if winningOption >= b.numOptions then Abort(InvalidOption)
    else if b.Pool(winningOption) <= 0 then Abort(NoWinningStake)
    else
      var b' := b.(status := ResolutionPending, winningOption := winningOption, proposedAt := s.now);
      Ok((s.(books := s.books[id := b']), Receipt(0, 0)))
  }

  function FinalizeResolution(s: State, auth: set<Address>, id: nat): Result<(State, Receipt)> {
    var b :- ReadMarket(s, id);
    if b.resolver !in auth then Abort(Unauthorized)
    else if b.status != ResolutionPending then Abort(InvalidStatus)
    else if b.proposedAt + b.resolutionDelay > U64_MAX then Abort(Arithmetic)
    else if s.now < b.proposedAt + b.resolutionDelay then Abort(ResolutionDelayActive)
    else Ok((s.(books := s.books[id := b.(status := Resolved)]), Receipt(0, 0)))
  }

  function CancelMarket(s: State, auth: set<Address>, id: nat): Result<(State, Receipt)> {
    var _ :- RequireAdmin(s, auth);
    var b :- ReadMarket(s, id);
    if b.status == Resolved || b.status == Cancelled then Abort(InvalidStatus)
    else Ok((s.(books := s.books[id := b.(status := Cancelled)]), Receipt(0, 0)))
  }

  function Claim(s: State, auth: set<Address>, sender: Address, id: nat): Result<(State, Receipt)> {
    if sender !in auth then Abort(Unauthorized)
    else
      var b :- ReadMarket(s, id);
      var p :- ClaimFromBook(b, sender);
      var afterFee :- if p.fee > 0 then TokenTransfer(s, SELF, b.treasury, p.fee) else Ok(s.balances);
      var balances :- TokenTransfer(s.(balances := afterFee), SELF, sender, p.net);
      Ok((s.(books := s.books[id := p.book], balances := balances), Receipt(p.net, p.fee)))
  }

  function Refund(s: State, auth: set<Address>, sender: Address, id: nat): Result<(State, Receipt)> {
    if sender !in auth then Abort(Unauthorized)
    else
      var b :- ReadMarket(s, id);
      if b.status != Cancelled then Abort(NotCancelled)
      else if sender in b.claimed then Abort(AlreadyClaimed)
      else
        var total :- RefundTotal(b, sender, b.numOptions);
        if total <= 0 then Abort(NothingToClaim)
        else
          var balances :- TokenTransfer(s, SELF, sender, total);
          Ok((s.(books := s.books[id := b.(claimed := b.claimed + {sender})], balances := balances), Receipt(total, 0)))
  }

  function SetPaused(s: State, auth: set<Address>, paused: bool): Result<(State, Receipt)> {
    var _ :- RequireAdmin(s, auth);
    Ok((s.(paused := paused), Receipt(0, 0)))
  }

  function TransferAdmin(s: State, auth: set<Address>, newAdmin: Address): Result<(State, Receipt)> {
    var _ :- RequireAdmin(s, auth);
    Ok((s.(admin := Some(newAdmin)), Receipt(0, 0)))
  }

  // ----- runs -----

  /** One step of a run: a contract call, or something the world does by itself. */
  datatype Call =
    | DoInitialize(admin: Address)
    | DoCreateMarket(numOptions: u32, closeTime: u64, resolutionDelay: u64, feeBps: u32, resolver: Address, treasury: Address)
    | DoStake(sender: Address, id: nat, option: nat, amount: i128)
    | DoUnstake(sender: Address, id: nat, option: nat)
    | DoPropose(id: nat, winningOption: u32)
    | DoFinalize(id: nat)
    | DoCancel(id: nat)
    | DoClaim(sender: Address, id: nat)
    | DoRefund(sender: Address, id: nat)
    | DoSetPaused(paused: bool)
    | DoTransferAdmin(newAdmin: Address)
    | ClockAdvances(now: u64)
    | TokenMoves(sender: Address, recipient: Address, moved: int)
    | TokenMinted(recipient: Address, minted: nat)

  datatype Step = Step(auth: set<Address>, call: Call)

  function Invoke(s: State, step: Step): Result<(State, Receipt)> {
    match step.call
    case DoInitialize(admin) => Initialize(s, admin)
    case DoCreateMarket(n, close, delay, fee, resolver, treasury) => CreateMarket(s, step.auth, n, close, delay, fee, resolver, treasury)
    case DoStake(sender, id, option, amount) => Stake(s, step.auth, sender, id, option, amount)
    case DoUnstake(sender, id, option) => Unstake(s, step.auth, sender, id, option)
    case DoPropose(id, winningOption) => ProposeResolution(s, step.auth, id, winningOption)
    case DoFinalize(id) => FinalizeResolution(s, step.auth, id)
    case DoCancel(id) => CancelMarket(s, step.auth, id)
    case DoClaim(sender, id) => Claim(s, step.auth, sender, id)
    case DoRefund(sender, id) => Refund(s, step.auth, sender, id)
    case DoSetPaused(paused) => SetPaused(s, step.auth, paused)
    case DoTransferAdmin(newAdmin) => TransferAdmin(s, step.auth, newAdmin)
    case ClockAdvances(now) => if now < s.now then Abort(TokenFailure) else Ok((s.(now := now), Receipt(0, 0)))
    case TokenMoves(sender, recipient, moved) =>
      if sender !in step.auth then Abort(Unauthorized)
      else
        var balances :- Transfer(s.balances, sender, recipient, moved);
        Ok((s.(balances := balances), Receipt(0, 0)))
    case TokenMinted(recipient, minted) =>
      Ok((s.(balances := s.balances[recipient := Balance(s.balances, recipient) + minted]), Receipt(0, 0)))
  }

  /** An aborted call changes nothing. */
  function After(s: State, step: Step): State {
    match Invoke(s, step)
    case Ok(done) => done.0
    case Abort(_) => s
  }

  function Run(s: State, steps: seq<Step>): State {
    if steps == [] then s else After(Run(s, steps[..|steps| - 1]), steps[|steps| - 1])
  }

  /** No one can sign for the contract itself: it never calls out under its own authority
      except for the transfers written in its code. */
  ghost predicate Signed(steps: seq<Step>) {
    forall i :: 0 <= i < |steps| ==> SELF !in steps[i].auth
  }
}
