/** The contract as an object: storage in fields, entry points that read a record, check it
    and write it back. The host commits what a call wrote only when the call returns, so
    each method works on local copies and writes fields once nothing can abort any more. */
module MarketContract {
  import opened Wrappers
  import opened MarketLedger
  import opened MarketSolvency
  import MarketClaims
  import MarketRuns
  import MarketRules

  class Contract {
    var admin: Option<Address>
    var paused: bool
    var marketCount: u32
    var books: map<nat, Book>
    var balances: Balances
    var now: u64

    ghost function Storage(): State
      reads this
    {
      State(admin, paused, marketCount, books, balances, now)
    }

    /** The call ended as the ledger says, from the given state, and an aborted call left
        that state alone. */
    ghost predicate Follows(before: State, step: Step, r: Result<Receipt>)
      reads this
    {
      && Storage() == After(before, step)
      && match Invoke(before, step)
         case Ok(done) => r == Ok(done.1)
         case Abort(e) => r == Abort(e)
    }

    /** Calls not signed by the contract itself keep it solvent. */
    ghost predicate Safe(before: State, auth: set<Address>)
      reads this
    {
      Inv(before) && SELF !in auth ==> Inv(Storage())
    }

    constructor ()
      ensures Storage() == INIT && Inv(Storage())
    {
      admin, paused, marketCount := None, false, 0;
      books, balances, now := map[], map[], 0;
    }

    method Initialize(newAdmin: Address) returns (r: Result<Receipt>)
      modifies this
      ensures Follows(old(Storage()), Step({}, DoInitialize(newAdmin)), r)
      ensures Safe(old(Storage()), {})
    {
      if admin.Some? {
        return Abort(AlreadyInitialized);
      }
      admin := Some(newAdmin);
      paused := false;
      marketCount := 0;
      r := Ok(Receipt(0, 0));
    }

    method CreateMarket(auth: set<Address>, numOptions: u32, closeTime: u64, resolutionDelay: u64,
                        feeBps: u32, resolver: Address, treasury: Address) returns (r: Result<Receipt>)
      modifies this
      ensures Follows(old(Storage()), Step(auth, DoCreateMarket(numOptions, closeTime, resolutionDelay, feeBps, resolver, treasury)), r)
      ensures Safe(old(Storage()), auth)
    {
      ghost var step := Step(auth, DoCreateMarket(numOptions, closeTime, resolutionDelay, feeBps, resolver, treasury));
      if Inv(Storage()) && SELF !in auth { MarketRuns.StepKeepsInv(Storage(), step); }
      if admin.None? {
        return Abort(NotInitialized);
      }
      if admin.value !in auth {
        return Abort(Unauthorized);
      }
      if numOptions < 2 || numOptions > MAX_OPTIONS || closeTime <= now || feeBps > MAX_FEE_BPS {
        return Abort(InvalidParams);
      }
      if marketCount == U32_MAX {
        return Abort(Arithmetic);
      }
      var id := marketCount + 1;
      var market := Book(numOptions, closeTime, resolutionDelay, feeBps, resolver, treasury,
                         Open, 0, 0, 0, 0, 0, map[], map[], {});
      books := books[id := market];
      marketCount := id;
      r := Ok(Receipt(id, 0));
    }

    method Stake(auth: set<Address>, sender: Address, id: nat, option: nat, amount: i128) returns (r: Result<Receipt>)
      modifies this
      ensures Follows(old(Storage()), Step(auth, DoStake(sender, id, option, amount)), r)
      ensures Safe(old(Storage()), auth)
    {
      if Inv(Storage()) && SELF !in auth { MarketRuns.StepKeepsInv(Storage(), Step(auth, DoStake(sender, id, option, amount))); }
      if sender !in auth {
        return Abort(Unauthorized);
      }
      if paused {
        return Abort(StakingPaused);
      }
      if amount <= 0 {
        return Abort(InvalidAmount);
      }
      var market :- ReadMarket(id);
      if market.status != Open || now >= market.closeTime {
        return Abort(MarketClosed);
      }
      if option >= market.numOptions {
        return Abort(InvalidOption);
      }
      var moved :- TransferTokens(balances, sender, SELF, amount);
      var pool :- CheckedAdd(market.Pool(option), amount);
      var position :- CheckedAdd(market.Position(sender, option), amount);
      var total :- CheckedAdd(market.totalPool, amount);
      market := market.(totalPool := total);
      market := market.(pools := market.pools[option := pool]);
      market := market.(positions := market.positions[Holding(sender, option) := position]);
      balances := moved;
      books := books[id := market];
      r := Ok(Receipt(0, 0));
    }

    method Unstake(auth: set<Address>, sender: Address, id: nat, option: nat) returns (r: Result<Receipt>)
      modifies this
      ensures Follows(old(Storage()), Step(auth, DoUnstake(sender, id, option)), r)
      ensures Safe(old(Storage()), auth)
    {
      if Inv(Storage()) && SELF !in auth { MarketRuns.StepKeepsInv(Storage(), Step(auth, DoUnstake(sender, id, option))); }
      if sender !in auth {
        return Abort(Unauthorized);
      }
      var market :- ReadMarket(id);
      if market.status != Open || now >= market.closeTime {
        return Abort(MarketClosed);
      }
      if option >= market.numOptions {
        return Abort(InvalidOption);
      }
      var position := market.Position(sender, option);
      if position <= 0 {
        return Abort(NothingToUnstake);
      }
      var pool :- CheckedSub(market.Pool(option), position);
      var total :- CheckedSub(market.totalPool, position);
      market := market.(totalPool := total);
      market := market.(pools := market.pools[option := pool]);
      market := market.(positions := market.positions[Holding(sender, option) := 0]);
      var moved :- TransferTokens(balances, SELF, sender, position);
      books := books[id := market];
      balances := moved;
      r := Ok(Receipt(position, 0));
    }

    method ProposeResolution(auth: set<Address>, id: nat, winningOption: u32) returns (r: Result<Receipt>)
      modifies this
      ensures Follows(old(Storage()), Step(auth, DoPropose(id, winningOption)), r)
      ensures Safe(old(Storage()), auth)
    {
      if Inv(Storage()) && SELF !in auth { MarketRuns.StepKeepsInv(Storage(), Step(auth, DoPropose(id, winningOption))); }
      var market :- ReadMarket(id);
      if market.resolver !in auth {
        return Abort(Unauthorized);
      }
      if market.status != Open {
        return Abort(InvalidStatus);
      }
      if now < market.closeTime {
        return Abort(MarketStillOpen);
      }
      if winningOption >= market.numOptions {
        return Abort(InvalidOption);
      }
      if market.Pool(winningOption) <= 0 {
        return Abort(NoWinningStake);
      }
      market := market.(status := ResolutionPending);
      market := market.(winningOption := winningOption);
      market := market.(proposedAt := now);
      books := books[id := market];
      r := Ok(Receipt(0, 0));
    }

    method FinalizeResolution(auth: set<Address>, id: nat) returns (r: Result<Receipt>)
      modifies this
      ensures Follows(old(Storage()), Step(auth, DoFinalize(id)), r)
      ensures Safe(old(Storage()), auth)
    {
      if Inv(Storage()) && SELF !in auth { MarketRuns.StepKeepsInv(Storage(), Step(auth, DoFinalize(id))); }
      var market :- ReadMarket(id);
      if market.resolver !in auth {
        return Abort(Unauthorized);
      }
      if market.status != ResolutionPending {
        return Abort(InvalidStatus);
      }
      var finalizableAt := market.proposedAt + market.resolutionDelay;
      if finalizableAt > U64_MAX {
        return Abort(Arithmetic);
      }
      if now < finalizableAt {
        return Abort(ResolutionDelayActive);
      }
      market := market.(status := Resolved);
      books := books[id := market];
      r := Ok(Receipt(0, 0));
    }

    method CancelMarket(auth: set<Address>, id: nat) returns (r: Result<Receipt>)
      modifies this
      ensures Follows(old(Storage()), Step(auth, DoCancel(id)), r)
      ensures Safe(old(Storage()), auth)
    {
      if Inv(Storage()) && SELF !in auth { MarketRuns.StepKeepsInv(Storage(), Step(auth, DoCancel(id))); }
      if admin.None? {
        return Abort(NotInitialized);
      }
      if admin.value !in auth {
        return Abort(Unauthorized);
      }
      var market :- ReadMarket(id);
      if market.status == Resolved || market.status == Cancelled {
        return Abort(InvalidStatus);
      }
      market := market.(status := Cancelled);
      books := books[id := market];
      r := Ok(Receipt(0, 0));
    }

    method Claim(auth: set<Address>, sender: Address, id: nat) returns (r: Result<Receipt>)
      modifies this
      ensures Follows(old(Storage()), Step(auth, DoClaim(sender, id)), r)
      ensures Safe(old(Storage()), auth)
      ensures r.Ok? && Inv(old(Storage())) && SELF !in auth ==>
        id in old(books) && MarketClaims.Charged(old(books)[id], sender, r.value.value, r.value.fee)
    {
      ClaimCharges(Storage(), auth, sender, id);
      if Inv(Storage()) && SELF !in auth { MarketRuns.StepKeepsInv(Storage(), Step(auth, DoClaim(sender, id))); }
      if sender !in auth {
        return Abort(Unauthorized);
      }
      var market :- ReadMarket(id);
      var payout :- SettleClaim(market, sender);
      var moved := balances;
      if payout.fee > 0 {
        moved :- TransferTokens(moved, SELF, market.treasury, payout.fee);
      }
      moved :- TransferTokens(moved, SELF, sender, payout.net);
      books := books[id := payout.book];
      balances := moved;
      r := Ok(Receipt(payout.net, payout.fee));
    }

    static lemma ClaimCharges(s: State, auth: set<Address>, sender: Address, id: nat)
      ensures Inv(s) && SELF !in auth && MarketLedger.Claim(s, auth, sender, id).Ok? ==>
        id in s.books && var paid := MarketLedger.Claim(s, auth, sender, id).value.1; MarketClaims.Charged(s.books[id], sender, paid.value, paid.fee)
    {
      if Inv(s) && SELF !in auth && MarketLedger.Claim(s, auth, sender, id).Ok? {
        MarketRules.ClaimChargesTheRate(s, auth, sender, id);
      }
      hide *;
    }

    /** The part of a claim that reads and rewrites the market record. */
    static method SettleClaim(record: Book, sender: Address) returns (r: Result<Payout>)
      ensures r == ClaimFromBook(record, sender)
    {
      var market := record;
      if market.status != Resolved {
        return Abort(InvalidStatus);
      }
      if sender in market.claimed {
        return Abort(AlreadyClaimed);
      }
      var stake := market.Position(sender, market.winningOption);
      if stake <= 0 {
        return Abort(NothingToClaim);
      }
      var winningPool := market.Pool(market.winningOption);
      if winningPool <= 0 {
        return Abort(NoWinningStake);
      }
      var nextClaimedStake :- CheckedAdd(market.claimedWinningStake, stake);
      var gross: i128;
      if nextClaimedStake == winningPool {
        gross :- CheckedSub(market.totalPool, market.claimedGross);
      } else {
        var product :- CheckedMul(stake, market.totalPool);
        gross := Quotient(product, winningPool);
      }
      var profit :- CheckedSub(gross, stake);
      var charge :- CheckedMul(profit, market.feeBps);
      var fee := Quotient(charge, BPS_DENOMINATOR);
      var net :- CheckedSub(gross, fee);
      market := market.(claimedWinningStake := nextClaimedStake);
      var claimedGross :- CheckedAdd(market.claimedGross, gross);
      market := market.(claimedGross := claimedGross);
      market := market.(claimed := market.claimed + {sender});
      r := Ok(Payout(market, gross, fee, net));
    }

    method Refund(auth: set<Address>, sender: Address, id: nat) returns (r: Result<Receipt>)
      modifies this
      ensures Follows(old(Storage()), Step(auth, DoRefund(sender, id)), r)
      ensures Safe(old(Storage()), auth)
    {
      if Inv(Storage()) && SELF !in auth { MarketRuns.StepKeepsInv(Storage(), Step(auth, DoRefund(sender, id))); }
      if sender !in auth {
        return Abort(Unauthorized);
      }
      var market :- ReadMarket(id);
      if market.status != Cancelled {
        return Abort(NotCancelled);
      }
      if sender in market.claimed {
        return Abort(AlreadyClaimed);
      }
      var total :- SumPositions(market, sender);
      if total <= 0 {
        return Abort(NothingToClaim);
      }
      market := market.(claimed := market.claimed + {sender});
      var moved :- TransferTokens(balances, SELF, sender, total);
      books := books[id := market];
      balances := moved;
      r := Ok(Receipt(total, 0));
    }

    /** The refund loop over all options of the market. */
    static method SumPositions(market: Book, sender: Address) returns (r: Result<i128>)
      ensures r == RefundTotal(market, sender, market.numOptions)
    {
      var total: i128 := 0;
      for option := 0 to market.numOptions
        invariant RefundTotal(market, sender, option) == Ok(total)
      {
        RefundStops(market, sender, option + 1, market.numOptions);
        total :- CheckedAdd(total, market.Position(sender, option));
      }
      r := Ok(total);
    }

    method SetPaused(auth: set<Address>, stop: bool) returns (r: Result<Receipt>)
      modifies this
      ensures Follows(old(Storage()), Step(auth, DoSetPaused(stop)), r)
      ensures Safe(old(Storage()), auth)
    {
      if admin.None? {
        return Abort(NotInitialized);
      }
      if admin.value !in auth {
        return Abort(Unauthorized);
      }
      paused := stop;
      r := Ok(Receipt(0, 0));
    }

    method TransferAdmin(auth: set<Address>, newAdmin: Address) returns (r: Result<Receipt>)
      modifies this
      ensures Follows(old(Storage()), Step(auth, DoTransferAdmin(newAdmin)), r)
      ensures Safe(old(Storage()), auth)
    {
      if admin.None? {
        return Abort(NotInitialized);
      }
      if admin.value !in auth {
        return Abort(Unauthorized);
      }
      admin := Some(newAdmin);
      r := Ok(Receipt(0, 0));
    }

    function ReadMarket(id: nat): Result<Book>
      reads this
    {
      if id in books then Ok(books[id]) else Abort(MarketNotFound)
    }

    function TransferTokens(from: Balances, sender: Address, recipient: Address, amount: int): Result<Balances>
      reads this
    {
      if admin.None? then Abort(NotInitialized) else Transfer(from, sender, recipient, amount)
    }
  }

  /** Once the refund loop overflows it has overflowed for good. */
  lemma {:induction false} RefundStops(b: Book, sender: Address, n: nat, m: nat)
    requires n <= m
    ensures RefundTotal(b, sender, n).Abort? ==> RefundTotal(b, sender, m) == RefundTotal(b, sender, n)
  {
    if n < m {
      RefundStops(b, sender, n, m - 1);
    }
  }
}
