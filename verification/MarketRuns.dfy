/** Theorems about every run of the contract, whatever the interleaving of markets. */
module MarketRuns {
  import opened MapSums
  import opened MarketLedger
  import opened MarketSolvency
  import opened MarketClaims

  // ----- one step -----

  lemma {:induction false} OwedAfterUpdate(books: map<nat, Book>, id: nat, b': Book, n: nat)
    requires forall i :: 1 <= i <= n ==> i in books
    ensures 1 <= id <= n ==> OwedUpTo(books[id := b'], n) == OwedUpTo(books, n) - Owed(books[id]) + Owed(b')
    ensures id > n ==> OwedUpTo(books[id := b'], n) == OwedUpTo(books, n)
  {
    if n > 0 {
      OwedAfterUpdate(books, id, b', n - 1);
    }
  }

  lemma OwedIsNonNegative(b: Book)
    requires BookInv(b)
    ensures 0 <= Owed(b)
  {
    StakesNonNegative(b);
    RefundedAtMostTotal(b);
    if b.status == Resolved && b.claimedWinningStake != b.Pool(b.winningOption) {
      forall j | j in b.positions && j.option == b.winningOption
        ensures 0 <= FloorShare(b, b.positions[j])
      {
        FloorOfShare(b.positions[j], b.totalPool, b.Pool(b.winningOption));
      }
      SumMonotone(b.positions, SharesClaimed(b), AllShares(b));
      SharesNearlyExhaust(b);
    }
  }

  lemma {:induction false} EachIsCovered(books: map<nat, Book>, id: nat, n: nat)
    requires forall i :: 1 <= i <= n ==> i in books && BookInv(books[i])
    requires 1 <= id <= n
    ensures 0 <= OwedUpTo(books, n) - Owed(books[id])
  {
    OwedIsNonNegative(books[n]);
    if id < n {
      EachIsCovered(books, id, n - 1);
    } else {
      OwedSumNonNegative(books, n - 1);
    }
  }

  lemma {:induction false} OwedSumNonNegative(books: map<nat, Book>, n: nat)
    requires forall i :: 1 <= i <= n ==> i in books && BookInv(books[i])
    ensures 0 <= OwedUpTo(books, n)
  {
    if n > 0 {
      OwedIsNonNegative(books[n]);
      OwedSumNonNegative(books, n - 1);
    }
  }

  /** In a reachable state the token balance covers what any one market owes. */
  lemma MarketIsCovered(s: State, id: nat)
    requires Inv(s) && id in s.books
    ensures 0 <= Owed(s.books[id]) <= Balance(s.balances, SELF)
  {
    OwedIsNonNegative(s.books[id]);
    EachIsCovered(s.books, id, s.marketCount);
  }

  /** A step that touches one book keeps the invariant if the balance keeps up with the debt. */
  lemma BookStepKeepsInv(s: State, s': State, id: nat)
    requires Inv(s) && id in s.books && id in s'.books
    requires s'.books == s.books[id := s'.books[id]]
    requires s'.marketCount == s.marketCount && s'.admin == s.admin
    requires BookInv(s'.books[id])
    requires Balance(s'.balances, SELF) - Balance(s.balances, SELF) >= Owed(s'.books[id]) - Owed(s.books[id])
    ensures Inv(s')
  {
    OwedAfterUpdate(s.books, id, s'.books[id], s.marketCount);
  }

  lemma EmptyBook(b: Book)
    requires 2 <= b.numOptions <= MAX_OPTIONS && b.feeBps <= MAX_FEE_BPS
    requires b.status == Open && NothingPaid(b) && b.totalPool == 0
    requires b.pools == map[] && b.positions == map[] && b.claimed == {}
    ensures BookInv(b) && Owed(b) == 0
  {
  }

  lemma CreateKeepsInv(s: State, auth: set<Address>, n: u32, close: u64, delay: u64, fee: u32, resolver: Address, treasury: Address)
    requires Inv(s) && CreateMarket(s, auth, n, close, delay, fee, resolver, treasury).Ok?
    ensures Inv(CreateMarket(s, auth, n, close, delay, fee, resolver, treasury).value.0)
  {
    var s' := CreateMarket(s, auth, n, close, delay, fee, resolver, treasury).value.0;
    var id := s'.marketCount;
    EmptyBook(s'.books[id]);
    OwedAfterUpdate(s.books, id, s'.books[id], s.marketCount);
  }

  lemma StakeKeepsInv(s: State, auth: set<Address>, sender: Address, id: nat, option: nat, amount: i128)
    requires Inv(s) && SELF !in auth && Stake(s, auth, sender, id, option, amount).Ok?
    ensures Inv(Stake(s, auth, sender, id, option, amount).value.0)
  {
    StakeKeepsBook(s.books[id], sender, option, amount);
    BookStepKeepsInv(s, Stake(s, auth, sender, id, option, amount).value.0, id);
  }

  lemma UnstakeKeepsInv(s: State, auth: set<Address>, sender: Address, id: nat, option: nat)
    requires Inv(s) && SELF !in auth && Unstake(s, auth, sender, id, option).Ok?
    ensures Inv(Unstake(s, auth, sender, id, option).value.0)
  {
    UnstakeKeepsBook(s.books[id], sender, option);
    BookStepKeepsInv(s, Unstake(s, auth, sender, id, option).value.0, id);
  }

  lemma ProposeKeepsInv(s: State, auth: set<Address>, id: nat, winner: u32)
    requires Inv(s) && ProposeResolution(s, auth, id, winner).Ok?
    ensures Inv(ProposeResolution(s, auth, id, winner).value.0)
  {
    ProposeKeepsBook(s.books[id], winner, s.now);
    BookStepKeepsInv(s, ProposeResolution(s, auth, id, winner).value.0, id);
  }

  lemma FinalizeKeepsInv(s: State, auth: set<Address>, id: nat)
    requires Inv(s) && FinalizeResolution(s, auth, id).Ok?
    ensures Inv(FinalizeResolution(s, auth, id).value.0)
  {
    FinalizeKeepsBook(s.books[id]);
    BookStepKeepsInv(s, FinalizeResolution(s, auth, id).value.0, id);
  }

  lemma CancelKeepsInv(s: State, auth: set<Address>, id: nat)
    requires Inv(s) && CancelMarket(s, auth, id).Ok?
    ensures Inv(CancelMarket(s, auth, id).value.0)
  {
    CancelKeepsBook(s.books[id]);
    BookStepKeepsInv(s, CancelMarket(s, auth, id).value.0, id);
  }

  lemma ClaimKeepsInv(s: State, auth: set<Address>, sender: Address, id: nat)
    requires Inv(s) && SELF !in auth && Claim(s, auth, sender, id).Ok?
    ensures Inv(Claim(s, auth, sender, id).value.0)
  {
    ClaimKeepsBook(s.books[id], sender);
    BookStepKeepsInv(s, Claim(s, auth, sender, id).value.0, id);
  }

  lemma RefundKeepsInv(s: State, auth: set<Address>, sender: Address, id: nat)
    requires Inv(s) && SELF !in auth && Refund(s, auth, sender, id).Ok?
    ensures Inv(Refund(s, auth, sender, id).value.0)
  {
    RefundPaysWholeHolding(s.books[id], sender);
    RefundKeepsBook(s.books[id], sender);
    BookStepKeepsInv(s, Refund(s, auth, sender, id).value.0, id);
  }

  lemma StepKeepsInv(s: State, step: Step)
    requires Inv(s) && SELF !in step.auth
    ensures Inv(After(s, step))
  {
    if Invoke(s, step).Ok? {
      match step.call
      case DoInitialize(_) =>
      case DoCreateMarket(n, close, delay, fee, resolver, treasury) =>
        CreateKeepsInv(s, step.auth, n, close, delay, fee, resolver, treasury);
      case DoStake(sender, id, option, amount) => StakeKeepsInv(s, step.auth, sender, id, option, amount);
      case DoUnstake(sender, id, option) => UnstakeKeepsInv(s, step.auth, sender, id, option);
      case DoPropose(id, winner) => ProposeKeepsInv(s, step.auth, id, winner);
      case DoFinalize(id) => FinalizeKeepsInv(s, step.auth, id);
      case DoCancel(id) => CancelKeepsInv(s, step.auth, id);
      case DoClaim(sender, id) => ClaimKeepsInv(s, step.auth, sender, id);
      case DoRefund(sender, id) => RefundKeepsInv(s, step.auth, sender, id);
      case DoSetPaused(_) =>
      case DoTransferAdmin(_) =>
      case ClockAdvances(_) =>
      case TokenMoves(_, _, _) =>
      case TokenMinted(_, _) =>
    }
  }

  // ----- safety over whole runs -----

  /** Solvency: after any run the contract holds at least what all its markets still owe,
      and every book balances. */
  lemma {:induction false} SolventAfterEveryRun(steps: seq<Step>)
    requires Signed(steps)
    ensures Inv(Run(INIT, steps))
    ensures Solvent(Run(INIT, steps))
  {
    if steps != [] {
      SolventAfterEveryRun(steps[..|steps| - 1]);
      StepKeepsInv(Run(INIT, steps[..|steps| - 1]), steps[|steps| - 1]);
    }
  }

  ghost function PoolsBelow(b: Book, n: nat): int {
    if n == 0 then 0 else PoolsBelow(b, n - 1) + b.Pool(n - 1)
  }

  lemma {:induction false} PoolsBelowCount(b: Book, n: nat)
    requires WellFormed(b)
    ensures PoolsBelow(b, n) == Sum(b.positions, (k: Holding, v: i128) => if k.option < n then v else 0)
  {
    var below := (k: Holding, v: i128) => if k.option < n then v else 0;
    if n == 0 {
      SumZero(b.positions, below);
    } else {
      PoolsBelowCount(b, n - 1);
      var before := (k: Holding, v: i128) => if k.option < n - 1 then v else 0;
      assert b.Pool(n - 1) == StakedOn(b, n - 1);
      SumLinear(b.positions, before, OnOption(n - 1), below, 1, 1);
    }
  }

  /** The total pool is the sum of the option pools. */
  lemma TotalIsSumOfPools(b: Book)
    requires WellFormed(b)
    ensures b.totalPool == PoolsBelow(b, b.numOptions)
  {
    PoolsBelowCount(b, b.numOptions);
    SumCongruent(b.positions, b.positions, (k: Holding, v: i128) => if k.option < b.numOptions then v else 0, Everything());
  }

  // ----- exits -----

  /** Before close a staker's unstake succeeds exactly when there is something to take out,
      and returns the whole position. */
  lemma UnstakeSucceeds(s: State, auth: set<Address>, sender: Address, id: nat, option: nat)
    requires Inv(s) && SELF !in auth && sender in auth && id in s.books
    requires s.books[id].status == Open && s.now < s.books[id].closeTime && option < s.books[id].numOptions
    ensures Unstake(s, auth, sender, id, option).Ok? <==> s.books[id].Position(sender, option) > 0
    ensures Unstake(s, auth, sender, id, option).Ok? ==>
              var done := Unstake(s, auth, sender, id, option).value;
              && done.1 == Receipt(s.books[id].Position(sender, option), 0)
              && Balance(done.0.balances, sender) == Balance(s.balances, sender) + s.books[id].Position(sender, option)
  {
    StakesNonNegative(s.books[id]);
    MarketIsCovered(s, id);
  }

  /** The two products a claim computes fit in 128 bits. */
  ghost predicate Fits(b: Book, user: Address) {
    var stake := b.Position(user, b.winningOption);
    && (IsLast(b, user) || stake * b.totalPool <= I128_MAX)
    && (Gross(b, user) - stake) * b.feeBps <= I128_MAX
  }

  lemma ClaimIffEntitled(b: Book, user: Address)
    requires BookInv(b)
    ensures ClaimFromBook(b, user).Ok? <==> Entitled(b, user) && Fits(b, user)
    ensures ClaimFromBook(b, user).Ok? ==> Pays(b, user, ClaimFromBook(b, user).value)
    ensures ClaimFromBook(b, user).Ok? ==> 0 <= ClaimFromBook(b, user).value.gross <= Owed(b)
  {
    if Entitled(b, user) {
      ClaimPays(b, user);
      GrossIsFair(b, user);
    }
  }

  /** A claim succeeds exactly for an unclaimed winner whose products fit in 128 bits: the
      contract never lacks the tokens. The winner gets at least the stake back. */
  lemma ClaimSucceeds(s: State, auth: set<Address>, sender: Address, id: nat)
    requires Inv(s) && SELF !in auth && id in s.books
    ensures var b := s.books[id];
            Claim(s, auth, sender, id).Ok? <==> sender in auth && Entitled(b, sender) && Fits(b, sender)
    ensures Claim(s, auth, sender, id).Ok? ==>
              var b := s.books[id];
              var done := Claim(s, auth, sender, id).value;
              && done.1 == Receipt(Gross(b, sender) - Fee(b, sender), Fee(b, sender))
              && b.Position(sender, b.winningOption) <= done.1.value
              && Charged(b, sender, done.1.value, done.1.fee)
              && done.0.books == s.books[id := ClaimFromBook(b, sender).value.book]
  {
    if Entitled(s.books[id], sender) {
      EntitledIsCharged(s.books[id], sender);
    }
    hide Charged;
    MarketIsCovered(s, id);
    ClaimIffEntitled(s.books[id], sender);
  }

  /** A claim moves the net to the winner and the fee to the treasury, out of the contract, and
      touches no other balance, even if one address plays two of these parts. */
  lemma ClaimDelivers(s: State, auth: set<Address>, sender: Address, id: nat, who: Address)
    requires Inv(s) && SELF !in auth && Claim(s, auth, sender, id).Ok?
    ensures var done := Claim(s, auth, sender, id).value;
            Balance(done.0.balances, who) ==
              Balance(s.balances, who)
              + (if who == sender then done.1.value else 0)
              + (if who == s.books[id].treasury then done.1.fee else 0)
              - (if who == SELF then done.1.value + done.1.fee else 0)
  {
    ChargesAreNatural(s.books[id], sender);
    hide Inv, BookInv, ClaimFromBook;
  }

  lemma ChargesAreNatural(b: Book, user: Address)
    requires BookInv(b) && ClaimFromBook(b, user).Ok?
    ensures 0 <= ClaimFromBook(b, user).value.fee && 0 <= ClaimFromBook(b, user).value.net
  {
    ClaimKeepsBook(b, user);
  }

  /** If the square of the pot fits in 128 bits, no winner is ever turned away. */
  lemma ClaimAlwaysEnabled(s: State, auth: set<Address>, sender: Address, id: nat)
    requires Inv(s) && SELF !in auth && sender in auth && id in s.books
    requires Entitled(s.books[id], sender)
    requires s.books[id].totalPool * s.books[id].totalPool <= I128_MAX
    ensures Claim(s, auth, sender, id).Ok?
  {
    var b := s.books[id];
    GrossIsFair(b, sender);
    SmallPotsFit(b.Position(sender, b.winningOption), Gross(b, sender), b.totalPool, b.feeBps);
    ClaimSucceeds(s, auth, sender, id);
  }

  lemma SmallPotsFit(stake: nat, gross: nat, t: nat, feeBps: nat)
    requires stake <= gross <= t && feeBps <= MAX_FEE_BPS && t * t <= I128_MAX
    ensures stake * t <= I128_MAX
    ensures (gross - stake) * feeBps <= I128_MAX
  {
    Product(stake, t, t);
    Product(gross - stake, t, feeBps);
    if t >= MAX_FEE_BPS {
      Product(feeBps, t, t);
    }
  }

  lemma Product(x: nat, y: nat, z: nat)
    requires x <= y
    ensures 0 <= x * z <= y * z
  {
  }

  /** A refund succeeds exactly for a staker who has not had it, and returns the whole
      holding over all options. */
  lemma RefundSucceeds(s: State, auth: set<Address>, sender: Address, id: nat)
    requires Inv(s) && SELF !in auth && id in s.books
    ensures var b := s.books[id];
            Refund(s, auth, sender, id).Ok? <==>
              sender in auth && b.status == Cancelled && sender !in b.claimed && HeldBy(b, sender) > 0
    ensures Refund(s, auth, sender, id).Ok? ==>
              var done := Refund(s, auth, sender, id).value;
              && done.1 == Receipt(HeldBy(s.books[id], sender), 0)
              && Balance(done.0.balances, sender) == Balance(s.balances, sender) + HeldBy(s.books[id], sender)
  {
    var b := s.books[id];
    MarketIsCovered(s, id);
    RefundPaysWholeHolding(b, sender);
    if b.status == Cancelled && sender !in b.claimed {
      RefundKeepsBook(b, sender);
      OwedIsNonNegative(b.(claimed := b.claimed + {sender}));
    }
  }

  // ----- after resolution or cancellation nothing but the claim records moves -----

  ghost predicate Settling(b: Book) {
    b.status == Resolved || b.status == Cancelled
  }

  ghost predicate SameTerms(b: Book, b': Book) {
    && b'.status == b.status
    && b'.winningOption == b.winningOption
    && b'.feeBps == b.feeBps
    && b'.treasury == b.treasury
    && b'.totalPool == b.totalPool
    && b'.pools == b.pools
    && b'.positions == b.positions
    && b.claimed <= b'.claimed
  }

  lemma TermsFrozen(s: State, step: Step, id: nat)
    requires Numbered(s) && id in s.books && Settling(s.books[id])
    ensures id in After(s, step).books && SameTerms(s.books[id], After(s, step).books[id])
  {
    match step.call
    case DoInitialize(_) =>
    case DoCreateMarket(_, _, _, _, _, _) =>
    case DoStake(_, _, _, _) =>
    case DoUnstake(_, _, _) =>
    case DoPropose(_, _) =>
    case DoFinalize(_) =>
    case DoCancel(_) =>
    case DoClaim(sender, other) => ClaimTouchesClaims(s, step.auth, sender, other);
    case DoRefund(_, _) => RefundKeepsTerms(s, step, id);
    case DoSetPaused(_) =>
    case DoTransferAdmin(_) =>
    case ClockAdvances(_) =>
    case TokenMoves(_, _, _) =>
    case TokenMinted(_, _) =>
  }

  lemma RefundKeepsTerms(s: State, step: Step, id: nat)
    requires Numbered(s) && id in s.books && Settling(s.books[id]) && step.call.DoRefund?
    ensures id in After(s, step).books && SameTerms(s.books[id], After(s, step).books[id])
  {
  }

  lemma SettleTouchesClaims(b: Book, sender: Address)
    requires ClaimFromBook(b, sender).Ok?
    ensures b.status == Resolved
    ensures SameTerms(b, ClaimFromBook(b, sender).value.book)
    ensures sender in ClaimFromBook(b, sender).value.book.claimed
  {
  }

  lemma ClaimTouchesClaims(s: State, auth: set<Address>, sender: Address, id: nat)
    ensures Claim(s, auth, sender, id).Ok? ==>
              && id in s.books
              && Claim(s, auth, sender, id).value.0.books == s.books[id := ClaimFromBook(s.books[id], sender).value.book]
              && SameTerms(s.books[id], ClaimFromBook(s.books[id], sender).value.book)
              && sender in ClaimFromBook(s.books[id], sender).value.book.claimed
  {
    if Claim(s, auth, sender, id).Ok? {
      SettleTouchesClaims(s.books[id], sender);
    }
  }

  /** Once a market is resolved or cancelled, no run changes its stakes, pools, winner, fee
      or status, and a claim record is never erased. */
  lemma {:induction false} TermsFrozenForever(s: State, steps: seq<Step>, id: nat)
    requires Inv(s) && Signed(steps) && id in s.books && Settling(s.books[id])
    ensures Inv(Run(s, steps))
    ensures id in Run(s, steps).books && SameTerms(s.books[id], Run(s, steps).books[id])
  {
    if steps != [] {
      TermsFrozenForever(s, steps[..|steps| - 1], id);
      StepKeepsInv(Run(s, steps[..|steps| - 1]), steps[|steps| - 1]);
      TermsFrozen(Run(s, steps[..|steps| - 1]), steps[|steps| - 1], id);
    }
  }

  lemma ClaimedIsBarred(s: State, auth: set<Address>, sender: Address, id: nat)
    requires id in s.books && sender in s.books[id].claimed
    ensures Claim(s, auth, sender, id).Abort?
    ensures Refund(s, auth, sender, id).Abort?
  {
  }

  /** Exactly once: after a successful claim or refund, no later call pays that user again. */
  lemma PaidAtMostOnce(s: State, step: Step, later: seq<Step>, sender: Address, id: nat, auth: set<Address>)
    requires Inv(s) && SELF !in step.auth && Signed(later)
    requires step.call == DoClaim(sender, id) || step.call == DoRefund(sender, id)
    requires Invoke(s, step).Ok?
    ensures Claim(Run(After(s, step), later), auth, sender, id).Abort?
    ensures Refund(Run(After(s, step), later), auth, sender, id).Abort?
  {
    var s' := After(s, step);
    StepKeepsInv(s, step);
    PaymentIsRecorded(s, step, sender, id);
    TermsFrozenForever(s', later, id);
    ClaimedIsBarred(Run(s', later), auth, sender, id);
  }

  lemma PaymentIsRecorded(s: State, step: Step, sender: Address, id: nat)
    requires step.call == DoClaim(sender, id) || step.call == DoRefund(sender, id)
    requires Invoke(s, step).Ok?
    ensures var s' := After(s, step);
            id in s'.books && Settling(s'.books[id]) && sender in s'.books[id].claimed
  {
    if step.call.DoClaim? {
      ClaimTouchesClaims(s, step.auth, sender, id);
    }
  }
}
