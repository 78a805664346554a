/** When exactly each call of the contract succeeds, what it leaves, and what a claim is charged,
    in plain numbers. */
module MarketRules {
  import opened Wrappers
  import opened MarketLedger
  import opened MarketSolvency
  import opened MarketClaims
  import opened MarketRuns
  import MarketPayouts

  // ----- the rate of a claim -----

  lemma ClaimChargesTheRate(s: State, auth: set<Address>, sender: Address, id: nat)
    requires Inv(s) && SELF !in auth && Claim(s, auth, sender, id).Ok?
    ensures id in s.books
    ensures var paid := Claim(s, auth, sender, id).value.1; Charged(s.books[id], sender, paid.value, paid.fee)
  {
    assert id in s.books;
    hide *;
    ClaimSucceeds(s, auth, sender, id);
  }

  // ----- when a call succeeds, and what it leaves -----

  const MAX: int := 170_141_183_460_469_231_731_687_303_715_884_105_727

  lemma InitializeIff(s: State, admin: Address)
    ensures Initialize(s, admin).Ok? <==> s.admin == None
    ensures Initialize(s, admin).Ok? ==>
      Initialize(s, admin).value == (State(Some(admin), false, 0, s.books, s.balances, s.now), Receipt(0, 0))
  {
  }

  /** Only the admin creates markets, with 2 to 32 options, a fee of ten percent at most and a
      closing time ahead; they are numbered from 1 and start empty. */
  lemma CreateIff(s: State, auth: set<Address>, numOptions: u32, closeTime: u64, delay: u64, feeBps: u32, resolver: Address, treasury: Address)
    ensures var r := CreateMarket(s, auth, numOptions, closeTime, delay, feeBps, resolver, treasury);
            && (r.Ok? <==> s.admin.Some? && s.admin.value in auth && 2 <= numOptions <= 32 && closeTime > s.now
                           && feeBps <= 1_000 && s.marketCount < 4_294_967_295)
            && (r.Ok? ==>
                  && r.value.1.value == s.marketCount + 1
                  && r.value.0 == s.(marketCount := s.marketCount + 1, books := s.books[s.marketCount + 1 :=
                       Book(numOptions, closeTime, delay, feeBps, resolver, treasury, Open, 0, 0, 0, 0, 0, map[], map[], {})]))
  {
  }

  /** Who moved how much between two accounts. */
  ghost predicate Moved(before: Balances, after: Balances, from: Address, to: Address, amount: int) {
    forall who :: Balance(after, who) ==
      Balance(before, who) - (if who == from then amount else 0) + (if who == to then amount else 0)
  }

  /** One stake of one book differs, and the sums with it. */
  ghost predicate Restaked(b: Book, b': Book, user: Address, option: nat, amount: int) {
    && b'.Position(user, option) == b.Position(user, option) + amount
    && b'.Pool(option) == b.Pool(option) + amount
    && b'.totalPool == b.totalPool + amount
    && (forall u: Address, o: nat :: u != user || o != option ==> b'.Position(u, o) == b.Position(u, o))
    && (forall o: nat :: o != option ==> b'.Pool(o) == b.Pool(o))
    && b' == b.(positions := b'.positions, pools := b'.pools, totalPool := b'.totalPool)
  }

  lemma TransferIff(balances: Balances, from: Address, to: Address, amount: int)
    ensures Transfer(balances, from, to, amount).Ok? <==> 0 <= amount <= Balance(balances, from)
    ensures Transfer(balances, from, to, amount).Ok? ==> Moved(balances, Transfer(balances, from, to, amount).value, from, to, amount)
  {
  }

  lemma StakeInBookIff(b: Book, sender: Address, option: nat, amount: i128)
    requires WellFormed(b) && amount > 0
    ensures StakeInBook(b, sender, option, amount).Ok? <==> b.totalPool + amount <= MAX
    ensures StakeInBook(b, sender, option, amount).Ok? ==> Restaked(b, StakeInBook(b, sender, option, amount).value, sender, option, amount)
  {
    StakesNonNegative(b);
    PositionsWithin(b, sender, option);
    hide WellFormed;
  }

  lemma PositionsWithin(b: Book, user: Address, option: nat)
    requires WellFormed(b)
    ensures 0 <= b.Position(user, option) <= b.Pool(option) <= b.totalPool
  {
    StakesNonNegative(b);
  }

  /** A stake succeeds exactly if the user signed it, staking is not paused, the market is open
      and not past its closing time, the option exists, the amount is positive and the user has
      it. */
  lemma StakeIff(s: State, auth: set<Address>, sender: Address, id: nat, option: nat, amount: i128)
    requires Inv(s)
    ensures var r := Stake(s, auth, sender, id, option, amount);
            && (r.Ok? <==>
                  && sender in auth && !s.paused && amount > 0 && id in s.books
                  && s.books[id].status == Open && s.now < s.books[id].closeTime && option < s.books[id].numOptions
                  && Balance(s.balances, sender) >= amount && s.books[id].totalPool + amount <= MAX)
            && (r.Ok? ==>
                  && id in r.value.0.books && Restaked(s.books[id], r.value.0.books[id], sender, option, amount)
                  && Moved(s.balances, r.value.0.balances, sender, SELF, amount)
                  && r.value.0 == s.(books := s.books[id := r.value.0.books[id]], balances := r.value.0.balances))
  {
    if id in s.books && amount > 0 {
      assert BookInv(s.books[id]);
      StakeInBookIff(s.books[id], sender, option, amount);
    }
    assert id in s.books ==> s.admin.Some? by { BooksHaveAdmin(s, id); }
    TransferIff(s.balances, sender, SELF, amount);
    hide Inv, BookInv, WellFormed, StakeInBook, Transfer, Restaked, Moved;
  }

  lemma BooksHaveAdmin(s: State, id: nat)
    requires Inv(s)
    ensures id in s.books ==> s.admin.Some?
  {
  }

  lemma UnstakeInBookIff(b: Book, sender: Address, option: nat)
    requires WellFormed(b)
    ensures UnstakeFromBook(b, sender, option).Ok? <==> b.Position(sender, option) > 0
    ensures UnstakeFromBook(b, sender, option).Ok? ==>
      Restaked(b, UnstakeFromBook(b, sender, option).value, sender, option, -b.Position(sender, option))
  {
    PositionsWithin(b, sender, option);
    hide WellFormed;
  }

  /** A user takes a stake back exactly while the market is open and not past its closing time. */
  lemma UnstakeIff(s: State, auth: set<Address>, sender: Address, id: nat, option: nat)
    requires Inv(s)
    ensures var r := Unstake(s, auth, sender, id, option);
            && (r.Ok? <==>
                  && sender in auth && id in s.books
                  && s.books[id].status == Open && s.now < s.books[id].closeTime && option < s.books[id].numOptions
                  && s.books[id].Position(sender, option) > 0)
            && (r.Ok? ==>
                  var stake := s.books[id].Position(sender, option);
                  && r.value.1.value == stake
                  && id in r.value.0.books && Restaked(s.books[id], r.value.0.books[id], sender, option, -stake)
                  && Moved(s.balances, r.value.0.balances, SELF, sender, stake)
                  && r.value.0 == s.(books := s.books[id := r.value.0.books[id]], balances := r.value.0.balances))
  {
    if id in s.books {
      BooksHaveAdmin(s, id);
      UnstakeInBookIff(s.books[id], sender, option);
      PositionsWithin(s.books[id], sender, option);
      MarketIsCovered(s, id);
      TransferIff(s.balances, SELF, sender, s.books[id].Position(sender, option));
      assert s.books[id].status == Open ==> Owed(s.books[id]) == s.books[id].totalPool;
    }
    hide Inv, BookInv, WellFormed, UnstakeFromBook, Transfer, Restaked, Moved, Owed;
  }

  /** Only the resolver names a winner, of an open market past its closing time, and only an option
      somebody staked on; only the resolver closes it, after the whole delay; only the admin
      cancels, and never a market that is settled. Nothing else changes. */
  lemma ProposeIff(s: State, auth: set<Address>, id: nat, winner: u32)
    ensures var r := ProposeResolution(s, auth, id, winner);
            && (r.Ok? <==>
                  && id in s.books && s.books[id].resolver in auth && s.books[id].status == Open
                  && s.now >= s.books[id].closeTime && winner < s.books[id].numOptions && s.books[id].Pool(winner) > 0)
            && (r.Ok? ==> r.value.1 == Receipt(0, 0) && r.value.0 == s.(books := s.books[id :=
                  s.books[id].(status := ResolutionPending, winningOption := winner, proposedAt := s.now)]))
  {
  }

  lemma FinalizeIff(s: State, auth: set<Address>, id: nat)
    ensures var r := FinalizeResolution(s, auth, id);
            && (r.Ok? <==>
                  && id in s.books && s.books[id].resolver in auth && s.books[id].status == ResolutionPending
                  && s.now >= s.books[id].proposedAt + s.books[id].resolutionDelay)
            && (r.Ok? ==> r.value.1 == Receipt(0, 0) && r.value.0 == s.(books := s.books[id := s.books[id].(status := Resolved)]))
  {
  }

  lemma CancelIff(s: State, auth: set<Address>, id: nat)
    ensures var r := CancelMarket(s, auth, id);
            && (r.Ok? <==>
                  && s.admin.Some? && s.admin.value in auth && id in s.books
                  && s.books[id].status in {Open, ResolutionPending})
            && (r.Ok? ==> r.value.1 == Receipt(0, 0) && r.value.0 == s.(books := s.books[id := s.books[id].(status := Cancelled)]))
  {
  }

  lemma AdminIff(s: State, auth: set<Address>, paused: bool, newAdmin: Address)
    ensures SetPaused(s, auth, paused).Ok? <==> s.admin.Some? && s.admin.value in auth
    ensures SetPaused(s, auth, paused).Ok? ==> SetPaused(s, auth, paused).value == (s.(paused := paused), Receipt(0, 0))
    ensures TransferAdmin(s, auth, newAdmin).Ok? <==> s.admin.Some? && s.admin.value in auth
    ensures TransferAdmin(s, auth, newAdmin).Ok? ==> TransferAdmin(s, auth, newAdmin).value == (s.(admin := Some(newAdmin)), Receipt(0, 0))
  {
  }

  // ----- time -----

  /** A winner was named after the closing time, by now at the latest, and has a stake; a market is
      resolved only when the whole delay is over. */
  ghost predicate Waited(b: Book, now: int) {
    && (b.status in {ResolutionPending, Resolved} ==>
          b.closeTime <= b.proposedAt <= now && b.winningOption < b.numOptions && b.Pool(b.winningOption) > 0)
    && (b.status == Resolved ==> b.proposedAt + b.resolutionDelay <= now)
  }

  /** Closing time, delay, options and resolver stay, waiting is never cut short, and from the
      closing time on, or when the market is no longer open, no stake moves. */
  ghost predicate Timely(b: Book, b': Book, now: int, now': int) {
    && b'.closeTime == b.closeTime && b'.resolutionDelay == b.resolutionDelay
    && b'.numOptions == b.numOptions && b'.resolver == b.resolver
    && now <= now'
    && (Waited(b, now) ==> Waited(b', now'))
    && (now >= b.closeTime || b.status != Open ==> b'.positions == b.positions && b'.pools == b.pools)
  }

  lemma SameBookIsTimely(b: Book, now: int, now': int)
    requires now <= now'
    ensures Timely(b, b, now, now')
  {
  }

  lemma ClaimIsTimely(b: Book, user: Address, now: int)
    requires ClaimFromBook(b, user).Ok?
    ensures Timely(b, ClaimFromBook(b, user).value.book, now, now)
  {
  }

  lemma RestakingIsTimely(b: Book, b': Book, user: Address, option: nat, amount: int, now: int)
    requires Restaked(b, b', user, option, amount) && b.status == Open && now < b.closeTime
    ensures Timely(b, b', now, now)
  {
  }

  lemma ResolverCallIsTimely(s: State, step: Step, id: nat)
    requires id in s.books && (step.call.DoPropose? || step.call.DoFinalize? || step.call.DoCancel?)
    ensures id in After(s, step).books && Timely(s.books[id], After(s, step).books[id], s.now, After(s, step).now)
  {
    SameBookIsTimely(s.books[id], s.now, s.now);
    match step.call
    case DoPropose(other, winner) =>
      ProposeIff(s, step.auth, other, winner);
      hide ProposeResolution;
    case DoFinalize(other) =>
      FinalizeIff(s, step.auth, other);
      hide FinalizeResolution;
    case DoCancel(other) =>
      CancelIff(s, step.auth, other);
      hide CancelMarket;
  }

  lemma RefundIsTimely(s: State, step: Step, id: nat)
    requires id in s.books && step.call.DoRefund?
    ensures id in After(s, step).books && Timely(s.books[id], After(s, step).books[id], s.now, After(s, step).now)
  {
    hide RefundTotal, TokenTransfer;
  }

  lemma CreateIsTimely(s: State, step: Step, id: nat)
    requires Inv(s) && id in s.books && step.call.DoCreateMarket?
    ensures id in After(s, step).books && Timely(s.books[id], After(s, step).books[id], s.now, After(s, step).now)
  {
    var call := step.call;
    CreateIff(s, step.auth, call.numOptions, call.closeTime, call.resolutionDelay, call.feeBps, call.resolver, call.treasury);
    SameBookIsTimely(s.books[id], s.now, s.now);
    assert id <= s.marketCount;
    hide CreateMarket, Timely, Inv;
  }

  lemma StakeIsTimely(s: State, step: Step, id: nat)
    requires Inv(s) && id in s.books && step.call.DoStake?
    ensures id in After(s, step).books && Timely(s.books[id], After(s, step).books[id], s.now, After(s, step).now)
  {
    var call := step.call;
    StakeIff(s, step.auth, call.sender, call.id, call.option, call.amount);
    SameBookIsTimely(s.books[id], s.now, s.now);
    hide Stake, Inv, Timely, Restaked, Moved;
    if call.id == id && Invoke(s, step).Ok? {
      RestakingIsTimely(s.books[id], After(s, step).books[id], call.sender, call.option, call.amount, s.now);
    }
  }

  lemma UnstakeIsTimely(s: State, step: Step, id: nat)
    requires Inv(s) && id in s.books && step.call.DoUnstake?
    ensures id in After(s, step).books && Timely(s.books[id], After(s, step).books[id], s.now, After(s, step).now)
  {
    var call := step.call;
    UnstakeIff(s, step.auth, call.sender, call.id, call.option);
    SameBookIsTimely(s.books[id], s.now, s.now);
    hide Unstake, Inv, Timely, Restaked, Moved;
    if call.id == id && Invoke(s, step).Ok? {
      RestakingIsTimely(s.books[id], After(s, step).books[id], call.sender, call.option, -s.books[id].Position(call.sender, call.option), s.now);
    }
  }

  lemma ClaimStepIsTimely(s: State, step: Step, id: nat)
    requires Inv(s) && id in s.books && step.call.DoClaim?
    ensures id in After(s, step).books && Timely(s.books[id], After(s, step).books[id], s.now, After(s, step).now)
  {
    ClaimTouchesClaims(s, step.auth, step.call.sender, step.call.id);
    KeepsTheClock(s, step);
    SameBookIsTimely(s.books[id], s.now, s.now);
    hide Claim, Inv, Timely, ClaimFromBook, SameTerms;
    if step.call.id == id && Invoke(s, step).Ok? {
      ClaimIsTimely(s.books[id], step.call.sender, s.now);
    }
  }

  lemma OtherStepIsTimely(s: State, step: Step, id: nat)
    requires id in s.books
    requires step.call.DoInitialize? || step.call.DoSetPaused? || step.call.DoTransferAdmin? || step.call.ClockAdvances?
             || step.call.TokenMoves? || step.call.TokenMinted?
    ensures id in After(s, step).books && Timely(s.books[id], After(s, step).books[id], s.now, After(s, step).now)
  {
    hide Timely, Transfer;
    SameBookIsTimely(s.books[id], s.now, After(s, step).now);
  }

  lemma KeepsTheClock(s: State, step: Step)
    requires step.call.DoClaim?
    ensures After(s, step).now == s.now
  {
    hide ClaimFromBook;
  }

  lemma StepIsTimely(s: State, step: Step, id: nat)
    requires Inv(s) && id in s.books
    ensures id in After(s, step).books && Timely(s.books[id], After(s, step).books[id], s.now, After(s, step).now)
  {
    hide After, Inv, Timely;
    match step.call
    case DoStake(_, _, _, _) => StakeIsTimely(s, step, id);
    case DoUnstake(_, _, _) => UnstakeIsTimely(s, step, id);
    case DoClaim(_, _) => ClaimStepIsTimely(s, step, id);
    case DoPropose(_, _) => ResolverCallIsTimely(s, step, id);
    case DoFinalize(_) => ResolverCallIsTimely(s, step, id);
    case DoCancel(_) => ResolverCallIsTimely(s, step, id);
    case DoRefund(_, _) => RefundIsTimely(s, step, id);
    case DoCreateMarket(_, _, _, _, _, _) => CreateIsTimely(s, step, id);
    case _ => OtherStepIsTimely(s, step, id);
  }

  lemma NewBookHasNotStarted(s: State, step: Step, id: nat)
    requires Numbered(s) && id !in s.books
    ensures id in After(s, step).books ==> Waited(After(s, step).books[id], After(s, step).now)
  {
    StepOpensBook(s, step, id);
  }

  lemma StepOpensBook(s: State, step: Step, id: nat)
    requires Numbered(s) && id !in s.books
    ensures id in After(s, step).books ==> After(s, step).books[id].status == Open
  {
    MarketPayouts.StepMovesBook(s, step, id);
  }

  /** In every reachable state each market with a winner has waited: the winner was named after the
      closing time, by stakes that no longer move, and it is resolved only after the delay. */
  lemma {:induction false} WinnersHaveWaited(steps: seq<Step>, id: nat)
    requires Signed(steps) && id in Run(INIT, steps).books
    ensures Waited(Run(INIT, steps).books[id], Run(INIT, steps).now)
  {
    hide After, Waited, Timely;
    if |steps| > 0 {
      var before, step := steps[..|steps| - 1], steps[|steps| - 1];
      var s := Run(INIT, before);
      SolventAfterEveryRun(before);
      if id in s.books {
        WinnersHaveWaited(before, id);
        StepIsTimely(s, step, id);
        TimelyWaits(s.books[id], After(s, step).books[id], s.now, After(s, step).now);
      } else {
        NewBookHasNotStarted(s, step, id);
      }
    }
  }

  lemma TimelyWaits(b: Book, b': Book, now: int, now': int)
    requires Timely(b, b', now, now') && Waited(b, now)
    ensures Waited(b', now')
  {
  }

  /** From its closing time on the stakes of a market are the same for ever. */
  lemma {:induction false} StakesFreezeAtClose(s: State, steps: seq<Step>, id: nat)
    requires Inv(s) && Signed(steps) && id in s.books && s.now >= s.books[id].closeTime
    ensures var e := Run(s, steps);
            && Inv(e) && id in e.books && e.now >= e.books[id].closeTime == s.books[id].closeTime
            && e.books[id].positions == s.books[id].positions && e.books[id].pools == s.books[id].pools
  {
    hide After, Inv;
    if |steps| > 0 {
      var before, step := steps[..|steps| - 1], steps[|steps| - 1];
      StakesFreezeAtClose(s, before, id);
      StepIsTimely(Run(s, before), step, id);
      StepKeepsInv(Run(s, before), step);
    }
  }
}
