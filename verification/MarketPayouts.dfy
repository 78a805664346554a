/** What a whole run has paid out of one market, and to whom. */
module MarketPayouts {
  import opened Bits
  import opened MapSums
  import opened MarketLedger
  import opened MarketSolvency
  import opened MarketClaims
  import opened MarketRuns

  /** Gross paid by one step to one user of one market: the net and the fee of a claim. */
  ghost function ClaimedBy(s: State, step: Step, id: nat, user: Address): int {
    if step.call == DoClaim(user, id) && Invoke(s, step).Ok?
    then Invoke(s, step).value.1.value + Invoke(s, step).value.1.fee
    else 0
  }

  ghost function ClaimedOn(s: State, step: Step, id: nat): int {
    if step.call.DoClaim? && step.call.id == id then ClaimedBy(s, step, id, step.call.sender) else 0
  }

  ghost function RefundedOn(s: State, step: Step, id: nat): int {
    if step.call.DoRefund? && step.call.id == id && Invoke(s, step).Ok? then Invoke(s, step).value.1.value else 0
  }

  ghost function PaidTo(steps: seq<Step>, id: nat, user: Address): int {
    if steps == [] then 0
    else
      var before := steps[..|steps| - 1];
      PaidTo(before, id, user) + ClaimedBy(Run(INIT, before), steps[|steps| - 1], id, user)
  }

  ghost function PaidFor(steps: seq<Step>, id: nat): int {
    if steps == [] then 0
    else
      var before := steps[..|steps| - 1];
      PaidFor(before, id) + ClaimedOn(Run(INIT, before), steps[|steps| - 1], id)
  }

  ghost function RefundsFor(steps: seq<Step>, id: nat): int {
    if steps == [] then 0
    else
      var before := steps[..|steps| - 1];
      RefundsFor(before, id) + RefundedOn(Run(INIT, before), steps[|steps| - 1], id)
  }

  // ----- what a step does to one book -----

  /** The only ways a step can change the book kept under an id. */
  ghost predicate BookMoves(s: State, step: Step, id: nat) {
    var s' := After(s, step);
    if id !in s.books then
      id in s'.books ==> s'.books[id].status == Open && s'.books[id].claimedGross == 0
    else
      && id in s'.books
      && (|| s'.books[id] == s.books[id]
          || (s.books[id].status == Open && s'.books[id].status == Open && s'.books[id].claimedGross == s.books[id].claimedGross)
          || (s.books[id].status == Open && s'.books[id].status == ResolutionPending && s'.books[id].claimedGross == s.books[id].claimedGross)
          || (s.books[id].status == ResolutionPending && s'.books[id] == s.books[id].(status := Resolved))
          || (s.books[id].status in {Open, ResolutionPending} && s'.books[id] == s.books[id].(status := Cancelled))
          || (step.call.DoClaim? && step.call.id == id && Invoke(s, step).Ok?)
          || (step.call.DoRefund? && step.call.id == id && Invoke(s, step).Ok?))
  }

  lemma StepMovesBook(s: State, step: Step, id: nat)
    requires Numbered(s)
    ensures BookMoves(s, step, id)
  {
    match step.call
    case DoInitialize(_) =>
    case DoCreateMarket(_, _, _, _, _, _) => AdminCallMovesBook(s, step, id);
    case DoStake(_, _, _, _) => StakingMovesBook(s, step, id);
    case DoUnstake(_, _, _) => StakingMovesBook(s, step, id);
    case DoPropose(_, _) => AdminCallMovesBook(s, step, id);
    case DoFinalize(_) => AdminCallMovesBook(s, step, id);
    case DoCancel(_) => AdminCallMovesBook(s, step, id);
    case DoClaim(_, _) => PayingMovesBook(s, step, id);
    case DoRefund(_, _) => PayingMovesBook(s, step, id);
    case DoSetPaused(_) =>
    case DoTransferAdmin(_) =>
    case ClockAdvances(_) =>
    case TokenMoves(_, _, _) =>
    case TokenMinted(_, _) =>
  }

  lemma AdminCallMovesBook(s: State, step: Step, id: nat)
    requires Numbered(s)
    requires step.call.DoCreateMarket? || step.call.DoPropose? || step.call.DoFinalize? || step.call.DoCancel?
    ensures BookMoves(s, step, id)
  {
  }

  lemma StakingMovesBook(s: State, step: Step, id: nat)
    requires Numbered(s)
    requires step.call.DoStake? || step.call.DoUnstake?
    ensures BookMoves(s, step, id)
  {
  }

  lemma PayingMovesBook(s: State, step: Step, id: nat)
    requires Numbered(s)
    requires step.call.DoClaim? || step.call.DoRefund?
    ensures BookMoves(s, step, id)
  {
  }

  ghost predicate Claims(s: State, step: Step, id: nat) {
    step.call.DoClaim? && step.call.id == id && Invoke(s, step).Ok?
  }

  ghost predicate Refunds(s: State, step: Step, id: nat) {
    step.call.DoRefund? && step.call.id == id && Invoke(s, step).Ok?
  }

  /** What a successful claim does to its book and what it pays. */
  lemma ClaimStep(s: State, step: Step, id: nat)
    requires Inv(s) && SELF !in step.auth && Claims(s, step, id)
    ensures id in s.books && id in After(s, step).books
    ensures var b, b', user := s.books[id], After(s, step).books[id], step.call.sender;
            && Entitled(b, user)
            && SameTerms(b, b')
            && b'.claimed == b.claimed + {user}
            && b'.claimedGross == b.claimedGross + Gross(b, user)
            && b'.claimedWinningStake == b.claimedWinningStake + b.Position(user, b.winningOption)
            && ClaimedBy(s, step, id, user) == Gross(b, user)
  {
    var user := step.call.sender;
    assert Invoke(s, step) == Claim(s, step.auth, user, id);
    ClaimSucceeds(s, step.auth, user, id);
    ClaimIffEntitled(s.books[id], user);
    ClaimTouchesClaims(s, step.auth, user, id);
  }

  /** What a successful refund does to its book and what it pays. */
  lemma RefundStep(s: State, step: Step, id: nat)
    requires Inv(s) && SELF !in step.auth && Refunds(s, step, id)
    ensures id in s.books && id in After(s, step).books
    ensures var b, b', user := s.books[id], After(s, step).books[id], step.call.sender;
            && b.status == Cancelled && user !in b.claimed
            && b' == b.(claimed := b.claimed + {user})
            && RefundedOn(s, step, id) == HeldBy(b, user) > 0
  {
    var user := step.call.sender;
    assert Invoke(s, step) == Refund(s, step.auth, user, id);
    RefundSucceeds(s, step.auth, user, id);
  }

  // ----- all winners together -----

  ghost function GrossOf(s: State, id: nat): int {
    if id in s.books then s.books[id].claimedGross else 0
  }

  /** The running total a book keeps is exactly what the run has paid: every unit is some
      claimant's net or a fee. */
  lemma {:induction false} GrossIsWhatWasPaid(steps: seq<Step>, id: nat)
    requires Signed(steps)
    ensures PaidFor(steps, id) == GrossOf(Run(INIT, steps), id)
  {
    if steps != [] {
      var before := steps[..|steps| - 1];
      var s, step := Run(INIT, before), steps[|steps| - 1];
      GrossIsWhatWasPaid(before, id);
      SolventAfterEveryRun(before);
      StepMovesBook(s, step, id);
      if Claims(s, step, id) {
        ClaimStep(s, step, id);
      } else if Refunds(s, step, id) {
        RefundStep(s, step, id);
      }
    }
  }

  ghost predicate AllWinnersClaimed(b: Book) {
    forall u :: b.Position(u, b.winningOption) > 0 ==> u in b.claimed
  }

  /** The claimed stake reaches the winning pool exactly when every winner has claimed. */
  lemma ExhaustedIffAllClaimed(b: Book)
    requires BookInv(b) && b.status == Resolved
    ensures AllWinnersClaimed(b) <==> b.claimedWinningStake == b.Pool(b.winningOption)
  {
    var w := b.winningOption;
    assert b.Pool(w) == StakedOn(b, w);
    StakesNonNegative(b);
    if AllWinnersClaimed(b) {
      forall k | k in b.positions
        ensures WonAndClaimed(b)(k, b.positions[k]) == OnOption(w)(k, b.positions[k])
      {
        if k.option == w {
          assert b.Position(k.user, w) == b.positions[k];
        }
      }
      SumCongruent(b.positions, b.positions, WonAndClaimed(b), OnOption(w));
    } else {
      var u :| b.Position(u, w) > 0 && u !in b.claimed;
      BeforeTheLast(b, u);
    }
  }

  /** Exhaustion: over any run, once every winner of a resolved market has claimed, the nets
      and fees paid for it sum to its total pool exactly. */
  lemma PotIsPaidOutExactly(steps: seq<Step>, id: nat)
    requires Signed(steps)
    requires id in Run(INIT, steps).books
    requires Run(INIT, steps).books[id].status == Resolved
    ensures AllWinnersClaimed(Run(INIT, steps).books[id]) ==> PaidFor(steps, id) == Run(INIT, steps).books[id].totalPool
    ensures PaidFor(steps, id) <= Run(INIT, steps).books[id].totalPool
  {
    SolventAfterEveryRun(steps);
    GrossIsWhatWasPaid(steps, id);
    var b := Run(INIT, steps).books[id];
    ExhaustedIffAllClaimed(b);
    OwedIsNonNegative(b);
  }

  // ----- each winner -----

  ghost function ShareOf(b: Book, user: Address): int {
    FloorShare(b, b.Position(user, b.winningOption))
  }

  ghost predicate FairlyPaid(s: State, id: nat, user: Address, paid: int) {
    if id !in s.books || s.books[id].status != Resolved || user !in s.books[id].claimed then paid == 0
    else
      var b := s.books[id];
      && ShareOf(b, user) <= paid < ShareOf(b, user) + Winners(b)
      && (b.claimedWinningStake != b.Pool(b.winningOption) ==> paid == ShareOf(b, user))
  }

  lemma SomeoneWinsAtLeast(b: Book)
    requires WellFormed(b) && Backed(b)
    ensures Winners(b) >= 1
  {
    SomeoneWins(b);
    Cancel(0, Winners(b), b.Pool(b.winningOption));
  }

  lemma WinnersUnderSameTerms(b: Book, b': Book)
    requires SameTerms(b, b')
    ensures Winners(b) == Winners(b')
  {
    SumCongruent(b.positions, b'.positions, Winning(b), Winning(b'));
  }

  lemma ClaimIsFair(s: State, step: Step, id: nat, user: Address, paid: int)
    requires Inv(s) && SELF !in step.auth && Claims(s, step, id) && FairlyPaid(s, id, user, paid)
    ensures FairlyPaid(After(s, step), id, user, paid + ClaimedBy(s, step, id, user))
  {
    ClaimStep(s, step, id);
    StepKeepsInv(s, step);
    var b, b', claimant := s.books[id], After(s, step).books[id], step.call.sender;
    WinnersUnderSameTerms(b, b');
    BeforeTheLast(b, claimant);
    if user == claimant {
      GrossIsFair(b, user);
      SomeoneWinsAtLeast(b);
      if IsLast(b, user) {
        LastClaimSurplus(b, user);
      }
    }
  }

  /** For every claim order each winner's gross is the same floor share, except that the
      claim that exhausts the pool may carry up to (winners - 1) units more. */
  lemma {:induction false} EveryWinnerIsFairlyPaid(steps: seq<Step>, id: nat, user: Address)
    requires Signed(steps)
    ensures FairlyPaid(Run(INIT, steps), id, user, PaidTo(steps, id, user))
  {
    if steps != [] {
      var before := steps[..|steps| - 1];
      var s, step := Run(INIT, before), steps[|steps| - 1];
      EveryWinnerIsFairlyPaid(before, id, user);
      SolventAfterEveryRun(before);
      StepMovesBook(s, step, id);
      if Claims(s, step, id) {
        ClaimIsFair(s, step, id, user, PaidTo(before, id, user));
      } else if Refunds(s, step, id) {
        RefundStep(s, step, id);
      }
    }
  }

  /** Whoever claimed before another claim succeeds was paid the floor share. */
  lemma EarlierClaimWasExact(before: seq<Step>, step: Step, id: nat, user: Address)
    requires Signed(before) && Inv(Run(INIT, before)) && SELF !in step.auth
    requires Claims(Run(INIT, before), step, id) && user != step.call.sender
    requires id in After(Run(INIT, before), step).books && user in After(Run(INIT, before), step).books[id].claimed
    ensures PaidTo(before, id, user) == ShareOf(After(Run(INIT, before), step).books[id], user)
  {
    var s := Run(INIT, before);
    ClaimStep(s, step, id);
    BeforeTheLast(s.books[id], step.call.sender);
    EveryWinnerIsFairlyPaid(before, id, user);
  }

  /** At most one user of a market is ever paid anything but the floor share. */
  lemma {:induction false} OnlyOneSurplus(steps: seq<Step>, id: nat, u: Address, v: Address)
    requires Signed(steps) && u != v
    requires id in Run(INIT, steps).books && Run(INIT, steps).books[id].status == Resolved
    requires u in Run(INIT, steps).books[id].claimed && v in Run(INIT, steps).books[id].claimed
    ensures var b := Run(INIT, steps).books[id];
            PaidTo(steps, id, u) == ShareOf(b, u) || PaidTo(steps, id, v) == ShareOf(b, v)
  {
    if steps != [] {
      var before := steps[..|steps| - 1];
      var s, step := Run(INIT, before), steps[|steps| - 1];
      SolventAfterEveryRun(before);
      StepMovesBook(s, step, id);
      if Claims(s, step, id) {
        EarlierClaimWasExact(before, step, id, if u != step.call.sender then u else v);
      } else {
        assert s.books[id] == After(s, step).books[id];
        OnlyOneSurplus(before, id, u, v);
      }
    }
  }

  /** The order of claims hardly matters: two runs that reach the same resolved terms pay a
      user amounts that differ by less than the number of winners. */
  lemma OrderHardlyMatters(one: seq<Step>, other: seq<Step>, id: nat, user: Address)
    requires Signed(one) && Signed(other)
    requires id in Run(INIT, one).books && id in Run(INIT, other).books
    requires Run(INIT, one).books[id].status == Resolved
    requires SameTerms(Run(INIT, one).books[id], Run(INIT, other).books[id].(claimed := Run(INIT, one).books[id].claimed))
    requires user in Run(INIT, one).books[id].claimed && user in Run(INIT, other).books[id].claimed
    ensures -Winners(Run(INIT, one).books[id]) < PaidTo(one, id, user) - PaidTo(other, id, user) < Winners(Run(INIT, one).books[id])
  {
    EveryWinnerIsFairlyPaid(one, id, user);
    EveryWinnerIsFairlyPaid(other, id, user);
    var b, b' := Run(INIT, one).books[id], Run(INIT, other).books[id];
    WinnersUnderSameTerms(b, b'.(claimed := b.claimed));
    SumCongruent(b'.positions, b'.positions, Winning(b'), Winning(b'.(claimed := b.claimed)));
  }

  // ----- cancelled markets -----

  /** The refunds a run has paid on a market are the holdings of the users it marks. */
  lemma {:induction false} RefundsAreHoldings(steps: seq<Step>, id: nat)
    requires Signed(steps)
    ensures var s := Run(INIT, steps);
            RefundsFor(steps, id) ==
            if id in s.books && s.books[id].status == Cancelled then Refunded(s.books[id]) else 0
  {
    if steps != [] {
      var before := steps[..|steps| - 1];
      var s, step := Run(INIT, before), steps[|steps| - 1];
      RefundsAreHoldings(before, id);
      SolventAfterEveryRun(before);
      StepMovesBook(s, step, id);
      if Refunds(s, step, id) {
        RefundStep(s, step, id);
        var b, user := s.books[id], step.call.sender;
        SumLinear(b.positions, OfClaimed(b.claimed), OfUser(user), OfClaimed(b.claimed + {user}), 1, 1);
      } else if Claims(s, step, id) {
        ClaimStep(s, step, id);
      } else if id in s.books && s.books[id].status != Cancelled && After(s, step).books[id].status == Cancelled {
        NobodyClaimed(After(s, step).books[id]);
      }
    }
  }

  /** When every staker of a cancelled market has been refunded, the refunds sum to the
      total pool. */
  lemma RefundsReturnEverything(steps: seq<Step>, id: nat)
    requires Signed(steps)
    requires id in Run(INIT, steps).books && Run(INIT, steps).books[id].status == Cancelled
    requires var b := Run(INIT, steps).books[id];
             forall k :: k in b.positions && b.positions[k] > 0 ==> k.user in b.claimed
    ensures RefundsFor(steps, id) == Run(INIT, steps).books[id].totalPool
  {
    var b := Run(INIT, steps).books[id];
    SolventAfterEveryRun(steps);
    RefundsAreHoldings(steps, id);
    SumCongruent(b.positions, b.positions, OfClaimed(b.claimed), Everything());
  }
}
