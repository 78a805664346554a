/** What a winner is paid: the floor of the pro-rata share, and for the last claimant
    everything that is left. */
module MarketClaims {
  import opened Bits
  import opened MapSums
  import opened MarketLedger
  import opened MarketSolvency

  // ----- floor division -----

  lemma FloorOfShare(stake: nat, total: nat, pool: nat)
    requires pool > 0
    ensures 0 <= stake * total - (stake * total / pool) * pool < pool
    ensures stake == 0 ==> stake * total / pool == 0
    ensures pool <= total ==> stake <= stake * total / pool
  {
    assert 0 <= stake * total;
    if pool <= total {
      assert stake * pool <= stake * total;
      QuotientAtLeast(stake * total, pool, stake);
    }
  }

  lemma QuotientAtLeast(a: nat, b: nat, q: nat)
    requires b > 0 && q * b <= a
    ensures q <= a / b
  {
    var f := a / b;
    assert a < f * b + b == (f + 1) * b;
    Cancel(q, f + 1, b);
  }

  // ----- all winners together -----

  ghost function AllShares(b: Book): (Holding, i128) -> int {
    (k: Holding, v: i128) => if k.option == b.winningOption then FloorShare(b, v) else 0
  }

  /** What rounding down keeps back, in units of 1 / W. */
  ghost function Rounding(b: Book): (Holding, i128) -> int {
    (k: Holding, v: i128) =>
      if k.option == b.winningOption then v * b.totalPool - FloorShare(b, v) * b.Pool(b.winningOption) else 0
  }

  ghost function Winning(b: Book): (Holding, i128) -> int {
    (k: Holding, v: i128) => if k.option == b.winningOption && v > 0 then 1 else 0
  }

  /** The number of users with a positive stake on the winning option. */
  ghost function Winners(b: Book): int {
    Sum(b.positions, Winning(b))
  }

  lemma RoundingIsSmall(b: Book, k: Holding)
    requires WellFormed(b) && Backed(b) && k in b.positions
    ensures 0 <= Rounding(b)(k, b.positions[k]) <= Winning(b)(k, b.positions[k]) * (b.Pool(b.winningOption) - 1)
  {
    StakesNonNegative(b);
    if k.option == b.winningOption {
      FloorOfShare(b.positions[k], b.totalPool, b.Pool(b.winningOption));
    }
  }

  /** Rounded down, the shares of all winners fit in the pot and leave less than one unit
      per winner. */
  lemma SharesNearlyExhaust(b: Book)
    requires WellFormed(b) && Backed(b)
    ensures Sum(b.positions, AllShares(b)) <= b.totalPool
    ensures b.totalPool - Sum(b.positions, AllShares(b)) < Winners(b)
  {
    var w := b.Pool(b.winningOption);
    var t := b.totalPool;
    var m := b.positions;
    assert w == StakedOn(b, b.winningOption);
    SumLinear(m, AllShares(b), Rounding(b), OnOption(b.winningOption), w, t);
    var none := (k: Holding, v: i128) => 0;
    var cap := (k: Holding, v: i128) => Winning(b)(k, v) * (w - 1);
    forall k | k in m
      ensures 0 <= Rounding(b)(k, m[k]) <= cap(k, m[k])
    {
      RoundingIsSmall(b, k);
    }
    SumZero(m, none);
    SumMonotone(m, none, Rounding(b));
    SumMonotone(m, Rounding(b), cap);
    SumLinear(m, Winning(b), none, cap, w - 1, 1);
    SomeoneWins(b);
    PotAndShares(Sum(m, AllShares(b)), Sum(m, Rounding(b)), w, t, Winners(b));
  }

  lemma PotAndShares(shares: int, rest: int, w: int, t: int, n: int)
    requires w > 0 && shares * w + rest == w * t
    requires 0 <= rest <= n * (w - 1)
    requires w <= n * w
    ensures shares <= t && t - shares < n
  {
    assert (t + 1) * w == w * t + w;
    Cancel(shares, t + 1, w);
    Cancel(0, n, w);
    assert (t - shares) * w == rest;
    assert n * (w - 1) == n * w - n;
    Cancel(t - shares, n, w);
  }

  lemma SomeoneWins(b: Book)
    requires WellFormed(b) && Backed(b)
    ensures b.Pool(b.winningOption) <= Winners(b) * b.Pool(b.winningOption)
  {
    var w := b.Pool(b.winningOption);
    var cap := (k: Holding, v: i128) => if k.option == b.winningOption && v > 0 then w else 0;
    StakesNonNegative(b);
    assert w == StakedOn(b, b.winningOption);
    SumMonotone(b.positions, OnOption(b.winningOption), cap);
    SumZero(b.positions, (k: Holding, v: i128) => 0);
    SumLinear(b.positions, Winning(b), (k: Holding, v: i128) => 0, cap, w, 1);
  }

  // ----- one claim -----

  ghost predicate IsLast(b: Book, user: Address) {
    b.claimedWinningStake + b.Position(user, b.winningOption) == b.Pool(b.winningOption)
  }

  ghost function Gross(b: Book, user: Address): int {
    if IsLast(b, user) then b.totalPool - b.claimedGross
    else FloorShare(b, b.Position(user, b.winningOption))
  }

  ghost function Fee(b: Book, user: Address): int {
    (Gross(b, user) - b.Position(user, b.winningOption)) * b.feeBps / BPS_DENOMINATOR
  }

  /** A user who won and has not claimed yet. */
  ghost predicate Entitled(b: Book, user: Address) {
    b.status == Resolved && user !in b.claimed && b.Position(user, b.winningOption) > 0
  }

  /** The sums over claimed winners grow by exactly the claimant's stake and share, and
      stay within the sums over all winners. */
  lemma ClaimedSumsGrow(b: Book, user: Address)
    requires BookInv(b) && Entitled(b, user)
    ensures var b' := b.(claimed := b.claimed + {user});
            var stake := b.Position(user, b.winningOption);
            && Sum(b.positions, WonAndClaimed(b')) == Sum(b.positions, WonAndClaimed(b)) + stake
            && Sum(b.positions, SharesClaimed(b')) == Sum(b.positions, SharesClaimed(b)) + FloorShare(b, stake)
            && Sum(b.positions, WonAndClaimed(b')) <= b.Pool(b.winningOption)
            && Sum(b.positions, SharesClaimed(b')) <= Sum(b.positions, AllShares(b))
            && 0 <= Sum(b.positions, SharesClaimed(b))
  {
    var b' := b.(claimed := b.claimed + {user});
    var k := Holding(user, b.winningOption);
    StakesNonNegative(b);
    assert b.Pool(b.winningOption) == StakedOn(b, b.winningOption);
    SumDiffersAt(b.positions, b.positions, WonAndClaimed(b), WonAndClaimed(b'), k);
    SumDiffersAt(b.positions, b.positions, SharesClaimed(b), SharesClaimed(b'), k);
    SumMonotone(b.positions, WonAndClaimed(b'), OnOption(b.winningOption));
    forall j | j in b.positions && j.option == b.winningOption
      ensures 0 <= FloorShare(b, b.positions[j])
    {
      FloorOfShare(b.positions[j], b.totalPool, b.Pool(b.winningOption));
    }
    SumMonotone(b.positions, SharesClaimed(b'), AllShares(b));
    SumZero(b.positions, (j: Holding, v: i128) => 0);
    SumMonotone(b.positions, (j: Holding, v: i128) => 0, SharesClaimed(b));
  }

  /** Until the last claim the running totals are proper partial sums. */
  lemma BeforeTheLast(b: Book, user: Address)
    requires BookInv(b) && Entitled(b, user)
    ensures b.claimedWinningStake < b.Pool(b.winningOption)
    ensures b.claimedGross == Sum(b.positions, SharesClaimed(b))
  {
    ClaimedSumsGrow(b, user);
  }

  /** The claimant gets at least the floor share, hence at least the stake, and never more
      than is left; the last one gets less than one extra unit per winner. */
  lemma GrossIsFair(b: Book, user: Address)
    requires BookInv(b) && Entitled(b, user)
    ensures var stake := b.Position(user, b.winningOption);
            && stake <= FloorShare(b, stake) <= Gross(b, user) <= b.totalPool - b.claimedGross
            && 0 <= b.claimedGross
  {
    var stake := b.Position(user, b.winningOption);
    StakesNonNegative(b);
    FloorOfShare(stake, b.totalPool, b.Pool(b.winningOption));
    BeforeTheLast(b, user);
    ClaimedSumsGrow(b, user);
    SharesNearlyExhaust(b);
  }

  lemma LastClaimSurplus(b: Book, user: Address)
    requires BookInv(b) && Entitled(b, user) && IsLast(b, user)
    ensures Gross(b, user) < FloorShare(b, b.Position(user, b.winningOption)) + Winners(b)
  {
    BeforeTheLast(b, user);
    ClaimedSumsGrow(b, user);
    SharesNearlyExhaust(b);
    AllHaveClaimed(b, user);
  }

  /** When the claimed stake reaches the pool, every winner's share is in the claimed sum. */
  lemma AllHaveClaimed(b: Book, user: Address)
    requires BookInv(b) && Entitled(b, user) && IsLast(b, user)
    ensures var b' := b.(claimed := b.claimed + {user});
            Sum(b.positions, SharesClaimed(b')) == Sum(b.positions, AllShares(b))
  {
    var b' := b.(claimed := b.claimed + {user});
    ClaimedSumsGrow(b, user);
    BeforeTheLast(b, user);
    assert b.Pool(b.winningOption) == StakedOn(b, b.winningOption);
    forall k | k in b.positions
      ensures SharesClaimed(b')(k, b.positions[k]) == AllShares(b)(k, b.positions[k])
    {
      if k.option == b.winningOption && k.user !in b'.claimed {
        StakesNonNegative(b);
        SumDiffersAt(b.positions, b.positions - {k}, OnOption(b.winningOption), OnOption(b.winningOption), k);
        SumDiffersAt(b.positions, b.positions - {k}, WonAndClaimed(b'), WonAndClaimed(b'), k);
        SumMonotone(b.positions - {k}, WonAndClaimed(b'), OnOption(b.winningOption));
        FloorOfShare(b.positions[k], b.totalPool, b.Pool(b.winningOption));
      }
    }
    SumCongruent(b.positions, b.positions, SharesClaimed(b'), AllShares(b));
  }

  // ----- the claim as coded -----

  /** The guards and the claimed stake never stop an entitled claim; the rest is the
      arithmetic of gross and fee. */
  lemma ClaimReachesArithmetic(b: Book, user: Address)
    requires BookInv(b) && Entitled(b, user)
    ensures var stake := b.Position(user, b.winningOption);
            && 0 <= stake * b.totalPool
            && CheckedAdd(b.claimedWinningStake, stake) == Ok(b.claimedWinningStake + stake)
            && GrossShare(b, stake, b.Pool(b.winningOption), b.claimedWinningStake + stake) ==
               if !IsLast(b, user) && stake * b.totalPool > I128_MAX then Abort(Arithmetic) else Ok(Gross(b, user))
  {
    StakesNonNegative(b);
    BeforeTheLast(b, user);
    ClaimedSumsGrow(b, user);
    GrossIsFair(b, user);
    assert 0 <= b.Position(user, b.winningOption) * b.totalPool;
  }

  /** The payout of a claim and the book it leaves. */
  ghost predicate Pays(b: Book, user: Address, p: Payout) {
    var stake := b.Position(user, b.winningOption);
    && p.gross == Gross(b, user)
    && p.fee == Fee(b, user)
    && p.net == Gross(b, user) - Fee(b, user)
    && 0 <= p.fee && stake <= p.net
    && p.book.claimedWinningStake == b.claimedWinningStake + stake
    && p.book.claimedGross == b.claimedGross + Gross(b, user)
    && p.book == b.(claimedWinningStake := p.book.claimedWinningStake,
                    claimedGross := p.book.claimedGross,
                    claimed := b.claimed + {user})
  }

  /** An entitled claim aborts exactly when one of the two products leaves 128 bits, and
      otherwise pays the gross above less the fee on the profit. */
  lemma ClaimPays(b: Book, user: Address)
    requires BookInv(b) && Entitled(b, user)
    ensures var stake := b.Position(user, b.winningOption);
            var claim := ClaimFromBook(b, user);
            && (claim.Abort? <==> (!IsLast(b, user) && stake * b.totalPool > I128_MAX)
                                  || (Gross(b, user) - stake) * b.feeBps > I128_MAX)
            && (claim.Abort? ==> claim.error == Arithmetic)
            && (claim.Ok? ==> Pays(b, user, claim.value) && Charged(b, user, claim.value.net, claim.value.fee))
  {
    var stake := b.Position(user, b.winningOption);
    EntitledIsCharged(b, user);
    hide Charged;
    ClaimReachesArithmetic(b, user);
    GrossIsFair(b, user);
    SettlePays(b, user, stake, Gross(b, user), b.claimedWinningStake + stake);
  }

  lemma SettlePays(b: Book, user: Address, stake: i128, gross: i128, next: i128)
    requires 0 <= stake <= gross && b.feeBps <= MAX_FEE_BPS
    requires 0 <= b.claimedGross && b.claimedGross + gross <= I128_MAX
    ensures var charge := (gross - stake) * b.feeBps;
            var fee := charge / BPS_DENOMINATOR;
            && 0 <= fee && stake <= gross - fee
            && Settle(b, user, stake, gross, next) ==
               if charge > I128_MAX then Abort(Arithmetic)
               else Ok(Payout(b.(claimedWinningStake := next, claimedGross := b.claimedGross + gross, claimed := b.claimed + {user}),
                              gross, fee, gross - fee))
  {
    FeeWithinProfit(gross - stake, b.feeBps);
  }

  lemma FeeWithinProfit(profit: nat, feeBps: nat)
    requires feeBps <= MAX_FEE_BPS
    ensures 0 <= profit * feeBps
    ensures 0 <= profit * feeBps / BPS_DENOMINATOR <= profit
  {
    assert profit * feeBps <= profit * MAX_FEE_BPS;
  }

  // ----- the rate of a claim -----

  lemma FloorIs(x: nat, d: nat, q: nat)
    requires d > 0 && q == x / d
    ensures q * d <= x < (q + 1) * d
  {
    assert x == d * (x / d) + x % d;
  }

  lemma GrossInNumbers(b: Book, user: Address)
    requires BookInv(b) && Entitled(b, user)
    ensures var stake, pool, gross := b.Position(user, b.winningOption), b.Pool(b.winningOption), Gross(b, user);
            && stake <= gross
            && (if b.claimedWinningStake + stake == pool then gross == b.totalPool - b.claimedGross
                else gross * pool <= stake * b.totalPool < (gross + 1) * pool)
  {
    var stake, pool := b.Position(user, b.winningOption), b.Pool(b.winningOption);
    GrossIsFair(b, user);
    StakesNonNegative(b);
    hide BookInv;
    if !IsLast(b, user) {
      assert 0 <= stake * b.totalPool;
      FloorIs(stake * b.totalPool, pool, Gross(b, user));
    }
  }

  lemma FeeInNumbers(b: Book, user: Address)
    requires BookInv(b) && Entitled(b, user)
    ensures var fee, profit := Fee(b, user), Gross(b, user) - b.Position(user, b.winningOption);
            0 <= fee && fee * 10_000 <= profit * b.feeBps < (fee + 1) * 10_000 && 10 * fee <= profit
  {
    var profit := Gross(b, user) - b.Position(user, b.winningOption);
    GrossIsFair(b, user);
    assert b.feeBps <= 1_000;
    hide BookInv, Gross, FloorShare;
    FeeWithinProfit(profit, b.feeBps);
    FloorIs(profit * b.feeBps, 10_000, Fee(b, user));
    RateCap(profit, b.feeBps, Fee(b, user));
  }

  lemma RateCap(profit: nat, feeBps: nat, fee: nat)
    requires feeBps <= 1_000 && fee * 10_000 <= profit * feeBps
    ensures 10 * fee <= profit
  {
    assert profit * feeBps <= profit * 1_000;
  }

  /** The pro-rata share rounded down, or for the last claim what is left, and the rate of the
      market in basis points of the profit, rounded down: a tenth of it at most. */
  ghost predicate Charged(b: Book, user: Address, value: int, fee: int) {
    var stake, pool, gross := b.Position(user, b.winningOption), b.Pool(b.winningOption), value + fee;
    && 0 <= fee && stake <= gross
    && fee * 10_000 <= (gross - stake) * b.feeBps < (fee + 1) * 10_000
    && 10 * fee <= gross - stake
    && (if b.claimedWinningStake + stake == pool then gross == b.totalPool - b.claimedGross
        else gross * pool <= stake * b.totalPool < (gross + 1) * pool)
  }

  lemma EntitledIsCharged(b: Book, user: Address)
    requires BookInv(b) && Entitled(b, user)
    ensures Charged(b, user, Gross(b, user) - Fee(b, user), Fee(b, user))
  {
    GrossInNumbers(b, user);
    FeeInNumbers(b, user);
    assert Gross(b, user) - Fee(b, user) + Fee(b, user) == Gross(b, user);
    hide BookInv, Gross, Fee, IsLast, Entitled;
  }

  lemma ClaimKeepsBook(b: Book, user: Address)
    requires BookInv(b) && ClaimFromBook(b, user).Ok?
    ensures var p := ClaimFromBook(b, user).value;
            && BookInv(p.book)
            && 0 <= p.fee && 0 <= p.net && p.fee + p.net == p.gross
            && Owed(p.book) == Owed(b) - p.gross
  {
    var p := ClaimFromBook(b, user).value;
    ClaimPays(b, user);
    ClaimedSumsGrow(b, user);
    BeforeTheLast(b, user);
    SameStakes(b, p.book);
    var b' := b.(claimed := b.claimed + {user});
    SumCongruent(b.positions, b.positions, WonAndClaimed(b'), WonAndClaimed(p.book));
    SumCongruent(b.positions, b.positions, SharesClaimed(b'), SharesClaimed(p.book));
  }
}
