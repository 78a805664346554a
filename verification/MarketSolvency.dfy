/** The contract's books always balance, and its token balance covers everything it owes. */
module MarketSolvency {
  import opened Wrappers
  import opened MapSums
  import opened MarketLedger

  // ----- what the numbers in a book stand for -----

  ghost function StakedOn(b: Book, option: nat): int {
    Sum(b.positions, OnOption(option))
  }

  ghost function OnOption(option: nat): (Holding, i128) -> int {
    (k: Holding, v: i128) => if k.option == option then v else 0
  }

  ghost function Everything(): (Holding, i128) -> int {
    (k: Holding, v: i128) => v
  }

  ghost function TotalStaked(b: Book): int {
    Sum(b.positions, Everything())
  }

  /** Winning stakes whose owners have claimed. */
  ghost function WonAndClaimed(b: Book): (Holding, i128) -> int {
    (k: Holding, v: i128) => if k.option == b.winningOption && k.user in b.claimed then v else 0
  }

  /** The pro-rata share, rounded down, of every winning stake whose owner has claimed. */
  ghost function SharesClaimed(b: Book): (Holding, i128) -> int {
    (k: Holding, v: i128) =>
      if k.option == b.winningOption && k.user in b.claimed then FloorShare(b, v) else 0
  }

  /** What a winning stake is worth: stake * T / W rounded down. */
  ghost function FloorShare(b: Book, stake: int): int {
    if b.Pool(b.winningOption) > 0 then stake * b.totalPool / b.Pool(b.winningOption) else 0
  }

  ghost function HeldBy(b: Book, user: Address): int {
    Sum(b.positions, OfUser(user))
  }

  ghost function OfUser(user: Address): (Holding, i128) -> int {
    (k: Holding, v: i128) => if k.user == user then v else 0
  }

  /** Stakes of users who have taken their refund. */
  ghost function Refunded(b: Book): int {
    Sum(b.positions, OfClaimed(b.claimed))
  }

  ghost function OfClaimed(claimed: set<Address>): (Holding, i128) -> int {
    (k: Holding, v: i128) => if k.user in claimed then v else 0
  }

  // ----- the invariant of one book -----

  ghost predicate WellFormed(b: Book) {
    && 2 <= b.numOptions <= MAX_OPTIONS
    && b.feeBps <= MAX_FEE_BPS
    && (forall k :: k in b.positions ==> k.option < b.numOptions && 0 <= b.positions[k])
    && (forall o :: b.Pool(o) == StakedOn(b, o))
    && b.totalPool == TotalStaked(b)
  }

  ghost predicate Backed(b: Book) {
    b.winningOption < b.numOptions && b.Pool(b.winningOption) > 0
  }

  ghost predicate NothingPaid(b: Book) {
    b.claimedGross == 0 && b.claimedWinningStake == 0
  }

  ghost predicate PaidPrefix(b: Book) {
    && b.claimedWinningStake == Sum(b.positions, WonAndClaimed(b))
    && (forall u :: u in b.claimed ==> b.Position(u, b.winningOption) > 0)
    && (if b.claimedWinningStake == b.Pool(b.winningOption)
        then b.claimedGross == b.totalPool
        else b.claimedGross == Sum(b.positions, SharesClaimed(b)))
  }

  ghost predicate BookInv(b: Book) {
    && WellFormed(b)
    && match b.status
       case Open => NothingPaid(b) && b.claimed == {}
       case ResolutionPending => Backed(b) && NothingPaid(b) && b.claimed == {}
       case Resolved => Backed(b) && PaidPrefix(b)
       case Cancelled => NothingPaid(b)
  }

  /** What the contract still has to pay out of one market. */
  ghost function Owed(b: Book): int {
    match b.status
    case Open => b.totalPool
    case ResolutionPending => b.totalPool
    case Resolved => b.totalPool - b.claimedGross
    case Cancelled => b.totalPool - Refunded(b)
  }

  // ----- the invariant of the contract -----

  ghost function OwedUpTo(books: map<nat, Book>, n: nat): int
    requires forall id :: 1 <= id <= n ==> id in books
  {
    if n == 0 then 0 else OwedUpTo(books, n - 1) + Owed(books[n])
  }

  ghost predicate Numbered(s: State) {
    forall id :: id in s.books <==> 1 <= id <= s.marketCount
  }

  ghost predicate Solvent(s: State)
    requires Numbered(s)
  {
    OwedUpTo(s.books, s.marketCount) <= Balance(s.balances, SELF)
  }

  ghost predicate Inv(s: State) {
    && Numbered(s)
    && (forall id :: id in s.books ==> BookInv(s.books[id]))
    && Solvent(s)
    && (s.admin.None? ==> s.marketCount == 0)
  }

  // ----- arithmetic of stakes -----

  lemma StakesNonNegative(b: Book)
    requires WellFormed(b)
    ensures forall o :: 0 <= b.Pool(o) <= b.totalPool
    ensures forall k :: k in b.positions ==> b.positions[k] <= b.Pool(k.option)
  {
    forall o
      ensures 0 <= b.Pool(o) <= b.totalPool
    {
      assert b.Pool(o) == StakedOn(b, o);
      SumZero(b.positions, (k: Holding, v: i128) => 0);
      SumMonotone(b.positions, (k: Holding, v: i128) => 0, OnOption(o));
      SumMonotone(b.positions, OnOption(o), Everything());
    }
    forall k | k in b.positions
      ensures b.positions[k] <= b.Pool(k.option)
    {
      assert b.Pool(k.option) == StakedOn(b, k.option);
      SumBoundsEntry(b.positions, OnOption(k.option), k);
    }
  }

  /** Putting a new value on one holding moves that option's pool and the total by the
      difference, and no other pool. */
  lemma HoldingChanges(b: Book, b': Book, user: Address, option: nat, held: i128)
    requires WellFormed(b) && option < b.numOptions && 0 <= held
    requires b'.numOptions == b.numOptions && b'.feeBps == b.feeBps
    requires b'.positions == b.positions[Holding(user, option) := held]
    requires forall o :: b'.Pool(o) == if o == option then b.Pool(o) - b.Position(user, option) + held else b.Pool(o)
    requires b'.totalPool == b.totalPool - b.Position(user, option) + held
    ensures WellFormed(b')
  {
    var k := Holding(user, option);
    forall o
      ensures b'.Pool(o) == StakedOn(b', o)
    {
      assert b.Pool(o) == StakedOn(b, o);
      SumDiffersAt(b.positions, b'.positions, OnOption(o), OnOption(o), k);
    }
    SumDiffersAt(b.positions, b'.positions, Everything(), Everything(), k);
  }

  // ----- every entry point keeps the invariant of the book it touches -----

  lemma StakeKeepsBook(b: Book, sender: Address, option: nat, amount: i128)
    requires BookInv(b) && b.status == Open && option < b.numOptions && amount > 0
    requires StakeInBook(b, sender, option, amount).Ok?
    ensures var b' := StakeInBook(b, sender, option, amount).value;
            BookInv(b') && Owed(b') == Owed(b) + amount
  {
    var b' := StakeInBook(b, sender, option, amount).value;
    HoldingChanges(b, b', sender, option, b.Position(sender, option) + amount);
  }

  lemma UnstakeKeepsBook(b: Book, sender: Address, option: nat)
    requires BookInv(b) && b.status == Open && option < b.numOptions
    requires UnstakeFromBook(b, sender, option).Ok?
    ensures var b' := UnstakeFromBook(b, sender, option).value;
            BookInv(b') && Owed(b') == Owed(b) - b.Position(sender, option)
  {
    var b' := UnstakeFromBook(b, sender, option).value;
    HoldingChanges(b, b', sender, option, 0);
  }

  /** Changing status, winner or claim records leaves stakes and pools alone. */
  lemma SameStakes(b: Book, b': Book)
    requires WellFormed(b)
    requires b'.positions == b.positions && b'.pools == b.pools && b'.totalPool == b.totalPool
    requires b'.numOptions == b.numOptions && b'.feeBps == b.feeBps
    ensures WellFormed(b')
  {
    forall o
      ensures b'.Pool(o) == StakedOn(b', o)
    {
      assert b.Pool(o) == StakedOn(b, o);
    }
  }

  lemma NobodyClaimed(b: Book)
    requires b.claimed == {}
    ensures Sum(b.positions, WonAndClaimed(b)) == 0
    ensures Sum(b.positions, SharesClaimed(b)) == 0
    ensures Refunded(b) == 0
  {
    SumZero(b.positions, WonAndClaimed(b));
    SumZero(b.positions, SharesClaimed(b));
    SumZero(b.positions, OfClaimed(b.claimed));
  }

  lemma ProposeKeepsBook(b: Book, winner: u32, now: u64)
    requires BookInv(b) && b.status == Open && winner < b.numOptions && b.Pool(winner) > 0
    ensures var b' := b.(status := ResolutionPending, winningOption := winner, proposedAt := now);
            BookInv(b') && Owed(b') == Owed(b)
  {
    SameStakes(b, b.(status := ResolutionPending, winningOption := winner, proposedAt := now));
  }

  lemma FinalizeKeepsBook(b: Book)
    requires BookInv(b) && b.status == ResolutionPending
    ensures var b' := b.(status := Resolved); BookInv(b') && Owed(b') == Owed(b)
  {
    var b' := b.(status := Resolved);
    SameStakes(b, b');
    NobodyClaimed(b');
    StakesNonNegative(b');
  }

  lemma CancelKeepsBook(b: Book)
    requires BookInv(b) && (b.status == Open || b.status == ResolutionPending)
    ensures var b' := b.(status := Cancelled); BookInv(b') && Owed(b') == Owed(b)
  {
    var b' := b.(status := Cancelled);
    SameStakes(b, b');
    NobodyClaimed(b');
  }

  // ----- refunds -----

  ghost function OfUserBelow(user: Address, n: nat): (Holding, i128) -> int {
    (k: Holding, v: i128) => if k.user == user && k.option < n then v else 0
  }

  /** The refund loop adds up exactly what the user holds, and cannot overflow. */
  lemma {:induction false} RefundTotalIsHolding(b: Book, user: Address, n: nat)
    requires WellFormed(b)
    ensures RefundTotal(b, user, n) == Ok(Sum(b.positions, OfUserBelow(user, n)))
    ensures 0 <= Sum(b.positions, OfUserBelow(user, n)) <= b.totalPool
  {
    if n == 0 {
      SumZero(b.positions, OfUserBelow(user, 0));
    } else {
      RefundTotalIsHolding(b, user, n - 1);
      var k := Holding(user, n - 1);
      SumDiffersAt(b.positions, b.positions, OfUserBelow(user, n - 1), OfUserBelow(user, n), k);
    }
    SumMonotone(b.positions, OfUserBelow(user, n), Everything());
    SumZero(b.positions, (k: Holding, v: i128) => 0);
    SumMonotone(b.positions, (k: Holding, v: i128) => 0, OfUserBelow(user, n));
  }

  lemma RefundPaysWholeHolding(b: Book, user: Address)
    requires WellFormed(b)
    ensures RefundTotal(b, user, b.numOptions) == Ok(HeldBy(b, user))
    ensures 0 <= HeldBy(b, user) <= b.totalPool
  {
    RefundTotalIsHolding(b, user, b.numOptions);
    SumCongruent(b.positions, b.positions, OfUserBelow(user, b.numOptions), OfUser(user));
  }

  lemma RefundKeepsBook(b: Book, user: Address)
    requires BookInv(b) && b.status == Cancelled && user !in b.claimed
    ensures var b' := b.(claimed := b.claimed + {user});
            BookInv(b') && Owed(b') == Owed(b) - HeldBy(b, user)
  {
    var b' := b.(claimed := b.claimed + {user});
    SameStakes(b, b');
    SumLinear(b.positions, OfClaimed(b.claimed), OfUser(user), OfClaimed(b'.claimed), 1, 1);
  }

  lemma RefundedAtMostTotal(b: Book)
    requires WellFormed(b)
    ensures 0 <= Refunded(b) <= b.totalPool
  {
    SumZero(b.positions, (k: Holding, v: i128) => 0);
    SumMonotone(b.positions, (k: Holding, v: i128) => 0, OfClaimed(b.claimed));
    SumMonotone(b.positions, OfClaimed(b.claimed), Everything());
  }
}
