/** A run to a market so large that a winner's claim overflows. */
module MarketOverflow {
  import opened Wrappers
  import opened MarketLedger
  import opened MarketSolvency
  import opened MarketClaims
  import opened MarketRuns

  /** Two users stake the same on one option of a market without fee, and that option wins. */
  function LargeRun(admin: Address, u: Address, v: Address, x: i128): seq<Step>
    requires x >= 0
  {
    [Step({}, DoInitialize(admin)),
     Step({}, TokenMinted(u, x)),
     Step({}, TokenMinted(v, x)),
     Step({admin}, DoCreateMarket(2, 1, 0, 0, admin, admin)),
     Step({u}, DoStake(u, 1, 0, x)),
     Step({v}, DoStake(v, 1, 0, x)),
     Step({}, ClockAdvances(1)),
     Step({admin}, DoPropose(1, 0)),
     Step({admin}, DoFinalize(1))]
  }

  predicate Large(admin: Address, u: Address, v: Address, x: i128) {
    && admin != SELF && u != SELF && v != SELF && u != v
    && 0 < x && x + x <= I128_MAX && x * (x + x) > I128_MAX
  }

  function Market(admin: Address, status: Status, total: i128, pools: map<nat, i128>, positions: map<Holding, i128>, proposedAt: u64): Book {
    Book(2, 1, 0, 0, admin, admin, status, 0, proposedAt, total, 0, 0, pools, positions, {})
  }

  lemma Funded(admin: Address, u: Address, v: Address, x: i128)
    requires Large(admin, u, v, x)
    ensures var t := LargeRun(admin, u, v, x);
            After(After(After(After(INIT, t[0]), t[1]), t[2]), t[3]) ==
            State(Some(admin), false, 1, map[1 := Market(admin, Open, 0, map[], map[], 0)], map[u := x, v := x], 0)
  {
  }

  lemma FirstStake(admin: Address, u: Address, v: Address, x: i128)
    requires Large(admin, u, v, x)
    ensures After(State(Some(admin), false, 1, map[1 := Market(admin, Open, 0, map[], map[], 0)], map[u := x, v := x], 0), LargeRun(admin, u, v, x)[4]) ==
            State(Some(admin), false, 1, map[1 := Market(admin, Open, x, map[0 := x], map[Holding(u, 0) := x], 0)], map[u := 0, v := x, SELF := x], 0)
  {
  }

  function Staked(u: Address, v: Address, x: i128): map<Holding, i128> {
    map[Holding(u, 0) := x, Holding(v, 0) := x]
  }

  function Spent(u: Address, v: Address, x: i128): Balances
    requires x >= 0
  {
    map[u := 0, v := 0, SELF := x + x]
  }

  lemma SecondTransfer(u: Address, v: Address, x: i128)
    requires u != SELF && v != SELF && u != v && 0 < x
    ensures Transfer(map[u := 0, v := x, SELF := x], v, SELF, x) == Ok(Spent(u, v, x))
  {
    var before: Balances := map[u := 0, v := x, SELF := x];
    var debited := before[v := 0];
    assert debited == map[u := 0, v := 0, SELF := x];
    assert debited[SELF := x + x] == Spent(u, v, x);
  }

  lemma SecondInBook(admin: Address, u: Address, v: Address, x: i128)
    requires u != v && 0 < x && x + x <= I128_MAX
    ensures StakeInBook(Market(admin, Open, x, map[0 := x], map[Holding(u, 0) := x], 0), v, 0, x) ==
            Ok(Market(admin, Open, x + x, map[0 := x + x], Staked(u, v, x), 0))
  {
    var pools: map<nat, i128> := map[0 := x];
    assert pools[0 := x + x] == map[0 := x + x];
  }

  lemma SecondStake(admin: Address, u: Address, v: Address, x: i128)
    requires Large(admin, u, v, x)
    ensures After(State(Some(admin), false, 1, map[1 := Market(admin, Open, x, map[0 := x], map[Holding(u, 0) := x], 0)], map[u := 0, v := x, SELF := x], 0),
                  LargeRun(admin, u, v, x)[5]) ==
            State(Some(admin), false, 1, map[1 := Market(admin, Open, x + x, map[0 := x + x], Staked(u, v, x), 0)], Spent(u, v, x), 0)
  {
    SecondTransfer(u, v, x);
    SecondInBook(admin, u, v, x);
    hide StakeInBook, Transfer, Staked, Spent;
    var b, b' := Market(admin, Open, x, map[0 := x], map[Holding(u, 0) := x], 0), Market(admin, Open, x + x, map[0 := x + x], Staked(u, v, x), 0);
    var books: map<nat, Book> := map[1 := b];
    assert books[1 := b'] == map[1 := b'];
  }

  function Won(admin: Address, u: Address, v: Address, x: i128): State
    requires Large(admin, u, v, x)
  {
    State(Some(admin), false, 1, map[1 := Market(admin, Resolved, x + x, map[0 := x + x], Staked(u, v, x), 1)], Spent(u, v, x), 1)
  }

  lemma Resolution(admin: Address, u: Address, v: Address, x: i128)
    requires Large(admin, u, v, x)
    ensures var t := LargeRun(admin, u, v, x);
            After(After(After(State(Some(admin), false, 1, map[1 := Market(admin, Open, x + x, map[0 := x + x], Staked(u, v, x), 0)], Spent(u, v, x), 0), t[6]), t[7]), t[8]) ==
            Won(admin, u, v, x)
  {
    hide Staked, Spent;
  }

  lemma RunSplit(s: State, t: seq<Step>, n: nat)
    requires n < |t|
    ensures Run(s, t[..n + 1]) == After(Run(s, t[..n]), t[n])
  {
    assert t[..n + 1][..n] == t[..n];
  }

  lemma NineSteps(s: State, t: seq<Step>)
    requires |t| == 9
    ensures Run(s, t) == After(After(After(After(After(After(After(After(After(s, t[0]), t[1]), t[2]), t[3]), t[4]), t[5]), t[6]), t[7]), t[8])
  {
    hide After;
    RunSplit(s, t, 0); RunSplit(s, t, 1); RunSplit(s, t, 2);
    RunSplit(s, t, 3); RunSplit(s, t, 4); RunSplit(s, t, 5);
    RunSplit(s, t, 6); RunSplit(s, t, 7); RunSplit(s, t, 8);
    assert t[..9] == t;
  }

  lemma LargeRunReaches(admin: Address, u: Address, v: Address, x: i128)
    requires Large(admin, u, v, x)
    ensures Signed(LargeRun(admin, u, v, x)) && Run(INIT, LargeRun(admin, u, v, x)) == Won(admin, u, v, x)
  {
    Funded(admin, u, v, x);
    FirstStake(admin, u, v, x);
    SecondStake(admin, u, v, x);
    Resolution(admin, u, v, x);
    hide After, Run, Won, Market, Staked, Spent;
    NineSteps(INIT, LargeRun(admin, u, v, x));
  }

  /** Both users have won and not claimed, and whoever claims first is turned away. */
  ghost predicate TurnedAway(s: State, u: Address) {
    1 in s.books && Entitled(s.books[1], u) && Claim(s, {u}, u, 1) == Abort(Arithmetic)
  }

  lemma LargeClaimsOverflow(admin: Address, u: Address, v: Address, x: i128)
    requires Large(admin, u, v, x)
    ensures Signed(LargeRun(admin, u, v, x))
    ensures TurnedAway(Run(INIT, LargeRun(admin, u, v, x)), u) && TurnedAway(Run(INIT, LargeRun(admin, u, v, x)), v)
  {
    LargeRunReaches(admin, u, v, x);
    hide Run, LargeRun;
  }

  /** For instance: stakes of 2 to the 100 each. */
  lemma HugeClaimsOverflow()
    ensures var t := LargeRun(1, 2, 3, 0x10_0000_0000_0000_0000_0000_0000);
            Signed(t) && TurnedAway(Run(INIT, t), 2) && TurnedAway(Run(INIT, t), 3)
  {
    hide Signed, TurnedAway, Run, LargeRun;
    LargeClaimsOverflow(1, 2, 3, 0x10_0000_0000_0000_0000_0000_0000);
  }
}
