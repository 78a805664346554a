/** The off-chain settlement plan of a prediction market: who is paid how much once the market
    is resolved or cancelled. */
module SettlementPlan {
  import opened Wrappers
  import opened Bits

  const I64_MAX: int := 0x7FFF_FFFF_FFFF_FFFF

  type i64 = x: int | -I64_MAX - 1 <= x <= I64_MAX

  /** An active position; the table only admits positive amounts. */
  datatype Position = Position(id: nat, outcome: nat, amount: i64, account: nat)

  datatype Row = Row(position: Position, payout: i64)

  datatype Kind = Payout | Refund

  datatype Error = NoActivePositions | AmountOverflow | WinnerMissing | NoWinningPositions | ConservationFailed

  datatype Plan = Plan(totalStake: i64, fee: i64, distributable: i64, rows: seq<Row>)

  datatype Result<+T> = Ok(value: T) | Err(error: Error) {
    predicate IsFailure() { Err? }

    function PropagateFailure<U>(): Result<U>
      requires Err?
    {
      Err(error)
    }

    function Extract(): T
      requires Ok?
    {
      value
    }
  }

  predicate Positive(ps: seq<Position>) {
    forall i :: 0 <= i < |ps| ==> ps[i].amount > 0
  }

  // ----- what the loops compute -----

  /** The stake of the first n positions. */
  function Staked(ps: seq<Position>, n: nat): int
    requires n <= |ps|
  {
    if n == 0 then 0 else Staked(ps, n - 1) + ps[n - 1].amount
  }

  /** The winners among the first n positions, in their order. */
  function WinnersUpTo(ps: seq<Position>, winner: nat, n: nat): (ws: seq<Position>)
    requires n <= |ps|
    ensures |ws| <= n
    ensures forall i :: 0 <= i < |ws| ==> ws[i] in ps && ws[i].outcome == winner
  {
    if n == 0 then []
    else
      var before := WinnersUpTo(ps, winner, n - 1);
      if ps[n - 1].outcome == winner then before + [ps[n - 1]] else before
  }

  function Winners(ps: seq<Position>, winner: nat): seq<Position> {
    WinnersUpTo(ps, winner, |ps|)
  }

  /** The floor of the proportional share. */
  function Share(amount: int, distributable: int, winningStake: int): int
    requires winningStake > 0
  {
    amount * distributable / winningStake
  }

  function Shares(ws: seq<Position>, d: int, w: int, n: nat): int
    requires n <= |ws| && w > 0
  {
    if n == 0 then 0 else Shares(ws, d, w, n - 1) + Share(ws[n - 1].amount, d, w)
  }

  function Paid(rows: seq<Row>, n: nat): int
    requires n <= |rows|
  {
    if n == 0 then 0 else Paid(rows, n - 1) + rows[n - 1].payout
  }

  lemma ShareBounds(amount: int, d: int, w: int)
    requires w > 0 && 0 <= amount <= w && 0 <= d
    ensures 0 <= Share(amount, d, w) <= d
    ensures Share(amount, d, w) * w <= amount * d < Share(amount, d, w) * w + w
  {
    var s, r := amount * d / w, amount * d % w;
    assert amount * d == s * w + r;
    Products(amount, d, w);
    assert 0 * w < s * w + w == (s + 1) * w;
    Cancel(0, s + 1, w);
    assert s * w <= w * d < (d + 1) * w;
    Cancel(s, d + 1, w);
  }

  lemma Products(amount: int, d: int, w: int)
    requires 0 <= amount <= w && 0 <= d
    ensures 0 <= amount * d <= w * d
  {
  }

  lemma {:induction false} StakedGrows(ps: seq<Position>, m: nat, n: nat)
    requires Positive(ps) && m <= n <= |ps|
    ensures 0 <= Staked(ps, m) <= Staked(ps, n)
    ensures m < n ==> Staked(ps, m) + ps[m].amount <= Staked(ps, n)
    decreases n
  {
    if m < n {
      StakedGrows(ps, m, n - 1);
    } else if n > 0 {
      StakedGrows(ps, n - 1, n - 1);
    }
  }

  /** What flooring loses on the first n shares is less than one unit each. */
  lemma {:induction false} SharesNearlyExhaust(ws: seq<Position>, d: int, w: int, n: nat)
    requires Positive(ws) && n <= |ws| && 0 <= d && w > 0 && Staked(ws, |ws|) <= w
    ensures 0 <= Shares(ws, d, w, n)
    ensures Shares(ws, d, w, n) * w <= Staked(ws, n) * d
    ensures n > 0 ==> Staked(ws, n) * d < (Shares(ws, d, w, n) + n) * w
  {
    if n > 0 {
      hide Share;
      SharesNearlyExhaust(ws, d, w, n - 1);
      StakedGrows(ws, n - 1, |ws|);
      ShareBounds(ws[n - 1].amount, d, w);
      var s, t := Shares(ws, d, w, n - 1), Share(ws[n - 1].amount, d, w);
      Spread(s, t, w, Staked(ws, n - 1), ws[n - 1].amount, d, n - 1);
    }
  }

  lemma Spread(s: int, t: int, w: int, staked: int, amount: int, d: int, n: int)
    ensures (s + t) * w == s * w + t * w
    ensures (staked + amount) * d == staked * d + amount * d
    ensures (s + t + (n + 1)) * w == (s + n) * w + t * w + w
  {
  }

  /** The remainder after floor shares is non-negative and below the number of winners. */
  lemma RemainderIsSmall(ws: seq<Position>, d: int, w: int)
    requires Positive(ws) && |ws| > 0 && 0 <= d && w == Staked(ws, |ws|)
    ensures w > 0 && 0 <= d - Shares(ws, d, w, |ws|) < |ws|
  {
    hide Shares;
    StakedGrows(ws, 0, |ws|);
    SharesNearlyExhaust(ws, d, w, |ws|);
    var s, n := Shares(ws, d, w, |ws|), |ws|;
    assert s * w <= w * d < (d + 1) * w;
    Cancel(s, d + 1, w);
    assert d * w < (s + n) * w;
    Cancel(d, s + n, w);
  }

  /** The floor share of row i, and one unit more for the earliest rows. */
  function PayoutOf(ws: seq<Position>, d: int, w: int, extras: int, i: nat): int
    requires i < |ws| && w > 0
  {
    Share(ws[i].amount, d, w) + if i < extras then 1 else 0
  }

  ghost predicate Allocated(ws: seq<Position>, d: int, w: int, extras: int, rows: seq<Row>)
    requires w > 0
  {
    && |rows| == |ws|
    && forall i :: 0 <= i < |ws| ==> rows[i].position == ws[i] && rows[i].payout == PayoutOf(ws, d, w, extras, i)
  }

  lemma {:induction false} PaidIs(ws: seq<Position>, d: int, w: int, extras: int, rows: seq<Row>, n: nat)
    requires w > 0 && Allocated(ws, d, w, extras, rows) && n <= |ws| && 0 <= extras
    ensures Paid(rows, n) == Shares(ws, d, w, n) + if n < extras then n else extras
  {
    if n > 0 {
      PaidIs(ws, d, w, extras, rows, n - 1);
    }
  }

  // ----- the loops -----

  /** try_fold of checked_add over the amounts. */
  method CheckedTotal(ps: seq<Position>) returns (r: Result<i64>)
    requires Positive(ps)
    ensures r == if Staked(ps, |ps|) <= I64_MAX then Ok(Staked(ps, |ps|)) else Err(AmountOverflow)
  {
    var total: i64 := 0;
    for i := 0 to |ps|
      invariant total == Staked(ps, i)
    {
      StakedGrows(ps, i + 1, |ps|);
      if total as int + ps[i].amount as int > I64_MAX {
        return Err(AmountOverflow);
      }
      total := total + ps[i].amount;
    }
    return Ok(total);
  }

  method SelectWinners(ps: seq<Position>, winner: nat) returns (ws: seq<Position>)
    ensures ws == Winners(ps, winner)
  {
    ws := [];
    for i := 0 to |ps|
      invariant ws == WinnersUpTo(ps, winner, i)
    {
      if ps[i].outcome == winner {
        ws := ws + [ps[i]];
      }
    }
  }

  /** Floor shares first, then the remainder one unit at a time from the front. Neither a
      conversion nor an addition overflows, and the index never wraps around. */
  method Allocate(ws: seq<Position>, winningStake: i64, distributable: i64) returns (rows: seq<Row>)
    requires Positive(ws) && |ws| > 0 && 0 <= distributable && winningStake == Staked(ws, |ws|)
    ensures winningStake > 0
    ensures Allocated(ws, distributable, winningStake, distributable - Shares(ws, distributable, winningStake, |ws|), rows)
  {
    hide Share;
    RemainderIsSmall(ws, distributable, winningStake);
    rows := [];
    var handedOut: i64 := 0;
    for i := 0 to |ws|
      invariant |rows| == i && handedOut == Shares(ws, distributable, winningStake, i)
      invariant forall j :: 0 <= j < i ==> rows[j].position == ws[j] && rows[j].payout == Share(ws[j].amount, distributable, winningStake)
    {
      StakedGrows(ws, i, |ws|);
      ShareBounds(ws[i].amount, distributable, winningStake);
      SharesGrow(ws, distributable, winningStake, i + 1, |ws|);
      var payout := Share(ws[i].amount, distributable, winningStake);
      handedOut := handedOut + payout;
      rows := rows + [Row(ws[i], payout)];
    }
    rows := RoundRobin(ws, winningStake, distributable, rows, distributable - handedOut);
  }

  method RoundRobin(ws: seq<Position>, winningStake: i64, distributable: i64, floors: seq<Row>, extras: int) returns (rows: seq<Row>)
    requires Positive(ws) && 0 <= distributable && winningStake == Staked(ws, |ws|) > 0
    requires 0 <= extras == distributable - Shares(ws, distributable, winningStake, |ws|) < |ws|
    requires Allocated(ws, distributable, winningStake, 0, floors)
    ensures Allocated(ws, distributable, winningStake, extras, rows)
  {
    hide Share, Shares;
    rows := floors;
    var remainder := extras;
    var index := 0;
    while remainder > 0
      invariant 0 <= remainder <= extras < |rows| == |ws| && index == extras - remainder
      invariant Allocated(ws, distributable, winningStake, extras - remainder, rows)
      decreases remainder
    {
      ShareIsRoom(ws, distributable, winningStake, index);
      rows := rows[index := rows[index].(payout := rows[index].payout + 1)];
      remainder := remainder - 1;
      NoWrap(index, |rows|);
      index := (index + 1) % |rows|;
    }
  }

  lemma NoWrap(index: nat, length: nat)
    requires index + 1 < length
    ensures (index + 1) % length == index + 1
  {
  }

  lemma {:induction false} SharesGrow(ws: seq<Position>, d: int, w: int, m: nat, n: nat)
    requires Positive(ws) && 0 <= d && w == Staked(ws, |ws|) > 0 && m <= n <= |ws|
    ensures 0 <= Shares(ws, d, w, m) <= Shares(ws, d, w, n)
    decreases n
  {
    hide Share;
    if m < n {
      StakedGrows(ws, n - 1, |ws|);
      ShareBounds(ws[n - 1].amount, d, w);
      SharesGrow(ws, d, w, m, n - 1);
    } else {
      SharesNearlyExhaust(ws, d, w, m);
    }
  }

  /** With a remainder left, no share is the whole. */
  lemma ShareIsRoom(ws: seq<Position>, d: int, w: int, i: nat)
    requires Positive(ws) && 0 <= d && w == Staked(ws, |ws|) > 0 && i < |ws|
    requires Shares(ws, d, w, |ws|) < d
    ensures 0 <= Share(ws[i].amount, d, w) < d
  {
    hide Share;
    SharesGrow(ws, d, w, i + 1, |ws|);
    SharesGrow(ws, d, w, i, |ws|);
    StakedGrows(ws, i, |ws|);
    ShareBounds(ws[i].amount, d, w);
  }

  /** Cancelled markets return every stake. */
  method RefundRows(ps: seq<Position>) returns (rows: seq<Row>)
    ensures |rows| == |ps| && forall i :: 0 <= i < |ps| ==> rows[i] == Row(ps[i], ps[i].amount)
  {
    rows := [];
    for i := 0 to |ps|
      invariant |rows| == i && forall j :: 0 <= j < i ==> rows[j] == Row(ps[j], ps[j].amount)
    {
      rows := rows + [Row(ps[i], ps[i].amount)];
    }
  }

  lemma {:induction false} RefundsPay(ps: seq<Position>, rows: seq<Row>, n: nat)
    requires |rows| == |ps| && n <= |ps| && forall i :: 0 <= i < |ps| ==> rows[i] == Row(ps[i], ps[i].amount)
    ensures Paid(rows, n) == Staked(ps, n)
  {
    if n > 0 {
      RefundsPay(ps, rows, n - 1);
    }
  }

  // ----- ordering the plan by position id -----

  function Insert(row: Row, sorted: seq<Row>): (r: seq<Row>)
    ensures |r| == |sorted| + 1 && multiset(r) == multiset(sorted) + multiset{row}
  {
    if |sorted| == 0 || row.position.id < sorted[0].position.id then [row] + sorted
    else
      assert sorted == [sorted[0]] + sorted[1..];
      [sorted[0]] + Insert(row, sorted[1..])
  }

  /** A stable sort by position id. */
  function SortById(rows: seq<Row>): (r: seq<Row>)
    ensures |r| == |rows| && multiset(r) == multiset(rows)
  {
    if |rows| == 0 then []
    else
      assert rows == rows[..|rows| - 1] + [rows[|rows| - 1]];
      Insert(rows[|rows| - 1], SortById(rows[..|rows| - 1]))
  }

  predicate Ordered(rows: seq<Row>) {
    forall i, j :: 0 <= i < j < |rows| ==> rows[i].position.id <= rows[j].position.id
  }

  predicate AllFrom(bound: nat, rows: seq<Row>) {
    forall i :: 0 <= i < |rows| ==> bound <= rows[i].position.id
  }

  lemma {:induction false} InsertBound(row: Row, sorted: seq<Row>, bound: nat)
    requires bound <= row.position.id && AllFrom(bound, sorted)
    ensures AllFrom(bound, Insert(row, sorted))
  {
    if |sorted| > 0 && row.position.id >= sorted[0].position.id {
      InsertBound(row, sorted[1..], bound);
    }
  }

  lemma {:induction false} InsertOrdered(row: Row, sorted: seq<Row>)
    requires Ordered(sorted)
    ensures Ordered(Insert(row, sorted))
  {
    if |sorted| > 0 && row.position.id >= sorted[0].position.id {
      InsertOrdered(row, sorted[1..]);
      InsertBound(row, sorted[1..], sorted[0].position.id);
    }
  }

  lemma {:induction false} SortOrders(rows: seq<Row>)
    ensures Ordered(SortById(rows))
  {
    if |rows| > 0 {
      SortOrders(rows[..|rows| - 1]);
      InsertOrdered(rows[|rows| - 1], SortById(rows[..|rows| - 1]));
    }
  }

  lemma {:induction false} PaidPrefix(a: seq<Row>, b: seq<Row>, n: nat)
    requires n <= |a| && n <= |b| && a[..n] == b[..n]
    ensures Paid(a, n) == Paid(b, n)
  {
    if n > 0 {
      assert a[n - 1] == a[..n][n - 1] == b[..n][n - 1] == b[n - 1];
      assert a[..n - 1] == a[..n][..n - 1] == b[..n - 1];
      PaidPrefix(a, b, n - 1);
    }
  }

  lemma {:induction false} PaidFront(row: Row, rest: seq<Row>, n: nat)
    requires n <= |rest|
    ensures Paid([row] + rest, n + 1) == row.payout + Paid(rest, n)
  {
    if n == 0 {
      assert Paid([row] + rest, 0) == 0;
    } else {
      PaidFront(row, rest, n - 1);
    }
  }

  lemma {:induction false} InsertPays(row: Row, sorted: seq<Row>)
    ensures Paid(Insert(row, sorted), |sorted| + 1) == row.payout + Paid(sorted, |sorted|)
  {
    if |sorted| == 0 || row.position.id < sorted[0].position.id {
      PaidFront(row, sorted, |sorted|);
    } else {
      var rest := sorted[1..];
      InsertPays(row, rest);
      PaidFront(sorted[0], Insert(row, rest), |rest| + 1);
      PaidFront(sorted[0], rest, |rest|);
      assert sorted == [sorted[0]] + rest;
    }
  }

  lemma {:induction false} SortPays(rows: seq<Row>)
    ensures Paid(SortById(rows), |rows|) == Paid(rows, |rows|)
  {
    if |rows| > 0 {
      var init := rows[..|rows| - 1];
      SortPays(init);
      InsertPays(rows[|rows| - 1], SortById(init));
      PaidPrefix(init, rows, |init|);
    }
  }

  // ----- the plan -----

  /** The market fee in basis points of the whole pool. */
  function Fee(total: int, feeBps: int): int {
    total * feeBps / 10_000
  }

  lemma FeeBounds(total: int, feeBps: int)
    requires 0 <= total && 0 <= feeBps <= 10_000
    ensures 0 <= Fee(total, feeBps) <= total
  {
    var p := total * feeBps;
    assert 0 <= p <= total * 10_000;
  }

  method Fold(rows: seq<Row>) returns (r: Result<i64>)
    requires forall i :: 0 <= i < |rows| ==> 0 <= rows[i].payout
    ensures r == if Paid(rows, |rows|) <= I64_MAX then Ok(Paid(rows, |rows|)) else Err(AmountOverflow)
  {
    var total: i64 := 0;
    for i := 0 to |rows|
      invariant 0 <= total == Paid(rows, i)
    {
      PaidGrows(rows, i + 1, |rows|);
      if total as int + rows[i].payout as int > I64_MAX {
        return Err(AmountOverflow);
      }
      total := total + rows[i].payout;
    }
    return Ok(total);
  }

  lemma {:induction false} PaidGrows(rows: seq<Row>, m: nat, n: nat)
    requires m <= n <= |rows| && forall i :: 0 <= i < |rows| ==> 0 <= rows[i].payout
    ensures 0 <= Paid(rows, m) <= Paid(rows, n)
    decreases n
  {
    if m < n {
      PaidGrows(rows, m, n - 1);
    } else if n > 0 {
      PaidGrows(rows, n - 1, n - 1);
    }
  }

  /** The rows a payout plan holds before they are ordered. */
  ghost predicate PayoutRows(ps: seq<Position>, winner: nat, distributable: int, rows: seq<Row>) {
    var ws := Winners(ps, winner);
    var w := Staked(ws, |ws|);
    && w > 0
    && Allocated(ws, distributable, w, distributable - Shares(ws, distributable, w, |ws|), rows)
  }

  ghost predicate Planned(kind: Kind, ps: seq<Position>, winner: Option<nat>, feeBps: int, plan: Plan) {
    && plan.totalStake == Staked(ps, |ps|)
    && plan.fee == (if kind == Payout then Fee(plan.totalStake, feeBps) else 0)
    && plan.distributable == plan.totalStake - plan.fee
    && Ordered(plan.rows)
    && exists rows: seq<Row> ::
         && plan.rows == SortById(rows)
         && match kind
            case Payout => winner.Some? && PayoutRows(ps, winner.value, plan.distributable, rows)
            case Refund => |rows| == |ps| && forall i :: 0 <= i < |ps| ==> rows[i] == Row(ps[i], ps[i].amount)
  }

  lemma {:induction false} WinnersStakeLess(ps: seq<Position>, winner: nat, n: nat)
    requires Positive(ps) && n <= |ps|
    ensures var ws := WinnersUpTo(ps, winner, n);
            Positive(ws) && Staked(ws, |ws|) <= Staked(ps, n)
  {
    if n > 0 {
      WinnersStakeLess(ps, winner, n - 1);
      var before := WinnersUpTo(ps, winner, n - 1);
      if ps[n - 1].outcome == winner {
        StakedAppend(before, ps[n - 1], |before|);
      }
    }
  }

  lemma {:induction false} StakedAppend(ws: seq<Position>, p: Position, n: nat)
    requires n <= |ws|
    ensures Staked(ws + [p], n) == Staked(ws, n)
    ensures n == |ws| ==> Staked(ws + [p], n + 1) == Staked(ws, n) + p.amount
  {
    if n > 0 {
      StakedAppend(ws, p, n - 1);
    }
  }

  /** Plans a settlement. The conservation check is never the reason for a refusal, and the
      amounts overflow only when the stakes of all positions do. */
  method PlanSettlement(kind: Kind, ps: seq<Position>, winner: Option<nat>, feeBps: int) returns (r: Result<Plan>)
    requires Positive(ps) && 0 <= feeBps <= 10_000
    ensures |ps| == 0 ==> r == Err(NoActivePositions)
    ensures |ps| > 0 && Staked(ps, |ps|) > 9_223_372_036_854_775_807 ==> r == Err(AmountOverflow)
    ensures |ps| > 0 && Staked(ps, |ps|) <= 9_223_372_036_854_775_807 ==>
      if kind == Payout && winner.None? then r == Err(WinnerMissing)
      else if kind == Payout && |Winners(ps, winner.value)| == 0 then r == Err(NoWinningPositions)
      else r.Ok? && Planned(kind, ps, winner, feeBps, r.value)
  {
    hide Share, Shares, Fee, SortById, Winners;
    if |ps| == 0 {
      return Err(NoActivePositions);
    }
    var totalStake :- CheckedTotal(ps);
    StakedGrows(ps, 0, |ps|);
    if kind == Payout && winner.None? {
      return Err(WinnerMissing);
    }
    FeeBounds(totalStake, feeBps);
    var fee := if kind == Payout then Fee(totalStake, feeBps) else 0;
    var distributable := totalStake - fee;
    var rows: seq<Row>;
    if kind == Payout {
      var planned := PlanPayouts(ps, winner.value, distributable);
      rows :- planned;
    } else {
      rows := RefundRows(ps);
      RefundsPay(ps, rows, |ps|);
    }
    ghost var unsorted := rows;
    rows := SortById(rows);
    SortOrders(unsorted);
    SortPays(unsorted);
    SameMembers(unsorted, rows);
    var totalPlanned := Fold(rows);
    if totalPlanned.Err? {
      return Err(AmountOverflow);
    }
    if totalPlanned.value != distributable {
      return Err(ConservationFailed);
    }
    return Ok(Plan(totalStake, fee, distributable, rows));
  }

  lemma SameMembers(a: seq<Row>, b: seq<Row>)
    requires multiset(a) == multiset(b) && forall i :: 0 <= i < |a| ==> 0 <= a[i].payout
    ensures forall i :: 0 <= i < |b| ==> 0 <= b[i].payout
  {
    forall i | 0 <= i < |b|
      ensures 0 <= b[i].payout
    {
      assert b[i] in multiset(b) && b[i] in multiset(a);
    }
  }

  method PlanPayouts(ps: seq<Position>, winner: nat, distributable: i64) returns (r: Result<seq<Row>>)
    requires Positive(ps) && Staked(ps, |ps|) <= I64_MAX && 0 <= distributable
    ensures |Winners(ps, winner)| == 0 ==> r == Err(NoWinningPositions)
    ensures |Winners(ps, winner)| > 0 ==> r.Ok? && PayoutRows(ps, winner, distributable, r.value)
    ensures r.Ok? ==> Paid(r.value, |r.value|) == distributable
    ensures r.Ok? ==> forall i :: 0 <= i < |r.value| ==> 0 <= r.value[i].payout
  {
    hide Share;
    var ws := SelectWinners(ps, winner);
    if |ws| == 0 {
      return Err(NoWinningPositions);
    }
    WinnersStakeLess(ps, winner, |ps|);
    var winningStake := CheckedTotal(ws);
    if winningStake.Err? {
      return Err(AmountOverflow);
    }
    var rows := Allocate(ws, winningStake.value, distributable);
    PayoutsSumUp(ws, distributable, rows);
    return Ok(rows);
  }

  /** Payouts are non-negative and add up to the distributable amount exactly. */
  lemma PayoutsSumUp(ws: seq<Position>, d: int, rows: seq<Row>)
    requires Positive(ws) && |ws| > 0 && 0 <= d
    requires var w := Staked(ws, |ws|); w > 0 && Allocated(ws, d, w, d - Shares(ws, d, w, |ws|), rows)
    ensures Paid(rows, |rows|) == d
    ensures forall i :: 0 <= i < |rows| ==> 0 <= rows[i].payout
  {
    hide Share, Shares;
    var w := Staked(ws, |ws|);
    RemainderIsSmall(ws, d, w);
    PaidIs(ws, d, w, d - Shares(ws, d, w, |ws|), rows, |ws|);
    forall i | 0 <= i < |rows|
      ensures 0 <= rows[i].payout
    {
      StakedGrows(ws, i, |ws|);
      ShareBounds(ws[i].amount, d, w);
    }
  }

  // ----- what a plan promises -----

  /** A plan distributes exactly the stake less the fee. */
  lemma PlanConserves(kind: Kind, ps: seq<Position>, winner: Option<nat>, feeBps: int, plan: Plan)
    requires Positive(ps) && |ps| > 0 && 0 <= feeBps <= 10_000 && Planned(kind, ps, winner, feeBps, plan)
    ensures Paid(plan.rows, |plan.rows|) == plan.distributable == plan.totalStake - plan.fee
    ensures 0 <= plan.fee <= plan.totalStake
    ensures |plan.rows| > 0
  {
    hide Share, Shares, Fee, SortById;
    StakedGrows(ps, 0, |ps|);
    FeeBounds(plan.totalStake, feeBps);
    var rows: seq<Row> :| plan.rows == SortById(rows)
      && match kind
         case Payout => winner.Some? && PayoutRows(ps, winner.value, plan.distributable, rows)
         case Refund => |rows| == |ps| && forall i :: 0 <= i < |ps| ==> rows[i] == Row(ps[i], ps[i].amount);
    SortPays(rows);
    if kind == Payout {
      WinnersStakeLess(ps, winner.value, |ps|);
      PayoutsSumUp(Winners(ps, winner.value), plan.distributable, rows);
    } else {
      RefundsPay(ps, rows, |ps|);
    }
  }

  /** Every winner is paid the exact proportional share rounded down or up to a unit. */
  lemma {:induction false} PayoutIsFair(ws: seq<Position>, d: int, extras: int, rows: seq<Row>, i: nat)
    requires Positive(ws) && 0 <= d && i < |ws|
    requires var w := Staked(ws, |ws|); w > 0 && Allocated(ws, d, w, extras, rows)
    ensures var w := Staked(ws, |ws|);
            (rows[i].payout - 1) * w <= ws[i].amount * d < (rows[i].payout + 1) * w
  {
    hide Share;
    var w := Staked(ws, |ws|);
    StakedGrows(ws, i, |ws|);
    ShareBounds(ws[i].amount, d, w);
    var s := Share(ws[i].amount, d, w);
    assert (s + 1) * w == s * w + w && (s - 1) * w == s * w - w && (s + 2) * w == s * w + w + w;
  }

  /** The fee is taken on the whole pool, so a winner can be paid less than the stake. Nobody
      is exactly when what is distributed covers the winning stakes. */
  lemma NobodyLosesIff(ws: seq<Position>, d: int, rows: seq<Row>)
    requires Positive(ws) && |ws| > 0 && 0 <= d
    requires var w := Staked(ws, |ws|); w > 0 && Allocated(ws, d, w, d - Shares(ws, d, w, |ws|), rows)
    ensures (forall i :: 0 <= i < |ws| ==> rows[i].payout >= ws[i].amount) <==> d >= Staked(ws, |ws|)
  {
    hide Share, Shares;
    var w := Staked(ws, |ws|);
    if d >= w {
      RemainderIsSmall(ws, d, w);
      forall i | 0 <= i < |ws|
        ensures rows[i].payout >= ws[i].amount
      {
        StakedGrows(ws, i, |ws|);
        ShareBounds(ws[i].amount, d, w);
        ShareCovers(ws[i].amount, d, w);
      }
    } else {
      PayoutsSumUp(ws, d, rows);
      if forall i :: 0 <= i < |ws| ==> rows[i].payout >= ws[i].amount {
        PaidCovers(ws, rows, |ws|);
      }
    }
  }

  lemma ShareCovers(amount: int, d: int, w: int)
    requires 0 <= amount <= w <= d && w > 0
    ensures Share(amount, d, w) >= amount
  {
    ShareBounds(amount, d, w);
    var s := Share(amount, d, w);
    assert amount * w <= amount * d < (s + 1) * w;
    Cancel(amount, s + 1, w);
  }

  lemma {:induction false} PaidCovers(ws: seq<Position>, rows: seq<Row>, n: nat)
    requires |rows| == |ws| && n <= |ws| && forall i :: 0 <= i < |ws| ==> rows[i].payout >= ws[i].amount
    ensures Paid(rows, n) >= Staked(ws, n)
  {
    if n > 0 {
      PaidCovers(ws, rows, n - 1);
    }
  }

  /** For instance: the only player wins, stakes 100 at a fee of ten percent, and is paid 90. */
  lemma SoleWinnerLoses()
    ensures var winner := Position(0, 0, 100, 0);
            Planned(Payout, [winner], Some(0), 1_000, Plan(100, 10, 90, [Row(winner, 90)]))
  {
    var winner := Position(0, 0, 100, 0);
    var ps, rows := [winner], [Row(winner, 90)];
    assert Staked(ps, 1) == 100 && WinnersUpTo(ps, 0, 1) == ps by {
      assert Staked(ps, 0) == 0 && WinnersUpTo(ps, 0, 0) == [];
    }
    assert Shares(ps, 90, 100, 1) == 90 by {
      assert Shares(ps, 90, 100, 0) == 0;
    }
    assert Allocated(ps, 90, 100, 0, rows);
    assert PayoutRows(ps, 0, 90, rows);
    assert rows == SortById(rows);
  }
}
