/** What a settlement plan is, in plain numbers: whom it pays, how much, and in which order. */
module SettlementRules {
  import opened Wrappers
  import opened SettlementPlan

  /** The sum of some stakes. */
  function Total(ps: seq<Position>): int {
    if |ps| == 0 then 0 else ps[0].amount + Total(ps[1..])
  }

  lemma {:induction false} TotalAppends(ps: seq<Position>, p: Position)
    ensures Total(ps + [p]) == Total(ps) + p.amount
    decreases |ps|
  {
    if |ps| > 0 {
      assert (ps + [p])[1..] == ps[1..] + [p];
      TotalAppends(ps[1..], p);
    } else {
      assert ps + [p] == [p];
    }
  }

  lemma {:induction false} StakedIsTotal(ps: seq<Position>, n: nat)
    requires n <= |ps|
    ensures Staked(ps, n) == Total(ps[..n])
  {
    if n > 0 {
      StakedIsTotal(ps, n - 1);
      TotalAppends(ps[..n - 1], ps[n - 1]);
      assert ps[..n] == ps[..n - 1] + [ps[n - 1]];
    }
  }

  // ----- the winners -----

  /** ws are the positions on the winning outcome, all of them, in their order. */
  ghost predicate Selects(ps: seq<Position>, winner: nat, ws: seq<Position>, at: seq<nat>) {
    && |at| == |ws|
    && (forall i :: 0 <= i < |at| ==> at[i] < |ps| && ps[at[i]] == ws[i] && ws[i].outcome == winner)
    && (forall i, j :: 0 <= i < j < |at| ==> at[i] < at[j])
    && (forall k :: 0 <= k < |ps| && ps[k].outcome == winner ==> k in at)
  }

  lemma {:induction false} WinnersAre(ps: seq<Position>, winner: nat, n: nat) returns (at: seq<nat>)
    requires n <= |ps|
    ensures Selects(ps[..n], winner, WinnersUpTo(ps, winner, n), at)
    decreases n
  {
    hide Selects, WinnersUpTo;
    WinnersStep(ps, winner, n);
    if n == 0 {
      at := NoneYet(ps[..0], winner);
    } else {
      var before := WinnersAre(ps, winner, n - 1);
      var earlier, p, ws := ps[..n - 1], ps[n - 1], WinnersUpTo(ps, winner, n - 1);
      OneMore(earlier, p, winner, ws, before);
      assert ps[..n] == earlier + [p];
      at := if p.outcome == winner then before + [n - 1] else before;
    }
  }

  lemma WinnersStep(ps: seq<Position>, winner: nat, n: nat)
    requires n <= |ps|
    ensures n == 0 ==> WinnersUpTo(ps, winner, n) == []
    ensures n > 0 && ps[n - 1].outcome == winner ==> WinnersUpTo(ps, winner, n) == WinnersUpTo(ps, winner, n - 1) + [ps[n - 1]]
    ensures n > 0 && ps[n - 1].outcome != winner ==> WinnersUpTo(ps, winner, n) == WinnersUpTo(ps, winner, n - 1)
  {
  }

  lemma NoneYet(ps: seq<Position>, winner: nat) returns (at: seq<nat>)
    requires |ps| == 0
    ensures Selects(ps, winner, [], at)
  {
    at := [];
  }

  lemma {:induction false} OneMore(ps: seq<Position>, p: Position, winner: nat, ws: seq<Position>, at: seq<nat>)
    requires Selects(ps, winner, ws, at)
    ensures p.outcome == winner ==> Selects(ps + [p], winner, ws + [p], at + [|ps|])
    ensures p.outcome != winner ==> Selects(ps + [p], winner, ws, at)
  {
    forall k | 0 <= k < |ps| && ps[k].outcome == winner
      ensures k in at
    {
    }
  }

  // ----- the payouts -----

  /** A position's part of the pot in proportion to its stake, rounded down. */
  ghost predicate IsPart(part: int, stake: int, stakes: int, pot: int) {
    part * stakes <= stake * pot < (part + 1) * stakes
  }

  /** Every winner gets the part, rounded down, and the units that are left go one each to the
      earliest winners. */
  ghost predicate Divided(ws: seq<Position>, pot: int, rows: seq<Row>, parts: seq<int>) {
    && |rows| == |ws| && |parts| == |ws|
    && (forall i :: 0 <= i < |ws| ==> rows[i].position == ws[i] && IsPart(parts[i], ws[i].amount, Total(ws), pot))
    && (forall i :: 0 <= i < |ws| ==> rows[i].payout == parts[i] || rows[i].payout == parts[i] + 1)
    && (forall i, j :: 0 <= i < j < |ws| && rows[j].payout == parts[j] + 1 ==> rows[i].payout == parts[i] + 1)
  }

  lemma {:induction false} AllocatedIsDivided(ws: seq<Position>, pot: int, extras: int, rows: seq<Row>)
    requires Positive(ws) && 0 <= pot && |ws| > 0
    requires Staked(ws, |ws|) > 0 && Allocated(ws, pot, Staked(ws, |ws|), extras, rows)
    ensures exists parts: seq<int> :: Divided(ws, pot, rows, parts)
  {
    var w := Staked(ws, |ws|);
    StakedIsTotal(ws, |ws|);
    assert ws[..|ws|] == ws;
    hide Share;
    var parts := seq(|ws|, i requires 0 <= i < |ws| => Share(ws[i].amount, pot, w));
    forall i | 0 <= i < |ws|
      ensures IsPart(parts[i], ws[i].amount, w, pot)
    {
      StakedGrows(ws, i, |ws|);
      ShareBounds(ws[i].amount, pot, w);
      assert (parts[i] + 1) * w == parts[i] * w + w;
    }
    assert Divided(ws, pot, rows, parts);
  }

  /** The fee in basis points of all stakes, rounded down. */
  ghost predicate IsFee(fee: int, total: int, feeBps: int) {
    fee * 10_000 <= total * feeBps < (fee + 1) * 10_000
  }

  lemma FeeIs(total: int, feeBps: int)
    ensures IsFee(Fee(total, feeBps), total, feeBps)
  {
  }

  /** A payout plan: the fee, and what is left divided among the winners, listed by position. */
  ghost predicate PaysWinners(ps: seq<Position>, winner: nat, feeBps: int, plan: Plan, ws: seq<Position>, rows: seq<Row>) {
    && plan.totalStake == Total(ps) && IsFee(plan.fee, Total(ps), feeBps) && plan.distributable == Total(ps) - plan.fee
    && |ws| > 0 && (exists at: seq<nat> :: Selects(ps, winner, ws, at))
    && (exists parts: seq<int> :: Divided(ws, plan.distributable, rows, parts))
    && multiset(plan.rows) == multiset(rows)
    && (forall i, j :: 0 <= i < j < |plan.rows| ==> plan.rows[i].position.id <= plan.rows[j].position.id)
  }

  lemma {:induction false} PayoutPlanIs(ps: seq<Position>, winner: nat, feeBps: int, plan: Plan)
    requires Positive(ps) && |ps| > 0 && 0 <= feeBps <= 10_000 && Planned(Payout, ps, Some(winner), feeBps, plan)
    ensures exists ws: seq<Position>, rows: seq<Row> :: PaysWinners(ps, winner, feeBps, plan, ws, rows)
  {
    hide Share, Shares, Fee, Divided, Selects, IsFee, SortById;
    var ws := Winners(ps, winner);
    var rows: seq<Row> :| plan.rows == SortById(rows) && PayoutRows(ps, winner, plan.distributable, rows);
    StakedIsTotal(ps, |ps|);
    assert ps[..|ps|] == ps;
    WinnersStakeLess(ps, winner, |ps|);
    StakedGrows(ps, 0, |ps|);
    FeeBounds(plan.totalStake, feeBps);
    FeeIs(plan.totalStake, feeBps);
    var w := Staked(ws, |ws|);
    var at := WinnersAre(ps, winner, |ps|);
    AllocatedIsDivided(ws, plan.distributable, plan.distributable - Shares(ws, plan.distributable, w, |ws|), rows);
    assert PaysWinners(ps, winner, feeBps, plan, ws, rows);
  }

  /** A refund plan: no fee, and every position gets its stake back. */
  ghost predicate PaysBack(ps: seq<Position>, plan: Plan, rows: seq<Row>) {
    && plan.totalStake == Total(ps) && plan.fee == 0 && plan.distributable == Total(ps)
    && |rows| == |ps| && (forall i :: 0 <= i < |ps| ==> rows[i].position == ps[i] && rows[i].payout == ps[i].amount)
    && multiset(plan.rows) == multiset(rows)
    && (forall i, j :: 0 <= i < j < |plan.rows| ==> plan.rows[i].position.id <= plan.rows[j].position.id)
  }

  lemma {:induction false} RefundPlanIs(ps: seq<Position>, winner: Option<nat>, feeBps: int, plan: Plan)
    requires Positive(ps) && |ps| > 0 && Planned(Refund, ps, winner, feeBps, plan)
    ensures exists rows: seq<Row> :: PaysBack(ps, plan, rows)
  {
    hide SortById;
    StakedIsTotal(ps, |ps|);
    assert ps[..|ps|] == ps;
    var rows: seq<Row> :| plan.rows == SortById(rows) && |rows| == |ps| && forall i :: 0 <= i < |ps| ==> rows[i] == Row(ps[i], ps[i].amount);
    assert PaysBack(ps, plan, rows);
  }

  /** Nobody has won exactly if no position is on the winning outcome. */
  lemma {:induction false} NobodyWinsIff(ps: seq<Position>, winner: nat)
    ensures |Winners(ps, winner)| == 0 <==> forall k :: 0 <= k < |ps| ==> ps[k].outcome != winner
  {
    var at := WinnersAre(ps, winner, |ps|);
    assert ps[..|ps|] == ps;
    assert Selects(ps, winner, Winners(ps, winner), at);
    if |at| > 0 {
      assert ps[at[0]].outcome == winner;
    }
  }
}
