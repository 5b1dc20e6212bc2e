/** The repository's formal pool model, `financing_pool/verification/model.rs`: one pool, its
    investors and its token balance. The repository enumerates its invariants within bounds; here
    they are proved for every number of investors, every sequence of tranches and every precision. */
module PoolModel {
  import opened Wrappers
  import opened Int128
  import opened SeqSum
  import opened Rounding

  const MAX_INVESTORS: nat := 8

  datatype Position = Position(contributed: int, shareBps: nat, claimed: int)

  datatype ModelError =
    | Frozen | NotPositive | ExceedsFaceValue | TooManyInvestors | ShareOverflow
    | AlreadyClosed | Overpayment | PayoutOverflow

  // ── Specification of a distribution ──────────────────────────────────────────

  function Contributions(ps: seq<Position>): seq<int> { seq(|ps|, i requires 0 <= i < |ps| => ps[i].contributed) }
  function ShareBps(ps: seq<Position>): seq<int> { seq(|ps|, i requires 0 <= i < |ps| => ps[i].shareBps) }

  /** Each investor's rounded-down share of `total`. */
  function Bases(ps: seq<Position>, total: int, decimals: nat): seq<int> {
    seq(|ps|, i requires 0 <= i < |ps| => WholeUnits(total, ps[i].shareBps, decimals))
  }

  function Dust(ps: seq<Position>, total: int, decimals: nat): int { total - Sum(Bases(ps, total, decimals)) }

  /** The shares with the rounding dust credited to the first investor. */
  function Payouts(ps: seq<Position>, total: int, decimals: nat): seq<int> {
    var bases := Bases(ps, total, decimals);
    var dust := Dust(ps, total, decimals);
    if dust > 0 && bases != [] then bases[0 := bases[0] + dust] else bases
  }

  function Credited(ps: seq<Position>, payouts: seq<int>): seq<Position>
    requires |ps| == |payouts|
  {
    seq(|ps|, i requires 0 <= i < |ps| => ps[i].(claimed := ps[i].claimed + payouts[i]))
  }

  /** The shares as `record_position` leaves them: each contribution over the same total. */
  predicate ProRata(ps: seq<Position>, total: int) {
    && Sum(Contributions(ps)) == total
    && forall i :: 0 <= i < |ps| ==>
      0 < ps[i].contributed <= total && ps[i].shareBps == ps[i].contributed * BPS / total
  }

  // ── Shares sum to 10 000 up to one basis point an investor ───────────────────

  lemma {:induction false} PartialShareSum(ps: seq<Position>, total: int)
    requires total > 0
    requires forall i :: 0 <= i < |ps| ==> ps[i].contributed > 0 && ps[i].shareBps == ps[i].contributed * BPS / total
    ensures var b := Sum(ShareBps(ps)); var c := Sum(Contributions(ps));
      c >= 0 && b * total <= c * BPS && (|ps| > 0 ==> c * BPS < (b + |ps|) * total)
  {
    if ps != [] {
      assert ShareBps(ps)[1..] == ShareBps(ps[1..]);
      assert Contributions(ps)[1..] == Contributions(ps[1..]);
      PartialShareSum(ps[1..], total);
      DivideBounds(ps[0].contributed * BPS, total);
      var b, c := Sum(ShareBps(ps[1..])), Sum(Contributions(ps[1..]));
      ShareStep(ps[0].shareBps, b, total, |ps| - 1);
    }
  }

  lemma ShareStep(x: int, b: int, total: int, n: int)
    ensures (x + b) * total == x * total + b * total
    ensures (x + b + n + 1) * total == x * total + total + (b + n) * total
  {
  }

  /** 10 000 - n < sum of shares <= 10 000. */
  lemma SharesNearlyFill(ps: seq<Position>, total: int)
    requires ps != [] && ProRata(ps, total)
    ensures BPS - |ps| < Sum(ShareBps(ps)) <= BPS
  {
    PartialShareSum(ps, total);
    MultiplyCancel(BPS, Sum(ShareBps(ps)) + |ps|, total);
    MultiplyCancel(Sum(ShareBps(ps)), BPS + 1, total);
  }

  // ── A distribution pays out exactly its total ────────────────────────────────

  lemma {:induction false} BasesBounds(ps: seq<Position>, total: int, decimals: nat)
    requires total >= 0
    ensures var b := Sum(Bases(ps, total, decimals)); var bps := Sum(ShareBps(ps));
      0 <= b && b * BPS <= total * bps && (ps != [] ==> total * bps < (b + |ps| * Pow10(decimals)) * BPS)
    ensures forall i :: 0 <= i < |ps| ==> 0 <= Bases(ps, total, decimals)[i]
  {
    if ps != [] {
      assert Bases(ps, total, decimals)[1..] == Bases(ps[1..], total, decimals);
      assert ShareBps(ps)[1..] == ShareBps(ps[1..]);
      BasesBounds(ps[1..], total, decimals);
      WholeUnitsBounds(total, ps[0].shareBps, decimals);
      Distribute(total, ps[0].shareBps, Sum(ShareBps(ps[1..])), |ps| - 1, Pow10(decimals));
      forall i | 0 <= i < |ps| ensures 0 <= Bases(ps, total, decimals)[i] {
        WholeUnitsBounds(total, ps[i].shareBps, decimals);
      }
    }
  }

  lemma Distribute(a: int, x: int, y: int, n: int, s: int)
    ensures a * (x + y) == a * x + a * y
    ensures (n + 1) * s == n * s + s
  {
  }

  /** Invariant I3 and the size of the dust: every investor but the first gets the rounded share, the
      first one the rounded share plus the dust, and together they get exactly the amount repaid. */
  lemma PayoutsAreExact(ps: seq<Position>, funded: int, total: int, decimals: nat)
    requires ps != [] && ProRata(ps, funded) && total >= 0
    ensures Sum(Payouts(ps, total, decimals)) == total
    ensures forall i :: 0 < i < |ps| ==> Payouts(ps, total, decimals)[i] == WholeUnits(total, ps[i].shareBps, decimals)
    ensures Payouts(ps, total, decimals)[0] == WholeUnits(total, ps[0].shareBps, decimals) + Dust(ps, total, decimals)
    ensures 0 <= Dust(ps, total, decimals)
    ensures Dust(ps, total, decimals) * BPS < |ps| * Pow10(decimals) * BPS + (|ps| - 1) * total
    ensures forall i :: 0 <= i < |ps| ==> 0 <= Payouts(ps, total, decimals)[i]
  {
    SharesNearlyFill(ps, funded);
    BasesBounds(ps, total, decimals);
    var bases := Bases(ps, total, decimals);
    DustBounds(total, Sum(bases), Sum(ShareBps(ps)), |ps|, |ps| * Pow10(decimals));
    SumUpdate(bases, 0, bases[0] + Dust(ps, total, decimals));
  }

  lemma DustBounds(total: int, paid: int, bps: int, n: int, units: int)
    requires total >= 0 && BPS - n < bps <= BPS
    requires paid * BPS <= total * bps < (paid + units) * BPS
    ensures 0 <= total - paid
    ensures (total - paid) * BPS < units * BPS + (n - 1) * total
  {
    MultiplyMonotone(bps, BPS, total);
    MultiplyMonotone(BPS - n + 1, bps, total);
    assert (BPS - n + 1) * total == BPS * total - (n - 1) * total;
  }

  // ── Tranches against one lump sum ────────────────────────────────────────────

  /** Positions after distributing the tranches one by one. */
  function AfterTranches(ps: seq<Position>, tranches: seq<int>, decimals: nat): (r: seq<Position>)
    ensures |r| == |ps|
    ensures forall i :: 0 <= i < |ps| ==> r[i].contributed == ps[i].contributed && r[i].shareBps == ps[i].shareBps
  {
    if tranches == [] then ps
    else
      var before := AfterTranches(ps, tranches[..|tranches| - 1], decimals);
      Credited(before, Payouts(before, tranches[|tranches| - 1], decimals))
  }

  lemma SameShares(ps: seq<Position>, qs: seq<Position>, funded: int)
    requires |ps| == |qs|
    requires forall i :: 0 <= i < |ps| ==> qs[i].contributed == ps[i].contributed && qs[i].shareBps == ps[i].shareBps
    requires ProRata(ps, funded)
    ensures ProRata(qs, funded)
  {
    assert Contributions(ps) == Contributions(qs);
  }

  lemma RanOneMore(ps: seq<Position>, before: seq<Position>, tranches: seq<int>, k: nat, decimals: nat)
    requires k < |tranches| && before == AfterTranches(ps, tranches[..k], decimals)
    ensures AfterTranches(ps, tranches[..k + 1], decimals) == Credited(before, Payouts(before, tranches[k], decimals))
    ensures Sum(tranches[..k + 1]) == Sum(tranches[..k]) + tranches[k]
  {
    assert tranches[..k + 1] == tranches[..k] + [tranches[k]];
    assert tranches[..k + 1][..k] == tranches[..k];
    SumSnoc(tranches[..k], tranches[k]);
  }

  function Claims(ps: seq<Position>): seq<int> { seq(|ps|, i requires 0 <= i < |ps| => ps[i].claimed) }

  lemma {:induction false} SumCredited(ps: seq<Position>, payouts: seq<int>)
    requires |ps| == |payouts|
    ensures Sum(Claims(Credited(ps, payouts))) == Sum(Claims(ps)) + Sum(payouts)
  {
    if ps != [] {
      assert Claims(Credited(ps, payouts))[1..] == Claims(Credited(ps[1..], payouts[1..]));
      assert Claims(ps)[1..] == Claims(ps[1..]);
      SumCredited(ps[1..], payouts[1..]);
    }
  }

  /** Between the rounded share of what was paid so far and one token unit less a further tranche. */
  ghost predicate NearLump(claimed: int, paid: int, further: int, bps: nat, decimals: nat) {
    var lump := WholeUnits(paid, bps, decimals);
    lump - further * Pow10(decimals) <= claimed <= lump
  }

  lemma NextTranche(claimed: int, paid: int, further: int, bps: nat, decimals: nat, tranche: int)
    requires paid >= 0 && tranche >= 0 && NearLump(claimed, paid, further, bps, decimals)
    ensures NearLump(claimed + WholeUnits(tranche, bps, decimals), paid + tranche, further + 1, bps, decimals)
  {
    WholeUnitsSplit(paid, tranche, bps, decimals);
    OneMoreUnit(further, Pow10(decimals));
  }

  lemma OneMoreUnit(n: int, unit: int)
    ensures (n + 1) * unit == n * unit + unit
  {
  }

  /** One more tranche on top of `init`, seen from the positions it finds. */
  lemma LastTranche(ps: seq<Position>, funded: int, init: seq<int>, last: int, decimals: nat)
    requires ps != [] && ProRata(ps, funded) && last > 0
    ensures var before := AfterTranches(ps, init, decimals); var after := AfterTranches(ps, init + [last], decimals);
      && Sum(Claims(after)) == Sum(Claims(before)) + last
      && forall i :: 0 < i < |ps| ==> after[i].claimed == before[i].claimed + WholeUnits(last, ps[i].shareBps, decimals)
  {
    var before := AfterTranches(ps, init, decimals);
    assert (init + [last])[..|init|] == init;
    SameShares(ps, before, funded);
    PayoutsAreExact(before, funded, last, decimals);
    SumCredited(before, Payouts(before, last, decimals));
  }

  function TrancheShares(tranches: seq<int>, bps: nat, decimals: nat): int {
    if tranches == [] then 0
    else
      var m := |tranches| - 1;
      TrancheShares(tranches[..m], bps, decimals) + WholeUnits(tranches[m], bps, decimals)
  }

  lemma {:induction false} TranchesAddUp(ps: seq<Position>, funded: int, tranches: seq<int>, decimals: nat)
    requires ps != [] && ProRata(ps, funded)
    requires forall i :: 0 <= i < |ps| ==> ps[i].claimed == 0
    requires forall j :: 0 <= j < |tranches| ==> tranches[j] > 0
    ensures var after := AfterTranches(ps, tranches, decimals);
      && Sum(Claims(after)) == Sum(tranches) >= 0
      && forall i :: 0 < i < |ps| ==> after[i].claimed == TrancheShares(tranches, ps[i].shareBps, decimals)
    decreases |tranches|
  {
    if tranches == [] {
      NoClaims(ps);
    } else {
      var m := |tranches| - 1;
      var init, last := tranches[..m], tranches[m];
      assert tranches == init + [last];
      SumSnoc(init, last);
      LastTranche(ps, funded, init, last, decimals);
      TranchesAddUp(ps, funded, init, decimals);
    }
  }

  lemma {:induction false} TrancheSharesNearLump(tranches: seq<int>, bps: nat, decimals: nat)
    requires tranches != [] && forall j :: 0 <= j < |tranches| ==> tranches[j] > 0
    ensures Sum(tranches) >= 0
    ensures NearLump(TrancheShares(tranches, bps, decimals), Sum(tranches), |tranches| - 1, bps, decimals)
    decreases |tranches|
  {
    var m := |tranches| - 1;
    var init, last := tranches[..m], tranches[m];
    assert tranches == init + [last];
    SumSnoc(init, last);
    if m > 0 {
      TrancheSharesNearLump(init, bps, decimals);
      NextTranche(TrancheShares(init, bps, decimals), Sum(init), m - 1, bps, decimals, last);
    }
  }

  /** Paying R in m tranches instead of one lump sum costs an investor other than the first at most
      one token unit for each further tranche, and never gains anything; nothing is created or lost. */
  lemma TranchesVersusLumpSum(ps: seq<Position>, funded: int, tranches: seq<int>, decimals: nat)
    requires ps != [] && ProRata(ps, funded) && tranches != []
    requires forall i :: 0 <= i < |ps| ==> ps[i].claimed == 0
    requires forall j :: 0 <= j < |tranches| ==> tranches[j] > 0
    ensures var after := AfterTranches(ps, tranches, decimals);
      && Sum(Claims(after)) == Sum(tranches) >= 0
      && forall i :: 0 < i < |ps| ==>
        NearLump(after[i].claimed, Sum(tranches), |tranches| - 1, ps[i].shareBps, decimals)
  {
    TranchesAddUp(ps, funded, tranches, decimals);
    forall i | 0 < i < |ps|
      ensures NearLump(AfterTranches(ps, tranches, decimals)[i].claimed, Sum(tranches), |tranches| - 1, ps[i].shareBps,
        decimals)
    {
      TrancheSharesNearLump(tranches, ps[i].shareBps, decimals);
    }
  }

  lemma {:induction false} NoClaims(ps: seq<Position>)
    requires forall i :: 0 <= i < |ps| ==> ps[i].claimed == 0
    ensures Sum(Claims(ps)) == 0
  {
    if ps != [] {
      assert Claims(ps)[1..] == Claims(ps[1..]);
      NoClaims(ps[1..]);
    }
  }

  /** Invariant I5 for an investor other than the first: tranches adding up to no more than the debt
      never pay such an investor more than the rounded share of the whole debt. */
  lemma TranchesNeverOverpay(ps: seq<Position>, funded: int, tranches: seq<int>, decimals: nat, owed: int, i: nat)
    requires ps != [] && ProRata(ps, funded) && tranches != []
    requires forall k :: 0 <= k < |ps| ==> ps[k].claimed == 0
    requires forall j :: 0 <= j < |tranches| ==> tranches[j] > 0
    requires Sum(tranches) <= owed && 0 < i < |ps|
    ensures AfterTranches(ps, tranches, decimals)[i].claimed <= WholeUnits(owed, ps[i].shareBps, decimals)
  {
    TranchesVersusLumpSum(ps, funded, tranches, decimals);
    WholeUnitsMonotone(Sum(tranches), owed, ps[i].shareBps, decimals);
  }

  /** Invariant I5 as the repository checks it, with a tolerance of one token unit for everyone. */
  predicate NoOverpayment(ps: seq<Position>, owed: int, decimals: nat) {
    forall i :: 0 <= i < |ps| ==> ps[i].claimed <= WholeUnits(owed, ps[i].shareBps, decimals) + Pow10(decimals)
  }

  /** What all investors but the first get out of the tranches. */
  function OthersShares(ps: seq<Position>, tranches: seq<int>, decimals: nat): int
    requires ps != []
  {
    Sum(seq(|ps| - 1, i requires 0 <= i < |ps| - 1 => TrancheShares(tranches, ps[i + 1].shareBps, decimals)))
  }

  /** The first investor gets what the tranches and the shares of the others leave. */
  lemma FirstGetsTheRest(ps: seq<Position>, funded: int, tranches: seq<int>, decimals: nat)
    requires ps != [] && ProRata(ps, funded)
    requires forall i :: 0 <= i < |ps| ==> ps[i].claimed == 0
    requires forall j :: 0 <= j < |tranches| ==> tranches[j] > 0
    ensures AfterTranches(ps, tranches, decimals)[0].claimed == Sum(tranches) - OthersShares(ps, tranches, decimals)
  {
    TranchesAddUp(ps, funded, tranches, decimals);
    var claims := Claims(AfterTranches(ps, tranches, decimals));
    assert claims[1..] ==
      seq(|ps| - 1, i requires 0 <= i < |ps| - 1 => TrancheShares(tranches, ps[i + 1].shareBps, decimals));
  }

  /** No tranche takes anything back. */
  lemma ClaimsGrow(ps: seq<Position>, funded: int, init: seq<int>, last: int, decimals: nat, i: nat)
    requires ps != [] && ProRata(ps, funded) && last > 0 && i < |ps|
    ensures AfterTranches(ps, init + [last], decimals)[i].claimed >= AfterTranches(ps, init, decimals)[i].claimed
  {
    var before := AfterTranches(ps, init, decimals);
    assert (init + [last])[..|init|] == init;
    SameShares(ps, before, funded);
    PayoutsAreExact(before, funded, last, decimals);
  }

  /** Invariant I5 at every moment of a run of tranches within the debt. */
  predicate NeverOverpays(ps: seq<Position>, tranches: seq<int>, owed: int, decimals: nat) {
    forall k :: 0 <= k <= |tranches| ==> NoOverpayment(AfterTranches(ps, tranches[..k], decimals), owed, decimals)
  }

  lemma {:induction false} EarlierIsLess(ps: seq<Position>, funded: int, tranches: seq<int>, decimals: nat, owed: int,
      k: nat)
    requires ps != [] && ProRata(ps, funded) && k <= |tranches|
    requires forall j :: 0 <= j < |tranches| ==> tranches[j] > 0
    requires NoOverpayment(AfterTranches(ps, tranches, decimals), owed, decimals)
    ensures NoOverpayment(AfterTranches(ps, tranches[..k], decimals), owed, decimals)
    decreases |tranches|
  {
    if k == |tranches| {
      assert tranches[..k] == tranches;
    } else {
      var m := |tranches| - 1;
      assert tranches == tranches[..m] + [tranches[m]];
      forall i | 0 <= i < |ps|
        ensures AfterTranches(ps, tranches[..m], decimals)[i].claimed
          <= WholeUnits(owed, ps[i].shareBps, decimals) + Pow10(decimals)
      {
        ClaimsGrow(ps, funded, tranches[..m], tranches[m], decimals, i);
      }
      EarlierIsLess(ps, funded, tranches[..m], decimals, owed, k);
      assert tranches[..m][..k] == tranches[..k];
    }
  }

  /** Tranches within the debt keep I5 throughout if and only if the others' rounded shares of the tranches leave
      at most one unit more than the first investor's rounded share of the debt. */
  lemma NeverOverpaysIff(ps: seq<Position>, funded: int, tranches: seq<int>, decimals: nat, owed: int)
    requires ps != [] && ProRata(ps, funded) && tranches != []
    requires forall i :: 0 <= i < |ps| ==> ps[i].claimed == 0
    requires forall j :: 0 <= j < |tranches| ==> tranches[j] > 0
    requires Sum(tranches) <= owed
    ensures NeverOverpays(ps, tranches, owed, decimals) <==>
      Sum(tranches) - OthersShares(ps, tranches, decimals)
        <= WholeUnits(owed, ps[0].shareBps, decimals) + Pow10(decimals)
  {
    var after := AfterTranches(ps, tranches, decimals);
    FirstGetsTheRest(ps, funded, tranches, decimals);
    forall i | 0 < i < |ps| ensures after[i].claimed <= WholeUnits(owed, ps[i].shareBps, decimals) {
      TranchesNeverOverpay(ps, funded, tranches, decimals, owed, i);
    }
    assert tranches[..|tranches|] == tranches;
    if NoOverpayment(after, owed, decimals) {
      forall k | 0 <= k <= |tranches|
          ensures NoOverpayment(AfterTranches(ps, tranches[..k], decimals), owed, decimals) {
        EarlierIsLess(ps, funded, tranches, decimals, owed, k);
      }
    } else {
      assert !NoOverpayment(AfterTranches(ps, tranches[..|tranches|], decimals), owed, decimals);
    }
  }

  lemma SumThree(a: int, b: int, c: int)
    ensures Sum([a, b, c]) == a + b + c && Sum([a, b]) == a + b && Sum([a]) == a
  {
    assert [a, b, c][1..] == [b, c] && [b, c][1..] == [c] && [a, b][1..] == [b];
    assert Sum([c]) == c && Sum([b]) == b;
  }

  /** Three equal investors repaid three whole tokens in one tranche break it. */
  lemma FirstInvestorCanExceedTolerance()
    ensures var p := Position(10_000_000, 3_333, 0);
      && ProRata([p, p, p], 30_000_000)
      && AfterTranches([p, p, p], [30_000_000], 7)[0].claimed == 30_000_000
      && WholeUnits(30_000_000, 3_333, 7) + Pow10(7) == 10_000_000
      && !NeverOverpays([p, p, p], [30_000_000], 30_000_000, 7)
  {
    var p := Position(10_000_000, 3_333, 0);
    var ps, tranches := [p, p, p], [30_000_000];
    assert Contributions(ps) == [10_000_000, 10_000_000, 10_000_000];
    SumThree(10_000_000, 10_000_000, 10_000_000);
    SumThree(0, 0, 0);
    SumThree(30_000_000, 0, 0);
    assert Pow10(7) == 10_000_000;
    assert tranches[..0] == [];
    assert TrancheShares(tranches, 3_333, 7) == 0;
    assert seq(2, i requires 0 <= i < 2 => TrancheShares(tranches, ps[i + 1].shareBps, 7)) == [0, 0];
    FirstGetsTheRest(ps, 30_000_000, tranches, 7);
    NeverOverpaysIff(ps, 30_000_000, tranches, 7, 30_000_000);
  }

  // ── The pool ─────────────────────────────────────────────────────────────────

  /** `compute_share_bps`. */
  function ComputeShareBps(contributed: int, totalFunded: int): Option<nat> {
    if totalFunded <= 0 || contributed <= 0 || contributed > totalFunded || !Fits(contributed * BPS) then None
    else
      assert contributed * BPS / totalFunded >= 0;
      Some(contributed * BPS / totalFunded)
  }

  /** The checked arithmetic of a distribution stays within `i128`. */
  predicate Distributable(ps: seq<Position>, total: int, decimals: nat) {
    && (ps == [] || ScaleFits(decimals))
    && (forall i :: 0 <= i < |ps| ==> Fits(total * ps[i].shareBps))
    && (forall i :: 0 <= i <= |ps| ==> Fits(Sum(Bases(ps, total, decimals)[..i])))
  }

  lemma SameDistributable(ps: seq<Position>, qs: seq<Position>, total: int, decimals: nat)
    requires |ps| == |qs| && forall i :: 0 <= i < |ps| ==> qs[i].shareBps == ps[i].shareBps
    ensures Distributable(qs, total, decimals) <==> Distributable(ps, total, decimals)
  {
    assert Bases(ps, total, decimals) == Bases(qs, total, decimals);
    if Distributable(ps, total, decimals) {
      assert forall i :: 0 <= i < |qs| ==> Fits(total * ps[i].shareBps);
    }
    if Distributable(qs, total, decimals) {
      assert forall i :: 0 <= i < |ps| ==> Fits(total * qs[i].shareBps);
    }
  }

  /** Each tranche is positive and can be computed, and together they stay within the debt. */
  predicate Payable(ps: seq<Position>, repaid: int, owed: int, tranches: seq<int>, decimals: nat) {
    && (forall j :: 0 <= j < |tranches| ==> tranches[j] > 0 && Distributable(ps, tranches[j], decimals))
    && repaid + Sum(tranches) <= owed
  }

  lemma {:induction false} PrefixWithin(tranches: seq<int>, k: nat)
    requires k <= |tranches| && forall j :: 0 <= j < |tranches| ==> tranches[j] > 0
    ensures Sum(tranches[..k]) <= Sum(tranches)
    decreases |tranches| - k
  {
    if k == |tranches| {
      assert tranches[..k] == tranches;
    } else {
      assert tranches[..k + 1] == tranches[..k] + [tranches[k]];
      SumSnoc(tranches[..k], tranches[k]);
      PrefixWithin(tranches, k + 1);
    }
  }

  class PoolState {
    var faceValue: int
    var totalFunded: int
    var repaidAmount: int
    var totalOwed: int
    var isClosed: bool
    var positions: seq<Position>
    var balance: int
    var frozen: bool
    const tokenDecimals: nat

    /** What was repaid while nobody had invested: the model has no one to pay it to. */
    ghost var stranded: int

    /** I1, I4 and the pool half of I5, for every reachable state. */
    ghost predicate Valid()
      reads this
    {
      && 0 <= totalFunded <= faceValue
      && totalOwed == faceValue
      && 0 <= repaidAmount && (!isClosed ==> repaidAmount <= totalOwed)
      && ProRata(positions, totalFunded)
      && |positions| <= MAX_INVESTORS
      && balance == totalFunded + stranded
      && stranded >= 0
    }

    constructor (face: int, decimals: nat)
      requires face >= 0
      ensures Valid() && positions == [] && balance == 0 && repaidAmount == 0 && !isClosed && !frozen && stranded == 0
      ensures faceValue == face && tokenDecimals == decimals
    {
      faceValue, totalFunded, repaidAmount, totalOwed := face, 0, 0, face;
      isClosed, frozen := false, false;
      positions, balance := [], 0;
      tokenDecimals := decimals;
      stranded := 0;
    }

    method SetFreeze(on: bool)
      requires Valid()
      modifies this`frozen
      ensures Valid() && frozen == on
    {
      frozen := on;
    }

    /** Every existing share is recomputed over the new total, so the shares stay pro rata. */
    method RecordPosition(contributed: int) returns (r: Result<(), ModelError>)
      requires Valid()
      modifies this`totalFunded, this`positions, this`balance
      ensures r.Ok? <==>
        && !frozen && contributed > 0 && old(totalFunded) + contributed <= faceValue
        && |old(positions)| < MAX_INVESTORS && Fits(contributed * BPS)
        && forall i :: 0 <= i < |old(positions)| ==> Fits(old(positions)[i].contributed * BPS)
      ensures r.Ok? ==>
        && Valid()
        && balance == old(balance) + contributed
        && Contributions(positions) == Contributions(old(positions)) + [contributed]
        && Claims(positions) == Claims(old(positions)) + [0]
      ensures r.Err? && r.error != ShareOverflow ==> unchanged(this)
    {
      if frozen { return Err(Frozen); }
      if contributed <= 0 { return Err(NotPositive); }
      var newTotal := totalFunded + contributed;
      if newTotal > faceValue { return Err(ExceedsFaceValue); }
      if |positions| >= MAX_INVESTORS { return Err(TooManyInvestors); }
      var share := ComputeShareBps(contributed, newTotal);
      if share.None? { return Err(ShareOverflow); }
      var i := 0;
      while i < |positions|
        invariant 0 <= i <= |positions| == |old(positions)|
        invariant forall j :: 0 <= j < |positions| ==>
          positions[j].contributed == old(positions)[j].contributed && positions[j].claimed == old(positions)[j].claimed
        invariant forall j :: 0 <= j < i ==>
          Fits(positions[j].contributed * BPS) && positions[j].shareBps == positions[j].contributed * BPS / newTotal
        invariant totalFunded == old(totalFunded) && balance == old(balance)
      {
        var recomputed := ComputeShareBps(positions[i].contributed, newTotal);
        if recomputed.None? { return Err(ShareOverflow); }
        positions := positions[i := positions[i].(shareBps := recomputed.value)];
        i := i + 1;
      }
      assert Contributions(positions) == Contributions(old(positions));
      SumSnoc(Contributions(positions), contributed);
      ghost var kept := positions;
      positions := positions + [Position(contributed, share.value, 0)];
      assert Contributions(positions) == Contributions(kept) + [contributed];
      totalFunded := newTotal;
      balance := balance + contributed;
      return Ok(());
    }

    /** The distribution loops of `distribute_partial` and `distribute_yield`. */
    method Distribute(total: int) returns (r: Result<seq<int>, ModelError>)
      requires total > 0
      ensures r.Ok? ==> r.value == Payouts(positions, total, tokenDecimals)
      ensures r.Err? ==> r.error == PayoutOverflow
      ensures r.Ok? <==> Distributable(positions, total, tokenDecimals)
    {
      var payouts: seq<int> := [];
      var distributed := 0;
      ghost var bases := Bases(positions, total, tokenDecimals);
      var i := 0;
      while i < |positions|
        invariant 0 <= i <= |positions|
        invariant payouts == bases[..i] && distributed == Sum(payouts)
        invariant i > 0 ==> ScaleFits(tokenDecimals)
        invariant forall j :: 0 <= j < i ==> Fits(total * positions[j].shareBps)
        invariant forall j :: 0 <= j <= i ==> Fits(Sum(bases[..j]))
      {
        var payout := ModelBpsOfNormalized(total, positions[i].shareBps, tokenDecimals);
        if payout.None? { return Err(PayoutOverflow); }
        SumSnoc(payouts, payout.value);
        assert bases[..i + 1] == bases[..i] + [payout.value];
        payouts := payouts + [payout.value];
        distributed := distributed + payout.value;
        if !Fits(distributed) { return Err(PayoutOverflow); }
        i := i + 1;
      }
      assert bases[..i] == bases;
      var dust := total - distributed;
      if dust > 0 && payouts != [] {
        payouts := payouts[0 := payouts[0] + dust];
      }
      return Ok(payouts);
    }

    /** The `yield_claimed` loop of `distribute_partial`. */
    method Credit(payouts: seq<int>) returns (distributed: int)
      requires |payouts| == |positions|
      modifies this`positions
      ensures positions == Credited(old(positions), payouts) && distributed == Sum(payouts)
    {
      distributed := 0;
      var i := 0;
      while i < |positions|
        invariant 0 <= i <= |positions| == |payouts| == |old(positions)|
        invariant distributed == Sum(payouts[..i])
        invariant forall j :: 0 <= j < |positions| ==>
          positions[j] == if j < i then Credited(old(positions), payouts)[j] else old(positions)[j]
      {
        assert payouts[..i + 1] == payouts[..i] + [payouts[i]];
        SumSnoc(payouts[..i], payouts[i]);
        positions := positions[i := positions[i].(claimed := positions[i].claimed + payouts[i])];
        distributed := distributed + payouts[i];
        i := i + 1;
      }
      assert payouts[..i] == payouts;
    }

    /** One tranche: it never passes the debt, it leaves at once, and the principal stays. */
    method RepayPartial(amount: int) returns (r: Result<seq<int>, ModelError>)
      requires Valid()
      modifies this
      ensures r.Ok? <==>
        && !old(frozen) && amount > 0 && !old(isClosed) && old(repaidAmount) + amount <= old(totalOwed)
        && Distributable(old(positions), amount, tokenDecimals)
      ensures r.Ok? ==>
        && Valid()
        && 0 < amount && !old(frozen) && !old(isClosed)
        && repaidAmount == old(repaidAmount) + amount <= totalOwed
        && r.value == Payouts(old(positions), amount, tokenDecimals)
        && positions == Credited(old(positions), r.value)
        && (positions != [] ==> Sum(r.value) == amount && balance == old(balance) && stranded == old(stranded))
        && (positions == [] ==> stranded == old(stranded) + amount)
        && unchanged(this`faceValue, this`totalFunded, this`totalOwed, this`isClosed, this`frozen)
      ensures r.Err? && r.error != PayoutOverflow ==> unchanged(this)
    {
      if frozen { return Err(Frozen); }
      if amount <= 0 { return Err(NotPositive); }
      if isClosed { return Err(AlreadyClosed); }
      var newRepaid := repaidAmount + amount;
      if newRepaid > totalOwed { return Err(Overpayment); }
      repaidAmount := newRepaid;
      balance := balance + amount;
      var payouts :- Distribute(amount);
      var distributed := Credit(payouts);
      SameShares(old(positions), positions, totalFunded);
      if positions != [] {
        PayoutsAreExact(old(positions), totalFunded, amount, tokenDecimals);
      } else {
        stranded := stranded + amount;
      }
      balance := balance - distributed;
      return Ok(payouts);
    }

    /** The lump sum closes the pool, so it is paid out once, in full and pro rata (I2, I3). */
    method Repay(amount: int) returns (r: Result<seq<int>, ModelError>)
      requires Valid()
      modifies this
      ensures r.Ok? <==> amount > 0 && !old(isClosed) && Distributable(old(positions), amount, tokenDecimals)
      ensures r.Ok? ==>
        && Valid()
        && 0 < amount && !old(isClosed) && isClosed && repaidAmount == amount
        && r.value == Payouts(positions, amount, tokenDecimals)
        && (positions != [] ==> Sum(r.value) == amount && balance == old(balance) && stranded == old(stranded))
        && (positions == [] ==> stranded == old(stranded) + amount)
        && unchanged(this`faceValue, this`totalFunded, this`totalOwed, this`positions, this`frozen)
      ensures old(isClosed) ==> r.Err? && unchanged(this)
      ensures r.Err? && r.error != PayoutOverflow ==> unchanged(this)
    {
      if amount <= 0 { return Err(NotPositive); }
      if isClosed { return Err(AlreadyClosed); }
      repaidAmount := amount;
      isClosed := true;
      balance := balance + amount;
      var payouts :- Distribute(amount);
      if positions != [] {
        PayoutsAreExact(positions, totalFunded, amount, tokenDecimals);
      } else {
        stranded := stranded + amount;
      }
      balance := balance - Sum(payouts);
      return Ok(payouts);
    }

    /** A whole scenario of tranches over fixed positions is the specification's `AfterTranches`. It goes through
        exactly when each tranche can be computed and all of them stay within the debt. */
    method RunTranches(tranches: seq<int>) returns (r: Result<(), ModelError>)
      requires Valid() && positions != []
      modifies this
      ensures r.Ok? <==>
        tranches == []
        || (!old(frozen) && !old(isClosed)
          && Payable(old(positions), old(repaidAmount), old(totalOwed), tranches, tokenDecimals))
      ensures r.Ok? ==>
        && Valid()
        && positions == AfterTranches(old(positions), tranches, tokenDecimals)
        && repaidAmount == old(repaidAmount) + Sum(tranches)
        && balance == old(balance)
        && forall j :: 0 <= j < |tranches| ==> tranches[j] > 0
    {
      ghost var ps, repaid, held, owed, open := positions, repaidAmount, balance, totalOwed, !frozen && !isClosed;
      var k := 0;
      r := Ok(());
      while k < |tranches| && r.Ok?
        invariant 0 <= k <= |tranches|
        invariant r.Ok? ==> Valid() && positions != [] && RanTo(ps, repaid, held, tranches, k)
        invariant r.Ok? ==> totalOwed == owed && (open <==> !frozen && !isClosed) && (k > 0 ==> open)
        invariant r.Ok? ==> forall j :: 0 <= j < k ==> Distributable(ps, tranches[j], tokenDecimals)
        invariant r.Err? ==> tranches != [] && !(open && Payable(ps, repaid, owed, tranches, tokenDecimals))
        decreases |tranches| - k
      {
        r := RunOne(ps, repaid, held, tranches, k);
        k := k + 1;
      }
      assert tranches[..|tranches|] == tranches;
      assert r.Ok? && tranches != [] ==> Payable(ps, repaid, owed, tranches, tokenDecimals);
    }

    method RunOne(ghost ps: seq<Position>, ghost repaid: int, ghost held: int, tranches: seq<int>, k: nat)
        returns (r: Result<(), ModelError>)
      requires Valid() && positions != [] && k < |tranches| && RanTo(ps, repaid, held, tranches, k)
      modifies this
      ensures r.Ok? ==>
        && Valid() && positions != [] && RanTo(ps, repaid, held, tranches, k + 1)
        && !old(frozen) && !old(isClosed) && Distributable(ps, tranches[k], tokenDecimals)
        && unchanged(this`totalOwed, this`frozen, this`isClosed)
      ensures r.Err? ==>
        old(frozen) || old(isClosed) || !Payable(ps, repaid, old(totalOwed), tranches, tokenDecimals)
    {
      ghost var before := positions;
      SameDistributable(ps, before, tranches[k], tokenDecimals);
      RanOneMore(ps, before, tranches, k, tokenDecimals);
      if forall j :: 0 <= j < |tranches| ==> tranches[j] > 0 { PrefixWithin(tranches, k + 1); }
      var paid := RepayPartial(tranches[k]);
      if paid.Err? { return Err(paid.error); }
      return Ok(());
    }

    /** The first `k` tranches were paid in one by one. */
    ghost predicate RanTo(ps: seq<Position>, repaid: int, held: int, tranches: seq<int>, k: nat)
      requires k <= |tranches|
      reads this
    {
      && positions == AfterTranches(ps, tranches[..k], tokenDecimals)
      && repaidAmount == repaid + Sum(tranches[..k])
      && balance == held
      && forall j :: 0 <= j < k ==> tranches[j] > 0
    }
  }
}
