/** What a late repayment costs, from face value and rates alone, and whom the penalty goes to. */
module PenaltyTerms {
  import opened Wrappers
  import opened Int128
  import opened Rounding
  import opened FinancingPool
  import opened PoolInvariants
  import opened PoolSteps
  import opened PayoutShares

  /** The date a repayment is measured against: the next installment's, or the invoice's. */
  function DueNow(s: State, id: nat): nat
    requires id in s.nft
  {
    if id in s.schedules && s.schedules[id].nextIndex < |s.schedules[id].installments|
    then s.schedules[id].installments[s.schedules[id].nextIndex].dueDate
    else s.nft[id].dueDate
  }

  predicate Overdue(p: Pool, due: nat, env: Env) { !p.penaltyApplied && env.penaltyBps > 0 && env.now > due }

  /** A late repayment costs the rate of the whole face value, whatever was repaid before, once; `cut` of it is the
      treasury's. */
  predicate LateTerms(p: Pool, due: nat, env: Env, penalty: int, cut: int) {
    if Overdue(p, due, env)
    then IsFloor(penalty, p.faceValue * env.penaltyBps, BPS) && IsFloor(cut, penalty * env.treasurySplitBps, BPS)
    else penalty == 0 && cut == 0
  }

  lemma PenaltyHasTerms(p: Pool, due: nat, env: Env)
    requires LatePenalty(p, due, env).Ok?
    ensures var r := LatePenalty(p, due, env).value; LateTerms(p, due, env, r.0 + r.1, r.0)
  {
    if Overdue(p, due, env) {
      var penalty := BpsOf(p.faceValue, env.penaltyBps).value;
      DivideBounds(p.faceValue * env.penaltyBps, BPS);
      DivideBounds(penalty * env.treasurySplitBps, BPS);
    }
  }

  /** The terms leave no choice. */
  lemma TermsAreUnique(p: Pool, due: nat, env: Env, penalty: int, cut: int, penalty': int, cut': int)
    requires LateTerms(p, due, env, penalty, cut) && LateTerms(p, due, env, penalty', cut')
    ensures penalty == penalty' && cut == cut'
  {
    if Overdue(p, due, env) {
      DivideUnique(p.faceValue * env.penaltyBps, BPS, penalty);
      DivideUnique(p.faceValue * env.penaltyBps, BPS, penalty');
      DivideUnique(penalty * env.treasurySplitBps, BPS, cut);
      DivideUnique(penalty * env.treasurySplitBps, BPS, cut');
    }
  }

  // ── repay ────────────────────────────────────────────────────────────────────

  /** The pool after a repayment under these terms. */
  predicate RepaidUnder(p: Pool, q: Pool, amount: int, late: bool, added: int) {
    q == p.(repaid := p.repaid + amount, totalOwed := p.totalOwed + added, penaltyApplied := p.penaltyApplied || late,
            closed := p.repaid + amount >= p.totalOwed + added)
  }

  /** The treasury's part recorded for the pool, or already sent with the last disbursement. */
  function TreasuryCut(s: State, r: State, id: nat): int {
    if |r.disbursed| > |s.disbursed| then r.disbursed[|s.disbursed|].cut else Cut(r, id)
  }

  lemma RepayingTerms(s: State, id: nat, amount: int, env: Env, m: State) returns (penalty: int, cut: int)
    requires IdSound(s, id, false) && id in s.pools && ValidEnv(env) && amount > 0
    requires Repaying(s, id, amount, env) == Ok(m)
    ensures LateTerms(s.pools[id], DueNow(s, id), env, penalty, cut) && 0 <= cut <= penalty <= s.pools[id].faceValue
    ensures id in m.pools && m.pools == s.pools[id := m.pools[id]]
    ensures RepaidUnder(s.pools[id], m.pools[id], amount, Overdue(s.pools[id], DueNow(s, id), env), penalty - cut)
    ensures Cut(m, id) == Cut(s, id) + cut
  {
    var p, due := s.pools[id], DueNow(s, id);
    assert DueDate(s, id, amount) == Ok(due);
    var parts := LatePenalty(p, due, env).value;
    PenaltyHasTerms(p, due, env);
    LatePenaltyBounds(p, due, env);
    penalty, cut := parts.0 + parts.1, parts.0;
  }

  lemma RepayingMoney(s: State, id: nat, amount: int, env: Env, m: State)
    requires id in s.pools && id in s.nft && Repaying(s, id, amount, env) == Ok(m)
    ensures Held(m, s.pools[id].token) == Held(s, s.pools[id].token) + amount && m.disbursed == s.disbursed
    ensures m.nft == s.nft && m.positions == s.positions
      && m.stats.totalRepaid == Saturate(s.stats.totalRepaid + amount)
  {
  }

  /** A repayment is credited in full; if it is late, the face value's penalty is split between treasury and debt; the
      pool closes exactly when the debt is then covered, and the treasury's part leaves with the payout. */
  lemma RepayCharges(s: State, id: nat, amount: int, env: Env, r: State) returns (penalty: int, cut: int)
    requires IdSound(s, id, false) && amount > 0 && ValidEnv(env) && RepayInternal(s, id, amount, env) == Ok(r)
    ensures id in s.pools && id in s.nft && id in r.pools && r.pools == s.pools[id := r.pools[id]]
    ensures LateTerms(s.pools[id], DueNow(s, id), env, penalty, cut) && 0 <= cut <= penalty <= s.pools[id].faceValue
    ensures RepaidUnder(s.pools[id], r.pools[id], amount, Overdue(s.pools[id], DueNow(s, id), env), penalty - cut)
    ensures TreasuryCut(s, r, id) == Cut(s, id) + cut
    ensures r.positions == s.positions && r.stats.totalRepaid == Saturate(s.stats.totalRepaid + amount)
    ensures var t := s.pools[id].token;
      if r.pools[id].closed
      then |r.disbursed| == |s.disbursed| + 1 && Held(r, t) == Held(s, t) + amount - Outflow(r.disbursed[|s.disbursed|])
      else r.disbursed == s.disbursed && Held(r, t) == Held(s, t) + amount
  {
    var m := Repaying(s, id, amount, env).value;
    penalty, cut := RepayingTerms(s, id, amount, env, m);
    RepayingMoney(s, id, amount, env, m);
    if m.pools[id].closed { ClosingRepayment(s, id, amount, env, m, r); }
  }

  lemma ClosingRepayment(s: State, id: nat, amount: int, env: Env, m: State, r: State)
    requires IdSound(s, id, false) && id in s.pools && !s.pools[id].closed && id !in s.pending && amount > 0
    requires ValidEnv(env) && Repaying(s, id, amount, env) == Ok(m) && m.pools[id].closed
    requires PayOut(m, id, m.pools[id].repaid) == Ok(r)
    ensures |r.disbursed| == |m.disbursed| + 1 && r.disbursed[|m.disbursed|].cut == Cut(m, id)
    ensures Held(r, m.pools[id].token) == Held(m, m.pools[id].token) - Outflow(r.disbursed[|m.disbursed|])
    ensures r.pools == m.pools && r.stats == m.stats && r.positions == m.positions
  {
    PayOutNeedsFunded(m, id, m.pools[id].repaid);
    RepayingSound(s, id, amount, env);
    DistributionPays(m, id, m.pools[id].repaid, Distribute(m, id, m.pools[id].repaid).value);
  }
}

/** What `net_settle` credits and charges, pool by pool. */
module NettingTerms {
  import opened Wrappers
  import opened Int128
  import opened Chain
  import opened SeqSum
  import opened Rounding
  import opened InvoiceNft
  import opened FinancingPool
  import opened PoolInvariants
  import opened PoolSafety
  import opened Netting
  import opened PoolNetting

  predicate OverdueAt(p: Pool, due: nat, now: nat) { !p.penaltyApplied && p.latePenaltyBps > 0 && now > due }

  /** Netting charges the whole penalty to the debt, at the rate stored with the pool, once. */
  predicate LateFee(p: Pool, due: nat, now: nat, penalty: int) {
    if OverdueAt(p, due, now) then IsFloor(penalty, p.faceValue * p.latePenaltyBps, BPS) else penalty == 0
  }

  lemma FeeIsUnique(p: Pool, due: nat, now: nat, penalty: int, penalty': int)
    requires LateFee(p, due, now, penalty) && LateFee(p, due, now, penalty')
    ensures penalty == penalty'
  {
    if OverdueAt(p, due, now) {
      DivideUnique(p.faceValue * p.latePenaltyBps, BPS, penalty);
      DivideUnique(p.faceValue * p.latePenaltyBps, BPS, penalty');
    }
  }

  /** The pool after `alloc` was netted into it. */
  ghost predicate NettedUnder(p: Pool, q: Pool, due: nat, now: nat, alloc: int) {
    if alloc <= 0 then q == p
    else
      exists penalty ::
        && LateFee(p, due, now, penalty)
        && q == p.(repaid := p.repaid + alloc, totalOwed := p.totalOwed + penalty,
                   penaltyApplied := p.penaltyApplied || OverdueAt(p, due, now),
                   closed := p.repaid + alloc >= p.totalOwed + penalty)
  }

  lemma NettedHasTerms(p: Pool, due: nat, now: nat, alloc: int)
    requires alloc > 0 && Netted(p, due, now, alloc).Some?
    ensures NettedUnder(p, Netted(p, due, now, alloc).value, due, now, alloc)
  {
    var q := Netted(p, due, now, alloc).value;
    if OverdueAt(p, due, now) { DivideBounds(p.faceValue * p.latePenaltyBps, BPS); }
    assert LateFee(p, due, now, q.totalOwed - p.totalOwed);
  }

  /** What each listed pool still owes. */
  function Debts(s: State, ids: seq<nat>): seq<int>
    requires AllStored(s, ids)
  {
    seq(|ids|, i requires 0 <= i < |ids| => s.pools[ids[i]].totalOwed - s.pools[ids[i]].repaid)
  }

  function GainsOf(s: State, r: State, ids: seq<nat>): seq<int>
    requires AllStored(s, ids) && r.pools.Keys == s.pools.Keys
  {
    seq(|ids|, i requires 0 <= i < |ids| => r.pools[ids[i]].repaid - s.pools[ids[i]].repaid)
  }

  lemma PreflightIsDebts(s: State, payer: Address, ids: seq<nat>, t: Token)
    requires Sound(s) && Preflight(s, payer, ids, |ids|, t).Ok? && AllStored(s, ids)
    ensures Preflight(s, payer, ids, |ids|, t).value == Debts(s, ids)
    ensures forall i :: 0 <= i < |ids| ==> Debts(s, ids)[i] > 0
  {
    forall i | 0 <= i < |ids| ensures Preflight(s, payer, ids, |ids|, t).value[i] == Debts(s, ids)[i] > 0 {
      assert NettingCheck(s, payer, ids[i], t).None?;
      SoundAt(s, ids[i]);
    }
  }

  /** Every listed pool is what its gain makes of it, and its invoice is repaid if it is closed. */
  ghost predicate EachNetted(s: State, r: State, ids: seq<nat>, gains: seq<int>, now: nat)
    requires |gains| == |ids| && AllStored(s, ids) && r.pools.Keys == s.pools.Keys
  {
    forall i :: 0 <= i < |ids| ==>
      && gains[i] >= 0 && NettedUnder(s.pools[ids[i]], r.pools[ids[i]], s.nft[ids[i]].dueDate, now, gains[i])
      && (r.pools[ids[i]].closed ==> Is(r, ids[i], Repaid))
  }

  /** The parts add up to the payment; all but the first are the rounded-down proportional ones. */
  predicate ProportionalParts(debts: seq<int>, amount: int, parts: seq<int>) {
    && |parts| == |debts| && Sum(parts) == amount && Sum(debts) > 0
    && forall i :: 0 < i < |parts| ==> IsFloor(parts[i], amount * debts[i], Sum(debts))
  }

  lemma PartsAreProportional(debts: seq<int>, amount: int)
    requires debts != [] && Sum(debts) > 0 && amount > 0 && forall i :: 0 <= i < |debts| ==> debts[i] >= 0
    ensures ProportionalParts(debts, amount, Allocations(debts, amount))
    ensures forall i :: 0 <= i < |debts| ==> Allocations(debts, amount)[i] >= 0
  {
    AllocationsAreExact(debts, amount);
    forall i | 0 < i < |debts| ensures IsFloor(Allocations(debts, amount)[i], amount * debts[i], Sum(debts)) {
      DivideBounds(amount * debts[i], Sum(debts));
    }
  }

  lemma AllocationsNetted(s: State, r: State, ids: seq<nat>, allocs: seq<int>, t: Token, now: nat)
    requires |ids| == |allocs| && AllStored(s, ids) && AllNettable(s, ids, t)
    requires Applied(s, s.(pools := r.pools), ids, allocs, |ids|, now)
    requires forall i ::
      0 <= i < |ids| ==> allocs[i] >= 0 && (ClosesAt(s, ids[i], allocs[i], now) ==> Is(r, ids[i], Repaid))
    ensures GainsOf(s, r, ids) == allocs && EachNetted(s, r, ids, allocs, now)
  {
    forall i | 0 <= i < |ids|
      ensures r.pools[ids[i]].repaid - s.pools[ids[i]].repaid == allocs[i]
      ensures NettedUnder(s.pools[ids[i]], r.pools[ids[i]], s.nft[ids[i]].dueDate, now, allocs[i])
      ensures r.pools[ids[i]].closed ==> Is(r, ids[i], Repaid)
    {
      NettedOne(s, r, ids, allocs, t, now, i);
    }
  }

  /** Each listed pool is credited its proportional part, the first one also what rounding leaves of the payment, and
      is charged its late penalty; it closes, and its invoice is repaid, exactly when that covers its debt. */
  lemma NettingCharges(s: State, payer: Address, ids: seq<nat>, t: Token, amount: int, env: Env, r: State)
    requires Sound(s) && NoDuplicates(ids) && NetSettle(s, payer, ids, t, amount, env) == Ok(r)
    ensures AllStored(s, ids) && r.pools.Keys == s.pools.Keys
    ensures ProportionalParts(Debts(s, ids), amount, GainsOf(s, r, ids))
    ensures EachNetted(s, r, ids, GainsOf(s, r, ids), env.now)
  {
    NetSettleEffect(s, payer, ids, t, amount, env);
    PreflightIsDebts(s, payer, ids, t);
    PartsAreProportional(Debts(s, ids), amount);
    AllocationsNetted(s, r, ids, Allocations(Debts(s, ids), amount), t, env.now);
  }

  lemma NettedOne(s: State, r: State, ids: seq<nat>, allocs: seq<int>, t: Token, now: nat, i: nat)
    requires i < |ids| == |allocs| && AllStored(s, ids) && AllNettable(s, ids, t) && allocs[i] >= 0
    requires Applied(s, s.(pools := r.pools), ids, allocs, |ids|, now)
    requires ClosesAt(s, ids[i], allocs[i], now) ==> Is(r, ids[i], Repaid)
    ensures ids[i] in r.pools && r.pools[ids[i]].repaid - s.pools[ids[i]].repaid == allocs[i]
    ensures NettedUnder(s.pools[ids[i]], r.pools[ids[i]], s.nft[ids[i]].dueDate, now, allocs[i])
    ensures r.pools[ids[i]].closed ==> Is(r, ids[i], Repaid)
  {
    assert NettedAt(s, ids[i], allocs[i], now) == Some(r.pools[ids[i]]);
    assert Nettable(s, ids[i], t);
    if allocs[i] > 0 { NettedHasTerms(s.pools[ids[i]], s.nft[ids[i]].dueDate, now, allocs[i]); }
  }

  /** Paying the recorded debts of all listed pools credits each exactly its debt; a pool then closes if and only if no
      late penalty was added to it, and is otherwise left open owing just that penalty. */
  lemma WholeDebtClosesIff(s: State, payer: Address, ids: seq<nat>, t: Token, amount: int, env: Env, r: State,
      i: nat, penalty: int)
    requires Sound(s) && NoDuplicates(ids) && NetSettle(s, payer, ids, t, amount, env) == Ok(r)
    requires AllStored(s, ids) && amount == Sum(Debts(s, ids)) && i < |ids|
    requires LateFee(s.pools[ids[i]], s.nft[ids[i]].dueDate, env.now, penalty)
    ensures ids[i] in r.pools && r.pools[ids[i]].totalOwed - r.pools[ids[i]].repaid == penalty
    ensures r.pools[ids[i]].repaid == s.pools[ids[i]].totalOwed
    ensures r.pools[ids[i]].closed <==> penalty <= 0
    ensures penalty <= 0 ==> Is(r, ids[i], Repaid)
  {
    NettingCharges(s, payer, ids, t, amount, env, r);
    NetSettleEffect(s, payer, ids, t, amount, env);
    PreflightIsDebts(s, payer, ids, t);
    AllocationsWithinDebt(Debts(s, ids), amount);
    var p, q := s.pools[ids[i]], r.pools[ids[i]];
    NettedOne(s, r, ids, Debts(s, ids), t, env.now, i);
    var fee :| LateFee(p, s.nft[ids[i]].dueDate, env.now, fee) && q.totalOwed == p.totalOwed + fee
      && q.closed == (q.repaid >= p.totalOwed + fee);
    FeeIsUnique(p, s.nft[ids[i]].dueDate, env.now, penalty, fee);
  }
}
