/** A disputed amount can always be moved on: back to its payer after the deadline, and to the pool before
    it whenever the invoice is not frozen. */
module EscrowLiveness {
  import opened Int128
  import opened Chain
  import opened MapSum
  import opened Rounding
  import opened InvoiceNft
  import opened FinancingPool
  import opened PoolInvariants
  import opened PoolSteps
  import opened PoolSafety
  import opened DisputeEscrow
  import opened EscrowSafety

  // ── The escrow can pay ───────────────────────────────────────────────────────

  lemma VaultSuffices(w: World, id: nat)
    requires EscrowSound(w) && Open(w, id)
    ensures Vault(w, w.disputes[id].token) >= w.disputes[id].amount
  {
    var t := w.disputes[id].token;
    forall j | j in Unresolved(w, t) ensures Unresolved(w, t)[j] >= 0 { assert Reserved(w, j); }
    TotalNonNegative(Unresolved(w, t));
    assert Covers(w, t);
    assert id in Unresolved(w, t);
  }

  /** After the deadline anyone can send an unresolved amount back, whatever the pool has been through. */
  lemma RefundAlwaysPossible(w: World, id: nat, env: Env)
    requires WorldSound(w) && Open(w, id) && env.now >= Deadline(w.disputes[id])
    ensures var r := ResolveTimeout(w, id, env);
      r.Ok? && r.value == Releasing(w, id, false).(pool := w.pool.(pending := w.pool.pending - {id}))
  {
    VaultSuffices(w, id);
    assert Reserved(w, id);
  }

  // ── The pool can accept ──────────────────────────────────────────────────────

  lemma SmallShareDefined(total: int, p: Position, t: Token)
    requires 0 <= total < REPAYMENT_APPROVAL_THRESHOLD && p.shareBps <= BPS && t.decimals == 7
    ensures PayoutOf(total, p, t).Some?
  {
    MultiplyMonotone(p.shareBps, BPS, total);
    MultiplyMonotone(0, total, p.shareBps);
    assert 0 <= total * p.shareBps <= total * BPS;
  }

  lemma SmallPayoutsDefined(ps: map<Address, Position>, total: int, t: Token)
    requires 0 <= total < REPAYMENT_APPROVAL_THRESHOLD && ShareSum(ps) <= BPS && t.decimals == 7
    ensures PayoutsDefined(ps, total, t)
  {
    TotalNonNegative(Shares(ps));
    forall a | a in ps ensures PayoutOf(total, ps[a], t).Some? {
      assert Shares(ps)[a] <= BPS;
      SmallShareDefined(total, ps[a], t);
    }
  }

  lemma ClosingPayoutSucceeds(m: State, id: nat)
    requires id in m.pools && IdSound(m, id, true) && Cut(m, id) <= m.pools[id].repaid < REPAYMENT_APPROVAL_THRESHOLD
    requires m.pools[id].token.decimals == 7 && Held(m, m.pools[id].token) >= m.pools[id].repaid
    ensures PayOut(m, id, m.pools[id].repaid).Ok?
  {
    var p, ps, investorTotal := m.pools[id], PositionsOf(m, id), m.pools[id].repaid - Cut(m, id);
    SmallPayoutsDefined(ps, investorTotal, p.token);
    PayoutsBounded(ps, investorTotal, p.token);
    assert Saturate(p.repaid - Cut(m, id)) == investorTotal;
  }

  /** A solvent pool holds at least what any one funded invoice was repaid. */
  lemma HoldsItsShare(m: State, id: nat, t: Token)
    requires Is(m, id, Funded) && m.pools[id].token == t && Slack(m, t) >= 0
    requires forall j :: j in m.pools ==> m.pools[j].repaid >= 0
    requires forall j :: j in m.offers ==> m.offers[j].amount >= 0
    ensures Held(m, t) >= m.pools[id].repaid
  {
    TotalNonNegative(Liabilities(m, t));
    TotalNonNegative(Buyouts(m, t));
    assert id in Liabilities(m, t);
  }

  lemma NothingNegative(s: State, id: nat)
    requires Sound(s)
    ensures (id in s.pools ==> s.pools[id].repaid >= 0) && (id in s.offers ==> s.offers[id].amount >= 0)
  {
    SoundAt(s, id);
  }

  lemma SettlingHolds(s: State, id: nat, amount: int)
    requires Sound(s) && Solvent(s) && id in s.pools && id in s.pending && amount == s.pending[id]
    ensures var m := Settling(s, id, amount); Held(m, m.pools[id].token) >= m.pools[id].repaid
  {
    SoundAt(s, id);
    var m := Settling(s, id, amount);
    var t := s.pools[id].token;
    SettlingCredit(s, id, amount);
    assert Elsewhere(s, m, id);
    CreditSlack(s, m, id, t);
    assert Slack(s, t) >= 0;
    forall j | j in m.pools ensures m.pools[j].repaid >= 0 { NothingNegative(s, j); }
    forall j | j in m.offers ensures m.offers[j].amount >= 0 { NothingNegative(s, j); }
    HoldsItsShare(m, id, t);
  }

  lemma SettlingPays(s: State, id: nat, amount: int)
    requires Sound(s) && Solvent(s) && id in s.pools && id in s.pending && amount == s.pending[id]
    requires Settling(s, id, amount).pools[id].closed
    ensures var m := Settling(s, id, amount); PayOut(m, id, m.pools[id].repaid).Ok?
  {
    SoundAt(s, id);
    assert Reservable(s, id, s.pools[id]);
    SettlingCredit(s, id, amount);
    SettlingHolds(s, id, amount);
    ClosingPayoutSucceeds(Settling(s, id, amount), id);
  }

  lemma SettleToPoolIff(s: State, id: nat, amount: int)
    requires Sound(s) && Solvent(s) && id in s.pools && id in s.nft && id in s.pending && amount == s.pending[id]
    ensures SettleToPool(Receive(s, s.pools[id].token, amount), id, amount).Ok?
      <==> !s.nft[id].frozen && Fits(s.stats.totalRepaid + amount)
  {
    SoundAt(s, id);
    assert Reservable(s, id, s.pools[id]);
    var m := Settling(s, id, amount);
    if m.pools[id].closed { SettlingPays(s, id, amount); }
  }

  /** Deciding a dispute for the pool before the deadline succeeds if and only if the invoice is not frozen
      and the protocol's repayment counter does not overflow. In particular the payout of a repayment that
      covers the whole debt can never fail for lack of funds. */
  lemma PayPoolSucceedsIff(w: World, id: nat, env: Env)
    requires WorldSound(w) && Open(w, id) && id in w.pool.nft && env.now < Deadline(w.disputes[id])
    ensures ResolveDispute(w, true, id, true, env).Ok?
      <==> !w.pool.nft[id].frozen && Fits(w.pool.stats.totalRepaid + w.disputes[id].amount)
  {
    VaultSuffices(w, id);
    assert Reserved(w, id);
    SettleToPoolIff(w.pool, id, w.disputes[id].amount);
  }
}
