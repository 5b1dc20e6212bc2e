/** A dispute ends as it was decided: the admin's verdict before the deadline, a refund after it. */
module EscrowVerdicts {
  import opened Wrappers
  import opened Chain
  import opened InvoiceNft
  import opened FinancingPool
  import opened PoolInvariants
  import opened PoolSteps
  import opened DisputeEscrow
  import opened EscrowSafety
  import opened EscrowLiveness

  /** Within seven days of the opening, and before the end of time. */
  predicate InTime(d: Dispute, now: nat) { now < d.openedAt + 604_800 && now < U64_MAX }

  lemma InTimeIs(d: Dispute, now: nat)
    ensures InTime(d, now) <==> now < Deadline(d)
  {
  }

  // ── One verdict ──────────────────────────────────────────────────────────────

  /** The disputed amount left the escrow for one side. The pool is credited exactly that amount, or only loses its
      reservation. */
  ghost predicate Decided(w: World, r: World, id: nat, toPool: bool) {
    && id in w.disputes && id in w.pool.pools && id in r.pool.pools
    && var d, p, q := w.disputes[id], w.pool.pools[id], r.pool.pools[id];
    && r.released == w.released + [Release(id, d.token, d.amount, toPool)]
    && r.disputes == w.disputes[id := d.(resolved := true, paidToPool := toPool)]
    && r.vault == w.vault[d.token := Vault(w, d.token) - d.amount] && d.amount > 0
    && if toPool then
         && r.pool.pools == w.pool.pools[id := q] && q.repaid == p.repaid + d.amount && q.totalOwed == p.totalOwed
         && (q.closed <==> q.repaid == q.totalOwed) && r.pool.pending == w.pool.pending - {id}
         && r.pool.credited == w.pool.credited + {id}
         && (q.closed ==> Is(r.pool, id, Repaid))
       else r.pool == w.pool.(pending := w.pool.pending - {id})
  }

  lemma CreditedByHook(s: State, id: nat, amount: int, r: State)
    requires id in s.pools && SettleEscrow(Receive(s, s.pools[id].token, amount), id, amount, true) == Ok(r)
    ensures id in r.pools && r.pools == s.pools[id := r.pools[id]] && r.pools[id].repaid == s.pools[id].repaid + amount
    ensures r.pools[id].totalOwed == s.pools[id].totalOwed
    ensures r.pools[id].closed <==> r.pools[id].repaid == r.pools[id].totalOwed
    ensures r.pending == s.pending - {id} && r.credited == s.credited + {id}
    ensures r.pools[id].closed ==> Is(r, id, Repaid)
  {
    SettleShape(s, id, amount);
    var m := Settling(s, id, amount);
    if m.pools[id].closed { PaysAndRepays(m, id, PayOut(m, id, m.pools[id].repaid).value); }
  }

  lemma PaysAndRepays(m: State, id: nat, paid: State)
    requires id in m.pools && PayOut(m, id, m.pools[id].repaid) == Ok(paid)
    ensures paid.pools == m.pools && paid.pending == m.pending && paid.credited == m.credited && Is(paid, id, Repaid)
  {
  }

  lemma SettledAsDecided(w: World, id: nat, toPool: bool, r: World)
    requires WorldSound(w) && Open(w, id) && Settle(w, id, toPool) == Ok(r)
    ensures Decided(w, r, id, toPool)
  {
    assert Reserved(w, id);
    if toPool { CreditedByHook(w.pool, id, w.disputes[id].amount, r.pool); }
  }

  /** Only the admin decides, before the deadline, and the decision is what happens. */
  lemma VerdictCarriedOut(w: World, byAdmin: bool, id: nat, payPool: bool, env: Env, r: World)
    requires WorldSound(w) && ResolveDispute(w, byAdmin, id, payPool, env) == Ok(r)
    ensures byAdmin && Open(w, id) && InTime(w.disputes[id], env.now) && Decided(w, r, id, payPool)
  {
    InTimeIs(w.disputes[id], env.now);
    SettledAsDecided(w, id, payPool, r);
  }

  /** Anybody ends a dispute after its deadline, always in the payer's favour. */
  lemma TimeoutRefunds(w: World, id: nat, env: Env, r: World)
    requires WorldSound(w) && ResolveTimeout(w, id, env) == Ok(r)
    ensures Open(w, id) && !InTime(w.disputes[id], env.now) && Decided(w, r, id, false)
  {
    InTimeIs(w.disputes[id], env.now);
    SettledAsDecided(w, id, false, r);
  }

  // ── When a verdict succeeds ──────────────────────────────────────────────────

  lemma RefundSettles(w: World, id: nat)
    requires WorldSound(w) && Open(w, id)
    ensures Settle(w, id, false).Ok?
  {
    VaultSuffices(w, id);
    assert Reserved(w, id);
  }

  /** Every unresolved dispute can be ended at every moment, by exactly one of the two: before the deadline the admin
      can refund it, afterwards anybody can. */
  lemma RefundSucceedsIff(w: World, byAdmin: bool, id: nat, env: Env)
    requires WorldSound(w)
    ensures ResolveDispute(w, byAdmin, id, false, env).Ok?
      <==> byAdmin && Open(w, id) && InTime(w.disputes[id], env.now)
    ensures ResolveTimeout(w, id, env).Ok? <==> Open(w, id) && !InTime(w.disputes[id], env.now)
  {
    if id in w.disputes { InTimeIs(w.disputes[id], env.now); }
    if Open(w, id) { RefundSettles(w, id); }
  }

  // ── Opening ──────────────────────────────────────────────────────────────────

  /** A dispute is opened by the SME or an investor, about no more than the SME still owes, with the SME's deposit. */
  lemma OpenedWithDeposit(w: World, challenger: Address, payer: Address, id: nat, amount: int, env: Env, r: World)
    requires OpenDispute(w, challenger, payer, id, amount, env) == Ok(r)
    ensures id !in w.disputes && id in w.pool.pools && id in w.pool.nft && !env.paused
    ensures var p, sme := w.pool.pools[id], w.pool.nft[id].sme;
      && payer == sme
      && (challenger == sme
          || (challenger in PositionsOf(w.pool, id) && PositionsOf(w.pool, id)[challenger].contributed > 0))
      && 0 < amount <= p.totalOwed - p.repaid && !p.closed && w.pool.nft[id].status == Funded
      && r.disputes == w.disputes[id := Dispute(challenger, payer, p.token, amount, env.now, false, false)]
      && r.vault == w.vault[p.token := Vault(w, p.token) + amount] && r.released == w.released
      && r.pool == w.pool.(pending := w.pool.pending[id := amount])
  {
    OpenShape(w, challenger, payer, id, amount, env);
  }

  // ── Whole runs ───────────────────────────────────────────────────────────────

  /** The move opened the dispute with just these terms. */
  predicate OpensIt(m: Move, env: Env, id: nat, d: Dispute) {
    m.OpenMove? && m.id == id && m.challenger == d.challenger && m.payer == d.payer && m.amount == d.amount
    && env.now == d.openedAt
  }

  /** The move decided for the side the release went to. */
  predicate Decides(m: Move, rel: Release) {
    || (m.ResolveMove? && m.byAdmin && m.id == rel.invoice && m.payPool == rel.toPool)
    || (m.TimeoutMove? && m.id == rel.invoice && !rel.toPool)
  }

  lemma MoveChangesDispute(w: World, m: Move, env: Env, id: nat)
    requires id in Make(w, m, env).disputes
    ensures var d := Make(w, m, env).disputes[id];
      if id in w.disputes
      then d.(resolved := w.disputes[id].resolved, paidToPool := w.disputes[id].paidToPool) == w.disputes[id]
      else OpensIt(m, env, id, d)
  {
  }

  lemma {:induction false} WasOpened(moves: seq<(Move, Env)>, id: nat) returns (m: nat)
    requires id in Play(NEW_WORLD, moves).disputes
    ensures m < |moves| && OpensIt(moves[m].0, moves[m].1, id, Play(NEW_WORLD, moves).disputes[id])
    decreases |moves|
  {
    m := |moves| - 1;
    var w := Play(NEW_WORLD, moves[..m]);
    MoveChangesDispute(w, moves[m].0, moves[m].1, id);
    if id in w.disputes { m := WasOpened(moves[..m], id); }
  }

  lemma MoveReleases(w: World, m: Move, env: Env)
    ensures var r := Make(w, m, env);
      || r.released == w.released
      || (exists rel: Release :: r.released == w.released + [rel] && Decides(m, rel) && rel.invoice in w.disputes
            && rel.amount == w.disputes[rel.invoice].amount && rel.token == w.disputes[rel.invoice].token)
  {
    if Try(w, m, env).Ok? && (m.ResolveMove? || m.TimeoutMove?) {
      var d := w.disputes[m.id];
      var rel := Release(m.id, d.token, d.amount, if m.ResolveMove? then m.payPool else false);
      assert Make(w, m, env).released == w.released + [rel];
    }
  }

  /** Whatever left the escrow in a run was put into it by an earlier move of the run, in the same amount, and went to
      the side a later move decided for. */
  lemma {:induction false} ReleaseFollowsVerdict(moves: seq<(Move, Env)>, k: nat) returns (m: nat, n: nat)
    requires k < |Play(NEW_WORLD, moves).released|
    ensures m < n < |moves|
    ensures var rel := Play(NEW_WORLD, moves).released[k];
      && Decides(moves[n].0, rel)
      && moves[m].0.OpenMove? && moves[m].0.id == rel.invoice && moves[m].0.amount == rel.amount
    decreases |moves|
  {
    n := |moves| - 1;
    var w, r := Play(NEW_WORLD, moves[..n]), Play(NEW_WORLD, moves);
    MoveReleases(w, moves[n].0, moves[n].1);
    if k < |w.released| {
      m, n := ReleaseFollowsVerdict(moves[..n], k);
    } else {
      m := WasOpened(moves[..n], r.released[k].invoice);
    }
  }
}
