/** What every reachable state of the financing pool satisfies, call by call: the books of each
    invoice, custody of the token balances, the disbursement log and the protocol statistics. */
module PoolInvariants {
  import opened Wrappers
  import opened Int128
  import opened Chain
  import opened MapSum
  import opened Rounding
  import opened InvoiceNft
  import opened FinancingPool

  predicate ValidEnv(env: Env) { env.penaltyBps <= BPS && env.treasurySplitBps <= BPS }

  // ── One invoice ──────────────────────────────────────────────────────────────

  ghost function Shares(ps: map<Address, Position>): map<Address, int> { map a | a in ps :: ps[a].shareBps }
  ghost function ShareSum(ps: map<Address, Position>): int { Total(Shares(ps)) }

  /** Face value <= debt <= twice the face value; an open pool still owes something. */
  predicate PoolSound(p: Pool) {
    && 0 < p.faceValue <= MAX_AMOUNT && p.totalFunded == 0 && p.latePenaltyBps <= BPS
    && p.faceValue <= p.totalOwed <= 2 * p.faceValue
    && (!p.penaltyApplied ==> p.totalOwed == p.faceValue)
    && 0 <= p.repaid <= MAX
    && (!p.closed ==> p.repaid < p.totalOwed)
  }

  predicate Reservable(s: State, id: nat, p: Pool)
    requires id in s.nft && id in s.pending
  {
    && s.nft[id].status == Funded && !p.closed && p.token.decimals == 7
    && 0 < s.pending[id] <= p.totalOwed - p.repaid
    && p.repaid == 0 && p.totalOwed < REPAYMENT_APPROVAL_THRESHOLD
  }

  /** `closing` marks a pool that a call has closed but not yet paid out. */
  ghost predicate IdSound(s: State, id: nat, closing: bool) {
    && ShareSum(PositionsOf(s, id)) <= BPS
    && if id !in s.pools then
         !closing && id !in s.cuts && id !in s.offers && id !in s.pending
         && (id in s.nft ==> s.nft[id].status == Created || s.nft[id].status == Listed)
       else
         var p := s.pools[id];
         && id in s.nft && PoolSound(p)
         && 0 <= Cut(s, id) <= p.faceValue && (Cut(s, id) > 0 ==> p.penaltyApplied)
         && (s.nft[id].status == Funded || s.nft[id].status == Repaid || s.nft[id].status == Defaulted)
         && (s.nft[id].status == Funded ==> p.closed == closing)
         && (s.nft[id].status == Repaid ==> p.closed)
         && (closing ==> s.nft[id].status == Funded)
         && (id in s.offers ==> 0 < s.offers[id].amount <= MAX_AMOUNT)
         && (id in s.pending && !closing ==> Reservable(s, id, p))
  }

  function Get<V>(m: map<nat, V>, id: nat): Option<V> { if id in m then Some(m[id]) else None }

  /** Both states store the same for invoice `j`. */
  ghost predicate SameAt(s: State, s': State, j: nat) {
    && Get(s'.pools, j) == Get(s.pools, j) && Get(s'.nft, j) == Get(s.nft, j)
    && Get(s'.offers, j) == Get(s.offers, j) && Get(s'.cuts, j) == Get(s.cuts, j)
    && Get(s'.pending, j) == Get(s.pending, j) && Get(s'.positions, j) == Get(s.positions, j)
    && Get(s'.schedules, j) == Get(s.schedules, j) && (j in s'.credited <==> j in s.credited)
  }

  /** The two states differ at most in what they store for `id`. */
  ghost predicate Elsewhere(s: State, s': State, id: nat) {
    forall j: nat {:trigger SameAt(s, s', j)} :: j != id ==> SameAt(s, s', j)
  }

  lemma SameAtSound(s: State, s': State, j: nat, closing: bool)
    requires SameAt(s, s', j) && IdSound(s, j, closing)
    ensures IdSound(s', j, closing)
  {
  }

  // ── Custody ──────────────────────────────────────────────────────────────────

  /** What was repaid into each funded pool of the token and not yet paid out. */
  ghost function Liabilities(s: State, t: Token): map<nat, int> {
    map id | id in s.pools && id in s.nft && s.nft[id].status == Funded && s.pools[id].token == t :: s.pools[id].repaid
  }

  /** Buyout amounts held for offers that are neither accepted nor cancelled. */
  ghost function Buyouts(s: State, t: Token): map<nat, int> {
    map id | id in s.offers && id in s.pools && s.pools[id].token == t :: s.offers[id].amount
  }

  ghost function Entry(m: map<nat, int>, id: nat): int { if id in m then m[id] else 0 }

  /** Token balance beyond everything the contract holds for somebody. */
  ghost function Slack(s: State, t: Token): int { Held(s, t) - Total(Liabilities(s, t)) - Total(Buyouts(s, t)) }

  lemma EntryChange(m: map<nat, int>, m': map<nat, int>, id: nat)
    requires forall j: nat :: j != id ==> (j in m <==> j in m') && (j in m ==> m'[j] == m[j])
    ensures Total(m') == Total(m) - Entry(m, id) + Entry(m', id)
  {
    assert m - {id} == m' - {id};
    if id in m { TotalRemove(m, id); } else { assert m - {id} == m; }
    if id in m' { TotalRemove(m', id); } else { assert m' - {id} == m'; }
  }

  lemma LiabilitiesChange(s: State, s': State, id: nat, t: Token)
    requires Elsewhere(s, s', id)
    ensures Total(Liabilities(s', t)) ==
      Total(Liabilities(s, t)) - Entry(Liabilities(s, t), id) + Entry(Liabilities(s', t), id)
  {
    var m, m' := Liabilities(s, t), Liabilities(s', t);
    forall j: nat | j != id ensures (j in m <==> j in m') && (j in m ==> m'[j] == m[j]) {
      assert SameAt(s, s', j);
    }
    EntryChange(m, m', id);
  }

  lemma BuyoutsChange(s: State, s': State, id: nat, t: Token)
    requires Elsewhere(s, s', id)
    ensures Total(Buyouts(s', t)) == Total(Buyouts(s, t)) - Entry(Buyouts(s, t), id) + Entry(Buyouts(s', t), id)
  {
    var m, m' := Buyouts(s, t), Buyouts(s', t);
    forall j: nat | j != id ensures (j in m <==> j in m') && (j in m ==> m'[j] == m[j]) {
      assert SameAt(s, s', j);
    }
    EntryChange(m, m', id);
  }

  /** What an invoice contributes to the slack: its part of the liabilities and of the buyouts. */
  ghost function Owed(s: State, id: nat, t: Token): int {
    if id in s.pools && s.pools[id].token == t then
      (if id in s.nft && s.nft[id].status == Funded then s.pools[id].repaid else 0)
      + (if id in s.offers then s.offers[id].amount else 0)
    else 0
  }

  lemma OwedIsEntries(s: State, id: nat, t: Token)
    ensures Owed(s, id, t) == Entry(Liabilities(s, t), id) + Entry(Buyouts(s, t), id)
  {
  }

  lemma SlackChange(s: State, s': State, id: nat, t: Token)
    requires Elsewhere(s, s', id)
    ensures Slack(s', t) == Slack(s, t) + Held(s', t) - Held(s, t) + Owed(s, id, t) - Owed(s', id, t)
  {
    LiabilitiesChange(s, s', id, t);
    BuyoutsChange(s, s', id, t);
    OwedIsEntries(s, id, t);
    OwedIsEntries(s', id, t);
  }

  // ── One call on one invoice ──────────────────────────────────────────────────

  ghost predicate Terminal(s: State, id: nat) {
    id in s.nft && (s.nft[id].status == Repaid || s.nft[id].status == Defaulted)
  }

  ghost predicate Is(s: State, id: nat, status: Status) { id in s.pools && id in s.nft && s.nft[id].status == status }

  /** Everything one disbursement sent out. */
  ghost function Outflow(d: Disbursement): int { d.cut + Total(d.payouts) }

  /** A disbursement for `id` of at most `total` was appended to the log. */
  ghost predicate Logged(s: State, s': State, id: nat, total: int) {
    exists d :: s'.disbursed == s.disbursed + [d] && d.invoice == id && 0 <= Outflow(d) <= total
  }

  /** A call disburses for `id` at most once, only while it takes the invoice out of `Funded`, and no more
      than was repaid. */
  ghost predicate LogMoves(s: State, s': State, id: nat) {
    || s'.disbursed == s.disbursed
    || (Is(s, id, Funded) && Terminal(s', id) && id in s'.pools && Logged(s, s', id, s'.pools[id].repaid))
  }

  /** The statistics follow the invoice's status. */
  ghost predicate StatsMove(s: State, s': State, id: nat) {
    var a, b := s.stats, s'.stats;
    || (&& (id in s'.pools <==> id in s.pools) && (forall st :: Is(s', id, st) <==> Is(s, id, st))
        && b.(totalRepaid := a.totalRepaid) == a)
    || (&& id !in s.pools && Is(s', id, Funded)
        && b.poolsOpened == Saturating32(a.poolsOpened + 1) && b.activePools == Saturating32(a.activePools + 1)
        && b.poolsDefaulted == a.poolsDefaulted)
    || (&& Is(s, id, Funded) && Is(s', id, Repaid)
        && b.poolsOpened == a.poolsOpened && b.activePools == Minus1(a.activePools)
          && b.poolsDefaulted == a.poolsDefaulted)
    || (&& Is(s, id, Funded) && Is(s', id, Defaulted)
        && b.poolsOpened == a.poolsOpened && b.activePools == Minus1(a.activePools)
        && b.poolsDefaulted == Saturating32(a.poolsDefaulted + 1))
  }

  /** A terminal status is final, and what was repaid by then is never taken back. */
  ghost predicate StatusMoves(s: State, s': State, id: nat) {
    && (Terminal(s, id) ==> id in s'.nft && s'.nft[id].status == s.nft[id].status)
    && (Terminal(s, id) && id in s.pools ==> id in s'.pools && s'.pools[id].repaid >= s.pools[id].repaid)
  }

  /** The invoice's own books after the call, and the log and statistics. */
  ghost predicate Local(s: State, s': State, id: nat) {
    IdSound(s', id, false) && LogMoves(s, s', id) && StatsMove(s, s', id) && StatusMoves(s, s', id)
  }

  ghost predicate GoodStep(s: State, s': State, id: nat) {
    Elsewhere(s, s', id) && Local(s, s', id) && forall t :: Slack(s', t) >= Slack(s, t)
  }

  /** The balance moved by no less than what is owed for the invoice. */
  ghost predicate Covered(s: State, s': State, id: nat, t: Token) {
    Held(s', t) - Owed(s', id, t) >= Held(s, t) - Owed(s, id, t)
  }

  lemma CoveredGood(s: State, s': State, id: nat)
    requires Elsewhere(s, s', id) && Local(s, s', id)
    requires forall t {:trigger Covered(s, s', id, t)} :: Covered(s, s', id, t)
    ensures GoodStep(s, s', id)
  {
    forall t ensures Slack(s', t) >= Slack(s, t) {
      SlackChange(s, s', id, t);
      assert Covered(s, s', id, t);
    }
  }

  // ── Distribution ─────────────────────────────────────────────────────────────

  /** Payouts that are each at most the exact share add up to at most the amount shared out. */
  lemma SharesBounded(payouts: map<Address, int>, shares: map<Address, int>, total: int)
    requires payouts.Keys == shares.Keys && total >= 0 && Total(shares) <= BPS
    requires forall a :: a in shares ==> 0 <= payouts[a] && BPS * payouts[a] <= total * shares[a]
    ensures 0 <= Total(payouts) <= total
  {
    TotalNonNegative(payouts);
    assert BPS * Total(payouts) <= total * Total(shares) by {
      TotalScaled(payouts, BPS);
      TotalScaled(shares, total);
      TotalMonotone(Scaled(payouts, BPS), Scaled(shares, total));
    }
    ShareOfWhole(Total(payouts), Total(shares), total);
  }

  lemma ShareOfWhole(paid: int, bps: int, total: int)
    requires total >= 0 && bps <= BPS && BPS * paid <= total * bps
    ensures paid <= total
  {
    MultiplyMonotone(bps, BPS, total);
  }

  lemma PayoutBounded(p: Position, total: int, t: Token)
    ensures var r := PayoutOf(total, p, t); r.Some? ==> 0 <= r.value && BPS * r.value <= total * p.shareBps
  {
    ContractShareIsAtMostExact(total, p.shareBps, t.decimals);
  }

  lemma PayoutsBounded(ps: map<Address, Position>, total: int, t: Token)
    requires total >= 0 && PayoutsDefined(ps, total, t) && ShareSum(ps) <= BPS
    ensures 0 <= Total(Payouts(ps, total, t)) <= total
    ensures forall a :: a in ps ==> 0 <= Payouts(ps, total, t)[a]
  {
    forall a | a in ps
      ensures 0 <= Payouts(ps, total, t)[a] && BPS * Payouts(ps, total, t)[a] <= total * Shares(ps)[a]
    {
      PayoutBounded(ps[a], total, t);
    }
    SharesBounded(Payouts(ps, total, t), Shares(ps), total);
  }

  /** A negative amount to share out is refused, unless there is nobody to share it with. */
  lemma NegativeRefused(ps: map<Address, Position>, total: int, t: Token)
    requires ps != map[] && PayoutsDefined(ps, total, t)
    ensures total >= 0
  {
    var a :| a in ps;
    assert PayoutOf(total, ps[a], t).Some?;
  }

  /** A distribution that succeeds sends out no more than the amount distributed. A recorded cut above
      that amount makes it fail, unless there is no investor to fail for. */
  lemma DistributeEffect(s: State, id: nat, total: int)
    requires id in s.pools && 0 <= total <= MAX
    requires ShareSum(PositionsOf(s, id)) <= BPS && 0 <= Cut(s, id) <= MAX_AMOUNT
    requires PositionsOf(s, id) != map[] || Cut(s, id) <= total
    ensures var r := Distribute(s, id, total); var t := s.pools[id].token;
      r.Ok? ==>
        && Cut(s, id) <= total
        && r.value == s.(cuts := s.cuts - {id}, held := s.held[t := Held(r.value, t)], disbursed := r.value.disbursed)
        && Held(s, t) - total <= Held(r.value, t) <= Held(s, t)
        && Logged(s, r.value, id, total)
  {
    var r := Distribute(s, id, total);
    if r.Ok? {
      var t, ps := s.pools[id].token, PositionsOf(s, id);
      var investorTotal := total - Cut(s, id);
      if ps != map[] { NegativeRefused(ps, investorTotal, t); }
      PayoutsBounded(ps, investorTotal, t);
      var d := Disbursement(id, Cut(s, id), Payouts(ps, investorTotal, t));
      assert r.value.disbursed == s.disbursed + [d] && 0 <= Outflow(d) <= total;
    }
  }

  /** What paying out a closed pool changes: the invoice is repaid, its cut and at most its repaid amount
      leave, and one disbursement is logged. */
  ghost predicate PaidOut(s: State, s': State, id: nat)
    requires id in s.pools && id in s.nft
  {
    var p := s.pools[id];
    && s' == s.(cuts := s.cuts - {id}, held := s.held[p.token := Held(s', p.token)],
                nft := s.nft[id := s.nft[id].(status := Repaid)], disbursed := s'.disbursed)
    && Held(s', p.token) >= Held(s, p.token) - p.repaid
    && Logged(s, s', id, p.repaid)
  }

  lemma PayOutStep(s: State, id: nat)
    requires id in s.pools && IdSound(s, id, true)
    requires PositionsOf(s, id) != map[] || Cut(s, id) <= s.pools[id].repaid
    ensures var r := PayOut(s, id, s.pools[id].repaid); r.Ok? ==> PaidOut(s, r.value, id)
  {
    DistributeEffect(s, id, s.pools[id].repaid);
  }

  lemma PaidOutElsewhere(s: State, s': State, id: nat)
    requires id in s.pools && id in s.nft && PaidOut(s, s', id)
    ensures Elsewhere(s, s', id)
  {
  }

  /** Paying out cannot eat into what the contract holds for anybody else. */
  lemma PaidOutSlack(s: State, s': State, id: nat, t: Token)
    requires id in s.pools && id in s.nft && s.nft[id].status == Funded && PaidOut(s, s', id)
    ensures Slack(s', t) >= Slack(s, t)
  {
    PaidOutElsewhere(s, s', id);
    SlackChange(s, s', id, t);
  }
}
