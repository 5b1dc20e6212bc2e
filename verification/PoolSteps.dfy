/** Each entry point of the financing pool keeps the books of the invoice it is called for, and never
    reduces the slack of any token. */
module PoolSteps {
  import opened Int128
  import opened Chain
  import opened Rounding
  import opened InvoiceNft
  import opened FinancingPool
  import opened PoolInvariants

  // ── Composition of a credit and a payout ─────────────────────────────────────

  /** A write for one invoice before any payout. */
  ghost predicate GoodCredit(s: State, s': State, id: nat, closing: bool) {
    && Elsewhere(s, s', id) && IdSound(s', id, closing)
    && s'.disbursed == s.disbursed && s'.nft == s.nft && s'.pools.Keys == s.pools.Keys
    && forall t :: Slack(s', t) >= Slack(s, t)
  }

  lemma ElsewhereTransitive(s: State, m: State, s': State, id: nat)
    requires Elsewhere(s, m, id) && Elsewhere(m, s', id)
    ensures Elsewhere(s, s', id)
  {
    forall j: nat | j != id ensures SameAt(s, s', j) {
      assert SameAt(s, m, j) && SameAt(m, s', j);
    }
  }

  lemma PayOutNeedsFunded(s: State, id: nat, total: int)
    requires id in s.pools
    ensures PayOut(s, id, total).Ok? ==> id in s.nft && s.nft[id].status == Funded
  {
  }

  /** Crediting a funded invoice so that its pool closes, then paying it out. */
  lemma CreditThenPayOut(s: State, m: State, s': State, id: nat, amount: int)
    requires Is(s, id, Funded) && GoodCredit(s, m, id, true) && PaidOut(m, s', id)
    requires m.stats.poolsOpened == s.stats.poolsOpened && m.stats.poolsDefaulted == s.stats.poolsDefaulted
    requires m.stats.activePools == Minus1(s.stats.activePools)
    ensures Elsewhere(s, s', id) && LogMoves(s, s', id) && StatsMove(s, s', id) && StatusMoves(s, s', id)
    ensures forall t :: Slack(s', t) >= Slack(s, t)
    ensures Is(s', id, Repaid) && IdSound(s'.(pending := s'.pending - {id}), id, false)
  {
    PaidOutElsewhere(m, s', id);
    ElsewhereTransitive(s, m, s', id);
    forall t ensures Slack(s', t) >= Slack(s, t) {
      PaidOutSlack(m, s', id, t);
    }
  }

  // ── release_funds and record_position ────────────────────────────────────────

  lemma ReleaseStep(s: State, id: nat, t: Token, env: Env)
    requires IdSound(s, id, false) && ValidEnv(env)
    ensures var r := ReleaseFunds(s, id, t, env); r.Ok? ==> GoodStep(s, r.value, id)
  {
    var r := ReleaseFunds(s, id, t, env);
    if r.Ok? {
      CoveredGood(s, r.value, id);
    }
  }

  lemma RecordStep(s: State, id: nat, investor: Address, contributed: int, totalPool: int, env: Env)
    requires IdSound(s, id, false)
    ensures var r := RecordPosition(s, id, investor, contributed, totalPool, env);
      r.Ok? && ShareSum(PositionsOf(r.value, id)) <= BPS ==> GoodStep(s, r.value, id)
  {
    var r := RecordPosition(s, id, investor, contributed, totalPool, env);
    if r.Ok? && ShareSum(PositionsOf(r.value, id)) <= BPS {
      CoveredGood(s, r.value, id);
    }
  }

  // ── repay ────────────────────────────────────────────────────────────────────

  /** The two parts of a late penalty are at most the face value together, and the debt grows by the
      investors' part only. */
  lemma LatePenaltyBounds(p: Pool, due: nat, env: Env)
    requires PoolSound(p) && ValidEnv(env)
    ensures var r := LatePenalty(p, due, env);
      r.Ok? ==>
        && 0 <= r.value.0 && 0 <= r.value.1 && r.value.0 + r.value.1 <= p.faceValue
        && (!PenaltyDue(p, due, env) ==> r.value == (0, 0))
  {
    if PenaltyDue(p, due, env) && BpsOf(p.faceValue, env.penaltyBps).Some? {
      var penalty := BpsOf(p.faceValue, env.penaltyBps).value;
      BpsBounds(p.faceValue, env.penaltyBps);
      if BpsOf(penalty, env.treasurySplitBps).Some? {
        BpsBounds(penalty, env.treasurySplitBps);
      }
    }
  }

  lemma BpsBounds(amount: int, bps: nat)
    requires amount >= 0 && bps <= BPS
    ensures 0 <= amount * bps && 0 <= amount * bps / BPS <= amount
  {
    MultiplyMonotone(bps, BPS, amount);
    assert amount * bps >= 0;
  }

  lemma ChargedSound(p: Pool, due: nat, amount: int, env: Env)
    requires PoolSound(p) && !p.closed && amount > 0 && ValidEnv(env)
    ensures var r := Charged(p, due, amount, env);
      r.Ok? ==>
        && PoolSound(r.value.0) && r.value.0.token == p.token && r.value.0.faceValue == p.faceValue
        && r.value.0.repaid == p.repaid + amount
        && (r.value.0.closed <==> r.value.0.repaid >= r.value.0.totalOwed)
        && 0 <= r.value.1 <= p.faceValue
        && (PenaltyDue(p, due, env) ==> !p.penaltyApplied && r.value.0.penaltyApplied)
        && (!PenaltyDue(p, due, env) ==> r.value.0.penaltyApplied == p.penaltyApplied)
  {
    LatePenaltyBounds(p, due, env);
  }

  /** Tokens received and credited to the pool: the slack is unchanged. */
  lemma CreditSlack(s: State, m: State, id: nat, t: Token)
    requires id in s.pools && id in m.pools && Elsewhere(s, m, id)
    requires m.nft == s.nft && m.offers == s.offers
    requires m.pools[id].token == s.pools[id].token && m.pools[id].repaid >= s.pools[id].repaid
    requires var u := s.pools[id].token;
      m.held == s.held[u := Held(s, u) + m.pools[id].repaid - s.pools[id].repaid]
    ensures Slack(m, t) >= Slack(s, t)
  {
    SlackChange(s, m, id, t);
  }

  /** `m` is `s` with one pool credited: tokens in, repaid amount up, perhaps a new cut. */
  ghost predicate Credited(s: State, m: State, id: nat) {
    && id in s.pools && id in m.pools && m.pools == s.pools[id := m.pools[id]]
    && m.pools[id].token == s.pools[id].token && m.pools[id].repaid >= s.pools[id].repaid
    && m == s.(pools := m.pools, cuts := m.cuts, schedules := m.schedules, stats := m.stats, credited := m.credited,
               held := s.held[s.pools[id].token :=
                 Held(s, s.pools[id].token) + m.pools[id].repaid - s.pools[id].repaid])
    && forall j: nat :: j != id ==>
         Get(m.cuts, j) == Get(s.cuts, j) && Get(m.schedules, j) == Get(s.schedules, j)
           && (j in m.credited <==> j in s.credited)
  }

  lemma CreditedGood(s: State, m: State, id: nat, closing: bool)
    requires Credited(s, m, id) && IdSound(m, id, closing)
    ensures GoodCredit(s, m, id, closing)
  {
    assert m.pools.Keys == s.pools.Keys;
    assert Elsewhere(s, m, id);
    forall t ensures Slack(m, t) >= Slack(s, t) { CreditSlack(s, m, id, t); }
  }

  lemma RepayingCredited(s: State, id: nat, amount: int, env: Env)
    requires IdSound(s, id, false) && id in s.pools && amount > 0
    ensures var r := Repaying(s, id, amount, env); r.Ok? ==> Credited(s, r.value, id)
  {
  }

  lemma RepayingSound(s: State, id: nat, amount: int, env: Env)
    requires IdSound(s, id, false) && id in s.pools && !s.pools[id].closed && id !in s.pending
    requires amount > 0 && ValidEnv(env)
    ensures var r := Repaying(s, id, amount, env);
      r.Ok? ==>
        && (s.nft[id].status == Funded || !r.value.pools[id].closed ==> IdSound(r.value, id, r.value.pools[id].closed))
        && (r.value.pools[id].closed ==> Cut(r.value, id) <= r.value.pools[id].repaid)
  {
    var r := Repaying(s, id, amount, env);
    if r.Ok? {
      var due := DueDate(s, id, amount).value;
      ChargedSound(s.pools[id], due, amount, env);
    }
  }

  lemma RepayingCredit(s: State, id: nat, amount: int, env: Env)
    requires IdSound(s, id, false) && id in s.pools && !s.pools[id].closed && id !in s.pending
    requires amount > 0 && ValidEnv(env)
    ensures var r := Repaying(s, id, amount, env);
      r.Ok? ==>
        && Credited(s, r.value, id)
        && (s.nft[id].status == Funded || !r.value.pools[id].closed ==>
          GoodCredit(s, r.value, id, r.value.pools[id].closed))
        && (r.value.pools[id].closed ==> Cut(r.value, id) <= r.value.pools[id].repaid)
  {
    var r := Repaying(s, id, amount, env);
    RepayingCredited(s, id, amount, env);
    RepayingSound(s, id, amount, env);
    if r.Ok? && (s.nft[id].status == Funded || !r.value.pools[id].closed) {
      CreditedGood(s, r.value, id, r.value.pools[id].closed);
    }
  }

  lemma CreditAlone(s: State, m: State, id: nat)
    requires IdSound(s, id, false) && GoodCredit(s, m, id, false) && Credited(s, m, id)
    requires m.stats.(totalRepaid := s.stats.totalRepaid) == s.stats
    ensures GoodStep(s, m, id)
  {
  }

  /** A closing repayment, from the credited state `m` on. */
  lemma RepayClosing(s: State, m: State, id: nat, amount: int)
    requires Is(s, id, Funded) && GoodCredit(s, m, id, true) && id !in m.pending
    requires m.stats == CountRepaid(s.stats, amount, true) && Cut(m, id) <= m.pools[id].repaid
    ensures var r := PayOut(m, id, m.pools[id].repaid); r.Ok? ==> GoodStep(s, r.value, id)
  {
    var r := PayOut(m, id, m.pools[id].repaid);
    PayOutStep(m, id);
    if r.Ok? {
      CreditThenPayOut(s, m, r.value, id, amount);
      assert r.value.pending - {id} == r.value.pending;
      assert r.value.(pending := r.value.pending - {id}) == r.value;
    }
  }

  lemma RepayStep(s: State, id: nat, amount: int, env: Env)
    requires IdSound(s, id, false) && amount > 0 && ValidEnv(env)
    ensures var r := RepayInternal(s, id, amount, env); r.Ok? ==> GoodStep(s, r.value, id)
  {
    var r := RepayInternal(s, id, amount, env);
    if r.Ok? {
      var m := Repaying(s, id, amount, env).value;
      RepayingCredit(s, id, amount, env);
      if m.pools[id].closed {
        PayOutNeedsFunded(m, id, m.pools[id].repaid);
        RepayClosing(s, m, id, amount);
      } else {
        CreditAlone(s, m, id);
      }
    }
  }

  // ── Schedules, defaults, early settlement ────────────────────────────────────

  lemma ScheduleStep(s: State, id: nat, sc: Schedule, env: Env)
    requires IdSound(s, id, false)
    ensures var r := SetInstallmentSchedule(s, id, sc, env); r.Ok? ==> GoodStep(s, r.value, id)
  {
    var r := SetInstallmentSchedule(s, id, sc, env);
    if r.Ok? {
      CoveredGood(s, r.value, id);
    }
  }

  /** The state after a default, given the state `d` after its payout. */
  function Defaulting(s: State, d: State, id: nat): State
    requires id in d.nft
  {
    PutStatus(d, id, Defaulted).(stats := s.stats.(poolsDefaulted := Saturating32(s.stats.poolsDefaulted + 1),
                                                   activePools := Minus1(s.stats.activePools)))
  }

  lemma DefaultShape(s: State, id: nat, env: Env)
    requires MarkDefault(s, id, env).Ok?
    ensures id in s.pools && DefaultPayout(s, id).Ok? && id in DefaultPayout(s, id).value.nft
    ensures Is(s, id, Funded) && !s.pools[id].closed && id !in s.pending
    ensures MarkDefault(s, id, env).value == Defaulting(s, DefaultPayout(s, id).value, id)
  {
  }

  /** `d` is `m` after a distribution of at most `total`. */
  ghost predicate Drained(m: State, d: State, id: nat, total: int)
    requires id in m.pools
  {
    var t := m.pools[id].token;
    && d == m.(cuts := m.cuts - {id}, held := m.held[t := Held(d, t)], disbursed := d.disbursed)
    && Held(d, t) >= Held(m, t) - total
    && Logged(m, d, id, total)
  }

  lemma DefaultDrains(s: State, id: nat)
    requires id in s.pools && IdSound(s, id, false)
    requires s.pools[id].repaid > 0 && PositionsOf(s, id) == map[] ==> Cut(s, id) <= s.pools[id].repaid
    ensures var r := DefaultPayout(s, id);
      r.Ok? ==> r.value == Marked(s, id) || Drained(Marked(s, id), r.value, id, s.pools[id].repaid)
  {
    if s.pools[id].repaid > 0 {
      DistributeEffect(Marked(s, id), id, s.pools[id].repaid);
    }
  }

  lemma UnpaidDefault(s: State, m: State, id: nat)
    requires IdSound(s, id, false) && Is(s, id, Funded) && id !in s.pending
    requires m == s || m == PutPool(s, id, s.pools[id].(closed := true))
    ensures GoodStep(s, Defaulting(s, m, id), id)
  {
    CoveredGood(s, Defaulting(s, m, id), id);
  }

  lemma PaidDefaultLocal(s: State, m: State, d: State, id: nat)
    requires IdSound(s, id, false) && Is(s, id, Funded) && id !in s.pending
    requires m == s || m == PutPool(s, id, s.pools[id].(closed := true))
    requires Drained(m, d, id, s.pools[id].repaid)
    ensures Local(s, Defaulting(s, d, id), id)
  {
  }

  lemma PaidDefaultElsewhere(s: State, m: State, d: State, id: nat)
    requires Is(s, id, Funded) && (m == s || m == PutPool(s, id, s.pools[id].(closed := true)))
    requires Drained(m, d, id, s.pools[id].repaid)
    ensures Elsewhere(s, Defaulting(s, d, id), id)
    ensures forall t {:trigger Covered(s, Defaulting(s, d, id), id, t)} :: Covered(s, Defaulting(s, d, id), id, t)
  {
  }

  lemma PaidDefault(s: State, m: State, d: State, id: nat)
    requires IdSound(s, id, false) && Is(s, id, Funded) && id !in s.pending
    requires m == s || m == PutPool(s, id, s.pools[id].(closed := true))
    requires Drained(m, d, id, s.pools[id].repaid)
    ensures GoodStep(s, Defaulting(s, d, id), id)
  {
    PaidDefaultLocal(s, m, d, id);
    PaidDefaultElsewhere(s, m, d, id);
    CoveredGood(s, Defaulting(s, d, id), id);
  }

  /** The one case left out is a pool without investors whose recorded cut exceeds what was repaid. */
  lemma DefaultStep(s: State, id: nat, env: Env)
    requires IdSound(s, id, false)
    requires id in s.pools && s.pools[id].repaid > 0 && PositionsOf(s, id) == map[] ==> Cut(s, id) <= s.pools[id].repaid
    ensures var r := MarkDefault(s, id, env); r.Ok? ==> GoodStep(s, r.value, id)
  {
    var r := MarkDefault(s, id, env);
    if r.Ok? {
      DefaultShape(s, id, env);
      DefaultDrains(s, id);
      if DefaultPayout(s, id).value == Marked(s, id) {
        UnpaidDefault(s, Marked(s, id), id);
      } else {
        PaidDefault(s, Marked(s, id), DefaultPayout(s, id).value, id);
      }
    }
  }

  lemma ProposeStep(s: State, sme: Address, id: nat, amount: int, env: Env)
    requires IdSound(s, id, false)
    ensures var r := ProposeEarly(s, sme, id, amount, env); r.Ok? ==> GoodStep(s, r.value, id)
  {
    var r := ProposeEarly(s, sme, id, amount, env);
    if r.Ok? {
      CoveredGood(s, r.value, id);
    }
  }

  lemma CancelStep(s: State, sme: Address, id: nat)
    requires IdSound(s, id, false)
    ensures var r := CancelEarly(s, sme, id); r.Ok? ==> GoodStep(s, r.value, id)
  {
    var r := CancelEarly(s, sme, id);
    if r.Ok? {
      CoveredGood(s, r.value, id);
    }
  }

  /** The state after the last acceptance, before the payout. */
  function Accepted(s: State, id: nat): State
    requires id in s.pools && id in s.offers
  {
    PutPool(s, id, s.pools[id].(repaid := s.offers[id].amount, closed := true))
  }

  lemma AcceptClosing(s: State, investor: Address, id: nat, env: Env)
    requires IdSound(s, id, false)
    requires id in s.offers && id in s.pools && id !in s.pending && !s.pools[id].closed
      && investor in PositionsOf(s, id)
    ensures var r := PayOut(Accepted(s, id), id, s.offers[id].amount);
      r.Ok? ==> Is(s, id, Funded) && PaidOut(Accepted(s, id), r.value, id)
  {
    var m := Accepted(s, id);
    var r := PayOut(m, id, s.offers[id].amount);
    if r.Ok? {
      PayOutNeedsFunded(m, id, s.offers[id].amount);
      PayOutStep(m, id);
    }
  }

  lemma AcceptedGood(s: State, paid: State, id: nat)
    requires IdSound(s, id, false) && Is(s, id, Funded) && id in s.offers && id !in s.pending
    requires PaidOut(Accepted(s, id), paid, id)
    ensures GoodStep(s, paid.(offers := s.offers - {id}, stats := CountRepaid(s.stats, s.offers[id].amount, true)), id)
  {
    var s' := paid.(offers := s.offers - {id}, stats := CountRepaid(s.stats, s.offers[id].amount, true));
    CoveredGood(s, s', id);
  }

  lemma AcceptStep(s: State, investor: Address, id: nat, env: Env)
    requires IdSound(s, id, false)
    ensures var r := AcceptEarly(s, investor, id, env); r.Ok? ==> GoodStep(s, r.value, id)
  {
    var r := AcceptEarly(s, investor, id, env);
    if r.Ok? {
      var bps := s.offers[id].acceptedBps + PositionsOf(s, id)[investor].shareBps;
      if bps < 10_000 {
        OfferUpdated(s, id, Offer(s.offers[id].amount, bps, s.offers[id].accepted + [investor]));
      } else {
        AcceptClosing(s, investor, id, env);
        AcceptedGood(s, PayOut(Accepted(s, id), id, s.offers[id].amount).value, id);
      }
    }
  }

  lemma OfferUpdated(s: State, id: nat, o: Offer)
    requires IdSound(s, id, false) && id in s.offers && o.amount == s.offers[id].amount
    ensures GoodStep(s, s.(offers := s.offers[id := o]), id)
  {
    CoveredGood(s, s.(offers := s.offers[id := o]), id);
  }

  // ── Escrow hooks ─────────────────────────────────────────────────────────────

  lemma ReserveStep(s: State, id: nat, amount: int, env: Env)
    requires IdSound(s, id, false)
    ensures var r := ReserveEscrow(s, id, amount, env); r.Ok? ==> GoodStep(s, r.value, id)
  {
    var r := ReserveEscrow(s, id, amount, env);
    if r.Ok? {
      CoveredGood(s, r.value, id);
    }
  }

  /** `settle_escrow` for the pool, before any payout: the amount is credited like a repayment. */
  function Settling(s: State, id: nat, amount: int): State
    requires id in s.pools
  {
    Crediting(Receive(s, s.pools[id].token, amount), id, amount)
  }

  lemma SettlingCredit(s: State, id: nat, amount: int)
    requires IdSound(s, id, false) && id in s.pools && id in s.pending && amount == s.pending[id]
    ensures var m := Settling(s, id, amount);
      && Credited(s, m, id) && IdSound(m.(pending := m.pending - {id}), id, m.pools[id].closed)
      && (m.pools[id].closed ==> IdSound(m, id, true)) && (m.pools[id].closed ==> Cut(m, id) <= m.pools[id].repaid)
  {
    assert Reservable(s, id, s.pools[id]);
  }

  lemma SettleCreditOnly(s: State, id: nat, amount: int)
    requires IdSound(s, id, false) && id in s.pools && id in s.pending && amount == s.pending[id]
    requires !Settling(s, id, amount).pools[id].closed
    ensures var m := Settling(s, id, amount); GoodStep(s, m.(pending := m.pending - {id}), id)
  {
    var m := Settling(s, id, amount);
    SettlingCredit(s, id, amount);
    var s' := m.(pending := m.pending - {id});
    assert Elsewhere(s, s', id);
    CoveredGood(s, s', id);
  }

  lemma UnpendSlack(s: State, id: nat, t: Token)
    ensures Slack(s.(pending := s.pending - {id}), t) == Slack(s, t)
  {
    SlackChange(s, s.(pending := s.pending - {id}), id, t);
  }

  lemma UnpendGood(s: State, m: State, id: nat)
    requires Elsewhere(s, m, id) && LogMoves(s, m, id) && StatsMove(s, m, id) && StatusMoves(s, m, id)
    requires forall t :: Slack(m, t) >= Slack(s, t)
    requires IdSound(m.(pending := m.pending - {id}), id, false)
    ensures GoodStep(s, m.(pending := m.pending - {id}), id)
  {
    var s' := m.(pending := m.pending - {id});
    assert Elsewhere(m, s', id);
    ElsewhereTransitive(s, m, s', id);
    forall t ensures Slack(s', t) >= Slack(s, t) { UnpendSlack(m, id, t); }
  }

  lemma SettleClosing(s: State, id: nat, amount: int)
    requires IdSound(s, id, false) && id in s.pools && id in s.pending && amount == s.pending[id]
    requires Settling(s, id, amount).pools[id].closed
    ensures var m := Settling(s, id, amount); var r := PayOut(m, id, m.pools[id].repaid);
      r.Ok? ==> GoodStep(s, r.value.(pending := r.value.pending - {id}), id)
  {
    var m := Settling(s, id, amount);
    var r := PayOut(m, id, m.pools[id].repaid);
    SettlingCredit(s, id, amount);
    CreditedGood(s, m, id, true);
    PayOutStep(m, id);
    if r.Ok? {
      CreditThenPayOut(s, m, r.value, id, amount);
      UnpendGood(s, r.value, id);
    }
  }

  lemma SettleRefund(s: State, id: nat)
    requires IdSound(s, id, false)
    ensures GoodStep(s, s.(pending := s.pending - {id}), id)
  {
    CoveredGood(s, s.(pending := s.pending - {id}), id);
  }

  lemma SettleShape(s: State, id: nat, amount: int)
    requires id in s.pools && SettleEscrow(Receive(s, s.pools[id].token, amount), id, amount, true).Ok?
    ensures var r := SettleEscrow(Receive(s, s.pools[id].token, amount), id, amount, true);
      && id in s.pending && amount == s.pending[id]
      && var m := Settling(s, id, amount);
         if m.pools[id].closed then
           && PayOut(m, id, m.pools[id].repaid).Ok?
           && var paid := PayOut(m, id, m.pools[id].repaid).value; r.value == paid.(pending := paid.pending - {id})
         else r.value == m.(pending := m.pending - {id})
  {
  }

  /** `SettleEscrow` reads the state after the escrow's tokens have arrived. */
  lemma SettleStep(s: State, id: nat, amount: int, payPool: bool)
    requires IdSound(s, id, false)
    ensures var s0 := if payPool && id in s.pools then Receive(s, s.pools[id].token, amount) else s;
      var r := SettleEscrow(s0, id, amount, payPool); r.Ok? ==> GoodStep(s, r.value, id)
  {
    var s0 := if payPool && id in s.pools then Receive(s, s.pools[id].token, amount) else s;
    var r := SettleEscrow(s0, id, amount, payPool);
    if r.Ok? {
      if !payPool {
        SettleRefund(s, id);
      } else {
        SettleShape(s, id, amount);
        if Settling(s, id, amount).pools[id].closed {
          SettleClosing(s, id, amount);
        } else {
          SettleCreditOnly(s, id, amount);
        }
      }
    }
  }

  // ── The NFT contract ─────────────────────────────────────────────────────────

  lemma MintStep(s: State, id: nat, amount: int, due: nat, sme: Address)
    requires IdSound(s, id, false)
    ensures var r := Mint(s, id, amount, due, sme); r.Ok? ==> GoodStep(s, r.value, id)
  {
    var r := Mint(s, id, amount, due, sme);
    if r.Ok? {
      CoveredGood(s, r.value, id);
    }
  }

  lemma ListStep(s: State, id: nat)
    requires IdSound(s, id, false)
    ensures var r := List(s, id); r.Ok? ==> GoodStep(s, r.value, id)
  {
    var r := List(s, id);
    if r.Ok? {
      assert id !in s.pools;
      CoveredGood(s, r.value, id);
    }
  }

  lemma FreezeStep(s: State, id: nat, frozen: bool)
    requires IdSound(s, id, false)
    ensures var r := Freeze(s, id, frozen); r.Ok? ==> GoodStep(s, r.value, id)
  {
    var r := Freeze(s, id, frozen);
    if r.Ok? {
      CoveredGood(s, r.value, id);
    }
  }
}
