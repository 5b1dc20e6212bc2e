/** The storage-changing entry points of `financing_pool`, each against its specification. */
module FinancingPoolContract {
  import opened Wrappers
  import opened Int128
  import opened Chain
  import opened SeqSum
  import opened MapSum
  import opened Rounding
  import opened InvoiceNft
  import opened FinancingPool
  import P = FinancingPool
  import Sets

  // ── What the loops need ──────────────────────────────────────────────────────

  /** What each investor is to receive; None where the computation overflows. */
  type Quotes = map<Address, Option<int>>

  predicate Payable(quotes: Quotes) { forall a :: a in quotes && quotes[a].Some? ==> quotes[a].value >= 0 }

  predicate AllQuoted(quotes: Quotes) { forall a :: a in quotes ==> quotes[a].Some? }

  function Due(quotes: Quotes): map<Address, int>
    requires AllQuoted(quotes)
  {
    map a | a in quotes :: quotes[a].value
  }

  ghost predicate PaidSome(quotes: Quotes, paid: map<Address, int>) {
    paid.Keys <= quotes.Keys && forall a :: a in paid ==> quotes[a] == Some(paid[a])
  }

  /** The payouts cannot be computed, or come to more than `rest`. */
  ghost predicate Unaffordable(quotes: Quotes, rest: int) { AllQuoted(quotes) ==> Total(Due(quotes)) > rest }

  /** Once the balance does not suffice for some of the transfers, it does not suffice for all. */
  lemma ShortOfFunds(quotes: Quotes, rest: int, part: map<Address, int>)
    requires Payable(quotes) && PaidSome(quotes, part) && rest < Total(part)
    ensures Unaffordable(quotes, rest)
  {
    if AllQuoted(quotes) { PartOfTotal(part, Due(quotes)); }
  }

  /** Everybody but those in `left` is paid. */
  ghost predicate PaidBut(quotes: Quotes, paid: map<Address, int>, left: set<Address>) {
    PaidSome(quotes, paid) && left <= quotes.Keys && paid.Keys == quotes.Keys - left
  }

  lemma OneMorePaid(quotes: Quotes, paid: map<Address, int>, left: set<Address>, a: Address)
    requires PaidBut(quotes, paid, left) && a in left && a in quotes && quotes[a].Some?
    ensures PaidBut(quotes, paid[a := quotes[a].value], left - {a})
    ensures Total(paid[a := quotes[a].value]) == Total(paid) + quotes[a].value
  {
    TotalUpdate(paid, a, quotes[a].value);
  }

  lemma AllPaid(quotes: Quotes, paid: map<Address, int>)
    requires PaidBut(quotes, paid, {})
    ensures AllQuoted(quotes) && paid == Due(quotes)
  {
    forall a | a in quotes ensures quotes[a].Some? { assert a in paid; }
  }

  function QuotesFor(ps: map<Address, Position>, total: int, t: Token): Quotes {
    map a | a in ps :: PayoutOf(total, ps[a], t)
  }

  lemma QuotesArePayouts(ps: map<Address, Position>, total: int, t: Token)
    ensures var quotes := QuotesFor(ps, total, t);
      && Payable(quotes) && (AllQuoted(quotes) <==> PayoutsDefined(ps, total, t))
      && (AllQuoted(quotes) ==> Due(quotes) == Payouts(ps, total, t))
  {
    var quotes := QuotesFor(ps, total, t);
    assert quotes.Keys == ps.Keys;
    forall a | a in ps ensures PayoutOf(total, ps[a], t).Some? ==> PayoutOf(total, ps[a], t).value >= 0 {
      ContractShareIsAtMostExact(total, ps[a].shareBps, t.decimals);
    }
    forall a | a in ps && AllQuoted(quotes) ensures PayoutOf(total, ps[a], t).Some? { assert a in quotes; }
    assert AllQuoted(quotes) ==> Due(quotes) == Payouts(ps, total, t);
  }

  function QuotesAt(s: State, id: nat, total: int): Quotes
    requires id in s.pools
  {
    QuotesFor(PositionsOf(s, id), Saturate(total - Cut(s, id)), s.pools[id].token)
  }

  lemma DistributeFails(s: State, id: nat, total: int)
    requires id in s.pools
    requires var rest := Held(s, s.pools[id].token) - Fee(Cut(s, id));
      rest < 0 || Unaffordable(QuotesAt(s, id, total), rest)
    ensures Distribute(s, id, total).Err? && Unpayable(Distribute(s, id, total).error)
  {
    QuotesArePayouts(PositionsOf(s, id), Saturate(total - Cut(s, id)), s.pools[id].token);
    var rest := Held(s, s.pools[id].token) - Fee(Cut(s, id));
    if rest < 0 { ShortOfFunds(QuotesAt(s, id, total), rest, map[]); }
  }

  lemma DistributeSucceeds(s: State, id: nat, total: int, payouts: map<Address, int>, left: int)
    requires id in s.pools && AllQuoted(QuotesAt(s, id, total)) && payouts == Due(QuotesAt(s, id, total))
    requires left == Held(s, s.pools[id].token) - Fee(Cut(s, id)) - Total(payouts) >= 0
    ensures Distribute(s, id, total)
      == Ok(s.(cuts := s.cuts - {id}, held := s.held[s.pools[id].token := left],
               disbursed := s.disbursed + [Disbursement(id, Fee(Cut(s, id)), payouts)]))
  {
    QuotesArePayouts(PositionsOf(s, id), Saturate(total - Cut(s, id)), s.pools[id].token);
  }

  lemma Overwrite(m: map<Token, int>, t: Token, a: int, b: int)
    ensures m[t := a][t := b] == m[t := b]
  {
  }

  predicate Unpayable(e: PoolError) { e == ArithmeticOverflow || e == InsufficientBalance }

  lemma NetAllocatedFrom(s: State, ids: seq<nat>, allocs: seq<int>, t: Token, amount: int, now: nat)
    requires |ids| == |allocs| && AllStored(s, ids) && ApplyAllocations(s, ids, allocs, |ids|, now).Ok?
    ensures var closing := Closing(s, ids, allocs, |ids|, now);
      NetAllocated(s, ids, allocs, t, amount, now)
      == CloseAll(Receive(ApplyAllocations(s, ids, allocs, |ids|, now).value, t, amount), closing, |closing|)
  {
  }

  function Arrived(s: State, id: nat, amount: int, payPool: bool): State {
    if payPool && id in s.pools then Receive(s, s.pools[id].token, amount) else s
  }

  lemma AttemptSettle(s: State, id: nat, amount: int, payPool: bool, env: Env)
    ensures Attempt(s, SettleCall(id, amount, payPool), env) ==
      P.SettleEscrow(Arrived(s, id, amount, payPool), id, amount, payPool)
  {
  }

  lemma {:induction false} PreflightFails(s: State, payer: Address, ids: seq<nat>, k: nat, n: nat, t: Token)
    requires k <= n <= |ids| && Preflight(s, payer, ids, k, t).Err?
    ensures Preflight(s, payer, ids, n, t).Err?
      && Preflight(s, payer, ids, n, t).error == Preflight(s, payer, ids, k, t).error
    decreases n
  {
    if k < n { PreflightFails(s, payer, ids, k, n - 1, t); }
  }

  lemma {:induction false} ApplyFails(s: State, ids: seq<nat>, allocs: seq<int>, k: nat, n: nat, now: nat)
    requires k <= n <= |ids| == |allocs| && AllStored(s, ids) && ApplyAllocations(s, ids, allocs, k, now).Err?
    ensures ApplyAllocations(s, ids, allocs, n, now) == ApplyAllocations(s, ids, allocs, k, now)
    decreases n
  {
    if k < n { ApplyFails(s, ids, allocs, k, n - 1, now); }
  }

  lemma CloseOneMore(s: State, ids: seq<nat>, n: nat, earlier: State)
    requires n < |ids| && CloseAll(s, ids, n) == Ok(earlier)
    ensures CloseAll(s, ids, n + 1) == ClosePaid(earlier, ids[n])
  {
  }

  ghost predicate ClosedSoFar(s: State, ids: seq<nat>, n: nat, now: State)
    requires n <= |ids|
  {
    CloseAll(s, ids, n) == Ok(now)
  }

  lemma CloseFailsOnce(s: State, ids: seq<nat>, n: nat, e: PoolError)
    requires n < |ids| && CloseAll(s, ids, n) == Err(e)
    ensures CloseAll(s, ids, n + 1) == Err(e)
  {
  }

  lemma {:induction false} CloseFails(s: State, ids: seq<nat>, k: nat, n: nat, e: PoolError)
    requires k <= n <= |ids| && CloseAll(s, ids, k) == Err(e)
    ensures CloseAll(s, ids, n) == Err(e)
    decreases n - k
  {
    if k < n {
      CloseFailsOnce(s, ids, k, e);
      CloseFails(s, ids, k + 1, n, e);
    }
  }

  lemma {:induction false} ObjectionStands(parts: seq<Installment>, k: nat)
    requires k <= |parts| && ScheduleObjection(parts[..k]).Some?
    ensures ScheduleObjection(parts) == ScheduleObjection(parts[..k])
    decreases |parts| - k
  {
    if k == |parts| {
      assert parts[..k] == parts;
    } else {
      assert parts[..k + 1][..k] == parts[..k];
      ObjectionStands(parts, k + 1);
    }
  }

  /** The contract writes its storage key by key; `storage` holds all of it, together with the token
      ledger and the NFT contract it calls. */
  class Contract {
    var storage: State

    constructor ()
      ensures storage == EMPTY
    {
      storage := EMPTY;
    }

    /** Success and failure as specified, and after success the specified storage. A distribution that can
        neither be paid nor computed may report either. */
    ghost predicate Tracks(spec: Outcome, r: Result<(), PoolError>)
      reads this
    {
      match spec
      case Ok(s) => r.Ok? && storage == s
      case Err(e) => r.Err? && (r.error == e || (Unpayable(e) && Unpayable(r.error)))
    }

    // ── Transfers ──────────────────────────────────────────────────────────────

    method TakeIn(t: Token, amount: int)
      modifies this
      ensures storage == old(storage).(held := storage.held)
      ensures storage.held == old(storage).held[t := Held(old(storage), t) + amount]
    {
      storage := storage.(held := storage.held[t := Held(storage, t) + amount]);
    }

    method SendOut(t: Token, amount: int) returns (r: Result<(), PoolError>)
      modifies this
      ensures storage == old(storage).(held := storage.held)
      ensures r.Ok? <==> Held(old(storage), t) >= amount
      ensures storage.held == if r.Ok? then old(storage).held[t := Held(old(storage), t) - amount]
        else old(storage).held
      ensures r.Err? ==> r.error == InsufficientBalance
    {
      var balance := Held(storage, t);
      if balance < amount { return Err(InsufficientBalance); }
      storage := storage.(held := storage.held[t := balance - amount]);
      return Ok(());
    }

    // ── distribute_yield ───────────────────────────────────────────────────────

    /** One of several transfers of the same token: `now` is the balance before it. */
    method SendNext(t: Token, amount: int, ghost balances: map<Token, int>, ghost now: int)
        returns (r: Result<(), PoolError>)
      requires storage.held == balances[t := now]
      modifies this
      ensures storage == old(storage).(held := storage.held)
      ensures r.Ok? ==> now >= amount && storage.held == balances[t := now - amount]
      ensures r.Err? ==> now < amount && r.error == InsufficientBalance
    {
      Overwrite(balances, t, now, now - amount);
      r := SendOut(t, amount);
    }

    /** One turn of the payout loop. */
    method PayNext(quotes: Quotes, before: map<Address, int>, ghost left: set<Address>, a: Address, t: Token,
        ghost balances: map<Token, int>, ghost rest: int, ghost available: int)
        returns (r: Result<(), PoolError>, paid: map<Address, int>, ghost now: int)
      requires Payable(quotes) && PaidBut(quotes, before, left) && a in left && a in quotes
      requires storage.held == balances[t := available] && available == rest - Total(before) >= 0
      modifies this
      ensures storage == old(storage).(held := storage.held)
      ensures r.Ok? ==>
        && PaidBut(quotes, paid, left - {a})
        && storage.held == balances[t := now] && now == rest - Total(paid) >= 0
      ensures r.Err? ==> Unpayable(r.error) && Unaffordable(quotes, rest)
    {
      if quotes[a].None? { return Err(ArithmeticOverflow), before, available; }
      var payout := quotes[a].value;
      OneMorePaid(quotes, before, left, a);
      paid, now := before[a := payout], available - payout;
      r := SendNext(t, payout, balances, available);
      if r.Err? { ShortOfFunds(quotes, rest, paid); }
    }

    /** Pays every investor in turn; the order does not matter. */
    method PayInvestors(quotes: Quotes, t: Token, ghost balances: map<Token, int>, ghost rest: int)
        returns (r: Result<(), PoolError>, paid: map<Address, int>, ghost now: int)
      requires Payable(quotes) && storage.held == balances[t := rest] && rest >= 0
      modifies this
      ensures storage == old(storage).(held := storage.held)
      ensures r.Ok? ==>
        && AllQuoted(quotes) && paid == Due(quotes)
        && storage.held == balances[t := now] && now == rest - Total(paid) >= 0
      ensures r.Err? ==> Unpayable(r.error) && Unaffordable(quotes, rest)
    {
      var left := quotes.Keys;
      paid, now := map[], rest;
      while left != {}
        invariant PaidBut(quotes, paid, left)
        invariant storage == old(storage).(held := balances[t := now]) && now == rest - Total(paid) >= 0
        decreases |left|
      {
        var a := Sets.Pick(left);
        r, paid, now := PayNext(quotes, paid, left, a, t, balances, rest, now);
        if r.Err? { return; }
        left := left - {a};
      }
      AllPaid(quotes, paid);
      return Ok(()), paid, now;
    }

    method DistributeYield(id: nat, total: int) returns (r: Result<(), PoolError>)
      requires id in storage.pools
      modifies this
      ensures Tracks(Distribute(old(storage), id, total), r)
    {
      ghost var start := storage;
      var t, cut, ps := storage.pools[id].token, Cut(storage, id), PositionsOf(storage, id);
      QuotesArePayouts(ps, Saturate(total - cut), t);
      storage := storage.(cuts := storage.cuts - {id});
      var fee := SendOut(t, Fee(cut));
      if fee.Err? {
        DistributeFails(start, id, total);
        return fee;
      }
      ghost var rest := Held(start, t) - Fee(cut);
      var paid;
      ghost var now;
      r, paid, now := PayInvestors(QuotesFor(ps, Saturate(total - cut), t), t, start.held, rest);
      if r.Err? {
        DistributeFails(start, id, total);
        return;
      }
      DistributeSucceeds(start, id, total, paid, now);
      storage := storage.(disbursed := storage.disbursed + [Disbursement(id, Fee(cut), paid)]);
    }

    /** `distribute_yield` and the NFT's transition, at the end of every closing call. */
    method CloseOut(id: nat, total: int) returns (r: Result<(), PoolError>)
      requires id in storage.pools
      modifies this
      ensures Tracks(P.PayOut(old(storage), id, total), r)
    {
      r := DistributeYield(id, total);
      if r.Err? { return; }
      if id !in storage.nft { return Err(StatusRefused); }
      var status := SetRepaid(storage.nft[id].status);
      if status.Err? { return Err(StatusRefused); }
      storage := PutStatus(storage, id, status.value);
    }

    // ── release_funds and record_position ──────────────────────────────────────

    method ReleaseFunds(id: nat, t: Token, env: Env) returns (r: Result<(), PoolError>)
      modifies this
      ensures Tracks(P.ReleaseFunds(old(storage), id, t, env), r)
    {
      if env.paused { return Err(ProtocolPaused); }
      if id in storage.pools { return Err(PoolAlreadyClosed); }
      if id !in storage.nft { return Err(InvoiceNotFound); }
      var amount := storage.nft[id].amount;
      if amount <= 0 || amount > MAX_AMOUNT { return Err(InvalidAmount); }
      var funded := SetFunded(storage.nft[id].status);
      if funded.Err? { return Err(StatusRefused); }
      storage := storage.(pools := storage.pools[id := Pool(t, 0, amount, 0, false, env.penaltyBps, amount, false)]);
      var st := storage.stats;
      st := st.(poolsOpened := Saturating32(st.poolsOpened + 1), activePools := Saturating32(st.activePools + 1));
      storage := storage.(stats := st);
      storage := PutStatus(storage, id, funded.value);
      return Ok(());
    }

    method RecordPosition(id: nat, investor: Address, contributed: int, totalPool: int, env: Env)
        returns (r: Result<(), PoolError>)
      modifies this
      ensures Tracks(P.RecordPosition(old(storage), id, investor, contributed, totalPool, env), r)
    {
      if id in storage.credited { return Err(PartialRepayInvalid); }
      if id in storage.pending { return Err(EscrowPending); }
      if !env.byAdmin { return Err(NotAdmin); }
      if env.paused { return Err(ProtocolPaused); }
      if id !in storage.nft { return Err(InvoiceNotFound); }
      if storage.nft[id].frozen { return Err(InvoiceFrozen); }
      if contributed <= 0 || totalPool <= 0 { return Err(InvalidAmount); }
      if contributed > totalPool || contributed > MAX_AMOUNT || totalPool > MAX_AMOUNT { return Err(InvalidAmount); }
      if !Fits(contributed * BPS) { return Err(ArithmeticOverflow); }
      var bps := PositionBps(contributed, totalPool);
      if bps > env.maxPositionBps { return Err(ExceedsFundingTarget); }
      var ps := PositionsOf(storage, id);
      if (investor !in ps || ps[investor].contributed == 0) && |ps| >= MAX_POSITIONS_PER_POOL {
        return Err(TooManyInvestors);
      }
      if id !in storage.pools { return Err(PoolNotFound); }
      ps := ps[investor := Position(contributed, bps)];
      storage := storage.(positions := storage.positions[id := ps]);
      return Ok(());
    }

    // ── repay ──────────────────────────────────────────────────────────────────

    method InstallmentDue(id: nat, amount: int) returns (r: Result<nat, PoolError>)
      requires id in storage.nft
      ensures r == P.DueDate(storage, id, amount)
    {
      if id !in storage.schedules { return Ok(storage.nft[id].dueDate); }
      var sc := storage.schedules[id];
      var idx, len := sc.nextIndex, |sc.installments|;
      if idx >= len { return Err(RepaymentAlreadyMade); }
      var installment := sc.installments[idx];
      if idx == len - 1 {
        if amount < installment.amount { return Err(InvalidAmount); }
      } else if amount != installment.amount {
        return Err(InvalidAmount);
      }
      return Ok(installment.dueDate);
    }

    /** The late penalty, the repayment and the closing decision on one pool. */
    static method Charge(p: Pool, due: nat, amount: int, env: Env) returns (r: Result<(Pool, int), PoolError>)
      ensures r == P.Charged(p, due, amount, env)
    {
      var pool, treasuryCut := p, 0;
      if !pool.penaltyApplied && env.penaltyBps > 0 && env.now > due {
        var penalty := BpsOf(pool.faceValue, env.penaltyBps);
        if penalty.None? { return Err(ArithmeticOverflow); }
        var cut := BpsOf(penalty.value, env.treasurySplitBps);
        if cut.None? { return Err(ArithmeticOverflow); }
        var investorCut := penalty.value - cut.value;
        if !Fits(investorCut) || !Fits(pool.totalOwed + investorCut) { return Err(ArithmeticOverflow); }
        treasuryCut := cut.value;
        pool := pool.(totalOwed := pool.totalOwed + investorCut, penaltyApplied := true);
      } else if !Fits(pool.totalOwed) {
        return Err(ArithmeticOverflow);
      }
      if !Fits(pool.repaid + amount) { return Err(ArithmeticOverflow); }
      pool := pool.(repaid := pool.repaid + amount);
      pool := pool.(closed := pool.repaid >= pool.totalOwed);
      return Ok((pool, treasuryCut));
    }

    /** Records the treasury's part when the penalty was charged just now. */
    method BookPenalty(id: nat, before: Pool, after: Pool, treasuryCut: int)
      modifies this
      ensures storage == old(storage).(cuts := storage.cuts)
      ensures storage.cuts == if after.penaltyApplied && !before.penaltyApplied
        then old(storage).cuts[id := Saturate(Cut(old(storage), id) + treasuryCut)] else old(storage).cuts
    {
      if after.penaltyApplied && !before.penaltyApplied {
        storage := storage.(cuts := storage.cuts[id := Saturate(Cut(storage, id) + treasuryCut)]);
      }
    }

    /** Marks the next installment paid and advances the cursor. */
    method TickInstallment(id: nat)
      modifies this
      ensures storage == old(storage).(schedules := storage.schedules)
      ensures storage.schedules == if id in old(storage).schedules
        then old(storage).schedules[id := Advance(old(storage).schedules[id])] else old(storage).schedules
    {
      if id in storage.schedules {
        var sc := storage.schedules[id];
        if sc.nextIndex < |sc.installments| {
          var paid := sc.installments[sc.nextIndex].(paid := true);
          sc := Schedule(sc.installments[sc.nextIndex := paid], sc.nextIndex + 1);
        }
        storage := storage.(schedules := storage.schedules[id := sc]);
      }
    }

    method CreditRepayment(id: nat, amount: int, env: Env) returns (r: Result<(), PoolError>)
      requires id in storage.pools && id in storage.nft
      modifies this
      ensures Tracks(P.Repaying(old(storage), id, amount, env), r)
    {
      var p := storage.pools[id];
      var due :- InstallmentDue(id, amount);
      var charged :- Charge(p, due, amount, env);
      BookPenalty(id, p, charged.0, charged.1);
      TickInstallment(id);
      TakeIn(p.token, amount);
      storage := storage.(pools := storage.pools[id := charged.0],
        stats := CountRepaid(storage.stats, amount, charged.0.closed));
      return Ok(());
    }

    method RepayInternal(id: nat, amount: int, env: Env) returns (r: Result<(), PoolError>)
      modifies this
      ensures Tracks(P.RepayInternal(old(storage), id, amount, env), r)
    {
      if id in storage.pending { return Err(EscrowPending); }
      if id !in storage.nft { return Err(InvoiceNotFound); }
      if storage.nft[id].frozen { return Err(InvoiceFrozen); }
      if id !in storage.pools { return Err(PoolNotFound); }
      if storage.pools[id].closed { return Err(PoolAlreadyClosed); }
      r := CreditRepayment(id, amount, env);
      if r.Ok? && storage.pools[id].closed {
        r := CloseOut(id, storage.pools[id].repaid);
      }
    }

    method Repay(id: nat, amount: int, approved: bool, env: Env) returns (r: Result<(), PoolError>)
      modifies this
      ensures Tracks(P.Repay(old(storage), id, amount, approved, env), r)
    {
      if amount <= 0 || amount > MAX_AMOUNT { return Err(InvalidAmount); }
      if amount >= REPAYMENT_APPROVAL_THRESHOLD && !approved { return Err(ApprovalThresholdNotMet); }
      r := RepayInternal(id, amount, env);
    }

    // ── net_settle ─────────────────────────────────────────────────────────────

    /** Validates every invoice before anything is written, and reads what each pool still owes. */
    method PreflightAll(payer: Address, ids: seq<nat>, t: Token) returns (r: Result<seq<int>, PoolError>)
      ensures r == P.Preflight(storage, payer, ids, |ids|, t)
    {
      var remaining: seq<int> := [];
      var total := 0;
      var i := 0;
      while i < |ids|
        invariant 0 <= i <= |ids|
        invariant P.Preflight(storage, payer, ids, i, t) == Ok(remaining) && total == Sum(remaining)
      {
        var id := ids[i];
        var objection := NettingCheck(storage, payer, id, t);
        if objection.Some? {
          PreflightFails(storage, payer, ids, i + 1, |ids|, t);
          return Err(objection.value);
        }
        var pool := storage.pools[id];
        var owing := if pool.totalOwed > pool.repaid then pool.totalOwed - pool.repaid else 0;
        if !Fits(total + owing) {
          PreflightFails(storage, payer, ids, i + 1, |ids|, t);
          return Err(ArithmeticOverflow);
        }
        SumSnoc(remaining, owing);
        remaining, total, i := remaining + [owing], total + owing, i + 1;
      }
      return Ok(remaining);
    }

    /** Proportional shares, rounded down; the first pool gets what rounding left over. */
    static method Allocate(remaining: seq<int>, amount: int) returns (r: Result<seq<int>, PoolError>)
      requires remaining != [] && Sum(remaining) > 0
      ensures r.Err? <==> exists i :: 0 <= i < |remaining| && !Fits(amount * remaining[i])
      ensures r == if r.Ok? then Ok(P.Allocations(remaining, amount)) else Err(ArithmeticOverflow)
    {
      var total := SumOf(remaining);
      var allocations: seq<int> := [];
      var granted := 0;
      var i := 0;
      while i < |remaining|
        invariant 0 <= i <= |remaining| == |P.BaseAllocations(remaining, amount)|
        invariant forall k :: 0 <= k < i ==> Fits(amount * remaining[k])
        invariant allocations == P.BaseAllocations(remaining, amount)[..i] && granted == Sum(allocations)
      {
        if !Fits(amount * remaining[i]) { return Err(ArithmeticOverflow); }
        var share := amount * remaining[i] / total;
        SumSnoc(allocations, share);
        allocations, granted, i := allocations + [share], granted + share, i + 1;
      }
      assert allocations == P.BaseAllocations(remaining, amount);
      var remainder := amount - granted;
      if remainder > 0 { allocations := allocations[0 := allocations[0] + remainder]; }
      return Ok(allocations);
    }

    static method SumOf(s: seq<int>) returns (total: int)
      ensures total == Sum(s)
    {
      total := 0;
      var i := 0;
      while i < |s|
        invariant 0 <= i <= |s| && total == Sum(s[..i])
      {
        assert s[..i + 1] == s[..i] + [s[i]];
        SumSnoc(s[..i], s[i]);
        total, i := total + s[i], i + 1;
      }
      assert s[..i] == s;
    }

    /** Penalty and allocation of each pool in turn, from the pools as the preflight loaded them. */
    method ApplyAll(ids: seq<nat>, allocs: seq<int>, now: nat) returns (r: Result<seq<nat>, PoolError>)
      requires |ids| == |allocs| && AllStored(storage, ids)
      modifies this
      ensures match P.ApplyAllocations(old(storage), ids, allocs, |ids|, now)
        case Ok(s) => r == Ok(Closing(old(storage), ids, allocs, |ids|, now)) && storage == s
        case Err(e) => r == Err(e)
    {
      var loaded := storage;
      var closed: seq<nat> := [];
      var i := 0;
      while i < |ids|
        invariant 0 <= i <= |ids| && loaded == old(storage)
        invariant P.ApplyAllocations(loaded, ids, allocs, i, now) == Ok(storage)
        invariant closed == Closing(loaded, ids, allocs, i, now)
      {
        var id, alloc := ids[i], allocs[i];
        if alloc > 0 {
          var pool := Netted(loaded.pools[id], loaded.nft[id].dueDate, now, alloc);
          if pool.None? {
            ApplyFails(loaded, ids, allocs, i + 1, |ids|, now);
            return Err(ArithmeticOverflow);
          }
          if pool.value.closed { closed := closed + [id]; }
          storage := PutPool(storage, id, pool.value);
        }
        i := i + 1;
      }
      return Ok(closed);
    }

    /** Distribution, NFT transition and statistics of one pool that the netting closed. */
    method CloseNetted(id: nat) returns (r: Result<(), PoolError>)
      modifies this
      ensures Tracks(P.ClosePaid(old(storage), id), r)
    {
      if id !in storage.pools { return Err(PoolNotFound); }
      var total := storage.pools[id].repaid;
      r := CloseOut(id, total);
      if r.Ok? { storage := storage.(stats := CountRepaid(storage.stats, total, true)); }
    }

    method CloseNext(ghost start: State, ids: seq<nat>, i: nat) returns (r: Result<(), PoolError>)
      requires i < |ids| && ClosedSoFar(start, ids, i, storage)
      modifies this
      ensures r.Ok? ==> ClosedSoFar(start, ids, i + 1, storage)
      ensures r.Err? ==> Tracks(P.CloseAll(start, ids, |ids|), r)
    {
      ghost var paid := P.ClosePaid(storage, ids[i]);
      CloseOneMore(start, ids, i, storage);
      r := CloseNetted(ids[i]);
      if r.Err? { CloseFails(start, ids, i + 1, |ids|, paid.error); }
    }

    method CloseEach(ids: seq<nat>) returns (r: Result<(), PoolError>)
      modifies this
      ensures r.Ok? ==> ClosedSoFar(old(storage), ids, |ids|, storage)
      ensures r.Err? ==> Tracks(P.CloseAll(old(storage), ids, |ids|), r)
    {
      ghost var start := storage;
      r := Ok(());
      var i := 0;
      while i < |ids| && r.Ok?
        invariant 0 <= i <= |ids|
        invariant r.Ok? ==> ClosedSoFar(start, ids, i, storage)
        invariant r.Err? ==> Tracks(P.CloseAll(start, ids, |ids|), r)
        decreases |ids| - i
      {
        r := CloseNext(start, ids, i);
        i := i + 1;
      }
    }

    method NetSettle(payer: Address, ids: seq<nat>, t: Token, amount: int, env: Env) returns (r: Result<(), PoolError>)
      modifies this
      ensures Tracks(P.NetSettle(old(storage), payer, ids, t, amount, env), r)
    {
      if env.paused { return Err(ProtocolPaused); }
      if amount <= 0 || amount > MAX_AMOUNT { return Err(InvalidAmount); }
      if |ids| < 2 { return Err(InvalidAmount); }
      if |ids| > MAX_NETTING_INVOICES { return Err(BatchSizeExceeded); }
      var remaining :- PreflightAll(payer, ids, t);
      var total := SumOf(remaining);
      if total <= 0 { return Err(InvalidAmount); }
      var allocs :- Allocate(remaining, amount);
      r := SettleAllocated(ids, allocs, t, amount, env.now);
    }

    method SettleAllocated(ids: seq<nat>, allocs: seq<int>, t: Token, amount: int, now: nat)
        returns (r: Result<(), PoolError>)
      requires |ids| == |allocs| && AllStored(storage, ids)
      modifies this
      ensures Tracks(P.NetAllocated(old(storage), ids, allocs, t, amount, now), r)
    {
      ghost var start := storage;
      var closed := ApplyAndReceive(ids, allocs, t, amount, now);
      if closed.Err? { return Err(closed.error); }
      NetAllocatedFrom(start, ids, allocs, t, amount, now);
      r := CloseEach(closed.value);
    }

    method ApplyAndReceive(ids: seq<nat>, allocs: seq<int>, t: Token, amount: int, now: nat)
        returns (r: Result<seq<nat>, PoolError>)
      requires |ids| == |allocs| && AllStored(storage, ids)
      modifies this
      ensures match P.ApplyAllocations(old(storage), ids, allocs, |ids|, now)
        case Ok(s) => r == Ok(Closing(old(storage), ids, allocs, |ids|, now)) && storage == Receive(s, t, amount)
        case Err(e) => r == Err(e)
    {
      r := ApplyAll(ids, allocs, now);
      if r.Ok? { TakeIn(t, amount); }
    }

    // ── set_installment_schedule and mark_default ──────────────────────────────

    /** Walks the installments; the running total and the last due date carry over. */
    static method CheckSchedule(parts: seq<Installment>) returns (r: Result<int, PoolError>)
      ensures r == match ScheduleObjection(parts) { case None => Ok(Sum(Amounts(parts))) case Some(e) => Err(e) }
    {
      var total, lastDue := 0, 0;
      var i := 0;
      while i < |parts|
        invariant 0 <= i <= |parts| && ScheduleObjection(parts[..i]).None?
        invariant total == Sum(Amounts(parts[..i])) && lastDue == (if i == 0 then 0 else parts[i - 1].dueDate)
      {
        var p := parts[i];
        assert parts[..i + 1][..i] == parts[..i];
        assert Amounts(parts[..i + 1]) == Amounts(parts[..i]) + [p.amount];
        SumSnoc(Amounts(parts[..i]), p.amount);
        ghost var objection := ScheduleObjection(parts[..i + 1]);
        if objection.Some? { ObjectionStands(parts, i + 1); }
        if p.amount <= 0 { return Err(InvalidAmount); }
        if p.dueDate < lastDue { return Err(InvalidDueDate); }
        if !Fits(total + p.amount) { return Err(ArithmeticOverflow); }
        total, lastDue, i := total + p.amount, p.dueDate, i + 1;
      }
      assert parts[..i] == parts;
      return Ok(total);
    }

    method SetInstallmentSchedule(id: nat, sc: Schedule, env: Env) returns (r: Result<(), PoolError>)
      modifies this
      ensures Tracks(P.SetInstallmentSchedule(old(storage), id, sc, env), r)
    {
      if id in storage.credited { return Err(PartialRepayInvalid); }
      if id in storage.pending { return Err(EscrowPending); }
      if !env.byAdmin { return Err(NotAdmin); }
      if env.paused { return Err(ProtocolPaused); }
      if id !in storage.pools { return Err(PoolNotFound); }
      var pool := storage.pools[id];
      if pool.closed { return Err(PoolAlreadyClosed); }
      if pool.repaid > 0 || sc.installments == [] || sc.nextIndex != 0 { return Err(InvalidAmount); }
      var total :- CheckSchedule(sc.installments);
      if total != pool.totalOwed { return Err(InvalidAmount); }
      storage := storage.(schedules := storage.schedules[id := sc]);
      return Ok(());
    }

    method MarkDefault(id: nat, env: Env) returns (r: Result<(), PoolError>)
      modifies this
      ensures Tracks(P.MarkDefault(old(storage), id, env), r)
    {
      if !env.byAdmin { return Err(NotAdmin); }
      if env.paused { return Err(ProtocolPaused); }
      if id in storage.pending { return Err(EscrowPending); }
      if id !in storage.pools { return Err(PoolNotFound); }
      var pool, stats := storage.pools[id], storage.stats;
      if pool.closed { return Err(PoolAlreadyClosed); }
      if id !in storage.nft { return Err(InvoiceNotFound); }
      var invoice := storage.nft[id];
      if invoice.dueDate + env.gracePeriod > U64_MAX { return Err(ArithmeticOverflow); }
      if env.now < invoice.dueDate + env.gracePeriod { return Err(GracePeriodActive); }
      if env.disputeOpen { return Err(DisputeOpen); }
      if id in storage.credited { storage := PutPool(storage, id, pool.(closed := true)); }
      if pool.repaid > 0 {
        r := DistributeYield(id, pool.repaid);
        if r.Err? { return; }
      }
      var status := SetDefaulted(invoice.status, env.now > invoice.dueDate);
      if status.Err? { return Err(StatusRefused); }
      storage := PutStatus(storage, id, status.value);
      stats := stats.(poolsDefaulted := Saturating32(stats.poolsDefaulted + 1),
        activePools := Minus1(stats.activePools));
      storage := storage.(stats := stats);
      return Ok(());
    }

    // ── Early settlement ───────────────────────────────────────────────────────

    method ProposeEarly(sme: Address, id: nat, amount: int, env: Env) returns (r: Result<(), PoolError>)
      modifies this
      ensures Tracks(P.ProposeEarly(old(storage), sme, id, amount, env), r)
    {
      if id in storage.credited { return Err(PartialRepayInvalid); }
      if id in storage.pending { return Err(EscrowPending); }
      if env.paused { return Err(ProtocolPaused); }
      if amount <= 0 || amount > MAX_AMOUNT { return Err(InvalidAmount); }
      if id !in storage.pools { return Err(PoolNotFound); }
      var pool := storage.pools[id];
      if pool.closed { return Err(PoolAlreadyClosed); }
      if amount < pool.totalFunded || amount >= pool.totalOwed { return Err(InvalidAmount); }
      if id in storage.offers { return Err(AlreadyInitialized); }
      if id !in storage.nft { return Err(InvoiceNotFound); }
      if storage.nft[id].sme != sme { return Err(Unauthorized); }
      TakeIn(pool.token, amount);
      storage := storage.(offers := storage.offers[id := Offer(amount, 0, [])]);
      return Ok(());
    }

    method AcceptEarly(investor: Address, id: nat, env: Env) returns (r: Result<(), PoolError>)
      modifies this
      ensures Tracks(P.AcceptEarly(old(storage), investor, id, env), r)
    {
      if id in storage.pending { return Err(EscrowPending); }
      if env.paused { return Err(ProtocolPaused); }
      if id !in storage.offers || id !in storage.pools { return Err(PoolNotFound); }
      var pool, o, ps := storage.pools[id], storage.offers[id], PositionsOf(storage, id);
      if pool.closed { return Err(PoolAlreadyClosed); }
      if investor !in ps { return Err(Unauthorized); }
      if investor in o.accepted { return Err(AlreadyInitialized); }
      var bps := o.acceptedBps + ps[investor].shareBps;
      if bps > U32_MAX { return Err(ArithmeticOverflow); }
      if bps < 10_000 {
        storage := storage.(offers := storage.offers[id := Offer(o.amount, bps, o.accepted + [investor])]);
        return Ok(());
      }
      var offers, stats := storage.offers, storage.stats;
      storage := PutPool(storage, id, pool.(repaid := o.amount, closed := true));
      r := CloseOut(id, o.amount);
      if r.Ok? { storage := storage.(offers := offers - {id}, stats := CountRepaid(stats, o.amount, true)); }
    }

    method CancelEarly(sme: Address, id: nat) returns (r: Result<(), PoolError>)
      modifies this
      ensures Tracks(P.CancelEarly(old(storage), sme, id), r)
    {
      if id in storage.pending { return Err(EscrowPending); }
      if id !in storage.offers || id !in storage.pools { return Err(PoolNotFound); }
      if id !in storage.nft { return Err(InvoiceNotFound); }
      if storage.nft[id].sme != sme { return Err(Unauthorized); }
      r := SendOut(storage.pools[id].token, storage.offers[id].amount);
      if r.Ok? { storage := storage.(offers := storage.offers - {id}); }
    }

    // ── Escrow hooks ───────────────────────────────────────────────────────────

    method ReserveEscrow(id: nat, amount: int, env: Env) returns (r: Result<(), PoolError>)
      modifies this
      ensures Tracks(P.ReserveEscrow(old(storage), id, amount, env), r)
    {
      if env.paused { return Err(ProtocolPaused); }
      var terms :- EscrowTerms(storage, id);
      var (_, _, outstanding) := terms;
      if amount <= 0 || amount > MAX_AMOUNT || amount > outstanding { return Err(InvalidAmount); }
      storage := storage.(pending := storage.pending[id := amount]);
      return Ok(());
    }

    method CreditReserved(id: nat, amount: int)
      requires id in storage.pools
      modifies this
      ensures storage == Crediting(old(storage), id, amount)
    {
      var pool := storage.pools[id];
      pool := pool.(repaid := pool.repaid + amount);
      pool := pool.(closed := pool.repaid == pool.totalOwed);
      storage := PutPool(storage, id, pool);
      storage := storage.(credited := storage.credited + {id},
        stats := CountRepaid(storage.stats, amount, pool.closed));
    }

    method SettleToPool(id: nat, amount: int) returns (r: Result<(), PoolError>)
      modifies this
      ensures Tracks(P.SettleToPool(old(storage), id, amount), r)
    {
      if id !in storage.pools { return Err(PoolNotFound); }
      var pool := storage.pools[id];
      if pool.closed { return Err(PoolAlreadyClosed); }
      if id !in storage.nft { return Err(InvoiceNotFound); }
      if storage.nft[id].status != Funded { return Err(PoolAlreadyClosed); }
      if storage.nft[id].frozen { return Err(InvoiceFrozen); }
      if !Fits(pool.repaid + amount) { return Err(ArithmeticOverflow); }
      if pool.repaid + amount > pool.totalOwed { return Err(InvalidAmount); }
      if !Fits(storage.stats.totalRepaid + amount) { return Err(ArithmeticOverflow); }
      CreditReserved(id, amount);
      if pool.repaid + amount == pool.totalOwed {
        r := CloseOut(id, pool.repaid + amount);
      } else {
        r := Ok(());
      }
    }

    method SettleEscrow(id: nat, amount: int, payPool: bool) returns (r: Result<(), PoolError>)
      modifies this
      ensures Tracks(P.SettleEscrow(old(storage), id, amount, payPool), r)
    {
      if id !in storage.pending { return Err(EscrowNotFound); }
      if amount != storage.pending[id] || amount <= 0 { return Err(InvalidAmount); }
      var left := storage.pending - {id};
      if payPool {
        r := SettleToPool(id, amount);
        if r.Err? { return; }
      }
      storage := storage.(pending := left);
      return Ok(());
    }

    // ── The host ───────────────────────────────────────────────────────────────

    /** The NFT contract's own entry points. */
    method ChangeInvoice(c: Call, env: Env) returns (r: Result<(), PoolError>)
      requires c.MintCall? || c.ListCall? || c.FreezeCall?
      modifies this
      ensures Tracks(Attempt(old(storage), c, env), r)
    {
      var outcome := match c
        case MintCall(id, amount, due, sme) => Mint(storage, id, amount, due, sme)
        case ListCall(id) => List(storage, id)
        case FreezeCall(id, frozen) => Freeze(storage, id, frozen)
        case _ => Err(StatusRefused);
      if outcome.Err? { return Err(outcome.error); }
      storage := outcome.value;
      return Ok(());
    }

    /** The escrow transfers the amount to the pool before it calls the hook. */
    method SettleReserved(id: nat, amount: int, payPool: bool, ghost env: Env) returns (r: Result<(), PoolError>)
      modifies this
      ensures Tracks(Attempt(old(storage), SettleCall(id, amount, payPool), env), r)
    {
      AttemptSettle(storage, id, amount, payPool, env);
      Arrive(id, amount, payPool);
      r := SettleEscrow(id, amount, payPool);
    }

    method Arrive(id: nat, amount: int, payPool: bool)
      modifies this
      ensures storage == Arrived(old(storage), id, amount, payPool)
    {
      if payPool && id in storage.pools { TakeIn(storage.pools[id].token, amount); }
    }

    method DispatchEarly(c: Call, env: Env) returns (r: Result<(), PoolError>)
      requires c.ProposeEarlyCall? || c.AcceptEarlyCall? || c.CancelEarlyCall? || c.ReserveCall?
      modifies this
      ensures Tracks(Attempt(old(storage), c, env), r)
    {
      match c
      case ProposeEarlyCall(sme, id, amount) => r := ProposeEarly(sme, id, amount, env);
      case AcceptEarlyCall(investor, id) => r := AcceptEarly(investor, id, env);
      case CancelEarlyCall(sme, id) => r := CancelEarly(sme, id);
      case ReserveCall(id, amount) => r := ReserveEscrow(id, amount, env);
    }

    method DispatchAdmin(c: Call, env: Env) returns (r: Result<(), PoolError>)
      requires c.ReleaseCall? || c.RecordCall? || c.ScheduleCall? || c.DefaultCall?
      modifies this
      ensures Tracks(Attempt(old(storage), c, env), r)
    {
      match c
      case ReleaseCall(id, t) => r := ReleaseFunds(id, t, env);
      case RecordCall(id, investor, contributed, totalPool) => r :=
        RecordPosition(id, investor, contributed, totalPool, env);
      case ScheduleCall(id, sc) => r := SetInstallmentSchedule(id, sc, env);
      case DefaultCall(id) => r := MarkDefault(id, env);
    }

    method DispatchPayment(c: Call, env: Env) returns (r: Result<(), PoolError>)
      requires c.RepayCall? || c.NetSettleCall?
      modifies this
      ensures Tracks(Attempt(old(storage), c, env), r)
    {
      match c
      case RepayCall(id, amount, approved) => r := Repay(id, amount, approved, env);
      case NetSettleCall(payer, ids, t, amount) => r := NetSettle(payer, ids, t, amount, env);
    }

    method Dispatch(c: Call, env: Env) returns (r: Result<(), PoolError>)
      modifies this
      ensures Tracks(Attempt(old(storage), c, env), r)
    {
      if c.MintCall? || c.ListCall? || c.FreezeCall? {
        r := ChangeInvoice(c, env);
      } else if c.RepayCall? || c.NetSettleCall? {
        r := DispatchPayment(c, env);
      } else if c.SettleCall? {
        r := SettleReserved(c.id, c.amount, c.payPool, env);
      } else if c.ReleaseCall? || c.RecordCall? || c.ScheduleCall? || c.DefaultCall? {
        r := DispatchAdmin(c, env);
      } else {
        r := DispatchEarly(c, env);
      }
    }

    /** One transaction: the host discards every write of a call that returns an error. */
    method Invoke(c: Call, env: Env) returns (r: Result<(), PoolError>)
      modifies this
      ensures storage == Step(old(storage), c, env)
      ensures r.Ok? <==> Attempt(old(storage), c, env).Ok?
    {
      var saved := storage;
      r := Dispatch(c, env);
      if r.Err? { storage := saved; }
    }
  }
}
