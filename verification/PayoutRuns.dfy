/** Every call that pays investors pays them their shares, and over whole runs every repaid invoice was paid out so. */
module PayoutRuns {
  import opened Wrappers
  import Int128
  import opened Chain
  import opened InvoiceNft
  import opened FinancingPool
  import opened PoolInvariants
  import opened PoolSteps
  import opened PoolSafety
  import opened Netting
  import opened PoolNetting
  import opened PoolFrames
  import opened PoolRuns
  import opened PayoutShares

  // ── What a call adds to the log ──────────────────────────────────────────────

  ghost predicate LoggedFrom(r: State, n: nat, id: nat) {
    exists k :: n <= k < |r.disbursed| && r.disbursed[k].invoice == id
  }

  /** The log only grows, by disbursements that pay the shares. */
  ghost predicate NewPays(s: State, r: State) {
    && |s.disbursed| <= |r.disbursed| && r.disbursed[..|s.disbursed|] == s.disbursed
    && forall k :: |s.disbursed| <= k < |r.disbursed| ==> PaysShares(r, r.disbursed[k])
  }

  /** Whatever became repaid was disbursed. */
  ghost predicate RepaidLogged(s: State, r: State) {
    forall j: nat {:trigger Is(r, j, Repaid)} ::
        Is(r, j, Repaid) && !Is(s, j, Repaid) ==> LoggedFrom(r, |s.disbursed|, j)
  }

  lemma PaidLast(m: State, id: nat, total: int, d: State)
    requires id in m.pools && Distribute(m, id, total) == Ok(d) && total == m.pools[id].repaid
    requires 0 <= total <= Int128.MAX && 0 <= Cut(m, id) <= MAX_AMOUNT
    ensures |d.disbursed| == |m.disbursed| + 1 && d.disbursed[..|m.disbursed|] == m.disbursed
    ensures d.disbursed[|m.disbursed|].invoice == id && PaysShares(d, d.disbursed[|m.disbursed|])
    ensures d == m.(cuts := d.cuts, held := d.held, disbursed := d.disbursed)
  {
    DistributionPays(m, id, total, d);
  }

  /** Only the log, pools and positions matter. */
  lemma SameLogPays(m: State, paid: State, s: State, r: State)
    requires NewPays(m, paid) && s.disbursed == m.disbursed
    requires r.disbursed == paid.disbursed && r.pools == paid.pools && r.positions == paid.positions
    ensures NewPays(s, r)
  {
    forall k | |s.disbursed| <= k < |r.disbursed| ensures PaysShares(r, r.disbursed[k]) {
      assert PaysShares(paid, paid.disbursed[k]);
    }
  }

  lemma PayOutShape(m: State, id: nat, total: int)
    requires id in m.pools && PayOut(m, id, total).Ok?
    ensures Distribute(m, id, total).Ok? && id in m.nft
    ensures var d := Distribute(m, id, total).value;
      PayOut(m, id, total).value == d.(nft := m.nft[id := m.nft[id].(status := Repaid)])
  {
  }

  lemma PayOutPays(m: State, id: nat, paid: State)
    requires id in m.pools && IdSound(m, id, true) && PayOut(m, id, m.pools[id].repaid) == Ok(paid)
    ensures NewPays(m, paid) && LoggedFrom(paid, |m.disbursed|, id)
    ensures id in m.nft
      && paid == m.(cuts := paid.cuts, held := paid.held, disbursed := paid.disbursed,
                    nft := m.nft[id := m.nft[id].(status := Repaid)])
  {
    PayOutShape(m, id, m.pools[id].repaid);
    var d := Distribute(m, id, m.pools[id].repaid).value;
    LoggedLast(m, id, d);
    SameLogPays(m, d, m, paid);
    assert paid.disbursed[|m.disbursed|].invoice == id;
  }

  lemma LoggedLast(m: State, id: nat, d: State)
    requires id in m.pools && Distribute(m, id, m.pools[id].repaid) == Ok(d)
    requires 0 <= m.pools[id].repaid <= Int128.MAX && 0 <= Cut(m, id) <= MAX_AMOUNT
    ensures NewPays(m, d) && LoggedFrom(d, |m.disbursed|, id)
    ensures d == m.(cuts := d.cuts, held := d.held, disbursed := d.disbursed)
  {
    PaidLast(m, id, m.pools[id].repaid, d);
    assert d.disbursed[|m.disbursed|].invoice == id;
  }

  /** A step for one invoice that is logged if the invoice becomes repaid. */
  lemma OneRepaidLogged(s: State, r: State, id: nat)
    requires Elsewhere(s, r, id) && (Is(r, id, Repaid) && !Is(s, id, Repaid) ==> LoggedFrom(r, |s.disbursed|, id))
    ensures RepaidLogged(s, r)
  {
    forall j: nat | j != id ensures Is(r, j, Repaid) <==> Is(s, j, Repaid) { assert SameAt(s, r, j); }
  }

  // ── Each call ────────────────────────────────────────────────────────────────

  lemma RepayPays(s: State, id: nat, amount: int, env: Env, r: State)
    requires IdSound(s, id, false) && amount > 0 && ValidEnv(env) && RepayInternal(s, id, amount, env) == Ok(r)
    ensures NewPays(s, r) && RepaidLogged(s, r)
  {
    RepayStep(s, id, amount, env);
    var m := Repaying(s, id, amount, env).value;
    if m.pools[id].closed {
      PayOutNeedsFunded(m, id, m.pools[id].repaid);
      RepayingSound(s, id, amount, env);
      PayOutPays(m, id, r);
      SameLogPays(m, r, s, r);
    }
    OneRepaidLogged(s, r, id);
  }

  lemma AcceptPays(s: State, investor: Address, id: nat, env: Env, r: State)
    requires IdSound(s, id, false) && AcceptEarly(s, investor, id, env) == Ok(r)
    ensures NewPays(s, r) && RepaidLogged(s, r)
  {
    AcceptStep(s, investor, id, env);
    if id in r.offers {
      OpenOfferMoves(s, investor, id, env);
    } else {
      SettlingShape(s, investor, id, env);
      AcceptedPays(s, id, PayOut(Accepted(s, id), id, s.offers[id].amount).value, r);
    }
    OneRepaidLogged(s, r, id);
  }

  lemma AcceptedPays(s: State, id: nat, paid: State, r: State)
    requires IdSound(s, id, false) && id in s.offers && id in s.pools && id !in s.pending
    requires PayOut(Accepted(s, id), id, s.offers[id].amount) == Ok(paid)
    requires r == paid.(offers := r.offers, stats := r.stats)
    ensures NewPays(s, r) && LoggedFrom(r, |s.disbursed|, id)
  {
    var m := Accepted(s, id);
    PayOutNeedsFunded(m, id, s.offers[id].amount);
    PayOutPays(m, id, paid);
    SameLogPays(m, paid, s, r);
  }

  lemma SettlingShape(s: State, investor: Address, id: nat, env: Env)
    requires AcceptEarly(s, investor, id, env).Ok? && id !in AcceptEarly(s, investor, id, env).value.offers
    ensures id in s.offers && id in s.pools && PayOut(Accepted(s, id), id, s.offers[id].amount).Ok?
    ensures id !in s.pending
    ensures var r, paid := AcceptEarly(s, investor, id, env).value,
      PayOut(Accepted(s, id), id, s.offers[id].amount).value;
      r == paid.(offers := r.offers, stats := r.stats)
  {
  }

  lemma DefaultFrame(s: State, id: nat)
    requires id in s.pools && DefaultPayout(s, id).Ok?
    ensures var d := DefaultPayout(s, id).value;
      && d.nft == s.nft && d.pools.Keys == s.pools.Keys
      && if s.pools[id].repaid > 0 then Distribute(Marked(s, id), id, s.pools[id].repaid) == Ok(d)
         else d.disbursed == s.disbursed
  {
    var m := Marked(s, id);
    assert m.nft == s.nft && m.pools.Keys == s.pools.Keys && m.disbursed == s.disbursed;
    if s.pools[id].repaid > 0 { DistributeFrame(m, id, s.pools[id].repaid); }
  }

  lemma DistributeFrame(s: State, id: nat, total: int)
    requires id in s.pools && Distribute(s, id, total).Ok?
    ensures Distribute(s, id, total).value.nft == s.nft && Distribute(s, id, total).value.pools == s.pools
  {
  }

  lemma DefaultedOnly(s: State, d: State, id: nat)
    requires id in s.pools && id in d.nft && d.nft == s.nft && d.pools.Keys == s.pools.Keys
    ensures forall j: nat :: Is(Defaulting(s, d, id), j, Repaid) ==> Is(s, j, Repaid)
  {
  }

  lemma DefaultPays(s: State, id: nat, env: Env, r: State)
    requires IdSound(s, id, false) && MarkDefault(s, id, env) == Ok(r)
    ensures NewPays(s, r)
    ensures id in s.pools && (s.pools[id].repaid > 0 ==> LoggedFrom(r, |s.disbursed|, id))
    ensures forall j: nat :: Is(r, j, Repaid) ==> Is(s, j, Repaid)
  {
    DefaultShape(s, id, env);
    DefaultFrame(s, id);
    DefaultedOnly(s, DefaultPayout(s, id).value, id);
    if s.pools[id].repaid > 0 { DefaultLogged(s, Marked(s, id), id, DefaultPayout(s, id).value, r); }
  }

  lemma DefaultLogged(s: State, m: State, id: nat, d: State, r: State)
    requires id in s.pools && IdSound(s, id, false)
    requires m == s || m == PutPool(s, id, s.pools[id].(closed := true))
    requires Distribute(m, id, s.pools[id].repaid) == Ok(d) && id in d.nft && r == Defaulting(s, d, id)
    ensures NewPays(s, r) && LoggedFrom(r, |s.disbursed|, id)
  {
    LoggedLast(m, id, d);
    SameLogPays(m, d, s, r);
    var k :| |m.disbursed| <= k < |d.disbursed| && d.disbursed[k].invoice == id;
    assert r.disbursed[k].invoice == id;
  }

  lemma SettlePays(s: State, id: nat, amount: int, payPool: bool, r: State)
    requires IdSound(s, id, false)
    requires SettleEscrow(if payPool && id in s.pools then Receive(s, s.pools[id].token, amount) else s,
                          id, amount, payPool) == Ok(r)
    ensures NewPays(s, r) && RepaidLogged(s, r)
  {
    SettleStep(s, id, amount, payPool);
    if payPool && id in s.pools {
      SettleShape(s, id, amount);
      SettlingCredit(s, id, amount);
      var m := Settling(s, id, amount);
      if m.pools[id].closed {
        PayOutPays(m, id, PayOut(m, id, m.pools[id].repaid).value);
        SameLogPays(m, PayOut(m, id, m.pools[id].repaid).value, s, r);
      }
    }
    OneRepaidLogged(s, r, id);
  }

  lemma OthersPayNothing(s: State, c: Call, env: Env, r: State)
    requires c.MintCall? || c.ListCall? || c.FreezeCall? || c.ReleaseCall? || c.RecordCall? || c.ScheduleCall?
      || c.ProposeEarlyCall? || c.CancelEarlyCall? || c.ReserveCall?
    requires Attempt(s, c, env) == Ok(r)
    ensures r.disbursed == s.disbursed
    ensures forall j: nat :: Is(r, j, Repaid) ==> Is(s, j, Repaid)
  {
  }

  // ── net_settle ───────────────────────────────────────────────────────────────

  /** The first `n` were paid out their shares; pools, positions and everybody else's status are as they were. */
  ghost predicate ClosedPays(s: State, r: State, ids: seq<nat>, n: nat)
    requires n <= |ids|
  {
    && NewPays(s, r) && r.pools == s.pools && r.positions == s.positions
    && (forall i :: 0 <= i < n ==> LoggedFrom(r, |s.disbursed|, ids[i]))
    && (forall j: nat :: j !in ids[..n] ==> Get(r.nft, j) == Get(s.nft, j))
  }

  lemma ClosePaidPays(s: State, id: nat, r: State)
    requires IdSound(s, id, true) && ClosePaid(s, id) == Ok(r)
    ensures NewPays(s, r) && r.pools == s.pools && r.positions == s.positions && LoggedFrom(r, |s.disbursed|, id)
    ensures forall j: nat :: j != id ==> Get(r.nft, j) == Get(s.nft, j)
  {
    var paid := PayOut(s, id, s.pools[id].repaid).value;
    PayOutPays(s, id, paid);
    SameLogPays(s, paid, s, r);
    var k :| |s.disbursed| <= k < |paid.disbursed| && paid.disbursed[k].invoice == id;
    assert r.disbursed[k].invoice == id;
  }

  lemma LoggedStays(s: State, r: State, n: nat, id: nat)
    requires NewPays(s, r) && LoggedFrom(s, n, id)
    ensures LoggedFrom(r, n, id)
  {
    var k :| n <= k < |s.disbursed| && s.disbursed[k].invoice == id;
    assert r.disbursed[k] == r.disbursed[..|s.disbursed|][k];
  }

  lemma PaysTwice(s: State, m: State, r: State)
    requires NewPays(s, m) && NewPays(m, r) && r.pools == m.pools && r.positions == m.positions
    ensures NewPays(s, r)
  {
    assert r.disbursed[..|s.disbursed|] == r.disbursed[..|m.disbursed|][..|s.disbursed|];
    forall k | |s.disbursed| <= k < |r.disbursed| ensures PaysShares(r, r.disbursed[k]) {
      if k < |m.disbursed| {
        assert r.disbursed[k] == r.disbursed[..|m.disbursed|][k];
        assert PaysShares(m, m.disbursed[k]);
      }
    }
  }

  lemma ClosedOneMore(s: State, m: State, r: State, ids: seq<nat>, n: nat)
    requires 0 < n <= |ids| && ClosedPays(s, m, ids, n - 1)
    requires NewPays(m, r) && r.pools == m.pools && r.positions == m.positions
    requires LoggedFrom(r, |m.disbursed|, ids[n - 1])
    requires forall j: nat :: j != ids[n - 1] ==> Get(r.nft, j) == Get(m.nft, j)
    ensures ClosedPays(s, r, ids, n)
  {
    PaysTwice(s, m, r);
    assert ids[..n] == ids[..n - 1] + [ids[n - 1]];
    forall i | 0 <= i < n ensures LoggedFrom(r, |s.disbursed|, ids[i]) {
      if i < n - 1 {
        LoggedStays(m, r, |s.disbursed|, ids[i]);
      } else {
        var k :| |m.disbursed| <= k < |r.disbursed| && r.disbursed[k].invoice == ids[n - 1];
      }
    }
  }

  lemma {:induction false} CloseAllPays(s: State, ids: seq<nat>, n: nat)
    requires n <= |ids| && NoDuplicates(ids) && SoundWith(s, AsSet(ids))
    requires forall j :: j in ids ==> ReadyToClose(s, j)
    ensures CloseAll(s, ids, n).Ok? ==> ClosedPays(s, CloseAll(s, ids, n).value, ids, n)
  {
    if n > 0 && CloseAll(s, ids, n).Ok? {
      CloseAllPays(s, ids, n - 1);
      CloseAllSound(s, ids, n - 1);
      var earlier, r := CloseAll(s, ids, n - 1).value, CloseAll(s, ids, n).value;
      UnpaidStep(ids, n);
      assert BooksSound(earlier, ids[n - 1], Unpaid(ids, n - 1));
      ClosePaidPays(earlier, ids[n - 1], r);
      ClosedOneMore(s, earlier, r, ids, n);
    }
  }

  lemma NettingPays(s: State, payer: Address, ids: seq<nat>, t: Token, amount: int, env: Env, r: State)
    requires Sound(s) && NoDuplicates(ids) && NetSettle(s, payer, ids, t, amount, env) == Ok(r)
    ensures NewPays(s, r) && RepaidLogged(s, r)
  {
    NetSettleShape(s, payer, ids, t, amount, env);
    var remaining := Preflight(s, payer, ids, |ids|, t).value;
    var allocs := Allocations(remaining, amount);
    AllocationsAreExact(remaining, amount);
    var closing := Closing(s, ids, allocs, |ids|, env.now);
    ClosingFunded(s, ids, allocs, t, amount, env.now);
    ReceivedSound(s, ids, allocs, t, amount, env.now);
    ClosingEffect(s, ids, allocs, |ids|, env.now);
    ApplyEffect(s, ids, allocs, |ids|, env.now);
    var received := Receive(ApplyAllocations(s, ids, allocs, |ids|, env.now).value, t, amount);
    CloseAllPays(received, closing, |closing|);
    SameLogPays(received, r, s, r);
    ClosedLogged(s, received, r, closing);
  }

  lemma ClosedLogged(s: State, m: State, r: State, closing: seq<nat>)
    requires ClosedPays(m, r, closing, |closing|)
    requires m.nft == s.nft && m.disbursed == s.disbursed && m.pools.Keys == s.pools.Keys
    ensures RepaidLogged(s, r)
  {
    assert closing[..|closing|] == closing;
    forall j: nat | Is(r, j, Repaid) && !Is(s, j, Repaid) ensures LoggedFrom(r, |s.disbursed|, j) {
      assert j !in closing ==> Get(r.nft, j) == Get(s.nft, j);
      var i :| 0 <= i < |closing| && closing[i] == j;
      assert LoggedFrom(r, |m.disbursed|, closing[i]);
    }
  }

  // ── Whole runs ───────────────────────────────────────────────────────────────

  /** Every call that succeeds pays out nothing but shares, and leaves no invoice repaid without paying it out. */
  lemma CallPays(s: State, c: Call, env: Env, r: State)
    requires Sound(s) && Disciplined(s, c, env) && Attempt(s, c, env) == Ok(r)
    ensures NewPays(s, r) && RepaidLogged(s, r)
  {
    if OneInvoice(c) { SoundAt(s, InvoiceOf(c)); }
    match c
    case RepayCall(id, amount, approved) => RepayPays(s, id, amount, env, r);
    case NetSettleCall(payer, ids, t, amount) => NettingPays(s, payer, ids, t, amount, env, r);
    case DefaultCall(id) => DefaultPays(s, id, env, r);
    case AcceptEarlyCall(investor, id) => AcceptPays(s, investor, id, env, r);
    case SettleCall(id, amount, payPool) => SettlePays(s, id, amount, payPool, r);
    case _ => OthersPayNothing(s, c, env, r);
  }

  /** Call `n` of the run wrote entry `k` of the log, and it paid shares and kept back rounding only. */
  ghost predicate PaidIn(calls: seq<(Call, Env)>, n: nat, k: nat)
    requires n < |calls| && k < |Run(EMPTY, calls).disbursed|
  {
    var before, after, d := Run(EMPTY, calls[..n]), Run(EMPTY, calls[..n + 1]), Run(EMPTY, calls).disbursed[k];
    && |before.disbursed| <= k < |after.disbursed| && after.disbursed[k] == d
    && PaysShares(after, d) && KeepsRoundingOnly(after, d)
  }

  lemma PaidInLonger(calls: seq<(Call, Env)>, n: nat, k: nat)
    requires n < |calls| - 1 && k < |Run(EMPTY, calls[..|calls| - 1]).disbursed|
    requires PaidIn(calls[..|calls| - 1], n, k)
    requires k < |Run(EMPTY, calls).disbursed|
    requires Run(EMPTY, calls).disbursed[k] == Run(EMPTY, calls[..|calls| - 1]).disbursed[k]
    ensures PaidIn(calls, n, k)
  {
    assert calls[..|calls| - 1][..n] == calls[..n] && calls[..|calls| - 1][..n + 1] == calls[..n + 1];
  }

  lemma LastCallPays(calls: seq<(Call, Env)>)
    requires DisciplinedRun(EMPTY, calls) && calls != []
    ensures NewPays(Run(EMPTY, calls[..|calls| - 1]), Run(EMPTY, calls))
    ensures RepaidLogged(Run(EMPTY, calls[..|calls| - 1]), Run(EMPTY, calls))
  {
    var n := |calls| - 1;
    var s, r := Run(EMPTY, calls[..n]), Run(EMPTY, calls);
    EmptySound();
    RunSound(EMPTY, calls[..n]);
    if Attempt(s, calls[n].0, calls[n].1).Ok? { CallPays(s, calls[n].0, calls[n].1, r); }
  }

  /** For every disbursement of every run: at the call that made it, each investor got the share of what was repaid
      less the cut, and the contract kept back only rounding and shares nobody holds. */
  lemma {:induction false} EveryoneGotTheirShare(calls: seq<(Call, Env)>, k: nat) returns (n: nat)
    requires DisciplinedRun(EMPTY, calls) && k < |Run(EMPTY, calls).disbursed|
    ensures n < |calls| && PaidIn(calls, n, k)
    decreases |calls|
  {
    n := |calls| - 1;
    var s, r := Run(EMPTY, calls[..n]), Run(EMPTY, calls);
    LastCallPays(calls);
    if k < |s.disbursed| {
      assert r.disbursed[k] == r.disbursed[..|s.disbursed|][k];
      n := EveryoneGotTheirShare(calls[..n], k);
      PaidInLonger(calls, n, k);
    } else {
      assert calls[..n + 1] == calls;
      SharesKeepRounding(r, r.disbursed[k]);
    }
  }

  /** In every reachable state each repaid invoice has been paid out; by `DisbursedOnce` not twice. */
  lemma {:induction false} RepaidIsPaidOut(calls: seq<(Call, Env)>, id: nat)
    requires DisciplinedRun(EMPTY, calls) && Is(Run(EMPTY, calls), id, Repaid)
    ensures LoggedFrom(Run(EMPTY, calls), 0, id)
    decreases |calls|
  {
    var n := |calls| - 1;
    var s, r := Run(EMPTY, calls[..n]), Run(EMPTY, calls);
    LastCallPays(calls);
    if Is(s, id, Repaid) {
      RepaidIsPaidOut(calls[..n], id);
      LoggedStays(s, r, 0, id);
    }
  }
}
