/** Scheduled pools: the repaid amount follows the schedule, whatever else happens to the contract. */
module Installments {
  import opened Wrappers
  import opened Chain
  import opened SeqSum
  import opened FinancingPool
  import opened PoolInvariants
  import opened PoolSteps
  import opened PoolSafety
  import opened PoolRuns
  import opened PoolNetting
  import opened PoolFrames
  import opened PenaltyTerms

  /** What the first `k` installments amount to. */
  function Prefix(parts: seq<Installment>, k: nat): int
    requires k <= |parts|
  {
    Sum(Amounts(parts)[..k])
  }

  lemma PrefixStep(parts: seq<Installment>, k: nat)
    requires k < |parts|
    ensures Prefix(parts, k + 1) == Prefix(parts, k) + parts[k].amount
  {
    assert Amounts(parts)[..k + 1] == Amounts(parts)[..k] + [parts[k].amount];
    SumSnoc(Amounts(parts)[..k], parts[k].amount);
  }

  lemma {:induction false} PrefixBelow(parts: seq<Installment>, k: nat)
    requires k < |parts| && forall i :: 0 <= i < |parts| ==> parts[i].amount > 0
    ensures Prefix(parts, k) + parts[k].amount <= Prefix(parts, |parts|)
    decreases |parts| - k
  {
    PrefixStep(parts, k);
    if k + 1 < |parts| { PrefixBelow(parts, k + 1); }
  }

  /** The pool is where its schedule says: before the last installment it is open and has received exactly
      the installments so far; after it, it is closed exactly when the debt is covered. */
  ghost predicate OnSchedule(s: State, id: nat) {
    && id in s.pools && id in s.schedules && id !in s.pending && id !in s.credited
    && var sc, p := s.schedules[id], s.pools[id];
    && sc.nextIndex <= |sc.installments| && sc.installments != []
    && (forall i :: 0 <= i < |sc.installments| ==> sc.installments[i].amount > 0)
    && Prefix(sc.installments, |sc.installments|) <= p.totalOwed
    && if sc.nextIndex < |sc.installments| then !p.closed && p.repaid == Prefix(sc.installments, sc.nextIndex)
       else p.repaid >= Prefix(sc.installments, |sc.installments|) && (p.closed <==> p.repaid >= p.totalOwed)
  }

  // ── Setting a schedule ───────────────────────────────────────────────────────

  lemma {:induction false} NoObjection(parts: seq<Installment>)
    requires ScheduleObjection(parts).None?
    ensures forall i :: 0 <= i < |parts| ==> parts[i].amount > 0
    ensures forall i, j :: 0 <= i < j < |parts| ==> parts[i].dueDate <= parts[j].dueDate
  {
    if parts != [] {
      var n := |parts| - 1;
      NoObjection(parts[..n]);
      forall i | 0 <= i < |parts| ensures parts[i].amount > 0 {
        if i < n { assert parts[..n][i] == parts[i]; }
      }
      forall i, j | 0 <= i < j < |parts| ensures parts[i].dueDate <= parts[j].dueDate {
        assert forall k :: 0 <= k < n ==> parts[..n][k] == parts[k];
        if j == n && i < n - 1 { assert parts[i].dueDate <= parts[n - 1].dueDate; }
      }
    }
  }

  lemma FreshSchedule(s: State, id: nat, sc: Schedule, env: Env)
    requires Sound(s)
    ensures var r := SetInstallmentSchedule(s, id, sc, env);
      r.Ok? ==> OnSchedule(r.value, id) && r.value.schedules[id] == sc && sc.nextIndex == 0
                && r.value.pools[id].totalOwed == Prefix(sc.installments, |sc.installments|)
  {
    SoundAt(s, id);
    if SetInstallmentSchedule(s, id, sc, env).Ok? {
      NoObjection(sc.installments);
      assert Amounts(sc.installments)[..|sc.installments|] == Amounts(sc.installments);
      assert Amounts(sc.installments)[..0] == [];
    }
  }

  // ── Repaying along the schedule ──────────────────────────────────────────────

  /** The same amounts and due dates, whatever is ticked off. */
  predicate SameTerms(a: seq<Installment>, b: seq<Installment>) {
    |a| == |b| && forall k :: 0 <= k < |a| ==> a[k].amount == b[k].amount && a[k].dueDate == b[k].dueDate
  }

  lemma SameTermsAmounts(a: seq<Installment>, b: seq<Installment>)
    requires SameTerms(a, b)
    ensures Amounts(a) == Amounts(b)
  {
  }

  lemma AdvanceKeepsTerms(sc: Schedule)
    ensures SameTerms(Advance(sc).installments, sc.installments)
    ensures Amounts(Advance(sc).installments) == Amounts(sc.installments)
  {
    SameTermsAmounts(Advance(sc).installments, sc.installments);
  }

  /** What a repayment does to pool and schedule, whether or not it closes the pool. */
  lemma RepayShape(s: State, id: nat, amount: int, env: Env)
    requires RepayInternal(s, id, amount, env).Ok? && id in s.schedules
    ensures id in s.pools && id in s.nft && !s.pools[id].closed && DueDate(s, id, amount).Ok?
    ensures Charged(s.pools[id], DueDate(s, id, amount).value, amount, env).Ok?
    ensures var r := RepayInternal(s, id, amount, env).value;
      && r.pools == s.pools[id := Charged(s.pools[id], DueDate(s, id, amount).value, amount, env).value.0]
      && r.schedules == s.schedules[id := Advance(s.schedules[id])]
      && r.pending == s.pending && r.credited == s.credited
  {
    var m := Repaying(s, id, amount, env).value;
    if m.pools[id].closed { PayOutMoney(m, id, m.pools[id].repaid); }
  }

  /** The charge never lowers the debt; without a late penalty it leaves it as it is. */
  lemma ChargedOwes(p: Pool, due: nat, amount: int, env: Env)
    requires PoolSound(p) && ValidEnv(env) && Charged(p, due, amount, env).Ok?
    ensures var q := Charged(p, due, amount, env).value.0;
      && q.totalOwed >= p.totalOwed && q.repaid == p.repaid + amount && (q.closed <==> q.repaid >= q.totalOwed)
      && (!PenaltyDue(p, due, env) ==> q.totalOwed == p.totalOwed)
  {
    LatePenaltyBounds(p, due, env);
  }

  lemma ScheduledRepay(s: State, id: nat, amount: int, env: Env)
    requires IdSound(s, id, false) && OnSchedule(s, id) && amount > 0 && ValidEnv(env)
    requires RepayInternal(s, id, amount, env).Ok?
    ensures var r := RepayInternal(s, id, amount, env).value; var sc := s.schedules[id];
      && OnSchedule(r, id) && sc.nextIndex < |sc.installments|
      && r.schedules[id] == Advance(sc)
      && (sc.nextIndex < |sc.installments| - 1 ==> amount == sc.installments[sc.nextIndex].amount)
      && (env.penaltyBps == 0 || env.now <= sc.installments[sc.nextIndex].dueDate ==>
        r.pools[id].totalOwed == s.pools[id].totalOwed)
  {
    RepayShape(s, id, amount, env);
    var sc, p := s.schedules[id], s.pools[id];
    var r := RepayInternal(s, id, amount, env).value;
    ChargedOwes(p, DueDate(s, id, amount).value, amount, env);
    AdvanceKeepsTerms(sc);
    PrefixStep(sc.installments, sc.nextIndex);
    if sc.nextIndex + 1 < |sc.installments| { PrefixBelow(sc.installments, sc.nextIndex + 1); }
  }

  // ── Other calls ──────────────────────────────────────────────────────────────

  /** Calls that do not move the pool of `id` by themselves: no second schedule, no early buyout, no netting of it. */
  predicate LeavesSchedule(c: Call, id: nat) {
    if c.NetSettleCall? then id !in c.ids else InvoiceOf(c) == id ==> !c.ScheduleCall? && !c.AcceptEarlyCall?
  }

  lemma OtherInvoice(s: State, s': State, id: nat, j: nat)
    requires Elsewhere(s, s', j) && j != id && OnSchedule(s, id)
    ensures OnSchedule(s', id) && s'.schedules[id] == s.schedules[id] && s'.pools[id] == s.pools[id]
  {
    assert SameAt(s, s', id);
  }

  ghost predicate SamePlan(s: State, s': State, id: nat) {
    && s'.schedules == s.schedules && Get(s'.pools, id) == Get(s.pools, id)
    && id !in s'.pending && (id in s'.credited <==> id in s.credited)
  }

  lemma DefaultKeepsPlan(s: State, id: nat, env: Env)
    requires OnSchedule(s, id) && MarkDefault(s, id, env).Ok?
    ensures SamePlan(s, MarkDefault(s, id, env).value, id)
  {
  }

  lemma OwnCall(s: State, c: Call, id: nat, env: Env)
    requires OneInvoice(c) && OnSchedule(s, id) && LeavesSchedule(c, id) && InvoiceOf(c) == id
    requires !c.RepayCall? && !c.DefaultCall? && Attempt(s, c, env).Ok?
    ensures SamePlan(s, Attempt(s, c, env).value, id)
  {
  }

  /** Netting other invoices leaves a scheduled pool alone. */
  lemma NettingKeepsPlan(s: State, payer: Address, ids: seq<nat>, t: Token, amount: int, env: Env, id: nat)
    requires OnSchedule(s, id) && NoDuplicates(ids) && id !in ids && NetSettle(s, payer, ids, t, amount, env).Ok?
    ensures SamePlan(s, NetSettle(s, payer, ids, t, amount, env).value, id)
  {
    NettingIsExact(s, payer, ids, t, amount, env);
    NetSettleMoney(s, payer, ids, t, amount, env);
  }

  /** One call: either a repayment of `id`, which advances the schedule, or anything else, which does not. */
  lemma CallOnSchedule(s: State, c: Call, env: Env, id: nat, r: State)
    requires Sound(s) && Disciplined(s, c, env) && OnSchedule(s, id) && LeavesSchedule(c, id)
      && Attempt(s, c, env) == Ok(r)
    ensures OnSchedule(r, id)
    ensures r.schedules[id] == if c.RepayCall? && c.id == id then Advance(s.schedules[id]) else s.schedules[id]
    ensures var sc := s.schedules[id];
      (c.RepayCall? && c.id == id && sc.nextIndex < |sc.installments|
       ==> env.penaltyBps == 0 || env.now <= sc.installments[sc.nextIndex].dueDate)
      ==> r.pools[id].totalOwed == s.pools[id].totalOwed
  {
    if c.NetSettleCall? {
      NettingKeepsPlan(s, c.payer, c.ids, c.token, c.amount, env, id);
    } else if InvoiceOf(c) != id {
      SoundAt(s, InvoiceOf(c));
      CallStep(s, c, env);
      OtherInvoice(s, r, id, InvoiceOf(c));
    } else if c.RepayCall? {
      SoundAt(s, id);
      ScheduledRepay(s, id, c.amount, env);
    } else if c.DefaultCall? {
      DefaultKeepsPlan(s, id, env);
    } else {
      OwnCall(s, c, id, env);
    }
  }

  // ── Runs ─────────────────────────────────────────────────────────────────────

  /** How many of the calls are repayments of `id` that went through. */
  ghost function Payments(s: State, calls: seq<(Call, Env)>, id: nat): nat
    decreases |calls|
  {
    if calls == [] then 0
    else
      var n := |calls| - 1;
      Payments(s, calls[..n], id) + if IsPayment(Run(s, calls[..n]), calls[n].0, calls[n].1, id) then 1 else 0
  }

  ghost predicate IsPayment(s: State, c: Call, env: Env, id: nat) {
    c.RepayCall? && c.id == id && Attempt(s, c, env).Ok?
  }

  predicate AllLeaveSchedule(calls: seq<(Call, Env)>, id: nat) {
    forall i :: 0 <= i < |calls| ==> LeavesSchedule(calls[i].0, id)
  }

  /** Each repayment of `id` that goes through comes by the due date of its installment, or while no penalty is
      charged. */
  ghost predicate Punctual(s: State, calls: seq<(Call, Env)>, id: nat, parts: seq<Installment>)
    decreases |calls|
  {
    calls != [] ==>
      var n := |calls| - 1;
      && Punctual(s, calls[..n], id, parts)
      && (IsPayment(Run(s, calls[..n]), calls[n].0, calls[n].1, id) ==>
            var m := Payments(s, calls[..n], id);
            calls[n].1.penaltyBps == 0 || (m < |parts| && calls[n].1.now <= parts[m].dueDate))
  }

  /** The schedule a run started with, `m` installments later. */
  ghost predicate Followed(s: State, r: State, id: nat, m: nat)
    requires id in s.schedules
  {
    && OnSchedule(r, id)
    && SameTerms(r.schedules[id].installments, s.schedules[id].installments)
    && r.schedules[id].nextIndex == s.schedules[id].nextIndex + m
  }

  /** Over any run, as many installments are ticked off as repayments went through. */
  lemma {:induction false} RunOnSchedule(s: State, calls: seq<(Call, Env)>, id: nat)
    requires Sound(s) && OnSchedule(s, id) && DisciplinedRun(s, calls) && AllLeaveSchedule(calls, id)
    ensures Sound(Run(s, calls)) && Followed(s, Run(s, calls), id, Payments(s, calls, id))
    decreases |calls|
  {
    RunSound(s, calls);
    if calls != [] {
      var n := |calls| - 1;
      RunOnSchedule(s, calls[..n], id);
      var m := Run(s, calls[..n]);
      assert LeavesSchedule(calls[n].0, id);
      if Attempt(m, calls[n].0, calls[n].1).Ok? {
        CallOnSchedule(m, calls[n].0, calls[n].1, id, Attempt(m, calls[n].0, calls[n].1).value);
        OneAdvance(m, calls[n].0, calls[n].1, id);
      }
    }
  }

  /** A repayment finds an installment left to tick off. */
  lemma OneAdvance(s: State, c: Call, env: Env, id: nat)
    requires Sound(s) && OnSchedule(s, id) && Attempt(s, c, env).Ok?
    ensures c.RepayCall? && c.id == id ==> Advance(s.schedules[id]).nextIndex == s.schedules[id].nextIndex + 1
    ensures SameTerms(Advance(s.schedules[id]).installments, s.schedules[id].installments)
  {
    AdvanceKeepsTerms(s.schedules[id]);
    if c.RepayCall? && c.id == id { RepayShape(s, id, c.amount, env); }
  }

  /** Punctual repayments never make the debt grow. */
  lemma {:induction false} PunctualDebt(s: State, calls: seq<(Call, Env)>, id: nat)
    requires Sound(s) && OnSchedule(s, id) && s.schedules[id].nextIndex == 0
    requires DisciplinedRun(s, calls) && AllLeaveSchedule(calls, id)
    requires Punctual(s, calls, id, s.schedules[id].installments)
    ensures id in Run(s, calls).pools && Run(s, calls).pools[id].totalOwed == s.pools[id].totalOwed
    decreases |calls|
  {
    if calls != [] {
      var n := |calls| - 1;
      PunctualDebt(s, calls[..n], id);
      RunOnSchedule(s, calls[..n], id);
      var m := Run(s, calls[..n]);
      assert LeavesSchedule(calls[n].0, id);
      if Attempt(m, calls[n].0, calls[n].1).Ok? {
        CallOnSchedule(m, calls[n].0, calls[n].1, id, Attempt(m, calls[n].0, calls[n].1).value);
      }
    }
  }

  lemma PlanAt(s: State, r: State, id: nat, m: nat)
    requires id in s.schedules && s.schedules[id].nextIndex == 0 && Followed(s, r, id, m)
    ensures var parts := s.schedules[id].installments;
      && m <= |parts|
      && (m < |parts| ==> !r.pools[id].closed && r.pools[id].repaid == Prefix(parts, m))
      && (m == |parts| ==> (r.pools[id].closed <==> r.pools[id].repaid >= r.pools[id].totalOwed)
                           && r.pools[id].repaid >= Prefix(parts, m))
  {
    SameTermsAmounts(r.schedules[id].installments, s.schedules[id].installments);
  }

  /** From a schedule just accepted, over any run that leaves it alone: after `m` repayments the pool holds exactly the
      first `m` installments and is open, until the last one; and if the repayments were punctual, the last one closes
      it. */
  lemma RepaidIsPrefixSum(s: State, calls: seq<(Call, Env)>, id: nat)
    requires Sound(s) && OnSchedule(s, id) && s.schedules[id].nextIndex == 0
    requires s.pools[id].totalOwed == Prefix(s.schedules[id].installments, |s.schedules[id].installments|)
    requires DisciplinedRun(s, calls) && AllLeaveSchedule(calls, id)
    ensures var r, m, parts := Run(s, calls), Payments(s, calls, id), s.schedules[id].installments;
      && m <= |parts| && id in r.pools
      && (m < |parts| ==> !r.pools[id].closed && r.pools[id].repaid == Prefix(parts, m))
      && (m == |parts| && Punctual(s, calls, id, parts) ==> r.pools[id].closed)
  {
    RunOnSchedule(s, calls, id);
    PlanAt(s, Run(s, calls), id, Payments(s, calls, id));
    if Punctual(s, calls, id, s.schedules[id].installments) { PunctualDebt(s, calls, id); }
  }

  // ── With the one-time penalty ────────────────────────────────────────────────

  /** The final payment closes the pool if and only if it covers the last installment, what earlier penalties added to
      the debt, and what the treasury leaves of the penalty that is due now. */
  lemma FinalPaymentClosesIff(s: State, id: nat, amount: int, env: Env, r: State, penalty: int, cut: int)
    requires Sound(s) && OnSchedule(s, id) && amount > 0 && ValidEnv(env) && RepayInternal(s, id, amount, env) == Ok(r)
    requires s.schedules[id].nextIndex == |s.schedules[id].installments| - 1
    requires var parts := s.schedules[id].installments;
      LateTerms(s.pools[id], parts[|parts| - 1].dueDate, env, penalty, cut)
    ensures var p, parts := s.pools[id], s.schedules[id].installments;
      && id in r.pools
      && (r.pools[id].closed <==>
            amount >= parts[|parts| - 1].amount + (p.totalOwed - Prefix(parts, |parts|)) + penalty - cut)
  {
    SoundAt(s, id);
    var penalty', cut' := RepayCharges(s, id, amount, env, r);
    TermsAreUnique(s.pools[id], DueNow(s, id), env, penalty, cut, penalty', cut');
    var parts := s.schedules[id].installments;
    PrefixStep(parts, |parts| - 1);
  }

  /** After a final payment that did not close the pool, `repay` is never accepted again. */
  lemma UnderpaidIsStuck(s: State, calls: seq<(Call, Env)>, id: nat, amount: int, env: Env)
    requires Sound(s) && OnSchedule(s, id) && DisciplinedRun(s, calls) && AllLeaveSchedule(calls, id)
    requires s.schedules[id].nextIndex == |s.schedules[id].installments| && !s.pools[id].closed
    ensures var r := Run(s, calls);
      && RepayInternal(r, id, amount, env).Err?
      && (id in r.nft && !r.nft[id].frozen && id in r.pools && !r.pools[id].closed ==>
            RepayInternal(r, id, amount, env).error == RepaymentAlreadyMade)
  {
    RunOnSchedule(s, calls, id);
    var r := Run(s, calls);
    if RepayInternal(r, id, amount, env).Ok? { RepayShape(r, id, amount, env); }
  }

  /** ... while `net_settle` looks at no schedule and still takes the pool. */
  lemma UnderpaidCanBeNetted(s: State, id: nat, payer: Address)
    requires Sound(s) && OnSchedule(s, id) && !s.pools[id].closed
    requires id in s.nft && !s.nft[id].frozen && s.nft[id].sme == payer
    ensures NettingCheck(s, payer, id, s.pools[id].token).None? && Remaining(s.pools[id]) > 0
  {
    SoundAt(s, id);
  }
}
