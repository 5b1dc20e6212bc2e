/** Safety of the financing pool over whole runs. */
module PoolRuns {
  import opened Wrappers
  import opened Int128
  import opened Chain
  import opened MapSum
  import opened InvoiceNft
  import opened FinancingPool
  import opened PoolInvariants
  import opened PoolSteps
  import opened PoolSafety
  import opened PoolNetting
  import opened PenaltyTerms

  /** The one default that pays out more than was repaid: nobody holds a position, so the payout is the
      recorded treasury cut alone. */
  predicate CutUncovered(s: State, id: nat) {
    id in s.pools && s.pools[id].repaid > 0 && PositionsOf(s, id) == map[] && Cut(s, id) > s.pools[id].repaid
  }

  /** What the callers of the contract have to respect; the contract does not check it. */
  ghost predicate Disciplined(s: State, c: Call, env: Env) {
    && ValidEnv(env)
    && match c
       case RecordCall(id, investor, contributed, totalPool) =>
         var r := RecordPosition(s, id, investor, contributed, totalPool, env);
         r.Ok? ==> ShareSum(PositionsOf(r.value, id)) <= BPS
       case NetSettleCall(_, ids, _, _) => NoDuplicates(ids)
       case DefaultCall(id) => !CutUncovered(s, id)
       case _ => true
  }

  ghost predicate DisciplinedRun(s: State, calls: seq<(Call, Env)>)
    decreases |calls|
  {
    calls != [] ==>
      var n := |calls| - 1;
      DisciplinedRun(s, calls[..n]) && Disciplined(Run(s, calls[..n]), calls[n].0, calls[n].1)
  }

  predicate OneInvoice(c: Call) { !c.NetSettleCall? }

  function InvoiceOf(c: Call): nat
    requires OneInvoice(c)
  {
    match c
    case MintCall(id, _, _, _) => id
    case ListCall(id) => id
    case FreezeCall(id, _) => id
    case ReleaseCall(id, _) => id
    case RecordCall(id, _, _, _) => id
    case RepayCall(id, _, _) => id
    case ScheduleCall(id, _) => id
    case DefaultCall(id) => id
    case ProposeEarlyCall(_, id, _) => id
    case AcceptEarlyCall(_, id) => id
    case CancelEarlyCall(_, id) => id
    case ReserveCall(id, _) => id
    case SettleCall(id, _, _) => id
  }

  /** Every call on one invoice keeps that invoice's books and the slack of every token. */
  lemma CallStep(s: State, c: Call, env: Env)
    requires OneInvoice(c) && IdSound(s, InvoiceOf(c), false) && Disciplined(s, c, env)
    ensures Attempt(s, c, env).Ok? ==> GoodStep(s, Attempt(s, c, env).value, InvoiceOf(c))
  {
    match c
    case MintCall(id, amount, due, sme) => MintStep(s, id, amount, due, sme);
    case ListCall(id) => ListStep(s, id);
    case FreezeCall(id, frozen) => FreezeStep(s, id, frozen);
    case ReleaseCall(id, t) => ReleaseStep(s, id, t, env);
    case RecordCall(id, investor, contributed, totalPool) => RecordStep(s, id, investor, contributed, totalPool, env);
    case RepayCall(id, amount, approved) => if amount > 0 { RepayStep(s, id, amount, env); }
    case ScheduleCall(id, sc) => ScheduleStep(s, id, sc, env);
    case DefaultCall(id) => DefaultStep(s, id, env);
    case ProposeEarlyCall(sme, id, amount) => ProposeStep(s, sme, id, amount, env);
    case AcceptEarlyCall(investor, id) => AcceptStep(s, investor, id, env);
    case CancelEarlyCall(sme, id) => CancelStep(s, sme, id);
    case ReserveCall(id, amount) => ReserveStep(s, id, amount, env);
    case SettleCall(id, amount, payPool) => SettleStep(s, id, amount, payPool);
  }

  lemma OneInvoiceSound(s: State, s': State, id: nat)
    requires Sound(s) && GoodStep(s, s', id)
    ensures Sound(s')
  {
    GoodStepSound(s, s', id, {});
    assert {} - {id} == {};
  }

  lemma AttemptSound(s: State, c: Call, env: Env)
    requires Sound(s) && Disciplined(s, c, env) && Attempt(s, c, env).Ok?
    ensures Sound(Attempt(s, c, env).value) && forall t :: Slack(Attempt(s, c, env).value, t) >= Slack(s, t)
  {
    if OneInvoice(c) {
      SoundAt(s, InvoiceOf(c));
      CallStep(s, c, env);
      OneInvoiceSound(s, Attempt(s, c, env).value, InvoiceOf(c));
    } else {
      NetSettleSound(s, c.payer, c.ids, c.token, c.amount, env);
    }
  }

  /** Every call keeps a sound state sound and takes nothing from what is held for others. */
  lemma StepSound(s: State, c: Call, env: Env)
    requires Sound(s) && Disciplined(s, c, env)
    ensures Sound(Step(s, c, env)) && forall t :: Slack(Step(s, c, env), t) >= Slack(s, t)
  {
    if Attempt(s, c, env).Ok? { AttemptSound(s, c, env); }
  }

  lemma EmptySound()
    ensures Sound(EMPTY) && forall t :: Slack(EMPTY, t) == 0
  {
    forall id: nat ensures BooksSound(EMPTY, id, {}) {
      assert Shares(map[]) == map[];
    }
    assert Having(EMPTY, Funded) == {} && Having(EMPTY, Defaulted) == {};
    forall t ensures Slack(EMPTY, t) == 0 {
      assert Liabilities(EMPTY, t) == map[] && Buyouts(EMPTY, t) == map[];
    }
  }

  lemma {:induction false} RunSound(s: State, calls: seq<(Call, Env)>)
    requires Sound(s) && DisciplinedRun(s, calls)
    ensures Sound(Run(s, calls)) && forall t :: Slack(Run(s, calls), t) >= Slack(s, t)
    decreases |calls|
  {
    if calls != [] {
      var n := |calls| - 1;
      RunSound(s, calls[..n]);
      StepSound(Run(s, calls[..n]), calls[n].0, calls[n].1);
    }
  }

  // ── The theorems ─────────────────────────────────────────────────────────────

  /** Custody: in every reachable state the contract's balance of each token covers what was repaid into
      all pools of that token that are not paid out yet, together with all buyouts it holds. */
  lemma Custody(calls: seq<(Call, Env)>, t: Token)
    requires DisciplinedRun(EMPTY, calls)
    ensures var s := Run(EMPTY, calls); Held(s, t) >= Total(Liabilities(s, t)) + Total(Buyouts(s, t))
  {
    EmptySound();
    RunSound(EMPTY, calls);
    assert Slack(EMPTY, t) == 0;
    assert Slack(Run(EMPTY, calls), t) >= Slack(EMPTY, t);
  }

  /** At-most-once: over a whole run no invoice is disbursed twice, and each disbursement - treasury cut
      and all payouts - is at most what was repaid into that pool. */
  lemma DisbursedOnce(calls: seq<(Call, Env)>, i: nat, j: nat)
    requires DisciplinedRun(EMPTY, calls) && i < j < |Run(EMPTY, calls).disbursed|
    ensures var s := Run(EMPTY, calls);
      && s.disbursed[i].invoice != s.disbursed[j].invoice
      && s.disbursed[j].invoice in s.pools
      && 0 <= Outflow(s.disbursed[j]) <= s.pools[s.disbursed[j].invoice].repaid
  {
    EmptySound();
    RunSound(EMPTY, calls);
    assert EntrySound(Run(EMPTY, calls), Run(EMPTY, calls).disbursed[j]);
  }

  /** The counters never drift: opened pools are the active, the defaulted and the repaid ones, and a pool
      that closes or defaults always finds the active counter above zero. */
  lemma CountersExact(calls: seq<(Call, Env)>, id: nat)
    requires DisciplinedRun(EMPTY, calls) && |Run(EMPTY, calls).pools| <= U32_MAX
    ensures var s := Run(EMPTY, calls);
      && s.stats.poolsOpened == |s.pools| == s.stats.activePools + s.stats.poolsDefaulted + |Having(s, Repaid)|
      && (Is(s, id, Funded) ==> s.stats.activePools > 0)
  {
    EmptySound();
    RunSound(EMPTY, calls);
    var s := Run(EMPTY, calls);
    CountersAddUp(s);
    if Is(s, id, Funded) {
      assert id in Having(s, Funded);
      SubsetCardinality({id}, Having(s, Funded));
    }
  }

  /** The NFT and the pool never disagree, and the debt stays between the face value and twice that. */
  lemma StatusMatchesPool(calls: seq<(Call, Env)>, id: nat)
    requires DisciplinedRun(EMPTY, calls)
    ensures var s := Run(EMPTY, calls);
      && (id in s.nft && s.nft[id].status == Funded ==> id in s.pools && !s.pools[id].closed)
      && (id in s.nft && s.nft[id].status == Repaid ==> id in s.pools && s.pools[id].closed)
      && (id in s.pools ==> s.pools[id].faceValue <= s.pools[id].totalOwed <= 2 * s.pools[id].faceValue)
      && (id in s.pools && !s.pools[id].closed ==> s.pools[id].repaid < s.pools[id].totalOwed)
  {
    EmptySound();
    RunSound(EMPTY, calls);
    SoundAt(Run(EMPTY, calls), id);
  }

  // ── What a default may do to custody ─────────────────────────────────────────

  lemma UncoveredDefault(s: State, id: nat, env: Env)
    requires Sound(s) && CutUncovered(s, id) && MarkDefault(s, id, env).Ok?
    ensures var t := s.pools[id].token; Slack(MarkDefault(s, id, env).value, t) < Slack(s, t)
  {
    SoundAt(s, id);
    DefaultShape(s, id, env);
    var t := s.pools[id].token;
    var d, r := DefaultPayout(s, id).value, MarkDefault(s, id, env).value;
    UncoveredPayout(s, id, d);
    UncoveredElsewhere(s, d, id);
    SlackChange(s, r, id, t);
  }

  lemma PayoutToNobody(s: State, id: nat, total: int)
    requires id in s.pools && PositionsOf(s, id) == map[] && Cut(s, id) >= 0 && Distribute(s, id, total).Ok?
    ensures var t := s.pools[id].token; var d := Distribute(s, id, total).value;
      && Held(d, t) == Held(s, t) - Cut(s, id)
      && d == s.(cuts := d.cuts, held := d.held, disbursed := d.disbursed) && d.cuts == s.cuts - {id}
  {
    assert Payouts(map[], Saturate(total - Cut(s, id)), s.pools[id].token) == map[];
  }

  lemma UncoveredPayout(s: State, id: nat, d: State)
    requires CutUncovered(s, id) && DefaultPayout(s, id) == Ok(d)
    ensures Held(d, s.pools[id].token) == Held(s, s.pools[id].token) - Cut(s, id)
    ensures d == Marked(s, id).(cuts := d.cuts, held := d.held, disbursed := d.disbursed) && d.cuts == s.cuts - {id}
  {
    PayoutToNobody(Marked(s, id), id, s.pools[id].repaid);
  }

  lemma UncoveredElsewhere(s: State, d: State, id: nat)
    requires id in s.pools && id in s.nft && id in d.nft
    requires d == Marked(s, id).(cuts := d.cuts, held := d.held, disbursed := d.disbursed) && d.cuts == s.cuts - {id}
    ensures Elsewhere(s, Defaulting(s, d, id), id)
    ensures Held(Defaulting(s, d, id), s.pools[id].token) == Held(d, s.pools[id].token)
  {
  }

  /** A default that succeeds takes from what is held for others if and only if the pool has no investor
      and its recorded treasury cut exceeds what was repaid. */
  lemma DefaultLeaksIff(s: State, id: nat, env: Env)
    requires Sound(s) && MarkDefault(s, id, env).Ok?
    ensures id in s.pools
    ensures (exists t :: Slack(MarkDefault(s, id, env).value, t) < Slack(s, t)) <==> CutUncovered(s, id)
  {
    SoundAt(s, id);
    DefaultShape(s, id, env);
    if CutUncovered(s, id) {
      UncoveredDefault(s, id, env);
    } else {
      DefaultStep(s, id, env);
    }
  }

  /** How such a pool comes about: by a late repayment that leaves less repaid than the treasury's part of the
      penalty. */
  lemma SmallLateRepaymentUncovers(s: State, id: nat, amount: int, env: Env, r: State, penalty: int, cut: int)
    requires Sound(s) && ValidEnv(env) && amount > 0 && PositionsOf(s, id) == map[]
    requires RepayInternal(s, id, amount, env) == Ok(r) && id in s.pools && id in s.nft
    requires LateTerms(s.pools[id], DueNow(s, id), env, penalty, cut) && s.pools[id].repaid + amount < cut
    ensures CutUncovered(r, id)
  {
    SoundAt(s, id);
    var penalty', cut' := RepayCharges(s, id, amount, env, r);
    TermsAreUnique(s.pools[id], DueNow(s, id), env, penalty, cut, penalty', cut');
    assert !r.pools[id].closed;
  }
}
