/** The terms a pool lives by: its face value is the invoice's, shares are contributions, schedules and defaults come
    when they are due, and a withdrawn buyout leaves nothing behind. */
module PoolTerms {
  import opened Wrappers
  import opened Int128
  import opened Chain
  import opened SeqSum
  import opened Rounding
  import opened InvoiceNft
  import opened FinancingPool
  import opened PoolInvariants
  import opened PoolSteps
  import opened PoolSafety
  import opened PoolNetting
  import opened PoolFrames

  // ── The face value ───────────────────────────────────────────────────────────

  ghost predicate SameInvoices(before: map<nat, Invoice>, after: map<nat, Invoice>) {
    forall id {:trigger id in after} {:trigger id in before} :: id in before ==>
      && id in after && after[id].amount == before[id].amount && after[id].dueDate == before[id].dueDate
      && after[id].sme == before[id].sme
  }

  ghost predicate SamePools(before: map<nat, Pool>, after: map<nat, Pool>) {
    forall id {:trigger id in after} :: id in before ==>
      && id in after && after[id].faceValue == before[id].faceValue && after[id].token == before[id].token
      && after[id].latePenaltyBps == before[id].latePenaltyBps
  }

  ghost predicate NewFaces(before: set<nat>, pools: map<nat, Pool>, nft: map<nat, Invoice>) {
    forall id :: id in pools && id !in before ==> id in nft && pools[id].faceValue == nft[id].amount
  }

  /** Invoices keep amount, due date and SME; pools keep token, face value and stored rate; a new pool gets the
      invoice's amount. */
  ghost predicate KeepsTerms(s: State, r: State) {
    SameInvoices(s.nft, r.nft) && SamePools(s.pools, r.pools) && NewFaces(s.pools.Keys, r.pools, r.nft)
  }

  lemma PayOutKeepsTerms(s: State, id: nat, total: int)
    requires id in s.pools && PayOut(s, id, total).Ok?
    ensures KeepsTerms(s, PayOut(s, id, total).value)
  {
  }

  lemma TermsTransitive(s: State, m: State, r: State)
    requires KeepsTerms(s, m) && KeepsTerms(m, r) && m.pools.Keys == s.pools.Keys && r.pools.Keys == m.pools.Keys
    ensures KeepsTerms(s, r)
  {
  }

  lemma RepayingKeepsTerms(s: State, id: nat, amount: int, env: Env)
    requires id in s.pools && id in s.nft && Repaying(s, id, amount, env).Ok?
    ensures KeepsTerms(s, Repaying(s, id, amount, env).value)
    ensures Repaying(s, id, amount, env).value.pools.Keys == s.pools.Keys
  {
  }

  lemma RepayKeepsTerms(s: State, id: nat, amount: int, env: Env)
    requires RepayInternal(s, id, amount, env).Ok?
    ensures KeepsTerms(s, RepayInternal(s, id, amount, env).value)
  {
    RepayingKeepsTerms(s, id, amount, env);
    var m := Repaying(s, id, amount, env).value;
    if m.pools[id].closed { ThenPayOut(s, m, id, m.pools[id].repaid); }
  }

  lemma ThenPayOut(s: State, m: State, id: nat, total: int)
    requires KeepsTerms(s, m) && m.pools.Keys == s.pools.Keys && id in m.pools && PayOut(m, id, total).Ok?
    ensures KeepsTerms(s, PayOut(m, id, total).value)
  {
    PayOutKeepsTerms(m, id, total);
    PayOutMoney(m, id, total);
    TermsTransitive(s, m, PayOut(m, id, total).value);
  }

  lemma AcceptedKeepsTerms(s: State, id: nat)
    requires id in s.pools && id in s.offers
    ensures KeepsTerms(s, Accepted(s, id)) && Accepted(s, id).pools.Keys == s.pools.Keys
  {
  }

  lemma AcceptKeepsTerms(s: State, investor: Address, id: nat, env: Env)
    requires AcceptEarly(s, investor, id, env).Ok?
    ensures KeepsTerms(s, AcceptEarly(s, investor, id, env).value)
  {
    var o := s.offers[id];
    if o.acceptedBps + PositionsOf(s, id)[investor].shareBps >= 10_000 {
      AcceptedKeepsTerms(s, id);
      ThenPayOut(s, Accepted(s, id), id, o.amount);
    }
  }

  lemma DefaultKeepsTerms(s: State, id: nat, env: Env)
    requires MarkDefault(s, id, env).Ok?
    ensures KeepsTerms(s, MarkDefault(s, id, env).value)
  {
    DefaultShape(s, id, env);
    DefaultPayoutKeeps(s, id);
    DefaultingKeepsTerms(s, DefaultPayout(s, id).value, id);
  }

  lemma DefaultingKeepsTerms(s: State, d: State, id: nat)
    requires id in s.pools && id in d.nft && d.nft == s.nft && d.pools == Marked(s, id).pools
    ensures KeepsTerms(s, Defaulting(s, d, id))
  {
    MarkedKeepsPools(s, id);
    StatusKeepsInvoices(s.nft, id, Defaulted);
  }

  lemma MarkedKeepsPools(s: State, id: nat)
    requires id in s.pools
    ensures SamePools(s.pools, Marked(s, id).pools) && Marked(s, id).pools.Keys == s.pools.Keys
  {
  }

  lemma StatusKeepsInvoices(nft: map<nat, Invoice>, id: nat, status: Status)
    requires id in nft
    ensures SameInvoices(nft, nft[id := nft[id].(status := status)])
  {
  }

  lemma DefaultPayoutKeeps(s: State, id: nat)
    requires id in s.pools && DefaultPayout(s, id).Ok?
    ensures DefaultPayout(s, id).value.nft == s.nft && DefaultPayout(s, id).value.pools == Marked(s, id).pools
  {
    assert Marked(s, id).nft == s.nft;
  }

  lemma CreditingKeepsTerms(s: State, id: nat, amount: int)
    requires id in s.pools
    ensures KeepsTerms(s, Crediting(s, id, amount)) && Crediting(s, id, amount).pools.Keys == s.pools.Keys
  {
  }

  lemma SettleToPoolKeepsTerms(s: State, id: nat, amount: int)
    requires SettleToPool(s, id, amount).Ok?
    ensures KeepsTerms(s, SettleToPool(s, id, amount).value)
  {
    CreditingKeepsTerms(s, id, amount);
    var repaid := s.pools[id].repaid + amount;
    if repaid == s.pools[id].totalOwed { ThenPayOut(s, Crediting(s, id, amount), id, repaid); }
  }

  lemma SettleKeepsTerms(s: State, id: nat, amount: int, payPool: bool)
    requires SettleEscrow(s, id, amount, payPool).Ok?
    ensures KeepsTerms(s, SettleEscrow(s, id, amount, payPool).value)
  {
    if payPool { SettleToPoolKeepsTerms(s, id, amount); }
  }

  lemma ClosePaidKeepsTerms(m: State, id: nat)
    ensures var r := ClosePaid(m, id); r.Ok? ==> SameInvoices(m.nft, r.value.nft)
  {
    if ClosePaid(m, id).Ok? { PayOutKeepsTerms(m, id, m.pools[id].repaid); }
  }

  lemma InvoicesTransitive(a: map<nat, Invoice>, b: map<nat, Invoice>, c: map<nat, Invoice>)
    requires SameInvoices(a, b) && SameInvoices(b, c)
    ensures SameInvoices(a, c)
  {
  }

  lemma {:induction false} CloseAllKeepsTerms(s: State, ids: seq<nat>, n: nat)
    requires n <= |ids|
    ensures var r := CloseAll(s, ids, n); r.Ok? ==> SameInvoices(s.nft, r.value.nft)
  {
    if n > 0 && CloseAll(s, ids, n).Ok? {
      CloseAllKeepsTerms(s, ids, n - 1);
      var earlier := CloseAll(s, ids, n - 1).value;
      ClosePaidKeepsTerms(earlier, ids[n - 1]);
      InvoicesTransitive(s.nft, earlier.nft, CloseAll(s, ids, n).value.nft);
    }
  }

  lemma {:induction false} ApplyKeepsTerms(s: State, ids: seq<nat>, allocs: seq<int>, n: nat, now: nat)
    requires n <= |ids| == |allocs| && AllStored(s, ids)
    ensures var r := ApplyAllocations(s, ids, allocs, n, now);
      r.Ok? ==> KeepsTerms(s, r.value) && r.value.pools.Keys == s.pools.Keys && r.value.nft == s.nft
  {
    if n > 0 { ApplyKeepsTerms(s, ids, allocs, n - 1, now); }
  }

  lemma NetSettleKeepsTerms(s: State, payer: Address, ids: seq<nat>, t: Token, amount: int, env: Env)
    requires NetSettle(s, payer, ids, t, amount, env).Ok?
    ensures KeepsTerms(s, NetSettle(s, payer, ids, t, amount, env).value)
  {
    NetSettleShape(s, payer, ids, t, amount, env);
    var allocs := Allocations(Preflight(s, payer, ids, |ids|, t).value, amount);
    var closing := Closing(s, ids, allocs, |ids|, env.now);
    ApplyKeepsTerms(s, ids, allocs, |ids|, env.now);
    var received := Receive(ApplyAllocations(s, ids, allocs, |ids|, env.now).value, t, amount);
    CloseAllKeepsTerms(received, closing, |closing|);
    CloseAllMoney(received, closing, |closing|);
    TermsTransitive(s, received, CloseAll(received, closing, |closing|).value);
  }

  lemma InvoiceCallsKeepTerms(s: State, c: Call, env: Env)
    requires (c.MintCall? || c.ListCall? || c.FreezeCall? || c.ReleaseCall?) && Attempt(s, c, env).Ok?
    ensures KeepsTerms(s, Attempt(s, c, env).value)
  {
  }

  lemma OthersKeepPools(s: State, c: Call, env: Env)
    requires c.RecordCall? || c.ScheduleCall? || c.ProposeEarlyCall? || c.CancelEarlyCall? || c.ReserveCall?
    requires Attempt(s, c, env).Ok?
    ensures Attempt(s, c, env).value.pools == s.pools && Attempt(s, c, env).value.nft == s.nft
  {
    match c
    case RecordCall(id, investor, contributed, totalPool) =>
      assert Attempt(s, c, env) == RecordPosition(s, id, investor, contributed, totalPool, env);
    case ScheduleCall(id, sc) => assert Attempt(s, c, env) == SetInstallmentSchedule(s, id, sc, env);
    case ProposeEarlyCall(sme, id, amount) => assert Attempt(s, c, env) == ProposeEarly(s, sme, id, amount, env);
    case CancelEarlyCall(sme, id) => assert Attempt(s, c, env) == CancelEarly(s, sme, id);
    case ReserveCall(id, amount) => assert Attempt(s, c, env) == ReserveEscrow(s, id, amount, env);
  }

  lemma CallKeepsTerms(s: State, c: Call, env: Env)
    requires Attempt(s, c, env).Ok?
    ensures KeepsTerms(s, Attempt(s, c, env).value)
  {
    match c
    case RepayCall(id, amount, approved) => RepayKeepsTerms(s, id, amount, env);
    case NetSettleCall(payer, ids, t, amount) => NetSettleKeepsTerms(s, payer, ids, t, amount, env);
    case DefaultCall(id) => DefaultKeepsTerms(s, id, env);
    case AcceptEarlyCall(investor, id) => AcceptKeepsTerms(s, investor, id, env);
    case SettleCall(id, amount, payPool) =>
      SettleKeepsTerms(if payPool && id in s.pools then Receive(s, s.pools[id].token, amount) else s,
                       id, amount, payPool);
    case _ =>
      if c.MintCall? || c.ListCall? || c.FreezeCall? || c.ReleaseCall? {
        InvoiceCallsKeepTerms(s, c, env);
      } else {
        OthersKeepPools(s, c, env);
      }
  }

  /** In every reachable state a pool's face value is the amount its invoice was minted with. */
  lemma {:induction false} FaceIsInvoiceAmount(calls: seq<(Call, Env)>, id: nat)
    requires id in Run(EMPTY, calls).pools
    ensures id in Run(EMPTY, calls).nft && Run(EMPTY, calls).pools[id].faceValue == Run(EMPTY, calls).nft[id].amount
    decreases |calls|
  {
    var n := |calls| - 1;
    var s := Run(EMPTY, calls[..n]);
    if Attempt(s, calls[n].0, calls[n].1).Ok? { CallKeepsTerms(s, calls[n].0, calls[n].1); }
    if id in s.pools { FaceIsInvoiceAmount(calls[..n], id); }
  }

  /** A released pool owes exactly its face value, in the agreed token, at the rate in force; before that nothing was
      owed on the invoice. */
  lemma ReleasedTerms(s: State, id: nat, t: Token, env: Env, r: State)
    requires ReleaseFunds(s, id, t, env) == Ok(r)
    ensures id !in s.pools && id in s.nft && s.nft[id].status == Listed && !env.paused
      && 0 < s.nft[id].amount <= MAX_AMOUNT
    ensures r.pools == s.pools[id := r.pools[id]] && r.nft == s.nft[id := s.nft[id].(status := Funded)]
    ensures var p := r.pools[id];
      && p.faceValue == p.totalOwed == s.nft[id].amount && p.repaid == 0 && !p.closed && !p.penaltyApplied
      && p.token == t && p.latePenaltyBps == env.penaltyBps
    ensures r.held == s.held && r.positions == s.positions
  {
  }

  // ── Positions ────────────────────────────────────────────────────────────────

  /** A recorded share is the contribution's rounded-down part of the pool it is compared with, at most the cap, and
      nobody else's position changes. */
  lemma RecordedShare(s: State, id: nat, investor: Address, contributed: int, totalPool: int, env: Env, r: State)
    requires RecordPosition(s, id, investor, contributed, totalPool, env) == Ok(r)
    ensures env.byAdmin && !env.paused && id in s.pools && id in s.nft && !s.nft[id].frozen
      && 0 < contributed <= totalPool
    ensures investor in PositionsOf(r, id)
    ensures var q := PositionsOf(r, id)[investor];
      && q.contributed == contributed && IsFloor(q.shareBps, contributed * BPS, totalPool)
      && q.shareBps <= env.maxPositionBps && q.shareBps <= BPS
    ensures PositionsOf(r, id) == PositionsOf(s, id)[investor := PositionsOf(r, id)[investor]]
    ensures r == s.(positions := s.positions[id := PositionsOf(r, id)])
  {
    DivideBounds(contributed * BPS, totalPool);
  }

  // ── Schedules ────────────────────────────────────────────────────────────────

  /** Positive installments with due dates in order that add up to the debt. */
  predicate Plausible(parts: seq<Installment>, owed: int) {
    && parts != [] && (forall i :: 0 <= i < |parts| ==> parts[i].amount > 0)
    && (forall i :: 0 < i < |parts| ==> parts[i - 1].dueDate <= parts[i].dueDate)
    && Sum(Amounts(parts)) == owed
  }

  lemma {:induction false} Unobjectionable(parts: seq<Installment>)
    requires Sum(Amounts(parts)) <= MAX && (forall i :: 0 <= i < |parts| ==> parts[i].amount > 0)
    requires forall i :: 0 < i < |parts| ==> parts[i - 1].dueDate <= parts[i].dueDate
    ensures ScheduleObjection(parts).None?
    decreases |parts|
  {
    if parts != [] {
      var n := |parts| - 1;
      assert Amounts(parts) == Amounts(parts[..n]) + [parts[n].amount];
      SumSnoc(Amounts(parts[..n]), parts[n].amount);
      SumNonNegative(Amounts(parts));
      Unobjectionable(parts[..n]);
    }
  }

  lemma {:induction false} NoObjectionMeans(parts: seq<Installment>)
    requires ScheduleObjection(parts).None?
    ensures forall i :: 0 <= i < |parts| ==> parts[i].amount > 0
    ensures forall i :: 0 < i < |parts| ==> parts[i - 1].dueDate <= parts[i].dueDate
    decreases |parts|
  {
    if parts != [] {
      var n := |parts| - 1;
      NoObjectionMeans(parts[..n]);
      assert forall i :: 0 <= i < n ==> parts[..n][i] == parts[i];
    }
  }

  /** The admin's schedule for an open pool that has nothing repaid is accepted if and only if it is plausible. */
  lemma ScheduleAcceptedIff(s: State, id: nat, sc: Schedule, env: Env)
    requires Sound(s) && env.byAdmin && !env.paused && id !in s.credited && id !in s.pending
    requires id in s.pools && !s.pools[id].closed && s.pools[id].repaid == 0
    ensures SetInstallmentSchedule(s, id, sc, env).Ok? <==>
      sc.nextIndex == 0 && Plausible(sc.installments, s.pools[id].totalOwed)
    ensures SetInstallmentSchedule(s, id, sc, env).Ok? ==>
      SetInstallmentSchedule(s, id, sc, env).value == s.(schedules := s.schedules[id := sc])
  {
    SoundAt(s, id);
    if ScheduleObjection(sc.installments).None? { NoObjectionMeans(sc.installments); }
    if Plausible(sc.installments, s.pools[id].totalOwed) { Unobjectionable(sc.installments); }
  }

  // ── Buyouts and defaults ─────────────────────────────────────────────────────

  /** A buyout that is proposed and withdrawn leaves everything, and every balance, as it was. */
  lemma WithdrawnBuyoutLeavesNothing(s: State, sme: Address, id: nat, amount: int, env: Env, m: State, t: Token)
    requires ProposeEarly(s, sme, id, amount, env) == Ok(m) && Held(s, s.pools[id].token) >= 0
    ensures CancelEarly(m, sme, id).Ok?
    ensures var r := CancelEarly(m, sme, id).value; r == s.(held := r.held) && Held(r, t) == Held(s, t)
    ensures Held(m, s.pools[id].token) == Held(s, s.pools[id].token) + amount && amount > 0
    ensures id in m.offers && m.offers[id] == Offer(amount, 0, [])
    ensures s.pools[id].totalFunded <= amount < s.pools[id].totalOwed && s.nft[id].sme == sme
  {
    assert m.offers - {id} == s.offers;
  }

  /** Only an invoice that is past its due date and its grace period, undisputed, can be defaulted, by the admin. */
  lemma DefaultedWhenDue(s: State, id: nat, env: Env, r: State)
    requires MarkDefault(s, id, env) == Ok(r)
    ensures env.byAdmin && !env.paused && !env.disputeOpen && id in s.pools && Is(s, id, Funded) && Is(r, id, Defaulted)
    ensures env.now > s.nft[id].dueDate && env.now >= s.nft[id].dueDate + env.gracePeriod
  {
    DefaultShape(s, id, env);
    DefaultPayoutKeeps(s, id);
    MarkedKeepsPools(s, id);
    DefaultedStatus(s, DefaultPayout(s, id).value, id);
  }

  lemma DefaultedStatus(s: State, d: State, id: nat)
    requires id in s.pools && id in d.nft && d.pools.Keys == s.pools.Keys
    ensures Is(Defaulting(s, d, id), id, Defaulted)
  {
  }

  /** A default closes the pool exactly if it was credited through the escrow, and changes no debt. */
  lemma DefaultClosesIff(s: State, id: nat, env: Env, r: State)
    requires MarkDefault(s, id, env) == Ok(r) && id in s.pools
    ensures r.pools == s.pools[id := s.pools[id].(closed := id in s.credited)]
  {
    DefaultShape(s, id, env);
    DefaultPayoutKeeps(s, id);
    MarkedIs(s, id);
  }

  lemma MarkedIs(s: State, id: nat)
    requires id in s.pools && !s.pools[id].closed
    ensures Marked(s, id).pools == s.pools[id := s.pools[id].(closed := id in s.credited)]
  {
    if id !in s.credited { assert s.pools[id].(closed := false) == s.pools[id]; }
  }

  // ── Frozen invoices and a paused protocol ────────────────────────────────────

  lemma FrozenIsNotNetted(s: State, payer: Address, ids: seq<nat>, t: Token, amount: int, env: Env, id: nat)
    requires id in s.nft && s.nft[id].frozen && NoDuplicates(ids) && NetSettle(s, payer, ids, t, amount, env).Ok?
    ensures id !in ids
    ensures id in s.pools ==>
      Get(NetSettle(s, payer, ids, t, amount, env).value.pools, id) == Get(s.pools, id)
  {
    NetSettleShape(s, payer, ids, t, amount, env);
    forall i | 0 <= i < |ids| ensures ids[i] != id { assert NettingCheck(s, payer, ids[i], t).None?; }
    NettingIsExact(s, payer, ids, t, amount, env);
  }

  /** Nothing more is repaid into the pool of a frozen invoice, and nobody's position in it changes, except by the
      buyout that settles it. */
  lemma FrozenIsUntouched(s: State, c: Call, env: Env, r: State, id: nat)
    requires id in s.pools && id in s.nft && s.nft[id].frozen && Attempt(s, c, env) == Ok(r)
    requires c.NetSettleCall? ==> NoDuplicates(c.ids)
    requires !(c.AcceptEarlyCall? && c.id == id)
    ensures id in r.pools && r.pools[id].repaid == s.pools[id].repaid && r.pools[id].totalOwed == s.pools[id].totalOwed
    ensures PositionsOf(r, id) == PositionsOf(s, id)
  {
    match c
    case RepayCall(j, amount, approved) => RepayMovesOne(s, j, amount, env, id);
    case NetSettleCall(payer, ids, t, amount) =>
      FrozenIsNotNetted(s, payer, ids, t, amount, env, id);
      NetSettleMoney(s, payer, ids, t, amount, env);
    case DefaultCall(j) => DefaultMovesNothing(s, j, env, id);
    case AcceptEarlyCall(investor, j) => AcceptMovesOne(s, investor, j, env, id);
    case SettleCall(j, amount, payPool) => SettleMovesOne(s, c, env, id);
    case _ => RestMoveNothing(s, c, env, id);
  }

  lemma RepayMovesOne(s: State, j: nat, amount: int, env: Env, id: nat)
    requires RepayInternal(s, j, amount, env).Ok?
    ensures id == j ==> id in s.nft && !s.nft[id].frozen
    ensures var r := RepayInternal(s, j, amount, env).value;
      id != j ==> Get(r.pools, id) == Get(s.pools, id) && PositionsOf(r, id) == PositionsOf(s, id)
  {
    RepayingMovesOne(s, j, amount, env, id);
    var m := Repaying(s, j, amount, env).value;
    if m.pools[j].closed { PayOutMoney(m, j, m.pools[j].repaid); }
  }

  lemma RepayingMovesOne(s: State, j: nat, amount: int, env: Env, id: nat)
    requires j in s.pools && j in s.nft && Repaying(s, j, amount, env).Ok?
    ensures var m := Repaying(s, j, amount, env).value;
      m.positions == s.positions && j in m.pools && (id != j ==> Get(m.pools, id) == Get(s.pools, id))
  {
  }

  lemma DefaultMovesNothing(s: State, j: nat, env: Env, id: nat)
    requires id in s.pools && MarkDefault(s, j, env).Ok?
    ensures var r := MarkDefault(s, j, env).value;
      && id in r.pools && r.pools[id].repaid == s.pools[id].repaid && r.pools[id].totalOwed == s.pools[id].totalOwed
      && PositionsOf(r, id) == PositionsOf(s, id)
  {
    DefaultShape(s, j, env);
    DefaultPayoutKeeps(s, j);
    DefaultKeepsOffers(s, j, env);
  }

  lemma AcceptMovesOne(s: State, investor: Address, j: nat, env: Env, id: nat)
    requires AcceptEarly(s, investor, j, env).Ok? && id != j
    ensures var r := AcceptEarly(s, investor, j, env).value;
      Get(r.pools, id) == Get(s.pools, id) && PositionsOf(r, id) == PositionsOf(s, id)
  {
    AcceptKeepsOthers(s, investor, j, env, id);
    if s.offers[j].acceptedBps + PositionsOf(s, j)[investor].shareBps >= 10_000 {
      PayOutMoney(Accepted(s, j), j, s.offers[j].amount);
    }
  }

  lemma SettleMovesOne(s: State, c: Call, env: Env, id: nat)
    requires c.SettleCall? && Attempt(s, c, env).Ok? && id in s.pools && id in s.nft && s.nft[id].frozen
    ensures var r := Attempt(s, c, env).value;
      Get(r.pools, id) == Get(s.pools, id) && PositionsOf(r, id) == PositionsOf(s, id)
  {
    var s0 := if c.payPool && c.id in s.pools then Receive(s, s.pools[c.id].token, c.amount) else s;
    SettleKeepsOffers(s0, c.id, c.amount, c.payPool);
    if c.payPool { CreditMovesOne(s0, c.id, c.amount, id); }
  }

  lemma CreditMovesOne(s: State, j: nat, amount: int, id: nat)
    requires SettleToPool(s, j, amount).Ok? && id in s.nft && s.nft[id].frozen
    ensures Get(SettleToPool(s, j, amount).value.pools, id) == Get(s.pools, id)
  {
    SettleToPoolShape(s, j, amount);
    if Crediting(s, j, amount).pools[j].closed {
      PayOutMoney(Crediting(s, j, amount), j, s.pools[j].repaid + amount);
    }
  }

  lemma InvoiceCallsMoveOthers(s: State, c: Call, env: Env, id: nat)
    requires (c.MintCall? || c.ListCall? || c.FreezeCall? || c.ReleaseCall?) && Attempt(s, c, env).Ok? && id in s.pools
    ensures Get(Attempt(s, c, env).value.pools, id) == Get(s.pools, id)
  {
  }

  lemma FrozenIsNotRecorded(s: State, c: Call, env: Env, id: nat)
    requires c.RecordCall? && Attempt(s, c, env).Ok? && id in s.nft && s.nft[id].frozen
    ensures c.id != id
  {
  }

  lemma RestKeepsPositions(s: State, c: Call, env: Env)
    requires (c.ProposeEarlyCall? || c.CancelEarlyCall?) && Attempt(s, c, env).Ok?
    ensures Attempt(s, c, env).value.positions == s.positions
  {
  }

  lemma RestMoveNothing(s: State, c: Call, env: Env, id: nat)
    requires c.MintCall? || c.ListCall? || c.FreezeCall? || c.ReleaseCall? || c.RecordCall? || c.ScheduleCall?
      || c.ProposeEarlyCall? || c.CancelEarlyCall? || c.ReserveCall?
    requires Attempt(s, c, env).Ok? && id in s.pools && id in s.nft && s.nft[id].frozen
    ensures var r := Attempt(s, c, env).value;
      Get(r.pools, id) == Get(s.pools, id) && PositionsOf(r, id) == PositionsOf(s, id)
  {
    if c.MintCall? || c.ListCall? || c.FreezeCall? || c.ReleaseCall? {
      InvoiceCallsMoveOthers(s, c, env, id);
      OfferUntouched(s, c, env, id);
    } else {
      OthersKeepPools(s, c, env);
      if c.ProposeEarlyCall? || c.CancelEarlyCall? {
        RestKeepsPositions(s, c, env);
      } else {
        if c.RecordCall? { FrozenIsNotRecorded(s, c, env, id); }
        OfferUntouched(s, c, env, id);
      }
    }
  }

  /** While the protocol is paused, only these calls go through: repayments, the end of a reservation, the withdrawal of
      a buyout, and the invoice's own. */
  lemma PausedAdmits(s: State, c: Call, env: Env)
    requires env.paused && Attempt(s, c, env).Ok?
    ensures c.RepayCall? || c.SettleCall? || c.CancelEarlyCall? || c.MintCall? || c.ListCall? || c.FreezeCall?
  {
  }
}
