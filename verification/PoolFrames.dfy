/** What the calls that move money leave alone: positions, schedules, offers and reservations. */
module PoolFrames {
  import opened Wrappers
  import opened Chain
  import opened FinancingPool
  import opened PoolInvariants
  import opened PoolSteps
  import opened PoolNetting

  /** Only pools, cuts, balances, statuses, counters and the log may differ. */
  ghost predicate MoneyOnly(s: State, r: State) {
    r == s.(pools := r.pools, cuts := r.cuts, held := r.held, nft := r.nft, stats := r.stats, disbursed := r.disbursed)
  }

  lemma PayOutMoney(s: State, id: nat, total: int)
    requires id in s.pools && PayOut(s, id, total).Ok?
    ensures MoneyOnly(s, PayOut(s, id, total).value) && PayOut(s, id, total).value.pools == s.pools
  {
  }

  // ── net_settle ───────────────────────────────────────────────────────────────

  lemma {:induction false} ApplyMoney(s: State, ids: seq<nat>, allocs: seq<int>, n: nat, now: nat)
    requires n <= |ids| == |allocs| && AllStored(s, ids)
    ensures var r := ApplyAllocations(s, ids, allocs, n, now); r.Ok? ==> MoneyOnly(s, r.value)
  {
    if n > 0 { ApplyMoney(s, ids, allocs, n - 1, now); }
  }

  lemma ClosePaidMoney(s: State, id: nat)
    requires ClosePaid(s, id).Ok?
    ensures MoneyOnly(s, ClosePaid(s, id).value) && ClosePaid(s, id).value.pools == s.pools
  {
    PayOutMoney(s, id, s.pools[id].repaid);
  }

  lemma {:induction false} CloseAllMoney(s: State, ids: seq<nat>, n: nat)
    requires n <= |ids|
    ensures CloseAll(s, ids, n).Ok? ==>
      MoneyOnly(s, CloseAll(s, ids, n).value) && CloseAll(s, ids, n).value.pools == s.pools
  {
    if n > 0 && CloseAll(s, ids, n).Ok? {
      CloseAllMoney(s, ids, n - 1);
      ClosePaidMoney(CloseAll(s, ids, n - 1).value, ids[n - 1]);
    }
  }

  lemma NetSettleMoney(s: State, payer: Address, ids: seq<nat>, t: Token, amount: int, env: Env)
    requires NetSettle(s, payer, ids, t, amount, env).Ok?
    ensures MoneyOnly(s, NetSettle(s, payer, ids, t, amount, env).value)
  {
    NetSettleShape(s, payer, ids, t, amount, env);
    var allocs := Allocations(Preflight(s, payer, ids, |ids|, t).value, amount);
    var closing := Closing(s, ids, allocs, |ids|, env.now);
    ApplyMoney(s, ids, allocs, |ids|, env.now);
    CloseAllMoney(Receive(ApplyAllocations(s, ids, allocs, |ids|, env.now).value, t, amount), closing, |closing|);
  }

  // ── Offers and positions ─────────────────────────────────────────────────────

  /** Both states store the same offer and the same positions for `id`. */
  ghost predicate SameOffer(s: State, r: State, id: nat) {
    Get(r.offers, id) == Get(s.offers, id) && PositionsOf(r, id) == PositionsOf(s, id)
  }

  /** The calls that write the offer or the positions of `id`. */
  predicate TouchesOffer(c: Call, id: nat) {
    (c.RecordCall? || c.ProposeEarlyCall? || c.AcceptEarlyCall? || c.CancelEarlyCall?) && c.id == id
  }

  lemma RepayKeepsOffers(s: State, id: nat, amount: int, env: Env)
    requires RepayInternal(s, id, amount, env).Ok?
    ensures RepayInternal(s, id, amount, env).value.offers == s.offers
    ensures RepayInternal(s, id, amount, env).value.positions == s.positions
  {
    var m := Repaying(s, id, amount, env).value;
    if m.pools[id].closed { PayOutMoney(m, id, m.pools[id].repaid); }
  }

  lemma DefaultKeepsOffers(s: State, id: nat, env: Env)
    requires MarkDefault(s, id, env).Ok?
    ensures MarkDefault(s, id, env).value.offers == s.offers && MarkDefault(s, id, env).value.positions == s.positions
  {
    DefaultShape(s, id, env);
  }

  lemma SettleToPoolShape(s: State, id: nat, amount: int)
    requires SettleToPool(s, id, amount).Ok?
    ensures id in s.pools && id in s.nft && !s.nft[id].frozen
    ensures var m := Crediting(s, id, amount);
      if m.pools[id].closed then
        PayOut(m, id, s.pools[id].repaid + amount).Ok?
        && SettleToPool(s, id, amount).value == PayOut(m, id, s.pools[id].repaid + amount).value
      else SettleToPool(s, id, amount).value == m
  {
  }

  lemma SettleKeepsOffers(s: State, id: nat, amount: int, payPool: bool)
    requires SettleEscrow(s, id, amount, payPool).Ok?
    ensures SettleEscrow(s, id, amount, payPool).value.offers == s.offers
    ensures SettleEscrow(s, id, amount, payPool).value.positions == s.positions
  {
    if payPool && s.pools[id].repaid + amount == s.pools[id].totalOwed {
      PayOutMoney(Crediting(s, id, amount), id, s.pools[id].repaid + amount);
    }
  }

  lemma SettlingPaysOut(s: State, investor: Address, j: nat, env: Env)
    requires AcceptEarly(s, investor, j, env).Ok? && j !in AcceptEarly(s, investor, j, env).value.offers
    ensures j in s.offers && j in s.pools && PayOut(Accepted(s, j), j, s.offers[j].amount).Ok?
    ensures AcceptEarly(s, investor, j, env).value.positions
      == PayOut(Accepted(s, j), j, s.offers[j].amount).value.positions
    ensures AcceptEarly(s, investor, j, env).value.offers == s.offers - {j}
  {
  }

  lemma SettlingKeepsPositions(s: State, investor: Address, j: nat, env: Env)
    requires AcceptEarly(s, investor, j, env).Ok? && j !in AcceptEarly(s, investor, j, env).value.offers
    ensures AcceptEarly(s, investor, j, env).value.positions == s.positions
  {
    SettlingPaysOut(s, investor, j, env);
    PayOutMoney(Accepted(s, j), j, s.offers[j].amount);
  }

  lemma OpenOfferMoves(s: State, investor: Address, j: nat, env: Env)
    requires AcceptEarly(s, investor, j, env).Ok? && j in AcceptEarly(s, investor, j, env).value.offers
    ensures var r := AcceptEarly(s, investor, j, env).value; r == s.(offers := s.offers[j := r.offers[j]])
  {
  }

  lemma OneOfferMoves(before: map<nat, Offer>, after: map<nat, Offer>, j: nat, id: nat)
    requires j != id && (after == before - {j} || (j in after && after == before[j := after[j]]))
    ensures Get(after, id) == Get(before, id)
  {
  }

  lemma AcceptMovesOneOffer(s: State, investor: Address, j: nat, env: Env, r: State)
    requires AcceptEarly(s, investor, j, env) == Ok(r)
    ensures r.positions == s.positions
    ensures r.offers == s.offers - {j} || (j in r.offers && r.offers == s.offers[j := r.offers[j]])
  {
    if j in r.offers {
      OpenOfferMoves(s, investor, j, env);
    } else {
      SettlingPaysOut(s, investor, j, env);
      SettlingKeepsPositions(s, investor, j, env);
    }
  }

  lemma AcceptKeepsOthers(s: State, investor: Address, j: nat, env: Env, id: nat)
    requires AcceptEarly(s, investor, j, env).Ok? && j != id
    ensures SameOffer(s, AcceptEarly(s, investor, j, env).value, id)
  {
    var r := AcceptEarly(s, investor, j, env).value;
    AcceptMovesOneOffer(s, investor, j, env, r);
    OneOfferMoves(s.offers, r.offers, j, id);
  }

  predicate MovesMoney(c: Call) { c.RepayCall? || c.NetSettleCall? || c.DefaultCall? || c.SettleCall? }

  lemma MoneyKeepsOffers(s: State, c: Call, env: Env)
    requires MovesMoney(c) && Attempt(s, c, env).Ok?
    ensures Attempt(s, c, env).value.offers == s.offers && Attempt(s, c, env).value.positions == s.positions
  {
    match c
    case RepayCall(j, amount, approved) => RepayKeepsOffers(s, j, amount, env);
    case NetSettleCall(payer, ids, t, amount) => NetSettleMoney(s, payer, ids, t, amount, env);
    case DefaultCall(j) => DefaultKeepsOffers(s, j, env);
    case SettleCall(j, amount, payPool) =>
      var received := if payPool && j in s.pools then Receive(s, s.pools[j].token, amount) else s;
      SettleKeepsOffers(received, j, amount, payPool);
  }

  lemma InvoiceCallKeepsOffers(s: State, c: Call, env: Env)
    requires (c.MintCall? || c.ListCall? || c.FreezeCall? || c.ReleaseCall?) && Attempt(s, c, env).Ok?
    ensures Attempt(s, c, env).value.offers == s.offers && Attempt(s, c, env).value.positions == s.positions
  {
  }

  lemma PlanCallKeepsOffers(s: State, c: Call, env: Env)
    requires (c.ScheduleCall? || c.ReserveCall?) && Attempt(s, c, env).Ok?
    ensures Attempt(s, c, env).value.offers == s.offers && Attempt(s, c, env).value.positions == s.positions
  {
  }

  lemma OfferCallKeepsOthers(s: State, c: Call, env: Env, id: nat)
    requires (c.RecordCall? || c.ProposeEarlyCall? || c.CancelEarlyCall?) && Attempt(s, c, env).Ok? && c.id != id
    ensures SameOffer(s, Attempt(s, c, env).value, id)
  {
  }

  lemma DirectKeepsOffer(s: State, c: Call, env: Env, id: nat)
    requires !MovesMoney(c) && !c.AcceptEarlyCall?
    requires Attempt(s, c, env).Ok? && !TouchesOffer(c, id)
    ensures SameOffer(s, Attempt(s, c, env).value, id)
  {
    if c.MintCall? || c.ListCall? || c.FreezeCall? || c.ReleaseCall? {
      InvoiceCallKeepsOffers(s, c, env);
    } else if c.ScheduleCall? || c.ReserveCall? {
      PlanCallKeepsOffers(s, c, env);
    } else {
      OfferCallKeepsOthers(s, c, env, id);
    }
  }

  /** No other call writes the offer or the positions of `id`. */
  lemma OfferUntouched(s: State, c: Call, env: Env, id: nat)
    requires Attempt(s, c, env).Ok? && !TouchesOffer(c, id)
    ensures SameOffer(s, Attempt(s, c, env).value, id)
  {
    if MovesMoney(c) {
      MoneyKeepsOffers(s, c, env);
    } else if c.AcceptEarlyCall? {
      AcceptKeepsOthers(s, c.investor, c.id, env, id);
    } else {
      DirectKeepsOffer(s, c, env, id);
    }
  }
}
