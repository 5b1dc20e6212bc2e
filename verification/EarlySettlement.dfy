/** Early settlement: the offer is documented to settle once all investors have accepted. What the contract looks at
    is a running total of the shares that were recorded when each of them accepted. */
module EarlySettlement {
  import opened Wrappers
  import opened Int128
  import opened Chain
  import opened MapSum
  import opened FinancingPool
  import opened PoolInvariants
  import opened PoolFrames
  import InvoiceNft
  import Rounding

  const UNANIMITY: nat := 10_000

  ghost function AcceptedShares(ps: map<Address, Position>, accepted: seq<Address>): map<Address, int> {
    map a | a in ps && a in accepted :: ps[a].shareBps
  }

  /** The running total of an offer is the sum of the shares of those who accepted, each counted once. */
  ghost predicate Tallied(s: State, id: nat) {
    && id in s.offers
    && s.offers[id].acceptedBps == Total(AcceptedShares(PositionsOf(s, id), s.offers[id].accepted))
    && forall a :: a in s.offers[id].accepted ==> a in PositionsOf(s, id)
  }

  lemma FreshOfferTallied(s: State, sme: Address, id: nat, amount: int, env: Env)
    ensures var r := ProposeEarly(s, sme, id, amount, env); r.Ok? ==> Tallied(r.value, id)
  {
    if ProposeEarly(s, sme, id, amount, env).Ok? {
      assert AcceptedShares(PositionsOf(s, id), []) == map[];
    }
  }

  lemma OneMoreAcceptance(ps: map<Address, Position>, accepted: seq<Address>, investor: Address)
    requires investor in ps && investor !in accepted
    ensures Total(AcceptedShares(ps, accepted + [investor])) ==
      Total(AcceptedShares(ps, accepted)) + ps[investor].shareBps
  {
    var before := AcceptedShares(ps, accepted);
    assert AcceptedShares(ps, accepted + [investor]) == before[investor := ps[investor].shareBps];
    TotalUpdate(before, investor, ps[investor].shareBps);
  }

  lemma OpenAcceptanceTallied(s: State, investor: Address, id: nat, env: Env)
    requires Tallied(s, id) && AcceptEarly(s, investor, id, env).Ok?
      && id in AcceptEarly(s, investor, id, env).value.offers
    ensures Tallied(AcceptEarly(s, investor, id, env).value, id)
  {
    OneMoreAcceptance(PositionsOf(s, id), s.offers[id].accepted, investor);
  }

  lemma AcceptedAtMostAll(ps: map<Address, Position>, accepted: seq<Address>)
    ensures Total(AcceptedShares(ps, accepted)) <= ShareSum(ps)
    ensures (forall a :: a in ps ==> a in accepted) ==> Total(AcceptedShares(ps, accepted)) == ShareSum(ps)
  {
    PartOfTotal(AcceptedShares(ps, accepted), Shares(ps));
    if forall a :: a in ps ==> a in accepted { assert AcceptedShares(ps, accepted) == Shares(ps); }
  }

  // ── The running total over runs ──────────────────────────────────────────────

  lemma SameOfferTallied(s: State, r: State, id: nat)
    requires SameOffer(s, r, id) && Tallied(s, id)
    ensures Tallied(r, id)
  {
  }

  lemma Rerecorded(ps: map<Address, Position>, accepted: seq<Address>, investor: Address, p: Position)
    requires forall a :: a in accepted ==> a in ps
    ensures Total(AcceptedShares(ps[investor := p], accepted))
      == Total(AcceptedShares(ps, accepted)) + (if investor in accepted then p.shareBps - ps[investor].shareBps else 0)
  {
    var before, bps := AcceptedShares(ps, accepted), p.shareBps as int;
    if investor in accepted {
      TotalUpdate(before, investor, bps);
      assert AcceptedShares(ps[investor := p], accepted) == before[investor := bps];
    } else {
      assert AcceptedShares(ps[investor := p], accepted) == before;
    }
  }

  /** Recording a position while an offer is open keeps its total right if and only if the investor has not accepted
      yet, or the recorded share stays the same. */
  lemma RecordKeepsTallyIff(s: State, id: nat, investor: Address, contributed: int, totalPool: int, env: Env, r: State)
    requires Tallied(s, id) && RecordPosition(s, id, investor, contributed, totalPool, env) == Ok(r)
    ensures Tallied(r, id) <==>
      investor !in s.offers[id].accepted || PositionsOf(s, id)[investor].shareBps == PositionBps(contributed, totalPool)
  {
    Rerecorded(PositionsOf(s, id), s.offers[id].accepted, investor,
      Position(contributed, PositionBps(contributed, totalPool)));
  }

  /** No position of `id` is recorded while an offer for it is open. */
  ghost predicate SharesFixed(calls: seq<(Call, Env)>, id: nat)
    decreases |calls|
  {
    calls != [] ==>
      var n := |calls| - 1;
      && SharesFixed(calls[..n], id)
      && (calls[n].0.RecordCall? && calls[n].0.id == id ==> id !in Run(EMPTY, calls[..n]).offers)
  }

  lemma CallKeepsTally(s: State, c: Call, env: Env, id: nat, r: State)
    requires id in s.offers ==> Tallied(s, id)
    requires c.RecordCall? && c.id == id ==> id !in s.offers
    requires Attempt(s, c, env) == Ok(r)
    ensures id in r.offers ==> Tallied(r, id)
  {
    if !TouchesOffer(c, id) {
      OfferUntouched(s, c, env, id);
      if id in s.offers { SameOfferTallied(s, r, id); }
    } else if c.ProposeEarlyCall? {
      FreshOfferTallied(s, c.sme, id, c.amount, env);
    } else if c.AcceptEarlyCall? && id in r.offers {
      OpenAcceptanceTallied(s, c.investor, id, env);
    }
  }

  /** Over every run that records no position under an open offer, the offer's total is the sum of the shares of those
      who accepted. */
  lemma {:induction false} RunTallied(calls: seq<(Call, Env)>, id: nat)
    requires SharesFixed(calls, id)
    ensures id in Run(EMPTY, calls).offers ==> Tallied(Run(EMPTY, calls), id)
    decreases |calls|
  {
    if calls != [] {
      var n := |calls| - 1;
      RunTallied(calls[..n], id);
      var s := Run(EMPTY, calls[..n]);
      if Attempt(s, calls[n].0, calls[n].1).Ok? {
        CallKeepsTally(s, calls[n].0, calls[n].1, id, Attempt(s, calls[n].0, calls[n].1).value);
      }
    }
  }

  // ── When an offer settles ────────────────────────────────────────────────────

  /** In every state: an acceptance settles if and only if it lifts the running total to 10 000 basis points; then the
      pool is closed and the invoice repaid, and otherwise no pool changes and nothing is paid. */
  lemma AcceptanceSettlesIff(s: State, investor: Address, id: nat, env: Env, r: State)
    requires AcceptEarly(s, investor, id, env) == Ok(r)
    ensures id in s.offers && investor in PositionsOf(s, id)
    ensures id !in r.offers <==> s.offers[id].acceptedBps + PositionsOf(s, id)[investor].shareBps >= UNANIMITY
    ensures id !in r.offers ==>
      Is(r, id, InvoiceNft.Repaid) && r.pools[id].closed && r.pools[id].repaid == s.offers[id].amount
    ensures id in r.offers ==> r.pools == s.pools && r.disbursed == s.disbursed && r.held == s.held
  {
    var o := s.offers[id];
    if o.acceptedBps + PositionsOf(s, id)[investor].shareBps >= UNANIMITY {
      PayOutMoney(PutPool(s, id, s.pools[id].(repaid := o.amount, closed := true)), id, o.amount);
    }
  }

  /** After a run that records no position under the open offer, the acceptance of the last investor settles it if and
      only if the recorded shares of all investors reach 10 000 basis points; rounded-down shares often do not. */
  lemma LastAcceptanceSettlesIff(calls: seq<(Call, Env)>, investor: Address, id: nat, env: Env, r: State)
    requires SharesFixed(calls, id) && AcceptEarly(Run(EMPTY, calls), investor, id, env) == Ok(r)
    requires id in Run(EMPTY, calls).offers
    requires var s := Run(EMPTY, calls);
      forall a :: a in PositionsOf(s, id) ==> a in s.offers[id].accepted || a == investor
    ensures id !in r.offers <==> ShareSum(PositionsOf(Run(EMPTY, calls), id)) >= UNANIMITY
  {
    var s := Run(EMPTY, calls);
    RunTallied(calls, id);
    OneMoreAcceptance(PositionsOf(s, id), s.offers[id].accepted, investor);
    AcceptedAtMostAll(PositionsOf(s, id), s.offers[id].accepted + [investor]);
    AcceptanceSettlesIff(s, investor, id, env, r);
  }

  /** ... and with less than that recorded, no acceptance ever settles. */
  lemma NeverSettlesBelowUnanimity(calls: seq<(Call, Env)>, investor: Address, id: nat, env: Env, r: State)
    requires SharesFixed(calls, id) && AcceptEarly(Run(EMPTY, calls), investor, id, env) == Ok(r)
    requires ShareSum(PositionsOf(Run(EMPTY, calls), id)) < UNANIMITY
    ensures id in r.offers && r.pools == Run(EMPTY, calls).pools && r.disbursed == Run(EMPTY, calls).disbursed
  {
    var s := Run(EMPTY, calls);
    RunTallied(calls, id);
    OneMoreAcceptance(PositionsOf(s, id), s.offers[id].accepted, investor);
    AcceptedAtMostAll(PositionsOf(s, id), s.offers[id].accepted + [investor]);
    AcceptanceSettlesIff(s, investor, id, env, r);
  }

  /** Three equal contributions are recorded as 3 333 basis points each. */
  lemma ThirdsFallShort(third: int)
    requires 0 < third && 3 * third <= MAX_AMOUNT
    ensures PositionBps(third, 3 * third) == 3_333
    ensures ShareSum(map[1 := Position(third, 3_333), 2 := Position(third, 3_333), 3 := Position(third, 3_333)]) ==
      9_999
  {
    Thirds(third);
    var ps := map[1 := Position(third, 3_333), 2 := Position(third, 3_333), 3 := Position(third, 3_333)];
    var one, two: map<Address, int> := map[1 := 3_333], map[1 := 3_333, 2 := 3_333];
    TotalUpdate(map[], 1, 3_333);
    TotalUpdate(one, 2, 3_333);
    TotalUpdate(two, 3, 3_333);
    assert map[][1 := 3_333] == one && one[2 := 3_333] == two && Shares(ps) == two[3 := 3_333];
  }

  lemma Thirds(x: int)
    requires x > 0
    ensures x * BPS / (3 * x) == 3_333
  {
    assert 3_333 * (3 * x) == 9_999 * x;
    Rounding.DivideUnique(x * BPS, 3 * x, 3_333);
  }
}
