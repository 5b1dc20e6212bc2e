/** `net_settle` does not check that its ids differ. When the payment is credited in full, for any list of ids. */
module NettingRepeats {
  import opened Wrappers
  import opened Chain
  import opened SeqSum
  import opened MapSum
  import opened FinancingPool
  import opened PoolNetting
  import opened PoolFrames
  import Netting

  /** How much the repaid amount of each stored pool grew. */
  ghost function Gains(s: State, r: State): map<nat, int> {
    map id | id in s.pools && id in r.pools :: r.pools[id].repaid - s.pools[id].repaid
  }

  /** One of the first `n` allocations to `id` is positive. */
  predicate CreditedWithin(ids: seq<nat>, allocs: seq<int>, n: nat, id: nat)
    requires n <= |ids| == |allocs|
  {
    exists i :: 0 <= i < n && ids[i] == id && allocs[i] > 0
  }

  /** No id among the first `n` receives two positive allocations. */
  predicate CreditedOnce(ids: seq<nat>, allocs: seq<int>, n: nat)
    requires n <= |ids| == |allocs|
  {
    forall i, j :: 0 <= i < j < n && ids[i] == ids[j] ==> allocs[i] <= 0 || allocs[j] <= 0
  }

  lemma CreditedOnceStep(ids: seq<nat>, allocs: seq<int>, n: nat)
    requires 0 < n <= |ids| == |allocs|
    ensures CreditedOnce(ids, allocs, n)
      <==> CreditedOnce(ids, allocs, n - 1) && (allocs[n - 1] > 0 ==> !CreditedWithin(ids, allocs, n - 1, ids[n - 1]))
  {
  }

  /** The gains the first `n` allocations have left behind. */
  ghost predicate TrackedGains(gains: map<nat, int>, ids: seq<nat>, allocs: seq<int>, n: nat)
    requires n <= |ids| == |allocs|
  {
    && (forall id :: id in gains ==> gains[id] >= 0 && (gains[id] > 0 <==> CreditedWithin(ids, allocs, n, id)))
    && Total(gains) <= Sum(allocs[..n])
    && (Total(gains) == Sum(allocs[..n]) <==> CreditedOnce(ids, allocs, n))
  }

  ghost predicate Tracked(s: State, r: State, ids: seq<nat>, allocs: seq<int>, n: nat)
    requires n <= |ids| == |allocs|
  {
    r.pools.Keys == s.pools.Keys && TrackedGains(Gains(s, r), ids, allocs, n)
  }

  lemma CreditedWithinStep(ids: seq<nat>, allocs: seq<int>, n: nat, id: nat)
    requires 0 < n <= |ids| == |allocs|
    ensures CreditedWithin(ids, allocs, n, id)
      <==> CreditedWithin(ids, allocs, n - 1, id) || (id == ids[n - 1] && allocs[n - 1] > 0)
  {
    if id == ids[n - 1] && allocs[n - 1] > 0 { assert ids[n - 1] == id; }
  }

  /** An allocation of nothing changes no gain. */
  lemma ZeroTracked(gains: map<nat, int>, ids: seq<nat>, allocs: seq<int>, n: nat)
    requires 0 < n <= |ids| == |allocs| && TrackedGains(gains, ids, allocs, n - 1) && allocs[n - 1] == 0
    ensures TrackedGains(gains, ids, allocs, n)
  {
    assert allocs[..n] == allocs[..n - 1] + [allocs[n - 1]];
    SumSnoc(allocs[..n - 1], allocs[n - 1]);
    CreditedOnceStep(ids, allocs, n);
    forall id | id in gains ensures CreditedWithin(ids, allocs, n, id) <==> CreditedWithin(ids, allocs, n - 1, id) {
      CreditedWithinStep(ids, allocs, n, id);
    }
  }

  /** A positive allocation replaces what the pool had gained before. */
  lemma PositiveTracked(gains: map<nat, int>, ids: seq<nat>, allocs: seq<int>, n: nat)
    requires 0 < n <= |ids| == |allocs| && TrackedGains(gains, ids, allocs, n - 1) && allocs[n - 1] > 0
    requires ids[n - 1] in gains
    ensures TrackedGains(gains[ids[n - 1] := allocs[n - 1]], ids, allocs, n)
  {
    assert allocs[..n] == allocs[..n - 1] + [allocs[n - 1]];
    SumSnoc(allocs[..n - 1], allocs[n - 1]);
    CreditedOnceStep(ids, allocs, n);
    TotalUpdate(gains, ids[n - 1], allocs[n - 1]);
    var after := gains[ids[n - 1] := allocs[n - 1]];
    forall id | id in after
      ensures after[id] >= 0 && (after[id] > 0 <==> CreditedWithin(ids, allocs, n, id))
    {
      CreditedWithinStep(ids, allocs, n, id);
    }
  }

  lemma GainsAfter(s: State, e: State, id: nat, p: Pool)
    requires e.pools.Keys == s.pools.Keys && id in s.pools
    ensures var r := PutPool(e, id, p);
      r.pools.Keys == s.pools.Keys && Gains(s, r) == Gains(s, e)[id := p.repaid - s.pools[id].repaid]
  {
    var r := PutPool(e, id, p);
    assert r.pools.Keys == s.pools.Keys;
    assert Gains(s, r) == Gains(s, e)[id := p.repaid - s.pools[id].repaid];
  }

  lemma TrackedZero(s: State, e: State, ids: seq<nat>, allocs: seq<int>, n: nat)
    requires 0 < n <= |ids| == |allocs| && Tracked(s, e, ids, allocs, n - 1) && allocs[n - 1] == 0
    ensures Tracked(s, e, ids, allocs, n)
  {
    ZeroTracked(Gains(s, e), ids, allocs, n);
  }

  lemma TrackedPositive(s: State, e: State, ids: seq<nat>, allocs: seq<int>, n: nat, p: Pool)
    requires 0 < n <= |ids| == |allocs| && Tracked(s, e, ids, allocs, n - 1) && allocs[n - 1] > 0
    requires ids[n - 1] in s.pools && p.repaid == s.pools[ids[n - 1]].repaid + allocs[n - 1]
    ensures Tracked(s, PutPool(e, ids[n - 1], p), ids, allocs, n)
  {
    GainsAfter(s, e, ids[n - 1], p);
    assert ids[n - 1] in Gains(s, e);
    PositiveTracked(Gains(s, e), ids, allocs, n);
  }

  lemma {:induction false} ApplyTracked(s: State, ids: seq<nat>, allocs: seq<int>, n: nat, now: nat)
    requires n <= |ids| == |allocs| && AllStored(s, ids) && forall i :: 0 <= i < |ids| ==> allocs[i] >= 0
    ensures var r := ApplyAllocations(s, ids, allocs, n, now); r.Ok? ==> Tracked(s, r.value, ids, allocs, n)
  {
    if n == 0 {
      NoGains(s);
    } else if ApplyAllocations(s, ids, allocs, n, now).Ok? {
      ApplyTracked(s, ids, allocs, n - 1, now);
      var e := ApplyAllocations(s, ids, allocs, n - 1, now).value;
      if allocs[n - 1] == 0 {
        TrackedZero(s, e, ids, allocs, n);
      } else {
        TrackedPositive(s, e, ids, allocs, n, NettedAt(s, ids[n - 1], allocs[n - 1], now).value);
      }
    }
  }

  lemma NoGains(s: State)
    ensures Total(Gains(s, s)) == 0
  {
    ZeroTotal(Gains(s, s));
  }

  lemma {:induction false} ZeroTotal(m: map<nat, int>)
    requires forall k :: k in m ==> m[k] == 0
    ensures Total(m) == 0
    decreases |m|
  {
    if m != map[] {
      var k :| k in m;
      TotalRemove(m, k);
      ZeroTotal(m - {k});
    }
  }

  /** For every list of ids: a netting that succeeds never credits more than the payment, and it credits the payment in
      full if and only if no id receives two positive allocations. */
  lemma CreditedInFullIff(s: State, payer: Address, ids: seq<nat>, t: Token, amount: int, env: Env, r: State)
    requires NetSettle(s, payer, ids, t, amount, env) == Ok(r)
    ensures Preflight(s, payer, ids, |ids|, t).Ok?
    ensures var remaining := Preflight(s, payer, ids, |ids|, t).value;
      && Sum(remaining) > 0 && |Allocations(remaining, amount)| == |ids|
      && Total(Gains(s, r)) <= amount
      && (Total(Gains(s, r)) == amount <==> CreditedOnce(ids, Allocations(remaining, amount), |ids|))
  {
    NetSettleShape(s, payer, ids, t, amount, env);
    var remaining := Preflight(s, payer, ids, |ids|, t).value;
    var allocs := Allocations(remaining, amount);
    Netting.AllocationsAreExact(remaining, amount);
    ApplyTracked(s, ids, allocs, |ids|, env.now);
    var applied := ApplyAllocations(s, ids, allocs, |ids|, env.now).value;
    var closing := Closing(s, ids, allocs, |ids|, env.now);
    CloseAllMoney(Receive(applied, t, amount), closing, |closing|);
    assert allocs[..|ids|] == allocs;
    assert Gains(s, r) == Gains(s, applied);
  }
}
