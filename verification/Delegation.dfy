/** `governance_voting`: the delegation map and its reverse index. */
module Delegation {
  import opened Wrappers
  import opened Int128
  import opened Chain
  import opened SeqSum
  import MapSum

  datatype DelegationError = InvalidAddress | CircularDelegation | DelegationNotFound

  /** `Delegation(a)` and `DelegatedBy(d)`; an empty `DelegatedBy` entry is removed from storage. */
  datatype Ledger = Ledger(delegation: map<Address, Address>, delegatedBy: map<Address, seq<Address>>)

  const EMPTY := Ledger(map[], map[])

  // ── Specification ────────────────────────────────────────────────────────────

  function Listed(index: map<Address, seq<Address>>, delegate: Address): seq<Address> {
    if delegate in index then index[delegate] else []
  }

  function Without(s: seq<Address>, a: Address): (r: seq<Address>)
    ensures forall x :: x in r <==> x in s && x != a
    ensures NoDuplicates(s) ==> NoDuplicates(r)
  {
    if s == [] then []
    else if s[0] == a then Without(s[1..], a)
    else
      var rest := Without(s[1..], a);
      assert NoDuplicates(s) ==> NoDuplicates(s[1..]) && s[0] !in s[1..];
      assert s[0] !in s[1..] ==> s[0] !in rest;
      assert forall j :: 0 < j < |[s[0]] + rest| ==> ([s[0]] + rest)[j] in rest;
      [s[0]] + rest
  }

  function AddToIndex(index: map<Address, seq<Address>>, delegate: Address,
      delegator: Address): map<Address, seq<Address>>
  {
    if delegator in Listed(index, delegate) then index else index[delegate := Listed(index, delegate) + [delegator]]
  }

  function RemoveFromIndex(index: map<Address, seq<Address>>, delegate: Address,
      delegator: Address): map<Address, seq<Address>>
  {
    var kept := Without(Listed(index, delegate), delegator);
    if kept != [] then index[delegate := kept] else index - {delegate}
  }

  function Delegate(l: Ledger, delegator: Address, delegate: Address): Result<Ledger, DelegationError> {
    if delegator == delegate then Err(InvalidAddress)
    else if delegate in l.delegation && l.delegation[delegate] == delegator then Err(CircularDelegation)
    else
      var freed := if delegator in l.delegation
                   then RemoveFromIndex(l.delegatedBy, l.delegation[delegator], delegator) else l.delegatedBy;
      Ok(Ledger(l.delegation[delegator := delegate], AddToIndex(freed, delegate, delegator)))
  }

  function Revoke(l: Ledger, delegator: Address): Result<Ledger, DelegationError> {
    if delegator !in l.delegation then Err(DelegationNotFound)
    else Ok(Ledger(l.delegation - {delegator}, RemoveFromIndex(l.delegatedBy, l.delegation[delegator], delegator)))
  }

  // ── Every reachable ledger ───────────────────────────────────────────────────

  /** The reverse index lists exactly the delegators of each delegate, each once. */
  ghost predicate IndexAgrees(l: Ledger) {
    && (forall d :: d in l.delegatedBy ==> l.delegatedBy[d] != [] && NoDuplicates(l.delegatedBy[d]))
    && (forall a, d :: a in Listed(l.delegatedBy, d) <==> a in l.delegation && l.delegation[a] == d)
  }

  ghost predicate NoShortCycle(l: Ledger) {
    forall a :: a in l.delegation ==>
      var d := l.delegation[a];
      d != a && !(d in l.delegation && l.delegation[d] == a)
  }

  lemma DelegatePreserves(l: Ledger, delegator: Address, delegate: Address)
    requires IndexAgrees(l) && NoShortCycle(l)
    ensures var r := Delegate(l, delegator, delegate);
      r.Ok? ==> IndexAgrees(r.value) && NoShortCycle(r.value)
  {
    var r := Delegate(l, delegator, delegate);
    if r.Ok? {
      var freed := if delegator in l.delegation
                   then RemoveFromIndex(l.delegatedBy, l.delegation[delegator], delegator) else l.delegatedBy;
      forall a, d
        ensures a in Listed(freed, d) <==> a in l.delegation && a != delegator && l.delegation[a] == d
      {
        assert a in Listed(l.delegatedBy, d) <==> a in l.delegation && l.delegation[a] == d;
      }
      assert delegator !in Listed(freed, delegate);
      forall a, d
        ensures a in Listed(r.value.delegatedBy, d) <==> a in r.value.delegation && r.value.delegation[a] == d
      {
        assert a in Listed(freed, d) <==> a in l.delegation && a != delegator && l.delegation[a] == d;
      }
    }
  }

  lemma RevokePreserves(l: Ledger, delegator: Address)
    requires IndexAgrees(l) && NoShortCycle(l)
    ensures var r := Revoke(l, delegator);
      r.Ok? ==> IndexAgrees(r.value) && NoShortCycle(r.value)
  {
    var r := Revoke(l, delegator);
    if r.Ok? {
      forall a, d
        ensures a in Listed(r.value.delegatedBy, d) <==> a in r.value.delegation && r.value.delegation[a] == d
      {
        assert a in Listed(l.delegatedBy, d) <==> a in l.delegation && l.delegation[a] == d;
      }
    }
  }

  datatype Call = DelegateCall(delegator: Address, delegate: Address) | RevokeCall(delegator: Address)

  function Step(l: Ledger, c: Call): Ledger {
    var r := match c
      case DelegateCall(a, d) => Delegate(l, a, d)
      case RevokeCall(a) => Revoke(l, a);
    if r.Ok? then r.value else l
  }

  function Run(l: Ledger, calls: seq<Call>): Ledger
    decreases |calls|
  {
    if calls == [] then l else Run(Step(l, calls[0]), calls[1..])
  }

  lemma {:induction false} RunPreserves(l: Ledger, calls: seq<Call>)
    requires IndexAgrees(l) && NoShortCycle(l)
    ensures IndexAgrees(Run(l, calls)) && NoShortCycle(Run(l, calls))
    decreases |calls|
  {
    if calls != [] {
      match calls[0]
      case DelegateCall(a, d) => DelegatePreserves(l, a, d); RunPreserves(Step(l, calls[0]), calls[1..]);
      case RevokeCall(a) => RevokePreserves(l, a); RunPreserves(Step(l, calls[0]), calls[1..]);
    }
  }

  /** In every reachable ledger the index is exact and nobody delegates to themselves or back. */
  lemma ReachableIndexAgrees(calls: seq<Call>)
    ensures IndexAgrees(Run(EMPTY, calls)) && NoShortCycle(Run(EMPTY, calls))
  {
    RunPreserves(EMPTY, calls);
  }

  /** The documentation promises no transitive chains; the code only refuses two-party cycles, so a
      three-party cycle is reachable. */
  lemma LongerCyclesAreReachable()
    ensures var l := Step(Step(Step(EMPTY, DelegateCall(1, 2)), DelegateCall(2, 3)), DelegateCall(3, 1));
      l == Run(EMPTY, [DelegateCall(1, 2), DelegateCall(2, 3), DelegateCall(3, 1)])
      && l.delegation == map[1 := 2, 2 := 3, 3 := 1]
  {
    var c := [DelegateCall(1, 2), DelegateCall(2, 3), DelegateCall(3, 1)];
    var l1 := Step(EMPTY, c[0]);
    var l2 := Step(l1, c[1]);
    var l3 := Step(l2, c[2]);
    calc {
      Run(EMPTY, c);
      Run(l1, c[1..]);
      { assert c[1..][1..] == [c[2]]; }
      Run(l2, [c[2]]);
      Run(l3, [c[2]][1..]);
      l3;
    }
  }

  // ── Delegated weight is conserved ────────────────────────────────────────────

  function BaseWeight(weights: map<Address, int>, a: Address): int {
    if a in weights then weights[a] else 0
  }

  function WeightsOf(weights: map<Address, int>, s: seq<Address>): seq<int> {
    seq(|s|, i requires 0 <= i < |s| => BaseWeight(weights, s[i]))
  }

  function SaturatingSum(ws: seq<int>): int {
    if ws == [] then 0 else Saturate(SaturatingSum(ws[..|ws| - 1]) + ws[|ws| - 1])
  }

  /** `get_delegated_weight`. */
  function DelegatedWeight(l: Ledger, weights: map<Address, int>, delegate: Address): int {
    SaturatingSum(WeightsOf(weights, Listed(l.delegatedBy, delegate)))
  }

  lemma {:induction false} SaturatingSumIsSum(ws: seq<int>)
    requires forall i :: 0 <= i < |ws| ==> ws[i] >= 0
    requires Sum(ws) <= MAX
    ensures SaturatingSum(ws) == Sum(ws)
    decreases |ws|
  {
    SumNonNegative(ws);
    if ws != [] {
      var n := |ws| - 1;
      assert ws == ws[..n] + [ws[n]];
      SumSnoc(ws[..n], ws[n]);
      SaturatingSumIsSum(ws[..n]);
    }
  }

  ghost function DelegatorWeights(l: Ledger, weights: map<Address, int>): map<Address, int> {
    map a | a in l.delegation :: BaseWeight(weights, a)
  }

  ghost function DelegateWeights(l: Ledger, weights: map<Address, int>): map<Address, int> {
    map d | d in l.delegatedBy :: DelegatedWeight(l, weights, d)
  }

  ghost function Members(s: seq<Address>): set<Address> { set a | a in s }

  /** Taking the entries of a duplicate-free list out of a ledger of weights. */
  lemma {:induction false} TakeOut(m: map<Address, int>, weights: map<Address, int>, s: seq<Address>)
    requires NoDuplicates(s)
    requires forall a :: a in s ==> a in m && m[a] == BaseWeight(weights, a)
    ensures MapSum.Total(m) == Sum(WeightsOf(weights, s)) + MapSum.Total(m - Members(s))
    decreases |s|
  {
    if s == [] {
      assert m - Members(s) == m;
    } else {
      var a, rest := s[0], s[1..];
      MapSum.TotalRemove(m, a);
      assert a !in rest;
      TakeOut(m - {a}, weights, rest);
      assert m - {a} - Members(rest) == m - Members(s);
      assert WeightsOf(weights, s)[1..] == WeightsOf(weights, rest);
    }
  }

  /** The ledger without one delegate and everybody who chose that delegate. */
  ghost function Forget(l: Ledger, d: Address): Ledger {
    Ledger(l.delegation - Members(Listed(l.delegatedBy, d)), l.delegatedBy - {d})
  }

  lemma ForgetAgrees(l: Ledger, d: Address)
    requires IndexAgrees(l)
    ensures IndexAgrees(Forget(l, d))
  {
    var rest := Forget(l, d);
    forall a, e
      ensures a in Listed(rest.delegatedBy, e) <==> a in rest.delegation && rest.delegation[a] == e
    {
      assert a in Listed(l.delegatedBy, e) <==> a in l.delegation && l.delegation[a] == e;
      assert a in Listed(l.delegatedBy, d) <==> a in l.delegation && l.delegation[a] == d;
    }
  }

  /** Below saturation, the weight delegated to all delegates is the base weight of all delegators:
      no delegator is counted twice and none is lost. */
  lemma {:induction false} DelegatedWeightIsConserved(l: Ledger, weights: map<Address, int>)
    requires IndexAgrees(l)
    requires forall a :: a in weights ==> weights[a] >= 0
    requires MapSum.Total(DelegatorWeights(l, weights)) <= MAX
    ensures MapSum.Total(DelegateWeights(l, weights)) == MapSum.Total(DelegatorWeights(l, weights))
    decreases |l.delegatedBy|
  {
    if l.delegatedBy == map[] {
      assert forall a :: a in l.delegation ==> a in Listed(l.delegatedBy, l.delegation[a]);
      assert DelegatorWeights(l, weights) == map[] && DelegateWeights(l, weights) == map[];
    } else {
      var d :| d in l.delegatedBy;
      ForgetAgrees(l, d);
      ListedDelegators(l, d);
      OneDelegate(l, weights, d);
      DelegatedWeightIsConserved(Forget(l, d), weights);
    }
  }

  lemma ListedDelegators(l: Ledger, d: Address)
    requires IndexAgrees(l)
    ensures NoDuplicates(Listed(l.delegatedBy, d))
    ensures forall a :: a in Listed(l.delegatedBy, d) ==> a in l.delegation
  {
  }

  /** The delegators of one delegate carry the weight it is given. */
  lemma DelegatorsOfOne(l: Ledger, weights: map<Address, int>, d: Address)
    requires d in l.delegatedBy && NoDuplicates(Listed(l.delegatedBy, d))
    requires forall a :: a in Listed(l.delegatedBy, d) ==> a in l.delegation
    requires forall a :: a in weights ==> weights[a] >= 0
    requires MapSum.Total(DelegatorWeights(l, weights)) <= MAX
    ensures var w := DelegatedWeight(l, weights, d);
      MapSum.Total(DelegatorWeights(l, weights)) == w + MapSum.Total(DelegatorWeights(Forget(l, d), weights)) && w >= 0
  {
    var base, listed := DelegatorWeights(l, weights), Listed(l.delegatedBy, d);
    var without := base - Members(listed);
    assert forall a :: a in listed ==> a in base && base[a] == BaseWeight(weights, a);
    TakeOut(base, weights, listed);
    assert DelegatorWeights(Forget(l, d), weights) == without;
    NoSaturation(weights, listed, MapSum.Total(base), without);
  }

  lemma OneDelegate(l: Ledger, weights: map<Address, int>, d: Address)
    requires d in l.delegatedBy && NoDuplicates(Listed(l.delegatedBy, d))
    requires forall a :: a in Listed(l.delegatedBy, d) ==> a in l.delegation
    requires forall a :: a in weights ==> weights[a] >= 0
    requires MapSum.Total(DelegatorWeights(l, weights)) <= MAX
    ensures var w := DelegatedWeight(l, weights, d);
      && MapSum.Total(DelegatorWeights(l, weights)) == w + MapSum.Total(DelegatorWeights(Forget(l, d), weights))
      && MapSum.Total(DelegateWeights(l, weights)) == w + MapSum.Total(DelegateWeights(Forget(l, d), weights))
      && w >= 0
  {
    DelegatorsOfOne(l, weights, d);
    MapSum.TotalRemove(DelegateWeights(l, weights), d);
    assert DelegateWeights(Forget(l, d), weights) == DelegateWeights(l, weights) - {d};
  }

  lemma NoSaturation(weights: map<Address, int>, listed: seq<Address>, total: int, rest: map<Address, int>)
    requires forall a :: a in weights ==> weights[a] >= 0
    requires forall a :: a in rest ==> rest[a] >= 0
    requires total == Sum(WeightsOf(weights, listed)) + MapSum.Total(rest) <= MAX
    ensures SaturatingSum(WeightsOf(weights, listed)) == Sum(WeightsOf(weights, listed)) >= 0
    ensures MapSum.Total(rest) <= MAX
  {
    MapSum.TotalNonNegative(rest);
    SumNonNegative(WeightsOf(weights, listed));
    SaturatingSumIsSum(WeightsOf(weights, listed));
  }

  // ── What a call does ─────────────────────────────────────────────────────────

  /** A delegation is accepted unless it is to oneself or back to one's own delegator; it then replaces an earlier one,
      and nobody else's changes. */
  lemma DelegateTakesEffect(l: Ledger, delegator: Address, delegate: Address)
    requires IndexAgrees(l) && NoShortCycle(l)
    ensures Delegate(l, delegator, delegate).Ok? <==>
      delegator != delegate && !(delegate in l.delegation && l.delegation[delegate] == delegator)
    ensures var r := Delegate(l, delegator, delegate);
      r.Ok? ==>
        && delegator in r.value.delegation && r.value.delegation[delegator] == delegate
        && (forall a :: a != delegator ==>
              (a in r.value.delegation <==> a in l.delegation)
              && (a in l.delegation ==> r.value.delegation[a] == l.delegation[a]))
        && (forall d :: delegator in Listed(r.value.delegatedBy, d) <==> d == delegate)
  {
    DelegatePreserves(l, delegator, delegate);
    if Delegate(l, delegator, delegate).Ok? {
      var r := Delegate(l, delegator, delegate).value;
      forall d ensures delegator in Listed(r.delegatedBy, d) <==> d == delegate {
        assert delegator in Listed(r.delegatedBy, d) <==> delegator in r.delegation && r.delegation[delegator] == d;
      }
    }
  }

  /** Exactly those who delegated can revoke; the delegation is then gone from map and index, and no other one is. */
  lemma RevokeTakesEffect(l: Ledger, delegator: Address)
    requires IndexAgrees(l) && NoShortCycle(l)
    ensures Revoke(l, delegator).Ok? <==> delegator in l.delegation
    ensures var r := Revoke(l, delegator);
      r.Ok? ==>
        && delegator !in r.value.delegation && (forall d :: delegator !in Listed(r.value.delegatedBy, d))
        && forall a :: a != delegator ==>
             (a in r.value.delegation <==> a in l.delegation)
             && (a in l.delegation ==> r.value.delegation[a] == l.delegation[a])
  {
    RevokePreserves(l, delegator);
    if Revoke(l, delegator).Ok? {
      var r := Revoke(l, delegator).value;
      assert forall d :: delegator in Listed(r.delegatedBy, d) ==> delegator in r.delegation;
    }
  }

  /** The base weights of those who delegated to `delegate`. */
  ghost function ChosenWeights(l: Ledger, weights: map<Address, int>, delegate: Address): map<Address, int> {
    map a | a in l.delegation && l.delegation[a] == delegate :: BaseWeight(weights, a)
  }

  /** Below saturation a delegate's weight is that of exactly those who delegated to them. */
  lemma WeightIsDelegators(l: Ledger, weights: map<Address, int>, delegate: Address)
    requires IndexAgrees(l) && forall a :: a in weights ==> weights[a] >= 0
    requires MapSum.Total(ChosenWeights(l, weights, delegate)) <= MAX
    ensures DelegatedWeight(l, weights, delegate) == MapSum.Total(ChosenWeights(l, weights, delegate))
  {
    var chosen, listed := ChosenWeights(l, weights, delegate), Listed(l.delegatedBy, delegate);
    ListedDelegators(l, delegate);
    forall a ensures a in listed <==> a in chosen {
      assert a in Listed(l.delegatedBy, delegate) <==> a in l.delegation && l.delegation[a] == delegate;
    }
    TakeOut(chosen, weights, listed);
    assert chosen - Members(listed) == map[];
    SaturatingSumIsSum(WeightsOf(weights, listed));
  }

  // ── The contract ─────────────────────────────────────────────────────────────

  class DelegationRegistry {
    var delegation: map<Address, Address>
    var delegatedBy: map<Address, seq<Address>>

    function View(): Ledger
      reads this
    {
      Ledger(delegation, delegatedBy)
    }

    constructor ()
      ensures View() == EMPTY
    {
      delegation, delegatedBy := map[], map[];
    }

    method AddToDelegatedByIndex(delegate: Address, delegator: Address)
      modifies this`delegatedBy
      ensures delegatedBy == AddToIndex(old(delegatedBy), delegate, delegator)
    {
      var delegators := Listed(delegatedBy, delegate);
      var found := false;
      var i := 0;
      while i < |delegators|
        invariant 0 <= i <= |delegators|
        invariant !found ==> delegator !in delegators[..i]
        invariant found ==> delegator in delegators
      {
        if delegators[i] == delegator {
          found := true;
          break;
        }
        i := i + 1;
      }
      if !found {
        delegatedBy := delegatedBy[delegate := delegators + [delegator]];
      }
    }

    method RemoveFromDelegatedByIndex(delegate: Address, delegator: Address)
      modifies this`delegatedBy
      ensures delegatedBy == RemoveFromIndex(old(delegatedBy), delegate, delegator)
    {
      var delegators := Listed(delegatedBy, delegate);
      var kept: seq<Address> := [];
      var i := 0;
      while i < |delegators|
        invariant 0 <= i <= |delegators|
        invariant kept + Without(delegators[i..], delegator) == Without(delegators, delegator)
      {
        if delegators[i] != delegator {
          kept := kept + [delegators[i]];
        }
        i := i + 1;
      }
      assert kept == kept + Without(delegators[i..], delegator);
      if |kept| > 0 {
        delegatedBy := delegatedBy[delegate := kept];
      } else {
        delegatedBy := delegatedBy - {delegate};
      }
    }

    method DelegateTo(delegator: Address, delegate: Address) returns (r: Result<(), DelegationError>)
      modifies this
      ensures var spec := Delegate(old(View()), delegator, delegate);
        if spec.Ok? then r == Ok(()) && View() == spec.value else r == Err(spec.error) && View() == old(View())
    {
      if delegator == delegate { return Err(InvalidAddress); }
      if delegate in delegation && delegation[delegate] == delegator { return Err(CircularDelegation); }
      if delegator in delegation {
        RemoveFromDelegatedByIndex(delegation[delegator], delegator);
      }
      delegation := delegation[delegator := delegate];
      AddToDelegatedByIndex(delegate, delegator);
      return Ok(());
    }

    method RevokeDelegation(delegator: Address) returns (r: Result<(), DelegationError>)
      modifies this
      ensures var spec := Revoke(old(View()), delegator);
        if spec.Ok? then r == Ok(()) && View() == spec.value else r == Err(spec.error) && View() == old(View())
    {
      if delegator !in delegation { return Err(DelegationNotFound); }
      RemoveFromDelegatedByIndex(delegation[delegator], delegator);
      delegation := delegation - {delegator};
      return Ok(());
    }

    method GetDelegatedWeight(weights: map<Address, int>, delegate: Address) returns (total: int)
      ensures total == DelegatedWeight(View(), weights, delegate)
    {
      var delegators := Listed(delegatedBy, delegate);
      total := 0;
      var i := 0;
      while i < |delegators|
        invariant 0 <= i <= |delegators|
        invariant total == SaturatingSum(WeightsOf(weights, delegators)[..i])
      {
        assert WeightsOf(weights, delegators)[..i + 1][..i] == WeightsOf(weights, delegators)[..i];
        total := Saturate(total + BaseWeight(weights, delegators[i]));
        i := i + 1;
      }
      assert WeightsOf(weights, delegators)[..i] == WeightsOf(weights, delegators);
    }
  }
}
