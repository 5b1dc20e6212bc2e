/** `governance_voting` documents delegation as single-level, without chains. The code refuses self-delegation and
    two-party cycles only; this says exactly which delegations keep the promise. */
module DelegationChains {
  import opened Wrappers
  import opened Chain
  import opened Delegation

  // ── Single-level delegation ──────────────────────────────────────────────────

  /** Nobody delegates to someone who delegates. */
  predicate SingleLevel(l: Ledger) { forall a :: a in l.delegation ==> l.delegation[a] !in l.delegation }

  /** The delegate keeps its own vote, and nobody has delegated to the delegator. */
  predicate Unchained(l: Ledger, delegator: Address, delegate: Address) {
    delegate !in l.delegation && Listed(l.delegatedBy, delegator) == []
  }

  /** A delegation that is accepted keeps the ledger single-level if and only if it is unchained. */
  lemma DelegateKeepsSingleLevelIff(l: Ledger, delegator: Address, delegate: Address)
    requires IndexAgrees(l) && SingleLevel(l) && Delegate(l, delegator, delegate).Ok?
    ensures SingleLevel(Delegate(l, delegator, delegate).value) <==> Unchained(l, delegator, delegate)
  {
    var after := Delegate(l, delegator, delegate).value.delegation;
    assert after == l.delegation[delegator := delegate];
    var listed := Listed(l.delegatedBy, delegator);
    if listed != [] {
      var a := listed[0];
      assert a in listed <==> a in l.delegation && l.delegation[a] == delegator;
      assert after[a] == (if a == delegator then delegate else delegator);
    }
    if Unchained(l, delegator, delegate) {
      forall a | a in after ensures after[a] !in after {
        assert a in Listed(l.delegatedBy, delegator) <==> a in l.delegation && l.delegation[a] == delegator;
      }
    } else if delegate in l.delegation {
      assert after[delegator] in after;
    }
  }

  // ── Cycles ───────────────────────────────────────────────────────────────────

  /** Where `n` delegations lead from `x`, if the chain is that long. */
  function Follow(m: map<Address, Address>, x: Address, n: nat): Option<Address>
    decreases n
  {
    if n == 0 then Some(x) else if x in m then Follow(m, m[x], n - 1) else None
  }

  ghost predicate Reaches(m: map<Address, Address>, x: Address, y: Address) {
    exists n: nat :: Follow(m, x, n) == Some(y)
  }

  /** Nobody's vote comes back to them. */
  ghost predicate Acyclic(m: map<Address, Address>) {
    forall x: Address, n: nat :: n > 0 ==> Follow(m, x, n) != Some(x)
  }

  lemma {:induction false} FollowFurther(m: map<Address, Address>, x: Address, i: nat, j: nat)
    ensures Follow(m, x, i + j) == if Follow(m, x, i).None? then None else Follow(m, Follow(m, x, i).value, j)
    decreases i
  {
    if i > 0 && x in m { FollowFurther(m, m[x], i - 1, j); }
  }

  /** Two maps that differ at `a` only lead the same way until `a` is met; so one meets it if the other does. */
  lemma {:induction false} MeetsToo(m: map<Address, Address>, m': map<Address, Address>, a: Address, x: Address, n: nat)
    requires forall y :: y != a ==> (y in m <==> y in m') && (y in m ==> m[y] == m'[y])
    ensures Follow(m, x, n) == Some(a) ==> Reaches(m', x, a)
    ensures Follow(m, x, n) == Follow(m', x, n) || Reaches(m', x, a)
    decreases n
  {
    if x == a {
      assert Follow(m', x, 0) == Some(a);
    } else if n > 0 && x in m {
      MeetsToo(m, m', a, m[x], n - 1);
      if Reaches(m', m[x], a) {
        var k: nat :| Follow(m', m[x], k) == Some(a);
        assert Follow(m', x, k + 1) == Some(a);
      }
    } else {
      assert Follow(m, x, n) == Follow(m', x, n);
      assert Follow(m, x, n) != Some(a);
    }
  }

  /** A cycle that a new delegation closes leads from the delegate back to the delegator. */
  lemma CycleLeadsBack(m: map<Address, Address>, a: Address, d: Address, x: Address, n: nat)
    requires Acyclic(m) && n > 0 && Follow(m[a := d], x, n) == Some(x)
    ensures Reaches(m, d, a)
  {
    var m' := m[a := d];
    MeetsToo(m', m, a, x, n);
    assert Follow(m, x, n) != Some(x);
    MeetsToo(m, m', a, x, n);
    var i: nat :| Follow(m', x, i) == Some(a);
    FollowFurther(m', x, n, i);
    FollowFurther(m', x, i, n);
    assert Follow(m', a, n) == Some(a);
    assert Follow(m', d, n - 1) == Some(a);
    MeetsToo(m', m, a, d, n - 1);
  }

  /** A delegation that is accepted closes a cycle if and only if the delegate's chain leads to the delegator. */
  lemma DelegateKeepsAcyclicIff(l: Ledger, delegator: Address, delegate: Address)
    requires Acyclic(l.delegation) && Delegate(l, delegator, delegate).Ok?
    ensures Acyclic(Delegate(l, delegator, delegate).value.delegation) <==> !Reaches(l.delegation, delegate, delegator)
  {
    var m, m' := l.delegation, l.delegation[delegator := delegate];
    if Reaches(m, delegate, delegator) {
      var n: nat :| Follow(m, delegate, n) == Some(delegator);
      MeetsToo(m, m', delegator, delegate, n);
      var k: nat :| Follow(m', delegate, k) == Some(delegator);
      assert Follow(m', delegator, k + 1) == Some(delegator);
    } else if !Acyclic(m') {
      var x: Address, n: nat :| n > 0 && Follow(m', x, n) == Some(x);
      CycleLeadsBack(m, delegator, delegate, x, n);
    }
  }

  lemma {:induction false} FollowSmaller(m: map<Address, Address>, a: Address, x: Address, n: nat)
    ensures Follow(m - {a}, x, n).Some? ==> Follow(m - {a}, x, n) == Follow(m, x, n)
    decreases n
  {
    if n > 0 && x in m - {a} { FollowSmaller(m, a, m[x], n - 1); }
  }

  lemma RevokeKeeps(l: Ledger, delegator: Address)
    requires Revoke(l, delegator).Ok?
    ensures SingleLevel(l) ==> SingleLevel(Revoke(l, delegator).value)
    ensures Acyclic(l.delegation) ==> Acyclic(Revoke(l, delegator).value.delegation)
  {
    var m' := l.delegation - {delegator};
    if Acyclic(l.delegation) {
      forall x: Address, n: nat | n > 0 ensures Follow(m', x, n) != Some(x) {
        FollowSmaller(l.delegation, delegator, x, n);
      }
    }
  }

  // ── Runs ─────────────────────────────────────────────────────────────────────

  ghost predicate AlwaysSingleLevel(l: Ledger, calls: seq<Call>)
    decreases |calls|
  {
    SingleLevel(l) && (calls != [] ==> AlwaysSingleLevel(Step(l, calls[0]), calls[1..]))
  }

  ghost predicate AlwaysAcyclic(l: Ledger, calls: seq<Call>)
    decreases |calls|
  {
    Acyclic(l.delegation) && (calls != [] ==> AlwaysAcyclic(Step(l, calls[0]), calls[1..]))
  }

  predicate Accepted(l: Ledger, c: Call) { c.DelegateCall? && Delegate(l, c.delegator, c.delegate).Ok? }

  /** Every delegation the run accepts is unchained when it is made. */
  ghost predicate AllUnchained(l: Ledger, calls: seq<Call>)
    decreases |calls|
  {
    calls != [] ==>
      && (Accepted(l, calls[0]) ==> Unchained(l, calls[0].delegator, calls[0].delegate))
      && AllUnchained(Step(l, calls[0]), calls[1..])
  }

  /** No delegation the run accepts leads back to its delegator when it is made. */
  ghost predicate NoneLeadsBack(l: Ledger, calls: seq<Call>)
    decreases |calls|
  {
    calls != [] ==>
      && (Accepted(l, calls[0]) ==> !Reaches(l.delegation, calls[0].delegate, calls[0].delegator))
      && NoneLeadsBack(Step(l, calls[0]), calls[1..])
  }

  lemma StepKeepsIndex(l: Ledger, c: Call)
    requires IndexAgrees(l) && NoShortCycle(l)
    ensures IndexAgrees(Step(l, c)) && NoShortCycle(Step(l, c))
  {
    match c
    case DelegateCall(a, d) => DelegatePreserves(l, a, d);
    case RevokeCall(a) => RevokePreserves(l, a);
  }

  lemma StepSingleLevelIff(l: Ledger, c: Call)
    requires IndexAgrees(l) && SingleLevel(l)
    ensures SingleLevel(Step(l, c)) <==> (Accepted(l, c) ==> Unchained(l, c.delegator, c.delegate))
  {
    match c
    case DelegateCall(a, d) => if Delegate(l, a, d).Ok? { DelegateKeepsSingleLevelIff(l, a, d); }
    case RevokeCall(a) => if Revoke(l, a).Ok? { RevokeKeeps(l, a); }
  }

  lemma StepAcyclicIff(l: Ledger, c: Call)
    requires Acyclic(l.delegation)
    ensures Acyclic(Step(l, c).delegation) <==> (Accepted(l, c) ==> !Reaches(l.delegation, c.delegate, c.delegator))
  {
    match c
    case DelegateCall(a, d) => if Delegate(l, a, d).Ok? { DelegateKeepsAcyclicIff(l, a, d); }
    case RevokeCall(a) => if Revoke(l, a).Ok? { RevokeKeeps(l, a); }
  }

  lemma {:induction false} SingleLevelFrom(l: Ledger, calls: seq<Call>)
    requires IndexAgrees(l) && NoShortCycle(l) && SingleLevel(l)
    ensures AlwaysSingleLevel(l, calls) <==> AllUnchained(l, calls)
    decreases |calls|
  {
    if calls != [] {
      StepKeepsIndex(l, calls[0]);
      StepSingleLevelIff(l, calls[0]);
      if SingleLevel(Step(l, calls[0])) { SingleLevelFrom(Step(l, calls[0]), calls[1..]); }
    }
  }

  lemma {:induction false} AcyclicFrom(l: Ledger, calls: seq<Call>)
    requires Acyclic(l.delegation)
    ensures AlwaysAcyclic(l, calls) <==> NoneLeadsBack(l, calls)
    decreases |calls|
  {
    if calls != [] {
      StepAcyclicIff(l, calls[0]);
      if Acyclic(Step(l, calls[0]).delegation) { AcyclicFrom(Step(l, calls[0]), calls[1..]); }
    }
  }

  /** A run keeps delegation single-level throughout if and only if every delegation it accepts is unchained. */
  lemma RunSingleLevelIff(calls: seq<Call>)
    ensures AlwaysSingleLevel(EMPTY, calls) <==> AllUnchained(EMPTY, calls)
  {
    SingleLevelFrom(EMPTY, calls);
  }

  /** A run keeps delegation free of cycles throughout if and only if no delegation it accepts leads back. */
  lemma RunAcyclicIff(calls: seq<Call>)
    ensures AlwaysAcyclic(EMPTY, calls) <==> NoneLeadsBack(EMPTY, calls)
  {
    forall x: Address, n: nat | n > 0 ensures Follow(EMPTY.delegation, x, n) != Some(x) { }
    AcyclicFrom(EMPTY, calls);
  }
}
