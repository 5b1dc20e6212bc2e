/** What holds in every reachable state of the financing pool, for all invoices at once. */
module PoolSafety {
  import opened Chain
  import opened InvoiceNft
  import opened FinancingPool
  import opened PoolInvariants

  ghost predicate EntrySound(s: State, d: Disbursement) {
    Terminal(s, d.invoice) && d.invoice in s.pools && 0 <= Outflow(d) <= s.pools[d.invoice].repaid
  }

  /** Every invoice was disbursed at most once, after its last transition, and never beyond what was repaid. */
  ghost predicate LogSound(s: State) {
    && (forall i :: 0 <= i < |s.disbursed| ==> EntrySound(s, s.disbursed[i]))
    && forall i, j :: 0 <= i < j < |s.disbursed| ==> s.disbursed[i].invoice != s.disbursed[j].invoice
  }

  ghost function Having(s: State, status: Status): set<nat> { set id | id in s.pools && Is(s, id, status) }

  /** The protocol counters; they are 32 bits wide, so they are exact up to that many pools. */
  ghost predicate StatsSound(s: State) {
    |s.pools| <= U32_MAX ==>
      && s.stats.poolsOpened == |s.pools|
      && s.stats.activePools == |Having(s, Funded)|
      && s.stats.poolsDefaulted == |Having(s, Defaulted)|
  }

  ghost predicate BooksSound(s: State, id: nat, closing: set<nat>) { IdSound(s, id, id in closing) }

  /** `closing` holds the pools that the current call has closed but not yet paid out. */
  ghost predicate SoundWith(s: State, closing: set<nat>) {
    && (forall id: nat {:trigger BooksSound(s, id, closing)} :: BooksSound(s, id, closing))
    && LogSound(s) && StatsSound(s)
  }

  ghost predicate Sound(s: State) { SoundWith(s, {}) }

  lemma SoundAt(s: State, id: nat)
    requires Sound(s)
    ensures IdSound(s, id, false)
  {
    assert BooksSound(s, id, {});
  }

  // ── One step ─────────────────────────────────────────────────────────────────

  lemma IdsAfter(s: State, s': State, id: nat, closing: set<nat>)
    requires SoundWith(s, closing) && Elsewhere(s, s', id) && IdSound(s', id, false)
    ensures forall j: nat {:trigger BooksSound(s', j, closing - {id})} :: BooksSound(s', j, closing - {id})
  {
    forall j: nat ensures BooksSound(s', j, closing - {id}) {
      if j != id {
        assert SameAt(s, s', j) && BooksSound(s, j, closing);
        SameAtSound(s, s', j, j in closing);
      }
    }
  }

  lemma EntryAfter(s: State, s': State, id: nat, d: Disbursement)
    requires EntrySound(s, d) && Elsewhere(s, s', id) && StatusMoves(s, s', id)
    ensures EntrySound(s', d)
  {
    if d.invoice != id { assert SameAt(s, s', d.invoice); }
  }

  lemma LogAfter(s: State, s': State, id: nat)
    requires LogSound(s) && Elsewhere(s, s', id) && LogMoves(s, s', id) && StatusMoves(s, s', id)
    ensures LogSound(s')
  {
    forall i | 0 <= i < |s.disbursed| ensures EntrySound(s', s.disbursed[i]) {
      EntryAfter(s, s', id, s.disbursed[i]);
    }
    if s'.disbursed != s.disbursed {
      var d :| s'.disbursed == s.disbursed + [d] && d.invoice == id && 0 <= Outflow(d) <= s'.pools[id].repaid;
      forall i | 0 <= i < |s.disbursed| ensures s.disbursed[i].invoice != id {
        assert EntrySound(s, s.disbursed[i]);
      }
      assert EntrySound(s', d);
    }
  }

  lemma SetChange(a: set<nat>, b: set<nat>, id: nat)
    requires a - {id} == b - {id}
    ensures |b| == |a| + (if id in b then 1 else 0) - (if id in a then 1 else 0)
  {
    assert id in a ==> |a - {id}| == |a| - 1;
    assert id in b ==> |b - {id}| == |b| - 1;
    assert id !in a ==> a - {id} == a;
    assert id !in b ==> b - {id} == b;
  }

  lemma HavingChange(s: State, s': State, id: nat, status: Status)
    requires Elsewhere(s, s', id)
    ensures |Having(s', status)| ==
      |Having(s, status)| + (if Is(s', id, status) then 1 else 0) - (if Is(s, id, status) then 1 else 0)
  {
    var a, b := Having(s, status), Having(s', status);
    forall j: nat | j != id ensures j in a <==> j in b {
      assert SameAt(s, s', j);
    }
    assert a - {id} == b - {id};
    SetChange(a, b, id);
  }

  lemma PoolsChange(s: State, s': State, id: nat)
    requires Elsewhere(s, s', id)
    ensures |s'.pools| == |s.pools| + (if id in s'.pools then 1 else 0) - (if id in s.pools then 1 else 0)
  {
    forall j: nat | j != id ensures j in s.pools <==> j in s'.pools {
      assert SameAt(s, s', j);
    }
    assert s.pools.Keys - {id} == s'.pools.Keys - {id};
    SetChange(s.pools.Keys, s'.pools.Keys, id);
    assert |s.pools| == |s.pools.Keys| && |s'.pools| == |s'.pools.Keys|;
  }

  lemma HavingBounded(s: State, status: Status)
    ensures |Having(s, status)| <= |s.pools|
  {
    SubsetCardinality(Having(s, status), s.pools.Keys);
    assert |s.pools| == |s.pools.Keys|;
  }

  lemma {:induction false} SubsetCardinality(a: set<nat>, b: set<nat>)
    requires a <= b
    ensures |a| <= |b|
  {
    if x :| x in a { SubsetCardinality(a - {x}, b - {x}); }
  }

  lemma StatsAfter(s: State, s': State, id: nat)
    requires StatsSound(s) && Elsewhere(s, s', id) && StatsMove(s, s', id)
    ensures StatsSound(s')
  {
    PoolsChange(s, s', id);
    HavingChange(s, s', id, Funded);
    HavingChange(s, s', id, Defaulted);
    HavingBounded(s', Funded);
    HavingBounded(s', Defaulted);
    assert Is(s', id, Funded) ==> !Is(s', id, Defaulted) && !Is(s', id, Repaid);
    assert Is(s, id, Funded) ==> !Is(s, id, Defaulted) && !Is(s, id, Repaid);
    assert Is(s', id, Repaid) ==> !Is(s', id, Defaulted) && !Is(s', id, Funded);
    assert Is(s', id, Defaulted) ==> !Is(s', id, Repaid) && !Is(s', id, Funded);
  }

  /** A sound call leaves a sound state, whatever else is still closing. */
  lemma GoodStepSound(s: State, s': State, id: nat, closing: set<nat>)
    requires SoundWith(s, closing) && GoodStep(s, s', id)
    ensures SoundWith(s', closing - {id})
  {
    IdsAfter(s, s', id, closing);
    LogAfter(s, s', id);
    StatsAfter(s, s', id);
  }

  // ── Consequences ─────────────────────────────────────────────────────────────

  /** Each pool is active, defaulted or repaid, and the counters say how many are which. */
  lemma CountersAddUp(s: State)
    requires Sound(s) && |s.pools| <= U32_MAX
    ensures s.stats.poolsOpened == s.stats.activePools + s.stats.poolsDefaulted + |Having(s, Repaid)|
  {
    var f, d, r := Having(s, Funded), Having(s, Defaulted), Having(s, Repaid);
    forall id: nat ensures id in s.pools <==> id in f + d + r {
      SoundAt(s, id);
    }
    assert s.pools.Keys == f + d + r;
    assert f !! d && (f + d) !! r;
    assert |f + d| == |f| + |d|;
    assert |f + d + r| == |f + d| + |r|;
    assert |s.pools| == |s.pools.Keys|;
  }

  /** A funded invoice has an open pool; a repaid one has a closed pool. */
  lemma StatusTellsPool(s: State, id: nat)
    requires Sound(s) && id in s.nft
    ensures s.nft[id].status == Funded ==>
      id in s.pools && !s.pools[id].closed && s.pools[id].repaid < s.pools[id].totalOwed
    ensures s.nft[id].status == Repaid ==> id in s.pools && s.pools[id].closed
  {
    SoundAt(s, id);
  }
}
