/** `net_settle` over distinct invoices keeps every reachable-state property, and settles exactly. */
module PoolNetting {
  import opened Wrappers
  import opened Chain
  import opened SeqSum
  import opened InvoiceNft
  import opened FinancingPool
  import opened PoolInvariants
  import opened PoolSteps
  import opened PoolSafety
  import opened Netting

  // ── Applying the allocations ─────────────────────────────────────────────────

  lemma NettedSound(p: Pool, due: nat, now: nat, alloc: int)
    requires PoolSound(p) && !p.closed && alloc > 0
    ensures var r := Netted(p, due, now, alloc);
      r.Some? ==>
        var q := r.value;
        && PoolSound(q) && q.token == p.token && q.faceValue == p.faceValue && q.repaid == p.repaid + alloc
        && (q.closed <==> q.repaid >= q.totalOwed) && (p.penaltyApplied ==> q.penaltyApplied)
  {
    BpsBounds(p.faceValue, p.latePenaltyBps);
  }

  /** An invoice that passed the preflight. */
  predicate Nettable(s: State, id: nat, t: Token) {
    id in s.pools && id in s.nft && id !in s.pending && !s.pools[id].closed && s.pools[id].token == t
  }

  predicate AllNettable(s: State, ids: seq<nat>, t: Token) { forall i :: 0 <= i < |ids| ==> Nettable(s, ids[i], t) }

  lemma AppliedAt(s: State, r: State, id: nat, alloc: int, now: nat, t: Token, closing: bool)
    requires IdSound(s, id, false) && Nettable(s, id, t) && alloc >= 0
    requires r == s.(pools := r.pools) && id in r.pools && NettedAt(s, id, alloc, now) == Some(r.pools[id])
    requires closing <==> ClosesAt(s, id, alloc, now)
    requires closing ==> s.nft[id].status == Funded
    ensures IdSound(r, id, closing) && (closing ==> Cut(r, id) <= r.pools[id].repaid)
  {
    if alloc > 0 { NettedSound(s.pools[id], s.nft[id].dueDate, now, alloc); }
  }

  ghost function AsSet(ids: seq<nat>): set<nat> { set id | id in ids }

  ghost predicate ReadyToClose(s: State, id: nat) {
    id in s.pools && id !in s.pending && Cut(s, id) <= s.pools[id].repaid
  }

  lemma AppliedBooks(s: State, r: State, ids: seq<nat>, allocs: seq<int>, now: nat, t: Token, j: nat)
    requires Sound(s) && |ids| == |allocs| && NoDuplicates(ids) && AllNettable(s, ids, t)
    requires forall i :: 0 <= i < |ids| ==> allocs[i] >= 0
    requires Applied(s, r, ids, allocs, |ids|, now)
    requires forall id :: id in Closing(s, ids, allocs, |ids|, now) ==> Is(s, id, Funded)
    ensures var c := Closing(s, ids, allocs, |ids|, now);
      IdSound(r, j, j in AsSet(c)) && (j in c ==> ReadyToClose(r, j))
  {
    ClosingEffect(s, ids, allocs, |ids|, now);
    SoundAt(s, j);
    assert ids[..|ids|] == ids;
    var c := Closing(s, ids, allocs, |ids|, now);
    if j in ids {
      var i :| 0 <= i < |ids| && ids[i] == j;
      assert Nettable(s, ids[i], t);
      AppliedAt(s, r, j, allocs[i], now, t, j in c);
    } else {
      assert SameAt(s, r, j);
      SameAtSound(s, r, j, false);
    }
  }

  lemma OnlyPoolsChanged(s: State, r: State)
    requires r == s.(pools := r.pools) && r.pools.Keys == s.pools.Keys
    requires forall id :: id in s.pools ==> r.pools[id].repaid >= s.pools[id].repaid
    requires LogSound(s) && StatsSound(s)
    ensures LogSound(r) && StatsSound(r)
  {
    forall i | 0 <= i < |s.disbursed| ensures EntrySound(r, s.disbursed[i]) {
      assert EntrySound(s, s.disbursed[i]);
    }
    assert Having(r, Funded) == Having(s, Funded) && Having(r, Defaulted) == Having(s, Defaulted);
    assert |r.pools| == |r.pools.Keys| && |s.pools| == |s.pools.Keys|;
  }

  lemma AppliedGrows(s: State, r: State, ids: seq<nat>, allocs: seq<int>, now: nat)
    requires |ids| == |allocs| && AllStored(s, ids) && Applied(s, r, ids, allocs, |ids|, now)
    ensures forall id :: id in s.pools ==> r.pools[id].repaid >= s.pools[id].repaid
  {
    assert ids[..|ids|] == ids;
    forall id | id in s.pools ensures r.pools[id].repaid >= s.pools[id].repaid {
      if id in ids {
        var i :| 0 <= i < |ids| && ids[i] == id;
        assert NettedAt(s, ids[i], allocs[i], now) == Some(r.pools[ids[i]]);
      }
    }
  }

  lemma AppliedSound(s: State, r: State, ids: seq<nat>, allocs: seq<int>, now: nat, t: Token)
    requires Sound(s) && |ids| == |allocs| && NoDuplicates(ids) && AllNettable(s, ids, t)
    requires forall i :: 0 <= i < |ids| ==> allocs[i] >= 0
    requires Applied(s, r, ids, allocs, |ids|, now)
    requires forall id :: id in Closing(s, ids, allocs, |ids|, now) ==> Is(s, id, Funded)
    ensures var c := Closing(s, ids, allocs, |ids|, now);
      SoundWith(r, AsSet(c)) && forall j :: j in c ==> ReadyToClose(r, j)
  {
    var c := Closing(s, ids, allocs, |ids|, now);
    forall j: nat ensures BooksSound(r, j, AsSet(c)) && (j in c ==> ReadyToClose(r, j)) {
      AppliedBooks(s, r, ids, allocs, now, t, j);
    }
    AppliedGrows(s, r, ids, allocs, now);
    OnlyPoolsChanged(s, r);
  }

  /** Crediting the pools uses up at most the amounts allocated. */
  lemma {:induction false} AppliedSlack(s: State, ids: seq<nat>, allocs: seq<int>, n: nat, now: nat, t: Token, u: Token)
    requires n <= |ids| == |allocs| && NoDuplicates(ids) && AllNettable(s, ids, t)
    requires forall i :: 0 <= i < |ids| ==> allocs[i] >= 0
    ensures var r := ApplyAllocations(s, ids, allocs, n, now);
      r.Ok? ==> Slack(r.value, u) >= Slack(s, u) - (if u == t then Sum(allocs[..n]) else 0)
  {
    if n > 0 && ApplyAllocations(s, ids, allocs, n, now).Ok? {
      AppliedSlack(s, ids, allocs, n - 1, now, t, u);
      var earlier := ApplyAllocations(s, ids, allocs, n - 1, now).value;
      assert allocs[..n] == allocs[..n - 1] + [allocs[n - 1]];
      SumSnoc(allocs[..n - 1], allocs[n - 1]);
      if allocs[n - 1] > 0 {
        ApplyEffect(s, ids, allocs, n - 1, now);
        AppliedSlackOne(s, earlier, ids, allocs, n, now, t, u);
      }
    }
  }

  lemma AppliedSlackOne(s: State, earlier: State, ids: seq<nat>, allocs: seq<int>, n: nat, now: nat, t: Token, u: Token)
    requires 0 < n <= |ids| == |allocs| && NoDuplicates(ids) && AllNettable(s, ids, t) && allocs[n - 1] > 0
    requires Applied(s, earlier, ids, allocs, n - 1, now)
    requires NettedAt(s, ids[n - 1], allocs[n - 1], now).Some?
    ensures var r := PutPool(earlier, ids[n - 1], NettedAt(s, ids[n - 1], allocs[n - 1], now).value);
      Slack(r, u) >= Slack(earlier, u) - (if u == t then allocs[n - 1] else 0)
  {
    var id := ids[n - 1];
    var r := PutPool(earlier, id, NettedAt(s, id, allocs[n - 1], now).value);
    assert Nettable(s, ids[n - 1], t);
    assert id !in ids[..n - 1];
    assert earlier.pools[id] == s.pools[id];
    assert Elsewhere(earlier, r, id);
    SlackChange(earlier, r, id, u);
  }

  lemma ReceiveSlack(s: State, t: Token, amount: int, u: Token)
    ensures Slack(Receive(s, t, amount), u) == Slack(s, u) + (if u == t then amount else 0)
  {
    var r := Receive(s, t, amount);
    assert Liabilities(r, u) == Liabilities(s, u) && Buyouts(r, u) == Buyouts(s, u);
  }

  lemma ReceiveSound(s: State, t: Token, amount: int, closing: set<nat>)
    requires SoundWith(s, closing)
    ensures SoundWith(Receive(s, t, amount), closing)
  {
    var r := Receive(s, t, amount);
    forall j: nat ensures BooksSound(r, j, closing) {
      assert BooksSound(s, j, closing) && SameAt(s, r, j);
      SameAtSound(s, r, j, j in closing);
    }
    OnlyHeldChanged(s, r);
  }

  lemma OnlyHeldChanged(s: State, r: State)
    requires r == s.(held := r.held) && LogSound(s) && StatsSound(s)
    ensures LogSound(r) && StatsSound(r)
  {
    forall i | 0 <= i < |s.disbursed| ensures EntrySound(r, s.disbursed[i]) {
      assert EntrySound(s, s.disbursed[i]);
    }
    assert Having(r, Funded) == Having(s, Funded) && Having(r, Defaulted) == Having(s, Defaulted);
  }

  // ── Paying out what was closed ───────────────────────────────────────────────

  lemma ClosePaidStep(s: State, id: nat)
    requires IdSound(s, id, true) && ReadyToClose(s, id)
    ensures var r := ClosePaid(s, id); r.Ok? ==> GoodStep(s, r.value, id) && r.value.pending == s.pending
  {
    var r := ClosePaid(s, id);
    if r.Ok? {
      PayOutStep(s, id);
      var paid := PayOut(s, id, s.pools[id].repaid).value;
      PaidAndCounted(s, paid, id);
    }
  }

  lemma PaidAndCounted(s: State, paid: State, id: nat)
    requires IdSound(s, id, true) && ReadyToClose(s, id) && PaidOut(s, paid, id)
    ensures var r := paid.(stats := CountRepaid(paid.stats, s.pools[id].repaid, true)); GoodStep(s, r, id)
  {
    CoveredGood(s, paid.(stats := CountRepaid(paid.stats, s.pools[id].repaid, true)), id);
  }

  lemma ReadyElsewhere(s: State, r: State, id: nat, j: nat)
    requires Elsewhere(s, r, id) && j != id && ReadyToClose(s, j)
    ensures ReadyToClose(r, j)
  {
    assert SameAt(s, r, j);
  }

  ghost function Unpaid(ids: seq<nat>, n: nat): set<nat>
    requires n <= |ids|
  {
    set id | id in ids && id !in ids[..n]
  }

  lemma UnpaidStep(ids: seq<nat>, n: nat)
    requires 0 < n <= |ids| && NoDuplicates(ids)
    ensures ids[n - 1] in Unpaid(ids, n - 1) && Unpaid(ids, n) == Unpaid(ids, n - 1) - {ids[n - 1]}
  {
    assert ids[..n] == ids[..n - 1] + [ids[n - 1]];
  }

  lemma {:induction false} CloseAllSound(s: State, ids: seq<nat>, n: nat)
    requires n <= |ids| && NoDuplicates(ids) && SoundWith(s, AsSet(ids))
    requires forall j :: j in ids ==> ReadyToClose(s, j)
    ensures var r := CloseAll(s, ids, n);
      r.Ok? ==>
        && SoundWith(r.value, Unpaid(ids, n))
        && (forall j :: j in Unpaid(ids, n) ==> ReadyToClose(r.value, j))
        && forall u :: Slack(r.value, u) >= Slack(s, u)
  {
    if n == 0 {
      assert Unpaid(ids, 0) == AsSet(ids);
    } else if CloseAll(s, ids, n).Ok? {
      CloseAllSound(s, ids, n - 1);
      var earlier, r, id := CloseAll(s, ids, n - 1).value, CloseAll(s, ids, n).value, ids[n - 1];
      UnpaidStep(ids, n);
      assert BooksSound(earlier, id, Unpaid(ids, n - 1));
      ClosePaidStep(earlier, id);
      GoodStepSound(earlier, r, id, Unpaid(ids, n - 1));
      forall j | j in Unpaid(ids, n) ensures ReadyToClose(r, j) { ReadyElsewhere(earlier, r, id, j); }
    }
  }

  lemma ClosePaidFrame(s: State, id: nat)
    ensures var r := ClosePaid(s, id);
      r.Ok? ==>
        Is(s, id, Funded) && Is(r.value, id, Repaid) && r.value.pools == s.pools
        && forall j: nat :: j != id ==> Get(r.value.nft, j) == Get(s.nft, j)
  {
    if id in s.pools { PayOutNeedsFunded(s, id, s.pools[id].repaid); }
  }

  /** The first `n` went from funded to repaid; the others are untouched. */
  ghost predicate PaidUpTo(s: State, r: State, ids: seq<nat>, n: nat)
    requires n <= |ids|
  {
    && r.pools == s.pools
    && (forall i :: 0 <= i < n ==> Is(s, ids[i], Funded) && Is(r, ids[i], Repaid))
    && (forall i :: n <= i < |ids| ==> Get(r.nft, ids[i]) == Get(s.nft, ids[i]))
  }

  lemma PaidOneMore(s: State, earlier: State, r: State, ids: seq<nat>, n: nat)
    requires 0 < n <= |ids| && NoDuplicates(ids) && PaidUpTo(s, earlier, ids, n - 1)
    requires Is(earlier, ids[n - 1], Funded) && Is(r, ids[n - 1], Repaid) && r.pools == earlier.pools
    requires forall j: nat :: j != ids[n - 1] ==> Get(r.nft, j) == Get(earlier.nft, j)
    ensures PaidUpTo(s, r, ids, n)
  {
    assert Get(earlier.nft, ids[n - 1]) == Get(s.nft, ids[n - 1]);
    forall i | 0 <= i < n - 1 ensures Is(r, ids[i], Repaid) {
      assert Is(earlier, ids[i], Repaid) && Get(r.nft, ids[i]) == Get(earlier.nft, ids[i]);
    }
  }

  /** Paying out succeeds only for invoices that were funded to begin with. */
  lemma {:induction false} CloseAllFunded(s: State, ids: seq<nat>, n: nat)
    requires n <= |ids| && NoDuplicates(ids)
    ensures var r := CloseAll(s, ids, n); r.Ok? ==> PaidUpTo(s, r.value, ids, n)
  {
    if n > 0 && CloseAll(s, ids, n).Ok? {
      CloseAllFunded(s, ids, n - 1);
      var earlier := CloseAll(s, ids, n - 1).value;
      ClosePaidFrame(earlier, ids[n - 1]);
      PaidOneMore(s, earlier, CloseAll(s, ids, n).value, ids, n);
    }
  }

  // ── The whole call ───────────────────────────────────────────────────────────

  lemma PreflightNettable(s: State, payer: Address, ids: seq<nat>, t: Token)
    requires Preflight(s, payer, ids, |ids|, t).Ok?
    ensures AllNettable(s, ids, t)
  {
    forall i | 0 <= i < |ids| ensures Nettable(s, ids[i], t) {
      assert NettingCheck(s, payer, ids[i], t).None?;
    }
  }

  /** The steps of a netting that succeeded. */
  lemma NetSettleShape(s: State, payer: Address, ids: seq<nat>, t: Token, amount: int, env: Env)
    requires NetSettle(s, payer, ids, t, amount, env).Ok?
    ensures amount > 0 && |ids| >= 2 && Preflight(s, payer, ids, |ids|, t).Ok? && AllNettable(s, ids, t)
      && AllStored(s, ids)
    ensures var remaining := Preflight(s, payer, ids, |ids|, t).value;
      && |remaining| == |ids| && Sum(remaining) > 0 && (forall i :: 0 <= i < |ids| ==> 0 <= remaining[i])
      && |Allocations(remaining, amount)| == |ids|
      && ApplyAllocations(s, ids, Allocations(remaining, amount), |ids|, env.now).Ok?
      && var allocs := Allocations(remaining, amount);
      && var closing := Closing(s, ids, allocs, |ids|, env.now);
      && NetSettle(s, payer, ids, t, amount, env)
         == CloseAll(Receive(ApplyAllocations(s, ids, allocs, |ids|, env.now).value, t, amount), closing, |closing|)
  {
    PreflightNettable(s, payer, ids, t);
    assert forall i :: 0 <= i < |ids| ==> Nettable(s, ids[i], t);
  }

  /** After allocation and transfer, exactly the closed pools wait for their payout. */
  lemma ReceivedSound(s: State, ids: seq<nat>, allocs: seq<int>, t: Token, amount: int, now: nat)
    requires Sound(s) && NoDuplicates(ids) && AllNettable(s, ids, t) && AllStored(s, ids)
    requires |allocs| == |ids| && forall i :: 0 <= i < |ids| ==> allocs[i] >= 0
    requires ApplyAllocations(s, ids, allocs, |ids|, now).Ok?
    requires forall id :: id in Closing(s, ids, allocs, |ids|, now) ==> Is(s, id, Funded)
    ensures var received := Receive(ApplyAllocations(s, ids, allocs, |ids|, now).value, t, amount);
      var closing := Closing(s, ids, allocs, |ids|, now);
      SoundWith(received, AsSet(closing)) && forall j :: j in closing ==> ReadyToClose(received, j)
  {
    var applied := ApplyAllocations(s, ids, allocs, |ids|, now).value;
    var closing := Closing(s, ids, allocs, |ids|, now);
    ApplyEffect(s, ids, allocs, |ids|, now);
    AppliedSound(s, applied, ids, allocs, now, t);
    ReceiveSound(applied, t, amount, AsSet(closing));
    forall j | j in closing ensures ReadyToClose(Receive(applied, t, amount), j) { assert ReadyToClose(applied, j); }
  }

  lemma ReceivedSlack(s: State, ids: seq<nat>, allocs: seq<int>, t: Token, now: nat, u: Token)
    requires NoDuplicates(ids) && AllNettable(s, ids, t) && AllStored(s, ids)
    requires |allocs| == |ids| && forall i :: 0 <= i < |ids| ==> allocs[i] >= 0
    requires ApplyAllocations(s, ids, allocs, |ids|, now).Ok?
    ensures Slack(Receive(ApplyAllocations(s, ids, allocs, |ids|, now).value, t, Sum(allocs)), u) >= Slack(s, u)
  {
    AppliedSlack(s, ids, allocs, |ids|, now, t, u);
    assert allocs[..|ids|] == allocs;
    ReceiveSlack(ApplyAllocations(s, ids, allocs, |ids|, now).value, t, Sum(allocs), u);
  }

  /** Only funded invoices close. */
  lemma ClosingFunded(s: State, ids: seq<nat>, allocs: seq<int>, t: Token, amount: int, now: nat)
    requires NoDuplicates(ids) && AllStored(s, ids) && |allocs| == |ids|
    requires ApplyAllocations(s, ids, allocs, |ids|, now).Ok?
    requires var closing := Closing(s, ids, allocs, |ids|, now);
      CloseAll(Receive(ApplyAllocations(s, ids, allocs, |ids|, now).value, t, amount), closing, |closing|).Ok?
    ensures forall id :: id in Closing(s, ids, allocs, |ids|, now) ==> Is(s, id, Funded)
  {
    var received := Receive(ApplyAllocations(s, ids, allocs, |ids|, now).value, t, amount);
    var closing := Closing(s, ids, allocs, |ids|, now);
    ApplyEffect(s, ids, allocs, |ids|, now);
    ClosingEffect(s, ids, allocs, |ids|, now);
    CloseAllFunded(received, closing, |closing|);
    forall id | id in closing ensures Is(s, id, Funded) {
      var i :| 0 <= i < |closing| && closing[i] == id;
      assert Is(received, closing[i], Funded);
    }
  }

  /** Netting distinct invoices keeps all books, and never eats into what is held for anybody. */
  lemma NetSettleSound(s: State, payer: Address, ids: seq<nat>, t: Token, amount: int, env: Env)
    requires Sound(s) && NoDuplicates(ids)
    ensures var r := NetSettle(s, payer, ids, t, amount, env);
      r.Ok? ==> Sound(r.value) && forall u :: Slack(r.value, u) >= Slack(s, u)
  {
    var r := NetSettle(s, payer, ids, t, amount, env);
    if r.Ok? {
      NetSettleShape(s, payer, ids, t, amount, env);
      var remaining := Preflight(s, payer, ids, |ids|, t).value;
      var allocs := Allocations(remaining, amount);
      AllocationsAreExact(remaining, amount);
      var closing := Closing(s, ids, allocs, |ids|, env.now);
      ClosingFunded(s, ids, allocs, t, amount, env.now);
      ReceivedSound(s, ids, allocs, t, amount, env.now);
      ClosingEffect(s, ids, allocs, |ids|, env.now);
      var received := Receive(ApplyAllocations(s, ids, allocs, |ids|, env.now).value, t, amount);
      CloseAllSound(received, closing, |closing|);
      assert Unpaid(closing, |closing|) == {} by { assert closing[..|closing|] == closing; }
      forall u ensures Slack(r.value, u) >= Slack(s, u) { ReceivedSlack(s, ids, allocs, t, env.now, u); }
    }
  }

  // ── Exactness ────────────────────────────────────────────────────────────────

  function RepaidOf(s: State, ids: seq<nat>): seq<int>
    requires AllStored(s, ids)
  {
    seq(|ids|, i requires 0 <= i < |ids| => s.pools[ids[i]].repaid)
  }

  lemma {:induction false} SumPointwise(a: seq<int>, b: seq<int>, c: seq<int>)
    requires |a| == |b| == |c| && forall i :: 0 <= i < |a| ==> a[i] == b[i] + c[i]
    ensures Sum(a) == Sum(b) + Sum(c)
  {
    if a != [] { SumPointwise(a[1..], b[1..], c[1..]); }
  }

  /** What a netting that succeeded has left in the pools. */
  lemma NetSettleEffect(s: State, payer: Address, ids: seq<nat>, t: Token, amount: int, env: Env)
    requires NoDuplicates(ids) && NetSettle(s, payer, ids, t, amount, env).Ok?
    ensures AllNettable(s, ids, t) && AllStored(s, ids) && Preflight(s, payer, ids, |ids|, t).Ok?
    ensures var remaining := Preflight(s, payer, ids, |ids|, t).value;
      var r := NetSettle(s, payer, ids, t, amount, env).value;
      && |remaining| == |ids| && Sum(remaining) > 0 && amount > 0 && |ids| >= 2
      && |Allocations(remaining, amount)| == |ids|
      && var allocs := Allocations(remaining, amount);
      && Applied(s, s.(pools := r.pools), ids, allocs, |ids|, env.now)
      && forall i :: 0 <= i < |ids| ==> (ClosesAt(s, ids[i], allocs[i], env.now) ==> Is(r, ids[i], Repaid))
  {
    NetSettleShape(s, payer, ids, t, amount, env);
    var remaining := Preflight(s, payer, ids, |ids|, t).value;
    var allocs := Allocations(remaining, amount);
    var closing := Closing(s, ids, allocs, |ids|, env.now);
    var r := NetSettle(s, payer, ids, t, amount, env).value;
    ApplyEffect(s, ids, allocs, |ids|, env.now);
    ClosingEffect(s, ids, allocs, |ids|, env.now);
    CloseAllFunded(Receive(ApplyAllocations(s, ids, allocs, |ids|, env.now).value, t, amount), closing, |closing|);
    forall i | 0 <= i < |ids| && ClosesAt(s, ids[i], allocs[i], env.now) ensures Is(r, ids[i], Repaid) {
      assert ids[i] in closing;
      var k :| 0 <= k < |closing| && closing[k] == ids[i];
      assert Is(r, closing[k], Repaid);
    }
  }

  /** The repaid amounts of the listed pools grow by exactly the payment, and no other pool changes. */
  lemma NettingIsExact(s: State, payer: Address, ids: seq<nat>, t: Token, amount: int, env: Env)
    requires NoDuplicates(ids) && NetSettle(s, payer, ids, t, amount, env).Ok?
    ensures var r := NetSettle(s, payer, ids, t, amount, env).value;
      && AllStored(s, ids) && r.pools.Keys == s.pools.Keys
      && (forall i :: 0 <= i < |ids| ==> ids[i] in r.pools && r.pools[ids[i]].repaid >= s.pools[ids[i]].repaid)
      && Sum(RepaidOf(s.(pools := r.pools), ids)) == Sum(RepaidOf(s, ids)) + amount
      && forall j :: j in s.pools && j !in ids ==> r.pools[j] == s.pools[j]
  {
    NetSettleEffect(s, payer, ids, t, amount, env);
    var remaining := Preflight(s, payer, ids, |ids|, t).value;
    var r := NetSettle(s, payer, ids, t, amount, env).value;
    AllocationsAreExact(remaining, amount);
    var allocs := Allocations(remaining, amount);
    assert ids[..|ids|] == ids;
    forall i | 0 <= i < |ids| ensures r.pools[ids[i]].repaid == s.pools[ids[i]].repaid + allocs[i] {
      assert NettedAt(s, ids[i], allocs[i], env.now) == Some(r.pools[ids[i]]);
    }
    SumPointwise(RepaidOf(s.(pools := r.pools), ids), RepaidOf(s, ids), allocs);
  }

  /** Paying the whole outstanding debt of pools that are not late closes each of them at exactly its debt. */
  lemma WholeDebtClosesAll(s: State, payer: Address, ids: seq<nat>, t: Token, amount: int, env: Env)
    requires Sound(s) && NoDuplicates(ids) && NetSettle(s, payer, ids, t, amount, env).Ok?
    requires amount == Sum(Preflight(s, payer, ids, |ids|, t).value)
    requires forall i :: 0 <= i < |ids| ==>
      ids[i] in s.pools && ids[i] in s.nft && !Late(s.pools[ids[i]], s.nft[ids[i]].dueDate, env.now)
    ensures var r := NetSettle(s, payer, ids, t, amount, env).value;
      forall i :: 0 <= i < |ids| ==>
        && Is(r, ids[i], Repaid) && r.pools[ids[i]].closed
        && r.pools[ids[i]].repaid == r.pools[ids[i]].totalOwed == s.pools[ids[i]].totalOwed
  {
    NetSettleEffect(s, payer, ids, t, amount, env);
    var remaining := Preflight(s, payer, ids, |ids|, t).value;
    var r := NetSettle(s, payer, ids, t, amount, env).value;
    AllocationsWithinDebt(remaining, amount);
    forall i | 0 <= i < |ids|
      ensures Is(r, ids[i], Repaid) && r.pools[ids[i]].closed
      ensures r.pools[ids[i]].repaid == r.pools[ids[i]].totalOwed == s.pools[ids[i]].totalOwed
    {
      assert Nettable(s, ids[i], t);
      SoundAt(s, ids[i]);
      assert NettedAt(s, ids[i], remaining[i], env.now) == Some(r.pools[ids[i]]);
      assert ClosesAt(s, ids[i], remaining[i], env.now);
    }
  }

  /** Why the ids must be distinct: a repeated id is credited its last allocation only. */
  lemma RepeatedIdLosesCredit(s: State, id: nat, first: int, last: int, now: nat)
    requires id in s.pools && id in s.nft && first > 0 && last > 0
    ensures var r := ApplyAllocations(s, [id, id], [first, last], 2, now);
      r.Ok? ==> r.value.pools[id].repaid == s.pools[id].repaid + last
  {
    var r1 := ApplyAllocations(s, [id, id], [first, last], 1, now);
    assert ApplyAllocations(s, [id, id], [first, last], 0, now) == Ok(s);
    assert r1 == match NettedAt(s, id, first, now) {
      case None => Err(ArithmeticOverflow)
      case Some(p) => Ok(PutPool(s, id, p))
    };
  }
}
