/** What a redemption pays: a rounded share of what is still held. Documented as a pro-rata portion of the payout; this
    says exactly when a holder gets that. */
module Redemptions {
  import opened Wrappers
  import opened Int128
  import opened Chain
  import opened MapSum
  import opened Rounding
  import opened Fractionalizer

  /** A holder gets the rounded-down share of the payout still held; the holder of all shares still outstanding gets
      what the rounded-down share of all others would leave of it. Exactly the holder's shares are burned. */
  lemma RedemptionTakes(s: State, holder: Address, k: Key, r: State)
    requires Sound(s) && Redeem(s, holder, k) == Ok(r)
    ensures k in s.wraps && k in r.wraps && s.wraps[k].settled && holder in Payments(r, k) && Balance(s, k, holder) > 0
    ensures var w, h, q := s.wraps[k], Balance(s, k, holder), Payments(r, k)[holder].amount;
      && (if h == w.outstanding then IsFloor(w.totalPayout - q, w.totalPayout * (w.totalShares - h), w.totalShares)
          else IsFloor(q, w.totalPayout * h, w.totalShares))
      && Payments(r, k)[holder].shares == h
      && r.wraps[k] == w.(outstanding := w.outstanding - h, totalPayout := w.totalPayout - q)
    ensures Balance(r, k, holder) == 0 && forall a :: a != holder ==> Balance(r, k, a) == Balance(s, k, a)
  {
    assert WrapSound(s, k);
    BurnedNonNegative(s, k);
    var w, h := s.wraps[k], Balance(s, k, holder);
    DivideBounds(w.totalPayout * h, w.totalShares);
    DivideBounds(w.totalPayout * (w.totalShares - h), w.totalShares);
  }

  lemma FloorAfterLoss(payout: int, paid: int, h: int, t: int)
    requires t > 0 && paid * h >= 0
    ensures (payout - paid) * h / t == payout * h / t <==> paid * h <= payout * h % t
  {
    var q := payout * h / t;
    DivideBounds(payout * h, t);
    assert (payout - paid) * h == payout * h - paid * h && payout * h % t == payout * h - q * t;
    if paid * h <= payout * h % t {
      DivideUnique((payout - paid) * h, t, q);
    } else {
      DivideBounds((payout - paid) * h, t);
    }
  }

  /** In a run in which a wrap is settled: a holder who is not the last gets the pro-rata part of the settled payout if
      and only if what was paid to others before would not have changed that part. */
  lemma ProRataIff(before: seq<Call>, k: Key, repaid: nat, shareBps: nat, after: seq<Call>, holder: Address, r: State)
    requires NoLiveRewrap(EMPTY, before + ([SettleCall(k, repaid, shareBps)] + after))
    requires var s := Run(EMPTY, before); k in s.wraps && !s.wraps[k].settled && Settle(s, k, repaid, shareBps).Ok?
    requires var s := Run(EMPTY, before + ([SettleCall(k, repaid, shareBps)] + after));
      && Redeem(s, holder, k) == Ok(r) && k in s.wraps && Balance(s, k, holder) != s.wraps[k].outstanding
    ensures var s := Run(EMPTY, before + ([SettleCall(k, repaid, shareBps)] + after));
      var settled, h := repaid * shareBps / BPS, Balance(s, k, holder);
      && s.wraps[k].totalShares > 0 && holder in Payments(r, k)
      && (Payments(r, k)[holder].amount == settled * h / s.wraps[k].totalShares
          <==> Total(Paid(s, k)) * h <= settled * h % s.wraps[k].totalShares)
  {
    var calls := before + ([SettleCall(k, repaid, shareBps)] + after);
    var s := Run(EMPTY, calls);
    PayoutIsConserved(before, k, repaid, shareBps, after);
    EmptySound();
    RunSound(EMPTY, calls);
    assert WrapSound(s, k);
    RedemptionTakes(s, holder, k, r);
    var settled, h, w, q := repaid * shareBps / BPS, Balance(s, k, holder), s.wraps[k], Payments(r, k)[holder].amount;
    assert w.totalPayout == settled - Total(Paid(s, k));
    DivideUnique(w.totalPayout * h, w.totalShares, q);
    TotalNonNegative(Paid(s, k));
    FloorAfterLoss(settled, Total(Paid(s, k)), h, w.totalShares);
  }

  // ── Wrapping ─────────────────────────────────────────────────────────────────

  /** Wrapping a position issues between one and a million shares, all to its investor. */
  lemma WrapIssuesAll(s: State, investor: Address, id: nat, totalShares: nat, contributed: int)
    ensures var r := WrapPosition(s, investor, id, totalShares, contributed);
      (r.Ok? <==> 1 <= totalShares <= 1_000_000 && contributed > 0 && id !in s.closedPools)
      && (r.Ok? ==>
            && Balance(r.value, (id, investor), investor) == totalShares
            && (id, investor) in r.value.wraps
            && r.value.wraps[(id, investor)] == Wrap(totalShares, totalShares, 0, false)
            && forall k, a :: k != (id, investor) || a != investor ==> Balance(r.value, k, a) == Balance(s, k, a))
  {
  }

  /** Unwrapping undoes it, as long as the investor holds all shares and the pool is open. */
  lemma UnwrapUndoesWrap(s: State, investor: Address, id: nat, totalShares: nat, contributed: int, m: State)
    requires Sound(s) && (id, investor) !in s.wraps
    requires WrapPosition(s, investor, id, totalShares, contributed) == Ok(m)
    ensures Unwrap(m, investor, id).Ok?
    ensures var r := Unwrap(m, investor, id).value;
      && r.wraps == s.wraps && r.payments == s.payments && r.closedPools == s.closedPools
      && forall k, a :: Balance(r, k, a) == Balance(s, k, a)
  {
    var k := (id, investor);
    assert WrapSound(s, k);
    BurnedNonNegative(s, k);
    assert m.wraps - {k} == s.wraps;
  }

  // ── A holder who gets less ───────────────────────────────────────────────────

  const K: Key := (1, 7)

  const SHARED: seq<Call> := [WrapCall(7, 1, 10, 100), TransferCall(7, K, 8, 3), TransferCall(7, K, 9, 2)]
  const SETTLED: seq<Call> := [PoolCloses(1), SettleCall(K, 100, 10_000)]

  lemma Sharing()
    ensures Run(EMPTY, SHARED)
      == State(map[K := Wrap(10, 10, 0, false)], map[K := map[7 := 5, 8 := 3, 9 := 2]], map[], {})
  {
    var open := Wrap(10, 10, 0, false);
    var s1 := State(map[K := open], map[K := map[7 := 10]], map[], {});
    var s2 := State(map[K := open], map[K := map[7 := 7, 8 := 3]], map[], {});
    var s3 := State(map[K := open], map[K := map[7 := 5, 8 := 3, 9 := 2]], map[], {});
    assert Step(EMPTY, SHARED[0]) == s1;
    assert Holders(Step(s1, SHARED[1]), K) == map[7 := 7, 8 := 3];
    assert Step(s1, SHARED[1]) == s2;
    assert Holders(Step(s2, SHARED[2]), K) == map[7 := 5, 8 := 3, 9 := 2];
    assert Step(s2, SHARED[2]) == s3;
    StepByStep(SHARED, [EMPTY, s1, s2, s3]);
  }

  lemma Settling(s: State)
    requires s == State(map[K := Wrap(10, 10, 0, false)], map[K := map[7 := 5, 8 := 3, 9 := 2]], map[], {})
    ensures Run(s, SETTLED)
      == State(map[K := Wrap(10, 10, 100, true)], map[K := map[7 := 5, 8 := 3, 9 := 2]], map[], {1})
  {
    var closed := s.(closedPools := {1});
    assert Step(s, SETTLED[0]) == closed;
    var settled := closed.(wraps := map[K := Wrap(10, 10, 100, true)]);
    assert Step(closed, SETTLED[1]) == settled;
    StepByStep(SETTLED, [s, closed, settled]);
  }

  /** Ten shares of a payout of 100, held five, three and two: the first holder gets 50, the second 15 instead of 30. */
  lemma SecondRedeemerGetsLess()
    ensures Payments(Run(EMPTY, SHARED + (SETTLED + [RedeemCall(7, K), RedeemCall(8, K)])), K)
      == map[7 := Payment(5, 50), 8 := Payment(3, 15)]
  {
    Sharing();
    var shared := Run(EMPTY, SHARED);
    Settling(shared);
    var settled := Run(shared, SETTLED);
    RedeemFirst(settled, K);
    var first := Step(settled, RedeemCall(7, K));
    RedeemSecond(first, K);
    var redeems := [RedeemCall(7, K), RedeemCall(8, K)];
    StepByStep(redeems, [settled, first, Step(first, RedeemCall(8, K))]);
    RunSplit(shared, SETTLED, redeems);
    RunSplit(EMPTY, SHARED, SETTLED + redeems);
  }

  lemma RedeemFirst(s: State, k: Key)
    requires k == (1, 7)
    requires s == State(map[k := Wrap(10, 10, 100, true)], map[k := map[7 := 5, 8 := 3, 9 := 2]], map[], {1})
    ensures Step(s, RedeemCall(7, k))
      == State(map[k := Wrap(10, 5, 50, true)], map[k := map[7 := 0, 8 := 3, 9 := 2]],
               map[k := map[7 := Payment(5, 50)]], {1})
  {
    var r := Step(s, RedeemCall(7, k));
    assert r.shares[k] == map[7 := 0, 8 := 3, 9 := 2] && r.payments[k] == map[7 := Payment(5, 50)];
    assert r.wraps[k] == Wrap(10, 5, 50, true);
  }

  lemma RedeemSecond(s: State, k: Key)
    requires k == (1, 7)
    requires s == State(map[k := Wrap(10, 5, 50, true)], map[k := map[7 := 0, 8 := 3, 9 := 2]],
                        map[k := map[7 := Payment(5, 50)]], {1})
    ensures Step(s, RedeemCall(8, k))
      == State(map[k := Wrap(10, 2, 35, true)], map[k := map[7 := 0, 8 := 0, 9 := 2]],
               map[k := map[7 := Payment(5, 50), 8 := Payment(3, 15)]], {1})
  {
    var r := Step(s, RedeemCall(8, k));
    assert r.shares[k] == map[7 := 0, 8 := 0, 9 := 2];
    assert r.payments[k] == map[7 := Payment(5, 50), 8 := Payment(3, 15)] && r.wraps[k] == Wrap(10, 2, 35, true);
  }

  lemma {:induction false} StepByStep(calls: seq<Call>, states: seq<State>)
    requires |states| == |calls| + 1 && forall i :: 0 <= i < |calls| ==> Step(states[i], calls[i]) == states[i + 1]
    ensures Run(states[0], calls) == states[|calls|]
    decreases |calls|
  {
    if calls != [] {
      RunOne(states[0], calls);
      StepByStep(calls[1..], states[1..]);
    }
  }
}
