/** `net_settle` splits one payment over several pools: the split is exact. */
module Netting {
  import opened Wrappers
  import opened Chain
  import opened SeqSum
  import opened Rounding
  import opened FinancingPool

  // ── The split of the amount ──────────────────────────────────────────────────

  function Floors(remaining: seq<int>, amount: int, total: int): seq<int>
    requires total > 0
  {
    seq(|remaining|, i requires 0 <= i < |remaining| => amount * remaining[i] / total)
  }

  lemma FloorBounds(amount: int, r: int, total: int)
    requires 0 <= amount && 0 <= r && total > 0
    ensures var q := amount * r / total; 0 <= q && q * total <= amount * r <= q * total + total - 1
    ensures amount <= total ==> amount * r / total <= r
    ensures amount == total ==> amount * r / total == r
  {
    var q := amount * r / total;
    assert amount * r >= 0;
    DivideBounds(amount * r, total);
    if amount <= total {
      MultiplyMonotone(amount, total, r);
      if q > r {
        MultiplyMonotone(r + 1, q, total);
      }
    }
    if amount == total {
      assert amount * r == r * total;
      DivideUnique(amount * r, total, r);
    }
  }

  /** Rounded-down proportional shares lose less than one unit each. */
  lemma {:induction false} FloorsSum(remaining: seq<int>, amount: int, total: int)
    requires 0 <= amount && total > 0 && forall i :: 0 <= i < |remaining| ==> 0 <= remaining[i]
    ensures var b := Floors(remaining, amount, total);
      Sum(b) * total <= amount * Sum(remaining) <= Sum(b) * total + (total - 1) * |remaining|
  {
    if remaining == [] {
    } else {
      var n := |remaining| - 1;
      var rest := remaining[..n];
      FloorsSum(rest, amount, total);
      FloorBounds(amount, remaining[n], total);
      var q := amount * remaining[n] / total;
      assert Floors(remaining, amount, total) == Floors(rest, amount, total) + [q];
      SumSnoc(Floors(rest, amount, total), q);
      assert remaining == rest + [remaining[n]];
      SumSnoc(rest, remaining[n]);
      FloorsSumStep(Sum(Floors(rest, amount, total)), q, amount, Sum(rest), remaining[n], total, n);
    }
  }

  lemma FloorsSumStep(b: int, q: int, amount: int, sum: int, r: int, total: int, n: int)
    requires b * total <= amount * sum <= b * total + (total - 1) * n
    requires q * total <= amount * r <= q * total + total - 1
    ensures (b + q) * total <= amount * (sum + r) <= (b + q) * total + (total - 1) * (n + 1)
  {
    assert (b + q) * total == b * total + q * total;
    assert amount * (sum + r) == amount * sum + amount * r;
    assert (total - 1) * (n + 1) == (total - 1) * n + total - 1;
  }

  /** What rounding leaves over is less than the number of pools. */
  lemma RemainderBelow(b: int, amount: int, total: int, n: nat)
    requires total > 0 && n > 0
    requires b * total <= amount * total <= b * total + (total - 1) * n
    ensures 0 <= amount - b < n
  {
    MultiplyCancel(b, amount + 1, total);
    assert (total - 1) * n == n * total - n;
    assert (b + n) * total == b * total + n * total;
    MultiplyCancel(amount, b + n, total);
  }

  /** The allocations are non-negative, add up to exactly the payment, and differ from the rounded-down
      proportional shares in the first pool only, by fewer units than there are pools. */
  lemma AllocationsAreExact(remaining: seq<int>, amount: int)
    requires remaining != [] && Sum(remaining) > 0 && amount > 0
    requires forall i :: 0 <= i < |remaining| ==> 0 <= remaining[i]
    ensures var a := Allocations(remaining, amount);
      && |a| == |remaining| && Sum(a) == amount
      && (forall i :: 0 <= i < |a| ==> a[i] >= 0)
      && (forall i :: 0 < i < |a| ==> a[i] == amount * remaining[i] / Sum(remaining))
      && 0 <= a[0] - amount * remaining[0] / Sum(remaining) < |remaining|
  {
    var total := Sum(remaining);
    var base := BaseAllocations(remaining, amount);
    assert base == Floors(remaining, amount, total);
    FloorsSum(remaining, amount, total);
    RemainderBelow(Sum(base), amount, total, |remaining|);
    SumUpdate(base, 0, base[0] + amount - Sum(base));
    forall i | 0 <= i < |base| ensures base[i] >= 0 { FloorBounds(amount, remaining[i], total); }
  }

  /** Only the first pool can be paid more than it owes, unless the payment exceeds the whole debt; and a
      payment of the whole debt gives every pool exactly its debt. */
  lemma AllocationsWithinDebt(remaining: seq<int>, amount: int)
    requires remaining != [] && Sum(remaining) > 0 && 0 < amount <= Sum(remaining)
    requires forall i :: 0 <= i < |remaining| ==> 0 <= remaining[i]
    ensures var a := Allocations(remaining, amount);
      && |a| == |remaining|
      && (forall i :: 0 < i < |a| ==> a[i] <= remaining[i])
      && a[0] < remaining[0] + |remaining|
      && (amount == Sum(remaining) ==> a == remaining)
  {
    AllocationsAreExact(remaining, amount);
    var total, a := Sum(remaining), Allocations(remaining, amount);
    forall i | 0 <= i < |a| ensures amount * remaining[i] / total <= remaining[i] {
      FloorBounds(amount, remaining[i], total);
    }
    if amount == total {
      forall i | 0 <= i < |a| ensures amount * remaining[i] / total == remaining[i] {
        FloorBounds(amount, remaining[i], total);
      }
      assert BaseAllocations(remaining, amount) == remaining;
    }
  }

  // ── Writing the pools ────────────────────────────────────────────────────────

  /** The first `n` listed pools hold what was netted into them; everything else is as it was. */
  ghost predicate Applied(s: State, r: State, ids: seq<nat>, allocs: seq<int>, n: nat, now: nat)
    requires n <= |ids| == |allocs| && AllStored(s, ids)
  {
    && r == s.(pools := r.pools) && r.pools.Keys == s.pools.Keys
    && (forall i :: 0 <= i < n ==> NettedAt(s, ids[i], allocs[i], now) == Some(r.pools[ids[i]]))
    && (forall j :: j in s.pools && j !in ids[..n] ==> r.pools[j] == s.pools[j])
  }

  lemma ApplyStep(s: State, earlier: State, ids: seq<nat>, allocs: seq<int>, n: nat, now: nat, p: Pool)
    requires 0 < n <= |ids| == |allocs| && NoDuplicates(ids) && AllStored(s, ids)
    requires Applied(s, earlier, ids, allocs, n - 1, now) && NettedAt(s, ids[n - 1], allocs[n - 1], now) == Some(p)
    ensures Applied(s, PutPool(earlier, ids[n - 1], p), ids, allocs, n, now)
  {
    var r := PutPool(earlier, ids[n - 1], p);
    assert r.pools.Keys == s.pools.Keys;
    assert ids[..n] == ids[..n - 1] + [ids[n - 1]];
  }

  lemma {:induction false} ApplyEffect(s: State, ids: seq<nat>, allocs: seq<int>, n: nat, now: nat)
    requires n <= |ids| == |allocs| && NoDuplicates(ids) && AllStored(s, ids)
    ensures var r := ApplyAllocations(s, ids, allocs, n, now); r.Ok? ==> Applied(s, r.value, ids, allocs, n, now)
  {
    if n > 0 && ApplyAllocations(s, ids, allocs, n, now).Ok? {
      ApplyEffect(s, ids, allocs, n - 1, now);
      var earlier := ApplyAllocations(s, ids, allocs, n - 1, now).value;
      var id := ids[n - 1];
      assert ids[..n] == ids[..n - 1] + [id];
      assert id !in ids[..n - 1];
      if allocs[n - 1] <= 0 {
        assert earlier.pools[id] == s.pools[id];
      } else {
        ApplyStep(s, earlier, ids, allocs, n, now, NettedAt(s, id, allocs[n - 1], now).value);
      }
    }
  }

  /** The pools to close are, in order and without repetition, the listed ones their allocation closes. */
  lemma {:induction false} ClosingEffect(s: State, ids: seq<nat>, allocs: seq<int>, n: nat, now: nat)
    requires n <= |ids| == |allocs| && NoDuplicates(ids) && AllStored(s, ids)
    ensures var c := Closing(s, ids, allocs, n, now);
      && NoDuplicates(c)
      && (forall j :: j in c ==> j in ids[..n])
      && forall i :: 0 <= i < n ==> (ids[i] in c <==> ClosesAt(s, ids[i], allocs[i], now))
  {
    if n > 0 {
      ClosingEffect(s, ids, allocs, n - 1, now);
      assert ids[..n] == ids[..n - 1] + [ids[n - 1]];
      assert ids[n - 1] !in ids[..n - 1];
    }
  }
}
