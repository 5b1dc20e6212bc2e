/** What investors receive: every disbursement pays each of them the rounded share of what was repaid less the
    treasury's cut, and what stays behind is rounding and shares nobody holds. Amounts and basis points only. */
module PayoutShares {
  import opened Wrappers
  import opened Int128
  import opened Chain
  import opened MapSum
  import opened Rounding
  import opened FinancingPool
  import opened PoolInvariants

  // ── One share ────────────────────────────────────────────────────────────────

  /** Shares are whole multiples of this: one, or above seven decimals a unit of the seventh. */
  function Grain(decimals: nat): (g: int)
    ensures g >= 1
  {
    if decimals <= 7 then 1 else Pow10(decimals - 7)
  }

  predicate ShareVia(q: int, total: int, bps: nat, grain: int, grains: int, k: int) {
    IsFloor(grains, total, grain) && IsFloor(k, grains * bps, BPS) && q == k * grain
  }

  /** Up to seven decimals the rounded-down share of the total; above, the rounded-down share of its whole grains. */
  ghost predicate IsShare(q: int, total: int, bps: nat, decimals: nat) {
    exists grains, k :: ShareVia(q, total, bps, Grain(decimals), grains, k)
  }

  lemma PaidIsShare(total: int, p: Position, t: Token)
    requires PayoutOf(total, p, t).Some?
    ensures IsShare(PayoutOf(total, p, t).value, total, p.shareBps, t.decimals)
  {
    var q, g := PayoutOf(total, p, t).value, Grain(t.decimals);
    if t.decimals <= 7 {
      ModelAgreesUpToStandardIff(total, p.shareBps, t.decimals);
      DivideBounds(total * p.shareBps, BPS);
      assert ShareVia(q, total, p.shareBps, g, total, q);
    } else {
      ScaledDownShare(total, p.shareBps, g);
      DivideBounds(total, g);
      DivideBounds(total / g * p.shareBps, BPS);
      assert ShareVia(q, total, p.shareBps, g, total / g, total / g * p.shareBps / BPS);
    }
  }

  /** A share loses less than a grain's share and a grain. */
  lemma ShareBounds(q: int, total: int, bps: nat, decimals: nat, x: int, c: int)
    requires IsShare(q, total, bps, decimals) && x == total - Grain(decimals) + 1 && c == (BPS - 1) * Grain(decimals)
    ensures x * bps - c <= BPS * q <= total * bps
  {
    var g := Grain(decimals);
    var n, k :| ShareVia(q, total, bps, g, n, k);
    MultiplyMonotone(n * g, total, bps);
    MultiplyMonotone(total - g + 1, n * g, bps);
    ScaleBracket(n * bps, k * BPS, BPS - 1, g);
    Commute(n, bps, g);
    Commute(k, BPS, g);
  }

  lemma ScaleBracket(x: int, y: int, slack: int, g: int)
    requires g >= 1 && y <= x <= y + slack
    ensures x * g - slack * g <= y * g <= x * g
  {
    MultiplyMonotone(y, x, g);
    MultiplyMonotone(x, y + slack, g);
    assert (y + slack) * g == y * g + slack * g;
  }

  lemma Commute(a: int, b: int, c: int)
    ensures a * b * c == a * c * b
  {
  }

  // ── One distribution ─────────────────────────────────────────────────────────

  /** The disbursement pays everybody with a position their share of what is repaid less the cut. */
  ghost predicate PaysShares(s: State, d: Disbursement) {
    && d.invoice in s.pools && d.payouts.Keys == PositionsOf(s, d.invoice).Keys
    && forall a :: a in d.payouts ==>
         IsShare(d.payouts[a], s.pools[d.invoice].repaid - d.cut, PositionsOf(s, d.invoice)[a].shareBps,
                 s.pools[d.invoice].token.decimals)
  }

  /** A distribution that succeeds sends the recorded cut to the treasury and its share to each investor, and nothing
      else. */
  lemma DistributionPays(s: State, id: nat, total: int, r: State)
    requires id in s.pools && Distribute(s, id, total) == Ok(r) && Cut(s, id) >= 0 && Fits(total - Cut(s, id))
    ensures |r.disbursed| == |s.disbursed| + 1 && r.disbursed[..|s.disbursed|] == s.disbursed
    ensures var d, t := r.disbursed[|s.disbursed|], s.pools[id].token;
      && d.invoice == id && d.cut == Cut(s, id) && d.payouts.Keys == PositionsOf(s, id).Keys
      && (forall a :: a in d.payouts ==>
            IsShare(d.payouts[a], total - Cut(s, id), PositionsOf(s, id)[a].shareBps, t.decimals))
      && Held(r, t) == Held(s, t) - Outflow(d) >= 0
    ensures r == s.(cuts := s.cuts - {id}, held := r.held, disbursed := r.disbursed)
  {
    var ps, t, rest := PositionsOf(s, id), s.pools[id].token, total - Cut(s, id);
    assert Saturate(rest) == rest;
    var payouts := Payouts(ps, rest, t);
    forall a | a in payouts ensures IsShare(payouts[a], rest, ps[a].shareBps, t.decimals) {
      PaidIsShare(rest, ps[a], t);
    }
  }

  // ── What is kept back ────────────────────────────────────────────────────────

  ghost function Affine<K>(m: map<K, int>, x: int, c: int): map<K, int> { map k | k in m :: x * m[k] - c }

  lemma AffineRemove<K>(m: map<K, int>, x: int, c: int, k: K)
    requires k in m
    ensures Total(Affine(m, x, c)) == x * m[k] - c + Total(Affine(m - {k}, x, c))
    ensures |m| == |m - {k}| + 1
  {
    TotalRemove(Affine(m, x, c), k);
    assert Affine(m, x, c) - {k} == Affine(m - {k}, x, c);
    assert m == (m - {k})[k := m[k]];
  }

  lemma {:induction false} TotalAffine<K>(m: map<K, int>, x: int, c: int)
    ensures Total(Affine(m, x, c)) == x * Total(m) - c * |m|
    decreases |m|
  {
    if m == map[] {
      assert Affine(m, x, c) == map[];
    } else {
      var k :| k in m;
      AffineRemove(m, x, c, k);
      TotalRemove(m, k);
      TotalAffine(m - {k}, x, c);
      AffineStep(x, c, m[k], Total(m - {k}), |m - {k}|);
    }
  }

  lemma AffineStep(x: int, c: int, first: int, rest: int, n: int)
    ensures x * first - c + (x * rest - c * n) == x * (first + rest) - c * (n + 1)
  {
  }

  /** What the contract keeps of the repaid amount beyond cut and payouts. */
  ghost function KeptBack(s: State, d: Disbursement): int
    requires d.invoice in s.pools
  {
    s.pools[d.invoice].repaid - Outflow(d)
  }

  /** The contract keeps the shares nobody holds, and of each held share less than rounding can take. */
  ghost predicate KeepsRoundingOnly(s: State, d: Disbursement)
    requires d.invoice in s.pools
  {
    var p, ps := s.pools[d.invoice], PositionsOf(s, d.invoice);
    var rest, g := p.repaid - d.cut, Grain(p.token.decimals);
    rest * (BPS - ShareSum(ps)) <= KeptBack(s, d) * BPS
      <= rest * (BPS - ShareSum(ps)) + (g - 1) * ShareSum(ps) + (BPS - 1) * g * |ps|
  }

  lemma SharesKeepRounding(s: State, d: Disbursement)
    requires PaysShares(s, d)
    ensures KeepsRoundingOnly(s, d)
  {
    var p, ps := s.pools[d.invoice], PositionsOf(s, d.invoice);
    var rest, g := p.repaid - d.cut, Grain(p.token.decimals);
    PaidBracket(d.payouts, ps, rest, p.token.decimals, rest - g + 1, (BPS - 1) * g);
    KeptArithmetic(rest, ShareSum(ps), g, |ps|, Total(d.payouts), KeptBack(s, d));
  }

  lemma PaidBracket(payouts: map<Address, int>, ps: map<Address, Position>, rest: int, decimals: nat, x: int, c: int)
    requires payouts.Keys == ps.Keys && x == rest - Grain(decimals) + 1 && c == (BPS - 1) * Grain(decimals)
    requires forall a :: a in payouts ==> IsShare(payouts[a], rest, ps[a].shareBps, decimals)
    ensures x * ShareSum(ps) - c * |ps| <= BPS * Total(payouts) <= rest * ShareSum(ps)
  {
    var shares := Shares(ps);
    forall a | a in shares ensures x * shares[a] - c <= BPS * payouts[a] && BPS * payouts[a] <= rest * shares[a] {
      ShareBounds(payouts[a], rest, ps[a].shareBps, decimals, x, c);
    }
    assert shares.Keys == ps.Keys && |shares| == |shares.Keys| && |ps| == |ps.Keys|;
    PaidAtLeast(payouts, shares, x, c);
    PaidAtMost(payouts, shares, rest);
  }

  lemma PaidAtLeast(payouts: map<Address, int>, shares: map<Address, int>, x: int, c: int)
    requires payouts.Keys == shares.Keys && forall a :: a in shares ==> x * shares[a] - c <= BPS * payouts[a]
    ensures x * Total(shares) - c * |shares| <= BPS * Total(payouts)
  {
    TotalScaled(payouts, BPS);
    TotalAffine(shares, x, c);
    TotalMonotone(Affine(shares, x, c), Scaled(payouts, BPS));
  }

  lemma PaidAtMost(payouts: map<Address, int>, shares: map<Address, int>, rest: int)
    requires payouts.Keys == shares.Keys && forall a :: a in shares ==> BPS * payouts[a] <= rest * shares[a]
    ensures BPS * Total(payouts) <= rest * Total(shares)
  {
    TotalScaled(payouts, BPS);
    TotalScaled(shares, rest);
    TotalMonotone(Scaled(payouts, BPS), Scaled(shares, rest));
  }

  lemma KeptArithmetic(rest: int, shares: int, g: int, n: int, paid: int, kept: int)
    requires kept == rest - paid
    requires (rest - g + 1) * shares - (BPS - 1) * g * n <= BPS * paid <= rest * shares
    ensures rest * (BPS - shares) <= kept * BPS <= rest * (BPS - shares) + (g - 1) * shares + (BPS - 1) * g * n
  {
    assert (rest - g + 1) * shares == rest * shares - (g - 1) * shares;
    assert rest * (BPS - shares) == rest * BPS - rest * shares;
  }
}
