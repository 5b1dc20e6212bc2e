/** The two roundings of a basis-point share: the one the contracts pay with
    (`kora_shared::validation`) and the one the repository's own pool model computes with. */
module Rounding {
  import opened Wrappers
  import opened Int128
  import Chain

  const STANDARD_DECIMALS: nat := 7

  /** Largest power of ten an `i128` holds is 10^38. */
  predicate ScaleFits(e: nat) { e <= 38 }

  /** `q` is `x / d` rounded down. */
  predicate IsFloor(q: int, x: int, d: int) { q * d <= x < q * d + d }

  /** Rust's checked division truncates toward zero. */
  function Quotient(x: int, d: int): int
    requires d > 0
  {
    if x >= 0 then x / d else -((-x) / d)
  }

  // ── kora_shared::validation ──────────────────────────────────────────────────

  /** `None` stands for `InvalidAmount` (negative) or `ArithmeticOverflow`. */
  function BpsOf(amount: int, bps: nat): Option<int> {
    if amount < 0 || !Fits(amount * bps) then None else Some(amount * bps / BPS)
  }

  function NormalizeAmount(amount: int, decimals: nat): Option<int> {
    if decimals == STANDARD_DECIMALS then Some(amount)
    else if decimals < STANDARD_DECIMALS then
      var scaled := amount * Pow10(STANDARD_DECIMALS - decimals);
      if Fits(scaled) then Some(scaled) else None
    else if !ScaleFits(decimals - STANDARD_DECIMALS) then None
    else Some(Quotient(amount, Pow10(decimals - STANDARD_DECIMALS)))
  }

  function DenormalizeAmount(amount: int, decimals: nat): Option<int> {
    if decimals == STANDARD_DECIMALS then Some(amount)
    else if decimals < STANDARD_DECIMALS then Some(Quotient(amount, Pow10(STANDARD_DECIMALS - decimals)))
    else if !ScaleFits(decimals - STANDARD_DECIMALS) then None
    else
      var scaled := amount * Pow10(decimals - STANDARD_DECIMALS);
      if Fits(scaled) then Some(scaled) else None
  }

  /** The rounding `distribute_yield` pays with. */
  function BpsOfNormalized(amount: int, bps: nat, decimals: nat): Option<int> {
    if amount < 0 then None
    else
      match NormalizeAmount(amount, decimals)
      case None => None
      case Some(normalized) =>
        if Fits(normalized * bps) then DenormalizeAmount(Quotient(normalized * bps, BPS), decimals) else None
  }

  // ── financing_pool/verification/model.rs ─────────────────────────────────────

  /** `amount * bps / 10_000`, rounded down to a multiple of `10^decimals`. */
  function WholeUnits(amount: int, bps: nat, decimals: nat): int {
    Quotient(Quotient(amount * bps, BPS), Pow10(decimals)) * Pow10(decimals)
  }

  function ModelBpsOfNormalized(amount: int, bps: nat, decimals: nat): Option<int> {
    if ScaleFits(decimals) && Fits(amount * bps) then Some(WholeUnits(amount, bps, decimals)) else None
  }

  // ── Division facts ───────────────────────────────────────────────────────────

  lemma MultiplyMonotone(a: int, b: int, c: int)
    requires a <= b && c >= 0
    ensures a * c <= b * c
  {
  }

  lemma MultiplyCancel(a: int, b: int, c: int)
    requires c > 0 && a * c < b * c
    ensures a < b
  {
    if b <= a { MultiplyMonotone(b, a, c); }
  }

  lemma DivideBounds(x: int, d: int)
    requires d > 0
    ensures x / d * d <= x < x / d * d + d
  {
  }

  /** The quotient is the one integer whose multiples bracket the dividend. */
  lemma DivideUnique(x: int, d: int, q: int)
    requires d > 0 && q * d <= x < q * d + d
    ensures x / d == q
  {
    DivideBounds(x, d);
    MultiplyCancel(x / d, q + 1, d);
    MultiplyCancel(q, x / d + 1, d);
  }

  lemma BracketTwice(x: int, c: int, d: int, a: int, q: int)
    requires c > 0 && d > 0
    requires a * c <= x < a * c + c
    requires q * d <= a < q * d + d
    ensures q * (c * d) <= x < q * (c * d) + c * d
  {
    MultiplyMonotone(q * d, a, c);
    MultiplyMonotone(a + 1, q * d + d, c);
    assert q * (c * d) == q * d * c && (q * d + d) * c == q * d * c + c * d;
  }

  lemma DivideTwice(x: int, c: int, d: int)
    requires c > 0 && d > 0
    ensures c * d > 0 && x / c / d == x / (c * d)
  {
    assert c * d > 0;
    var a := x / c;
    var q := a / d;
    DivideBounds(x, c);
    DivideBounds(a, d);
    BracketTwice(x, c, d, a, q);
    DivideUnique(x, c * d, q);
  }

  lemma DivideSplit(x: int, y: int, d: int)
    requires d > 0
    ensures x / d + y / d <= (x + y) / d <= x / d + y / d + 1
  {
    var p, q := x / d, y / d;
    DivideBounds(x, d);
    DivideBounds(y, d);
    assert (p + q) * d == p * d + q * d && (p + q + 1) * d == p * d + q * d + d;
    DivideUnique(x + y, d, if x + y < (p + q + 1) * d then p + q else p + q + 1);
  }

  // ── What the roundings promise ───────────────────────────────────────────────

  /** A share is never more than its exact fraction. */
  lemma ContractShareIsAtMostExact(amount: int, bps: nat, decimals: nat)
    ensures var r := BpsOfNormalized(amount, bps, decimals);
      r.Some? ==> 0 <= r.value && r.value * BPS <= amount * bps
  {
    if BpsOfNormalized(amount, bps, decimals).Some? {
      if decimals < STANDARD_DECIMALS {
        ScaledUpShare(amount, bps, Pow10(STANDARD_DECIMALS - decimals));
      } else if decimals > STANDARD_DECIMALS {
        ScaledDownShare(amount, bps, Pow10(decimals - STANDARD_DECIMALS));
      }
    }
  }

  /** Scaling up by `s` before the division and down after it changes nothing. */
  lemma ScaledUpShare(amount: int, bps: nat, s: int)
    requires amount >= 0 && s > 0
    ensures 0 <= amount * s && 0 <= amount * s * bps
    ensures amount * s * bps / BPS / s == amount * bps / BPS
    ensures 0 <= amount * bps / BPS && amount * bps / BPS * BPS <= amount * bps
  {
    assert amount * bps >= 0 && amount * s >= 0;
    assert amount * s * bps == amount * bps * s;
    MultiplyMonotone(0, amount * bps, s);
    ScaledUp(amount * bps, s);
  }

  lemma ScaledUp(z: int, s: int)
    requires z >= 0 && s > 0
    ensures z * s / BPS / s == z / BPS
  {
    var q := z / BPS;
    DivideTwice(z * s, BPS, s);
    MultiplyMonotone(q * BPS, z, s);
    MultiplyMonotone(z + 1, q * BPS + BPS, s);
    Regroup(q, z, s);
    DivideUnique(z * s, BPS * s, q);
  }

  lemma Regroup(q: int, z: int, s: int)
    ensures q * BPS * s == q * (BPS * s)
    ensures (q * BPS + BPS) * s == q * (BPS * s) + BPS * s
    ensures (z + 1) * s == z * s + s
  {
  }

  /** Scaling down first can only lose. */
  lemma ScaledDownShare(amount: int, bps: nat, s: int)
    requires amount >= 0 && s > 0
    ensures 0 <= amount / s && 0 <= amount / s * bps
    ensures 0 <= amount / s * bps / BPS * s
    ensures amount / s * bps / BPS * s * BPS <= amount * bps
  {
    var q := amount / s;
    DivideBounds(amount, s);
    assert q >= 0 by { if q < 0 { MultiplyMonotone(q, -1, s); } }
    assert q * bps >= 0;
    var r := q * bps / BPS;
    MultiplyMonotone(0, r, s);
    MultiplyMonotone(r * BPS, q * bps, s);
    MultiplyMonotone(q * s, amount, bps);
    assert r * s * BPS == r * BPS * s && q * bps * s == q * s * bps;
  }

  /** Up to seven decimals the normalisation round trip is exact: the contract's share is the plain
      basis-point share. */
  lemma ModelAgreesUpToStandardIff(amount: int, bps: nat, decimals: nat)
    requires decimals <= STANDARD_DECIMALS
    requires BpsOfNormalized(amount, bps, decimals).Some?
    ensures BpsOfNormalized(amount, bps, decimals) == Some(amount * bps / BPS)
    ensures ModelBpsOfNormalized(amount, bps, decimals) == BpsOfNormalized(amount, bps, decimals)
      <==> amount * bps / BPS % Pow10(decimals) == 0
  {
    var s := Pow10(STANDARD_DECIMALS - decimals);
    assert Fits(amount * s * bps) && amount >= 0;
    ScaledUpShare(amount, bps, s);
    FitsUnscaled(amount, bps, s);
    MultipleIff(amount * bps / BPS, Pow10(decimals));
  }

  // ── More than seven decimals ─────────────────────────────────────────────────

  lemma {:induction false} Pow10Split(d: nat)
    requires d >= STANDARD_DECIMALS
    ensures Pow10(d) == Pow10(d - STANDARD_DECIMALS) * 10_000_000
  {
    if d == STANDARD_DECIMALS {
      assert Pow10(7) == 10_000_000;
    } else {
      Pow10Split(d - 1);
    }
  }

  /** A share of the scaled-down amount that is `k` times 10^7 stands for `k` whole units of the amount. */
  lemma WholeUnitsAbove(x: int, bps: nat, s: int, q: int, k: int)
    requires s > 0 && bps <= Chain.U32_MAX && q * s <= x < q * s + s && q >= 0
    requires k * 10_000_000 * BPS <= q * bps < k * 10_000_000 * BPS + BPS
    ensures k * (BPS * (s * 10_000_000)) <= x * bps < k * (BPS * (s * 10_000_000)) + BPS * (s * 10_000_000)
  {
    var z := k * 10_000_000 * BPS;
    MultiplyMonotone(z, q * bps, s);
    MultiplyMonotone(q * s, x, bps);
    assert q * bps * s == q * s * bps;
    assert z * s == k * (BPS * (s * 10_000_000));
    MultiplyMonotone(x, q * s + s, bps);
    MultiplyMonotone(q * bps + 1, z + BPS, s);
    assert (q * s + s) * bps == q * s * bps + s * bps && (q * bps + 1) * s == q * bps * s + s;
    assert (z + BPS) * s == z * s + BPS * s;
    MultiplyMonotone(bps, Chain.U32_MAX, s);
    assert s * bps == bps * s;
  }

  lemma MultipleOfBoth(c: int, s: int, u: int)
    requires s > 0 && u > 0
    ensures c * s % (s * u) == 0 <==> c % u == 0
  {
    var k := c / u;
    if c % u == 0 {
      assert c * s == k * (s * u);
      assert k * (s * u) % (s * u) == 0 by { DivideUnique(k * (s * u), s * u, k); }
    }
    if c * s % (s * u) == 0 {
      var m := c * s / (s * u);
      assert c * s == m * u * s;
      MultiplyCancelEqual(c, m * u, s);
      DivideUnique(m * u, u, m);
    }
  }

  lemma MultiplyCancelEqual(a: int, b: int, c: int)
    requires c > 0 && a * c == b * c
    ensures a == b
  {
    if a < b { MultiplyMonotone(a + 1, b, c); }
    if b < a { MultiplyMonotone(b + 1, a, c); }
  }

  lemma AgreeAbove(x: int, bps: nat, s: int, q: int, c: int, unit: int, w: int)
    requires x >= 0 && s > 0 && bps <= Chain.U32_MAX && unit == s * 10_000_000
    requires q >= 0 && q * s <= x < q * s + s && c * BPS <= q * bps < c * BPS + BPS
    requires w * (BPS * unit) <= x * bps < w * (BPS * unit) + BPS * unit
    ensures w * unit == c * s <==> c % 10_000_000 == 0
  {
    if c % 10_000_000 == 0 {
      var k := c / 10_000_000;
      assert c == k * 10_000_000;
      WholeUnitsAbove(x, bps, s, q, k);
      SameQuotient(x * bps, BPS * unit, w, k);
      assert k * 10_000_000 * s == k * unit;
    } else if w * unit == c * s {
      assert w * unit == w * 10_000_000 * s;
      MultiplyCancelEqual(w * 10_000_000, c, s);
    }
  }

  lemma SameQuotient(x: int, d: int, a: int, b: int)
    requires d > 0 && a * d <= x < a * d + d && b * d <= x < b * d + d
    ensures a == b
  {
    DivideUnique(x, d, a);
    DivideUnique(x, d, b);
  }

  /** The contract's share for more than seven decimals, and when the model's whole units come to the same. */
  lemma ModelAgreesAboveStandardIff(amount: int, bps: nat, decimals: nat)
    requires decimals > STANDARD_DECIMALS && bps <= Chain.U32_MAX
    requires BpsOfNormalized(amount, bps, decimals).Some?
    ensures var s := Pow10(decimals - STANDARD_DECIMALS);
      && BpsOfNormalized(amount, bps, decimals) == Some(amount / s * bps / BPS * s)
      && (WholeUnits(amount, bps, decimals) == amount / s * bps / BPS * s <==> amount / s * bps / BPS % 10_000_000 == 0)
  {
    var s := Pow10(decimals - STANDARD_DECIMALS);
    ScaledDownShare(amount, bps, s);
    Pow10Split(decimals);
    DivideBounds(amount, s);
    DivideBounds(amount / s * bps, BPS);
    var w := amount * bps / (BPS * Pow10(decimals));
    WholeUnitsIsFloor(amount, bps, decimals, w);
    AgreeAbove(amount, bps, s, amount / s, amount / s * bps / BPS, Pow10(decimals), w);
  }

  /** The pool model documents itself as mirroring the contract's rounding. For every token it agrees precisely when the
      contract's share is a whole number of 10^decimals units (and the model's own product and scale stay in range). */
  lemma ModelAgreesWithContractIff(amount: int, bps: nat, decimals: nat)
    requires bps <= Chain.U32_MAX && BpsOfNormalized(amount, bps, decimals).Some?
    ensures ModelBpsOfNormalized(amount, bps, decimals) == BpsOfNormalized(amount, bps, decimals) <==>
      ScaleFits(decimals) && Fits(amount * bps)
      && BpsOfNormalized(amount, bps, decimals).value % Pow10(decimals) == 0
  {
    if decimals <= STANDARD_DECIMALS {
      ModelAgreesUpToStandardIff(amount, bps, decimals);
      FitsUnscaled(amount, bps, Pow10(STANDARD_DECIMALS - decimals));
    } else {
      var s := Pow10(decimals - STANDARD_DECIMALS);
      ModelAgreesAboveStandardIff(amount, bps, decimals);
      Pow10Split(decimals);
      MultipleOfBoth(amount / s * bps / BPS, s, 10_000_000);
    }
  }

  /** Eight decimals: the plain share is a whole number of units and the model's result, the contract's is not. */
  lemma ModelDisagreesAboveStandard()
    ensures 300_030_004 * 3_333 / BPS == 100_000_000
    ensures ModelBpsOfNormalized(300_030_004, 3_333, 8) == Some(100_000_000)
    ensures BpsOfNormalized(300_030_004, 3_333, 8) == Some(99_999_990)
  {
    assert Pow10(1) == 10;
    assert Pow10(8) == 100_000_000;
  }

  lemma FitsUnscaled(amount: int, bps: nat, s: int)
    requires amount >= 0 && s >= 1 && Fits(amount * s * bps)
    ensures 0 <= amount * bps && Fits(amount * bps)
  {
    assert amount * s * bps == s * (amount * bps);
    assert 0 <= amount * bps;
    MultiplyMonotone(1, s, amount * bps);
  }

  lemma MultipleIff(x: int, d: int)
    requires d > 0
    ensures x / d * d == x <==> x % d == 0
  {
  }

  /** The disagreement is reachable with everyday amounts. */
  lemma ModelDisagreesWithContract()
    ensures BpsOfNormalized(15_000_000, 5_000, 7) == Some(7_500_000)
    ensures ModelBpsOfNormalized(15_000_000, 5_000, 7) == Some(0)
  {
    assert Pow10(7) == 10_000_000;
  }

  /** The nested divisions are one floor division. */
  lemma WholeUnitsIsFloor(amount: int, bps: nat, decimals: nat, q: int)
    requires amount >= 0
    requires q == amount * bps / (BPS * Pow10(decimals))
    ensures q >= 0 && WholeUnits(amount, bps, decimals) == q * Pow10(decimals)
    ensures q * (BPS * Pow10(decimals)) <= amount * bps < q * (BPS * Pow10(decimals)) + BPS * Pow10(decimals)
  {
    var s := Pow10(decimals);
    var z := amount * bps;
    assert z >= 0 && z / BPS >= 0;
    DivideTwice(z, BPS, s);
    DivideBounds(z, BPS * s);
    MultiplyCancel(-1, q, BPS * s);
  }

  lemma WholeUnitsBounds(amount: int, bps: nat, decimals: nat)
    requires amount >= 0
    ensures var w := WholeUnits(amount, bps, decimals);
      0 <= w && w * BPS <= amount * bps < (w + Pow10(decimals)) * BPS
  {
    var q := amount * bps / (BPS * Pow10(decimals));
    WholeUnitsIsFloor(amount, bps, decimals, q);
    UnitsBracket(q, Pow10(decimals), amount * bps);
  }

  lemma UnitsBracket(q: int, s: int, z: int)
    requires q >= 0 && s > 0 && q * (BPS * s) <= z < q * (BPS * s) + BPS * s
    ensures 0 <= q * s && q * s * BPS <= z < (q * s + s) * BPS
  {
    assert q * (BPS * s) == q * s * BPS;
  }

  lemma UnitsSplit(x: int, y: int, z: int, s: int)
    requires s > 0 && x + y <= z <= x + y + 1
    ensures x * s + y * s <= z * s <= x * s + y * s + s
  {
    MultiplyMonotone(x + y, z, s);
    MultiplyMonotone(z, x + y + 1, s);
    assert (x + y) * s == x * s + y * s && (x + y + 1) * s == x * s + y * s + s;
  }

  /** Splitting an amount in two loses at most one unit of 10^decimals, and never gains. */
  lemma WholeUnitsSplit(a: int, b: int, bps: nat, decimals: nat)
    requires a >= 0 && b >= 0
    ensures var sum := WholeUnits(a, bps, decimals) + WholeUnits(b, bps, decimals);
      sum <= WholeUnits(a + b, bps, decimals) <= sum + Pow10(decimals)
  {
    var d := BPS * Pow10(decimals);
    var x, y, z := a * bps / d, b * bps / d, (a * bps + b * bps) / d;
    assert x + y <= z <= x + y + 1 by { DivideSplit(a * bps, b * bps, d); }
    assert (a + b) * bps == a * bps + b * bps;
    WholeUnitsIsFloor(a, bps, decimals, x);
    WholeUnitsIsFloor(b, bps, decimals, y);
    WholeUnitsIsFloor(a + b, bps, decimals, z);
    UnitsSplit(x, y, z, Pow10(decimals));
  }

  lemma WholeUnitsMonotone(a: int, b: int, bps: nat, decimals: nat)
    requires 0 <= a <= b
    ensures WholeUnits(a, bps, decimals) <= WholeUnits(b, bps, decimals)
  {
    WholeUnitsSplit(a, b - a, bps, decimals);
    WholeUnitsBounds(b - a, bps, decimals);
  }
}
