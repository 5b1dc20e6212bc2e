/** `fractionalizer`: a pool position wrapped into a fixed supply of shares, settled once and redeemed
    by its holders. */
module Fractionalizer {
  import opened Wrappers
  import opened Int128
  import opened Chain
  import opened MapSum
  import opened Rounding

  const MAX_SHARES: nat := 1_000_000
  const U128_MAX: int := 0xFFFF_FFFF_FFFF_FFFF_FFFF_FFFF_FFFF_FFFF

  datatype FractionalizerError =
    | InvalidShareCount | PositionNotFound | InvalidAmount | NotShareHolder | WrapNotFound
    | PoolNotClosed | AlreadyClaimed | SharesOutstanding | ArithmeticOverflow | PoolRefusedTransfer

  /** A wrap is keyed by invoice and original investor. */
  type Key = (nat, Address)

  datatype Wrap = Wrap(totalShares: nat, outstanding: int, totalPayout: int, settled: bool)

  /** `payments` records the tokens a redemption sent, with the shares it burned. */
  datatype Payment = Payment(shares: int, amount: int)

  datatype State = State(
    wraps: map<Key, Wrap>, shares: map<Key, map<Address, int>>, payments: map<Key, map<Address, Payment>>,
    closedPools: set<nat>)

  const EMPTY := State(map[], map[], map[], {})

  // ── Specification ────────────────────────────────────────────────────────────

  function Holders(s: State, k: Key): map<Address, int> { if k in s.shares then s.shares[k] else map[] }
  function Payments(s: State, k: Key): map<Address, Payment> { if k in s.payments then s.payments[k] else map[] }
  function Balance(s: State, k: Key, a: Address): int { if a in Holders(s, k) then Holders(s, k)[a] else 0 }

  function SetBalance(s: State, k: Key, a: Address, v: int): State {
    s.(shares := s.shares[k := Holders(s, k)[a := v]])
  }

  /** `contributed` is what the pool reports as the investor's position. */
  function WrapPosition(s: State, investor: Address, id: nat, totalShares: nat,
      contributed: int): Result<State, FractionalizerError>
  {
    if totalShares == 0 || totalShares > MAX_SHARES then Err(InvalidShareCount)
    else if contributed <= 0 then Err(PositionNotFound)
    else if id in s.closedPools then Err(PoolRefusedTransfer)
    else
      var k := (id, investor);
      var wrapped := s.(wraps := s.wraps[k := Wrap(totalShares, totalShares, 0, false)]);
      Ok(SetBalance(wrapped, k, investor, totalShares))
  }

  function TransferShares(s: State, from: Address, k: Key, to: Address,
      amount: nat): Result<State, FractionalizerError>
  {
    if amount == 0 then Err(InvalidAmount)
    else if Balance(s, k, from) < amount then Err(NotShareHolder)
    else
      var debited := SetBalance(s, k, from, Balance(s, k, from) - amount);
      var credited := Balance(debited, k, to) + amount;
      if credited > U64_MAX then Err(ArithmeticOverflow) else Ok(SetBalance(debited, k, to, credited))
  }

  /** `repaid` and `shareBps` are what the closed pool reports. */
  function Settle(s: State, k: Key, repaid: nat, shareBps: nat): Result<State, FractionalizerError> {
    if k !in s.wraps then Err(WrapNotFound)
    else if s.wraps[k].settled then Ok(s)
    else if k.0 !in s.closedPools then Err(PoolNotClosed)
    else if !Fits(repaid * shareBps) then Err(ArithmeticOverflow)
    else Ok(s.(wraps := s.wraps[k := s.wraps[k].(totalPayout := repaid * shareBps / BPS, settled := true)]))
  }

  /** Rounded-down share of the payout still held; the holder of all outstanding shares instead gets
      what a rounded-down share of everybody else's supply leaves. */
  function RedeemAmount(w: Wrap, holding: int): int
    requires w.totalShares > 0
  {
    if w.outstanding == holding then w.totalPayout - w.totalPayout * (w.totalShares - holding) / w.totalShares
    else w.totalPayout * holding / w.totalShares
  }

  function Redeem(s: State, holder: Address, k: Key): Result<State, FractionalizerError> {
    if k !in s.wraps then Err(WrapNotFound)
    else
      var w := s.wraps[k];
      var holding := Balance(s, k, holder);
      if !w.settled then Err(PoolNotClosed)
      else if holder in Payments(s, k) then Err(AlreadyClaimed)
      else if holding == 0 then Err(NotShareHolder)
      else if w.totalShares == 0 || w.totalPayout * holding > U128_MAX then Err(ArithmeticOverflow)
      else if w.outstanding == holding
           && (holding > w.totalShares || w.totalPayout * (w.totalShares - holding) > U128_MAX)
             then Err(ArithmeticOverflow)
      else
        var payout := RedeemAmount(w, holding);
        if holding > w.outstanding then Err(ArithmeticOverflow)
        else
          var burned := SetBalance(s, k, holder, 0);
          Ok(burned.(
            wraps := s.wraps[k := w.(outstanding := w.outstanding - holding, totalPayout := w.totalPayout - payout)],
            payments := s.payments[k := Payments(s, k)[holder := Payment(holding, payout)]]))
  }

  function Unwrap(s: State, investor: Address, id: nat): Result<State, FractionalizerError> {
    var k := (id, investor);
    if k !in s.wraps then Err(WrapNotFound)
    else if Balance(s, k, investor) != s.wraps[k].totalShares then Err(SharesOutstanding)
    else if id in s.closedPools then Err(PoolRefusedTransfer)
    else Ok(SetBalance(s, k, investor, 0).(wraps := s.wraps - {k}))
  }

  datatype Call =
    | WrapCall(investor: Address, id: nat, totalShares: nat, contributed: int)
    | TransferCall(from: Address, key: Key, to: Address, amount: nat)
    | SettleCall(key: Key, repaid: nat, shareBps: nat)
    | RedeemCall(holder: Address, key: Key)
    | UnwrapCall(investor: Address, id: nat)
    | PoolCloses(id: nat)

  function Attempt(s: State, c: Call): Result<State, FractionalizerError> {
    match c
    case WrapCall(investor, id, total, contributed) => WrapPosition(s, investor, id, total, contributed)
    case TransferCall(from, k, to, amount) => TransferShares(s, from, k, to, amount)
    case SettleCall(k, repaid, bps) => Settle(s, k, repaid, bps)
    case RedeemCall(holder, k) => Redeem(s, holder, k)
    case UnwrapCall(investor, id) => Unwrap(s, investor, id)
    case PoolCloses(id) => Ok(s.(closedPools := s.closedPools + {id}))
  }

  function Step(s: State, c: Call): State {
    var r := Attempt(s, c);
    if r.Ok? then r.value else s
  }

  function Run(s: State, calls: seq<Call>): State
    decreases |calls|
  {
    if calls == [] then s else Run(Step(s, calls[0]), calls[1..])
  }

  /** No position is wrapped again while its earlier wrap is still recorded. */
  ghost predicate NoLiveRewrap(s: State, calls: seq<Call>)
    decreases |calls|
  {
    calls == [] ||
    (&& (calls[0].WrapCall? ==> (calls[0].id, calls[0].investor) !in s.wraps)
     && NoLiveRewrap(Step(s, calls[0]), calls[1..]))
  }

  // ── Supply ───────────────────────────────────────────────────────────────────

  /** One wrap: the balances make up the outstanding supply; nobody was paid before settlement. */
  ghost predicate WrapSound(s: State, k: Key) {
    && (forall a :: a in Holders(s, k) ==> Holders(s, k)[a] >= 0)
    && (forall a :: a in Payments(s, k) ==> Payments(s, k)[a].shares > 0)
    && if k !in s.wraps then Total(Holders(s, k)) == 0 && Payments(s, k) == map[]
       else
         var w := s.wraps[k];
         && 0 < w.totalShares <= MAX_SHARES
         && Total(Holders(s, k)) == w.outstanding
         && w.outstanding + Total(Burned(s, k)) == w.totalShares
         && 0 <= w.totalPayout
         && (w.settled ==> k.0 in s.closedPools)
         && (!w.settled ==> Payments(s, k) == map[])
  }

  ghost function Burned(s: State, k: Key): map<Address, int> { map a | a in Payments(s, k) :: Payments(s, k)[a].shares }
  ghost function Paid(s: State, k: Key): map<Address, int> { map a | a in Payments(s, k) :: Payments(s, k)[a].amount }

  ghost predicate Sound(s: State) { forall k: Key :: WrapSound(s, k) }

  lemma BurnedNonNegative(s: State, k: Key)
    requires WrapSound(s, k)
    ensures Total(Burned(s, k)) >= 0
    ensures Payments(s, k) != map[] ==> Total(Burned(s, k)) > 0
    ensures Payments(s, k) == map[] ==> Total(Burned(s, k)) == 0
    ensures Total(Holders(s, k)) >= 0
    ensures forall a :: 0 <= Balance(s, k, a) <= Total(Holders(s, k))
  {
    TotalNonNegative(Burned(s, k));
    TotalNonNegative(Holders(s, k));
    if Payments(s, k) != map[] {
      var a :| a in Payments(s, k);
      assert a in Burned(s, k);
    } else {
      assert Burned(s, k) == map[];
    }
  }

  lemma SetBalanceTotal(s: State, k: Key, a: Address, v: int)
    ensures Total(Holders(SetBalance(s, k, a, v), k)) == Total(Holders(s, k)) - Balance(s, k, a) + v
    ensures forall j :: j != k ==> Holders(SetBalance(s, k, a, v), j) == Holders(s, j)
  {
    TotalUpdate(Holders(s, k), a, v);
  }

  ghost predicate SameExcept(s: State, s': State, k: Key) {
    && s'.closedPools == s.closedPools
    && forall j: Key :: j != k ==>
      && Holders(s', j) == Holders(s, j) && Payments(s', j) == Payments(s, j)
      && (j in s'.wraps <==> j in s.wraps) && (j in s.wraps ==> s'.wraps[j] == s.wraps[j])
  }

  lemma SoundExcept(s: State, s': State, k: Key)
    requires Sound(s) && SameExcept(s, s', k) && WrapSound(s', k)
    ensures Sound(s')
  {
    forall j: Key ensures WrapSound(s', j) {
      assert WrapSound(s, j);
      if j != k { assert Burned(s', j) == Burned(s, j); }
    }
  }

  lemma WrapPreserves(s: State, investor: Address, id: nat, totalShares: nat, contributed: int)
    requires Sound(s) && (id, investor) !in s.wraps
    ensures var r := WrapPosition(s, investor, id, totalShares, contributed); r.Ok? ==> Sound(r.value)
  {
    var k := (id, investor);
    var r := WrapPosition(s, investor, id, totalShares, contributed);
    if r.Ok? {
      assert WrapSound(s, k);
      BurnedNonNegative(s, k);
      SetBalanceTotal(s, k, investor, totalShares);
      assert Burned(r.value, k) == Burned(s, k);
      forall j: Key ensures WrapSound(r.value, j) {
        assert WrapSound(s, j);
        assert Burned(r.value, j) == Burned(s, j);
      }
    }
  }

  /** Wrapping over a live record keeps the balances equal to the new supply exactly when nobody but
      the investor holds shares. */
  lemma RewrapKeepsSupplyIff(s: State, investor: Address, id: nat, totalShares: nat, contributed: int)
    requires Sound(s) && WrapPosition(s, investor, id, totalShares, contributed).Ok?
    ensures var s' := WrapPosition(s, investor, id, totalShares, contributed).value; var k := (id, investor);
      Total(Holders(s', k)) == s'.wraps[k].outstanding <==> Total(Holders(s, k)) == Balance(s, k, investor)
  {
    SetBalanceTotal(s, (id, investor), investor, totalShares);
  }

  lemma TransferSucceedsIff(s: State, from: Address, k: Key, to: Address, amount: nat)
    requires WrapSound(s, k)
    ensures TransferShares(s, from, k, to, amount).Ok? <==> amount > 0 && Balance(s, k, from) >= amount
  {
    BurnedNonNegative(s, k);
    if from != to { BalancePair(Holders(s, k), from, to); }
  }

  /** Transfers, to oneself included, never overflow and never change the supply. */
  lemma TransferPreserves(s: State, from: Address, k: Key, to: Address, amount: nat)
    requires Sound(s)
    ensures var r := TransferShares(s, from, k, to, amount);
      && (r.Ok? <==> amount > 0 && Balance(s, k, from) >= amount)
      && (r.Ok? ==>
        && Sound(r.value) && Total(Holders(r.value, k)) == Total(Holders(s, k))
        && Balance(r.value, k, from) == Balance(s, k, from) - (if from == to then 0 else amount)
        && (from != to ==> Balance(r.value, k, to) == Balance(s, k, to) + amount))
  {
    assert WrapSound(s, k);
    TransferSucceedsIff(s, from, k, to, amount);
    if amount > 0 && Balance(s, k, from) >= amount {
      MoveBalance(s, from, k, to, amount);
      var s' := TransferShares(s, from, k, to, amount).value;
      assert Burned(s', k) == Burned(s, k);
      SoundExcept(s, s', k);
    }
  }

  lemma MoveBalance(s: State, from: Address, k: Key, to: Address, amount: nat)
    requires forall a :: a in Holders(s, k) ==> Holders(s, k)[a] >= 0
    requires 0 < amount <= Balance(s, k, from)
    ensures var debited := SetBalance(s, k, from, Balance(s, k, from) - amount);
      var s' := SetBalance(debited, k, to, Balance(debited, k, to) + amount);
      && Total(Holders(s', k)) == Total(Holders(s, k))
      && Balance(s', k, from) == Balance(s, k, from) - (if from == to then 0 else amount)
      && (from != to ==> Balance(s', k, to) == Balance(s, k, to) + amount)
      && (forall a :: a in Holders(s', k) ==> Holders(s', k)[a] >= 0)
      && SameExcept(s, s', k)
  {
    var debited := SetBalance(s, k, from, Balance(s, k, from) - amount);
    SetBalanceTotal(s, k, from, Balance(s, k, from) - amount);
    SetBalanceTotal(debited, k, to, Balance(debited, k, to) + amount);
  }

  lemma BalancePair(m: map<Address, int>, a: Address, b: Address)
    requires a != b && forall x :: x in m ==> m[x] >= 0
    ensures (if a in m then m[a] else 0) + (if b in m then m[b] else 0) <= Total(m)
  {
    TotalNonNegative(m);
    if a in m && b in m {
      TotalRemove(m, a);
      TotalNonNegative(m - {a});
    }
  }

  // ── Redemption ───────────────────────────────────────────────────────────────

  /** A redemption takes between nothing and the rounded-up share of the payout still held. */
  lemma RedeemAmountBounds(w: Wrap, holding: int)
    requires w.totalShares > 0 && w.totalPayout >= 0 && 0 < holding <= w.totalShares
    ensures 0 <= RedeemAmount(w, holding) <= w.totalPayout
    ensures (RedeemAmount(w, holding) - 1) * w.totalShares < w.totalPayout * holding
  {
    var p, t := w.totalPayout, w.totalShares;
    SplitProduct(p, holding, t);
    Quotients(p * (t - holding), p, t);
    LessOneUnit(p, t, p * (t - holding) / t, p * (t - holding), p * holding);
  }

  lemma SplitProduct(p: int, h: int, t: int)
    requires p >= 0 && 0 <= h <= t
    ensures p * t == p * h + p * (t - h) && 0 <= p * (t - h) <= p * t
  {
    assert p * h >= 0 && p * (t - h) >= 0;
  }

  lemma LessOneUnit(p: int, t: int, b: int, y: int, x: int)
    requires p * t == x + y && y < b * t + t
    ensures (p - b - 1) * t < x
  {
    assert (p - b - 1) * t == p * t - b * t - t;
  }

  lemma Quotients(x: int, p: int, t: int)
    requires t > 0 && 0 <= x <= p * t
    ensures 0 <= x / t <= p
    ensures x / t * t <= x < x / t * t + t
  {
    DivideBounds(x, t);
    MultiplyCancel(-1, x / t, t);
    MultiplyCancel(x / t, p + 1, t);
  }

  /** The payout a holder is owed at most: the rounded-up fraction of the settled payout. */
  predicate WithinShare(amount: int, settled: int, shares: int, totalShares: nat) {
    (amount - 1) * totalShares < settled * shares
  }

  lemma RedeemPreserves(s: State, holder: Address, k: Key)
    requires Sound(s)
    ensures var r := Redeem(s, holder, k);
      r.Ok? ==>
        && Sound(r.value)
        && k in r.value.wraps && s.wraps[k].settled && r.value.wraps[k].settled
        && holder !in Payments(s, k) && holder in Payments(r.value, k)
        && Total(Paid(r.value, k)) + r.value.wraps[k].totalPayout == Total(Paid(s, k)) + s.wraps[k].totalPayout
        && WithinShare(Payments(r.value, k)[holder].amount, s.wraps[k].totalPayout,
                       Payments(r.value, k)[holder].shares, s.wraps[k].totalShares)
        && Payments(r.value, k)[holder].amount >= 0
  {
    var r := Redeem(s, holder, k);
    if r.Ok? {
      assert WrapSound(s, k);
      BurnedNonNegative(s, k);
      RedeemAmountBounds(s.wraps[k], Balance(s, k, holder));
      RedeemBooks(s, holder, k, Balance(s, k, holder), RedeemAmount(s.wraps[k], Balance(s, k, holder)), r.value);
      SoundExcept(s, r.value, k);
    }
  }

  /** What a redemption writes. */
  function Redeemed(s: State, holder: Address, k: Key, holding: int, amount: int): State
    requires k in s.wraps
  {
    SetBalance(s, k, holder, 0).(
      wraps := s.wraps[k :=
        s.wraps[k].(outstanding := s.wraps[k].outstanding - holding, totalPayout := s.wraps[k].totalPayout - amount)],
      payments := s.payments[k := Payments(s, k)[holder := Payment(holding, amount)]])
  }

  lemma RedeemBurns(s: State, holder: Address, k: Key, holding: int, amount: int)
    requires k in s.wraps && holder !in Payments(s, k)
    ensures Total(Burned(Redeemed(s, holder, k, holding, amount), k)) == Total(Burned(s, k)) + holding
  {
    TotalUpdate(Burned(s, k), holder, holding);
    assert Burned(Redeemed(s, holder, k, holding, amount), k) == Burned(s, k)[holder := holding];
  }

  lemma RedeemPays(s: State, holder: Address, k: Key, holding: int, amount: int)
    requires k in s.wraps && holder !in Payments(s, k)
    ensures Total(Paid(Redeemed(s, holder, k, holding, amount), k)) == Total(Paid(s, k)) + amount
  {
    TotalUpdate(Paid(s, k), holder, amount);
    assert Paid(Redeemed(s, holder, k, holding, amount), k) == Paid(s, k)[holder := amount];
  }

  lemma RedeemBooks(s: State, holder: Address, k: Key, holding: int, amount: int, s': State)
    requires k in s.wraps && holder !in Payments(s, k) && holding == Balance(s, k, holder) > 0
    requires s' == Redeemed(s, holder, k, holding, amount)
    ensures Total(Holders(s', k)) == Total(Holders(s, k)) - holding
    ensures Total(Burned(s', k)) == Total(Burned(s, k)) + holding
    ensures Total(Paid(s', k)) == Total(Paid(s, k)) + amount
    ensures SameExcept(s, s', k)
  {
    SetBalanceTotal(s, k, holder, 0);
    assert Holders(s', k) == Holders(SetBalance(s, k, holder, 0), k);
    RedeemBurns(s, holder, k, holding, amount);
    RedeemPays(s, holder, k, holding, amount);
  }

  /** A redemption of settled shares by someone not yet paid fails only if a product leaves `u128`. */
  lemma RedeemNeverUnderflows(s: State, holder: Address, k: Key)
    requires Sound(s) && k in s.wraps && s.wraps[k].settled
    requires holder !in Payments(s, k) && Balance(s, k, holder) > 0
    requires s.wraps[k].totalPayout * s.wraps[k].totalShares <= U128_MAX
    ensures Redeem(s, holder, k).Ok?
  {
    assert WrapSound(s, k);
    BurnedNonNegative(s, k);
    var w, h := s.wraps[k], Balance(s, k, holder);
    MultiplyMonotone(h, w.totalShares, w.totalPayout);
    MultiplyMonotone(w.totalShares - h, w.totalShares, w.totalPayout);
  }

  /** The code comments say the last redeemer gets whatever is left. Its formula leaves nothing behind
      exactly when the rounded-down share of all the other, already burned, shares is zero. */
  lemma LastRedeemerEmptiesIff(w: Wrap, holding: int)
    requires 0 < holding <= w.totalShares && holding == w.outstanding && w.totalPayout >= 0
    ensures w.totalPayout - RedeemAmount(w, holding) == 0 <==> w.totalPayout * (w.totalShares - holding) < w.totalShares
  {
    var x := w.totalPayout * (w.totalShares - holding);
    assert x >= 0;
    if x < w.totalShares {
      DivideUnique(x, w.totalShares, 0);
    } else {
      DivideBounds(x, w.totalShares);
    }
  }

  lemma UnwrapPreserves(s: State, investor: Address, id: nat)
    requires Sound(s)
    ensures var r := Unwrap(s, investor, id); r.Ok? ==> Sound(r.value)
  {
    var k := (id, investor);
    var r := Unwrap(s, investor, id);
    if r.Ok? {
      assert WrapSound(s, k);
      BurnedNonNegative(s, k);
      SetBalanceTotal(s, k, investor, 0);
      forall j: Key ensures WrapSound(r.value, j) {
        assert WrapSound(s, j);
        assert Burned(r.value, j) == Burned(s, j);
      }
    }
  }

  lemma SettlePreserves(s: State, k: Key, repaid: nat, shareBps: nat)
    requires Sound(s)
    ensures var r := Settle(s, k, repaid, shareBps); r.Ok? ==> Sound(r.value)
  {
    var r := Settle(s, k, repaid, shareBps);
    if r.Ok? {
      assert repaid * shareBps >= 0;
      forall j: Key ensures WrapSound(r.value, j) {
        assert WrapSound(s, j);
        assert Burned(r.value, j) == Burned(s, j);
      }
    }
  }

  lemma StepPreserves(s: State, c: Call)
    requires Sound(s) && (c.WrapCall? ==> (c.id, c.investor) !in s.wraps)
    ensures Sound(Step(s, c))
  {
    match c
    case WrapCall(investor, id, total, contributed) => WrapPreserves(s, investor, id, total, contributed);
    case TransferCall(from, k, to, amount) => TransferPreserves(s, from, k, to, amount);
    case SettleCall(k, repaid, bps) => SettlePreserves(s, k, repaid, bps);
    case RedeemCall(holder, k) => RedeemPreserves(s, holder, k);
    case UnwrapCall(investor, id) => UnwrapPreserves(s, investor, id);
    case PoolCloses(id) =>
      forall j: Key ensures WrapSound(Step(s, c), j) {
        assert WrapSound(s, j);
        assert Burned(Step(s, c), j) == Burned(s, j);
      }
  }

  lemma EmptySound()
    ensures Sound(EMPTY)
  {
  }

  lemma {:induction false} RunSound(s: State, calls: seq<Call>)
    requires Sound(s) && NoLiveRewrap(s, calls)
    ensures Sound(Run(s, calls))
    decreases |calls|
  {
    if calls != [] {
      StepPreserves(s, calls[0]);
      RunSound(Step(s, calls[0]), calls[1..]);
    }
  }

  /** After every run that wraps nothing twice, the balances of all holders of a wrap make up its outstanding shares,
      and with the shares redeemed they make up all shares ever issued. */
  lemma SupplyIsConserved(calls: seq<Call>, k: Key)
    requires NoLiveRewrap(EMPTY, calls)
    ensures var s := Run(EMPTY, calls);
      if k in s.wraps
        then Total(Holders(s, k)) == s.wraps[k].outstanding == s.wraps[k].totalShares - Total(Burned(s, k))
      else Total(Holders(s, k)) == 0
  {
    EmptySound();
    RunSound(EMPTY, calls);
    assert WrapSound(Run(EMPTY, calls), k);
  }

  // ── Payout ───────────────────────────────────────────────────────────────────

  ghost predicate PaidWithin(s: State, k: Key, settled: int)
    requires k in s.wraps
  {
    forall a :: a in Payments(s, k) ==>
      WithinShare(Payments(s, k)[a].amount, settled, Payments(s, k)[a].shares, s.wraps[k].totalShares)
      && Payments(s, k)[a].amount >= 0
  }

  /** Only a redemption from it changes a settled wrap. */
  lemma SettledUntouched(s: State, c: Call, k: Key)
    requires WrapSound(s, k) && k in s.wraps && s.wraps[k].settled && (c.WrapCall? ==> (c.id, c.investor) !in s.wraps)
    requires !(c.RedeemCall? && c.key == k && Attempt(s, c).Ok?)
    ensures k in Step(s, c).wraps && Step(s, c).wraps[k] == s.wraps[k] && Payments(Step(s, c), k) == Payments(s, k)
  {
  }

  /** What one call does to a settled wrap. */
  lemma SettledStep(s: State, c: Call, k: Key, settled: int)
    requires Sound(s) && (c.WrapCall? ==> (c.id, c.investor) !in s.wraps)
    requires k in s.wraps && s.wraps[k].settled
    requires Total(Paid(s, k)) + s.wraps[k].totalPayout == settled && PaidWithin(s, k, settled)
    ensures var s' := Step(s, c);
      && k in s'.wraps && s'.wraps[k].settled && s'.wraps[k].totalShares == s.wraps[k].totalShares
      && Total(Paid(s', k)) + s'.wraps[k].totalPayout == settled && PaidWithin(s', k, settled)
      && forall a :: a in Payments(s, k) ==> a in Payments(s', k) && Payments(s', k)[a] == Payments(s, k)[a]
  {
    assert WrapSound(s, k);
    var s' := Step(s, c);
    if c.RedeemCall? && c.key == k && Attempt(s, c).Ok? {
      RedeemPreserves(s, c.holder, k);
      TotalNonNegative(Paid(s, k));
      var payment := Payments(s', k)[c.holder];
      MultiplyMonotone(s.wraps[k].totalPayout, settled, payment.shares);
    } else {
      SettledUntouched(s, c, k);
      assert Paid(s', k) == Paid(s, k);
    }
  }

  lemma {:induction false} SettledRun(s: State, calls: seq<Call>, k: Key, settled: int)
    requires Sound(s) && NoLiveRewrap(s, calls)
    requires k in s.wraps && s.wraps[k].settled
    requires Total(Paid(s, k)) + s.wraps[k].totalPayout == settled && PaidWithin(s, k, settled)
    ensures var s' := Run(s, calls);
      && k in s'.wraps && s'.wraps[k].settled
      && Total(Paid(s', k)) + s'.wraps[k].totalPayout == settled && PaidWithin(s', k, settled)
      && s'.wraps[k].totalPayout >= 0
      && forall a :: a in Payments(s, k) ==> a in Payments(s', k) && Payments(s', k)[a] == Payments(s, k)[a]
    decreases |calls|
  {
    assert WrapSound(s, k);
    if calls != [] {
      StepPreserves(s, calls[0]);
      SettledStep(s, calls[0], k, settled);
      SettledRun(Step(s, calls[0]), calls[1..], k, settled);
    }
  }

  /** Settling fixes the payout: nothing of it was paid before. */
  lemma SettlementStarts(s: State, k: Key, repaid: nat, shareBps: nat)
    requires Sound(s) && k in s.wraps && !s.wraps[k].settled && Settle(s, k, repaid, shareBps).Ok?
    ensures var r, settled := Settle(s, k, repaid, shareBps).value, repaid * shareBps / BPS;
      && k in r.wraps && r.wraps[k].settled && Payments(r, k) == map[]
      && Total(Paid(r, k)) + r.wraps[k].totalPayout == settled && PaidWithin(r, k, settled)
  {
    assert WrapSound(s, k);
    var r := Settle(s, k, repaid, shareBps).value;
    assert Paid(r, k) == map[];
  }

  lemma {:induction false} RunSplit(s: State, first: seq<Call>, rest: seq<Call>)
    ensures Run(s, first + rest) == Run(Run(s, first), rest)
    ensures NoLiveRewrap(s, first + rest) <==> NoLiveRewrap(s, first) && NoLiveRewrap(Run(s, first), rest)
    decreases |first|
  {
    if first == [] {
      assert first + rest == rest;
    } else {
      assert (first + rest)[1..] == first[1..] + rest;
      RunSplit(Step(s, first[0]), first[1..], rest);
    }
  }

  /** A run in which a wrap is settled at some point: from then on, what was paid plus what is still held is the payout
      fixed there; payments are never made before it, and none exceeds the rounded-up share. */
  lemma PayoutIsConserved(before: seq<Call>, k: Key, repaid: nat, shareBps: nat, after: seq<Call>)
    requires NoLiveRewrap(EMPTY, before + ([SettleCall(k, repaid, shareBps)] + after))
    requires var s := Run(EMPTY, before); k in s.wraps && !s.wraps[k].settled && Settle(s, k, repaid, shareBps).Ok?
    ensures var s', settled := Run(EMPTY, before + ([SettleCall(k, repaid, shareBps)] + after)),
      repaid * shareBps / BPS;
      && k in s'.wraps && s'.wraps[k].settled && s'.wraps[k].totalPayout >= 0
      && Total(Paid(s', k)) + s'.wraps[k].totalPayout == settled && PaidWithin(s', k, settled)
    ensures Payments(Run(EMPTY, before), k) == map[]
  {
    var c := SettleCall(k, repaid, shareBps);
    var s := Run(EMPTY, before);
    RunSplit(EMPTY, before, [c] + after);
    EmptySound();
    RunSound(EMPTY, before);
    assert WrapSound(s, k);
    assert ([c] + after)[1..] == after;
    StepPreserves(s, c);
    SettlementStarts(s, k, repaid, shareBps);
    SettledRun(Step(s, c), after, k, repaid * shareBps / BPS);
  }

  /** A payment once made is never changed or repeated. */
  lemma {:induction false} PaidOnce(s: State, calls: seq<Call>, k: Key, holder: Address)
    requires holder in Payments(s, k)
    ensures holder in Payments(Run(s, calls), k) && Payments(Run(s, calls), k)[holder] == Payments(s, k)[holder]
    decreases |calls|
  {
    if calls != [] { PaidOnce(Step(s, calls[0]), calls[1..], k, holder); }
  }

  // ── A run that leaves tokens behind ──────────────────────────────────────────

  lemma RunOne(s: State, calls: seq<Call>)
    requires calls != []
    ensures Run(s, calls) == Run(Step(s, calls[0]), calls[1..])
  {
  }

  /** Three shares are wrapped, two sold, and a payout of nine settled; both holders redeem and two tokens stay
      behind. */
  lemma LastRedeemerLeavesDust()
    ensures var k := (1, 7);
      var calls := [WrapCall(7, 1, 3, 100), TransferCall(7, k, 8, 2), PoolCloses(1), SettleCall(k, 9, 10_000),
        RedeemCall(7, k), RedeemCall(8, k)];
      k in Run(EMPTY, calls).wraps && Run(EMPTY, calls).wraps[k] == Wrap(3, 0, 2, true)
  {
    var k := (1, 7);
    var calls := [WrapCall(7, 1, 3, 100), TransferCall(7, k, 8, 2), PoolCloses(1), SettleCall(k, 9, 10_000),
      RedeemCall(7, k), RedeemCall(8, k)];
    var s1 := State(map[k := Wrap(3, 3, 0, false)], map[k := map[7 := 3]], map[], {});
    var s2 := State(map[k := Wrap(3, 3, 0, false)], map[k := map[7 := 1, 8 := 2]], map[], {});
    var s3 := State(map[k := Wrap(3, 3, 0, false)], map[k := map[7 := 1, 8 := 2]], map[], {1});
    var s4 := State(map[k := Wrap(3, 3, 9, true)], map[k := map[7 := 1, 8 := 2]], map[], {1});
    assert Step(EMPTY, calls[0]) == s1;
    assert Holders(Step(s1, calls[1]), k) == map[7 := 1, 8 := 2];
    assert Step(s1, calls[1]) == s2;
    assert Step(s2, calls[2]) == s3;
    assert Step(s3, calls[3]) == s4;
    RunOne(EMPTY, calls);
    RunOne(s1, calls[1..]);
    assert calls[1..][1..] == calls[2..];
    RunOne(s2, calls[2..]);
    assert calls[2..][1..] == calls[3..];
    RunOne(s3, calls[3..]);
    assert calls[3..][1..] == calls[4..] == [RedeemCall(7, k), RedeemCall(8, k)];
    BothRedeem(s4, k);
  }

  lemma BothRedeem(s: State, k: Key)
    requires k == (1, 7) && s == State(map[k := Wrap(3, 3, 9, true)], map[k := map[7 := 1, 8 := 2]], map[], {1})
    ensures var r := Run(s, [RedeemCall(7, k), RedeemCall(8, k)]); k in r.wraps && r.wraps[k] == Wrap(3, 0, 2, true)
  {
    var calls := [RedeemCall(7, k), RedeemCall(8, k)];
    var first := Step(s, calls[0]);
    assert first.wraps[k] == Wrap(3, 2, 6, true);
    assert Balance(first, k, 8) == 2;
    RunOne(s, calls);
    assert calls[1..] == [RedeemCall(8, k)];
    RunOne(first, [RedeemCall(8, k)]);
    assert [RedeemCall(8, k)][1..] == [];
  }

  // ── The contract ─────────────────────────────────────────────────────────────

  class FractionalizerContract {
    var wraps: map<Key, Wrap>
    var shareBalances: map<Key, map<Address, int>>
    var payments: map<Key, map<Address, Payment>>
    var closedPools: set<nat>

    function View(): State
      reads this
    {
      State(wraps, shareBalances, payments, closedPools)
    }

    constructor ()
      ensures View() == EMPTY
    {
      wraps, shareBalances, payments, closedPools := map[], map[], map[], {};
    }

    function ShareBalance(k: Key, a: Address): int
      reads this
    {
      if k in shareBalances && a in shareBalances[k] then shareBalances[k][a] else 0
    }

    method StoreBalance(k: Key, a: Address, v: int)
      modifies this`shareBalances
      ensures View() == SetBalance(old(View()), k, a, v)
    {
      var holders := if k in shareBalances then shareBalances[k] else map[];
      shareBalances := shareBalances[k := holders[a := v]];
    }

    method WrapShares(investor: Address, id: nat, totalShares: nat, contributed: int)
        returns (r: Result<(), FractionalizerError>)
      modifies this
      ensures var spec := WrapPosition(old(View()), investor, id, totalShares, contributed);
        if spec.Ok? then r == Ok(()) && View() == spec.value else r == Err(spec.error) && View() == old(View())
    {
      if totalShares == 0 || totalShares > MAX_SHARES { return Err(InvalidShareCount); }
      if contributed <= 0 { return Err(PositionNotFound); }
      if id in closedPools { return Err(PoolRefusedTransfer); }
      wraps := wraps[(id, investor) := Wrap(totalShares, totalShares, 0, false)];
      StoreBalance((id, investor), investor, totalShares);
      return Ok(());
    }

    /** The recipient's balance is read after the sender's was stored: a transfer to oneself is a no-op. */
    method Transfer(from: Address, k: Key, to: Address, amount: nat) returns (r: Result<(), FractionalizerError>)
      modifies this
      ensures var spec := TransferShares(old(View()), from, k, to, amount);
        if spec.Ok? then r == Ok(()) && View() == spec.value else r == Err(spec.error) && View() == old(View())
    {
      if amount == 0 { return Err(InvalidAmount); }
      var fromBalance := ShareBalance(k, from);
      if fromBalance < amount { return Err(NotShareHolder); }
      var saved := shareBalances;
      StoreBalance(k, from, fromBalance - amount);
      var toBalance := ShareBalance(k, to);
      if toBalance + amount > U64_MAX {
        shareBalances := saved; // the host rolls a trapped call back
        return Err(ArithmeticOverflow);
      }
      StoreBalance(k, to, toBalance + amount);
      return Ok(());
    }

    method SettleWrap(k: Key, repaid: nat, shareBps: nat) returns (r: Result<(), FractionalizerError>)
      modifies this
      ensures var spec := Settle(old(View()), k, repaid, shareBps);
        if spec.Ok? then r == Ok(()) && View() == spec.value else r == Err(spec.error) && View() == old(View())
    {
      if k !in wraps { return Err(WrapNotFound); }
      var w := wraps[k];
      if w.settled { return Ok(()); }
      if k.0 !in closedPools { return Err(PoolNotClosed); }
      if !Fits(repaid * shareBps) { return Err(ArithmeticOverflow); }
      wraps := wraps[k := w.(totalPayout := repaid * shareBps / BPS, settled := true)];
      return Ok(());
    }

    method RedeemShares(holder: Address, k: Key) returns (r: Result<int, FractionalizerError>)
      modifies this
      ensures var spec := Redeem(old(View()), holder, k);
        if spec.Ok? then r == Ok(Payments(spec.value, k)[holder].amount) && View() == spec.value
        else r == Err(spec.error) && View() == old(View())
    {
      if k !in wraps { return Err(WrapNotFound); }
      var w := wraps[k];
      if !w.settled { return Err(PoolNotClosed); }
      if k in payments && holder in payments[k] { return Err(AlreadyClaimed); }
      var holding := ShareBalance(k, holder);
      if holding == 0 { return Err(NotShareHolder); }
      if w.totalShares == 0 || w.totalPayout * holding > U128_MAX { return Err(ArithmeticOverflow); }
      var payout := w.totalPayout * holding / w.totalShares;
      if w.outstanding == holding {
        if holding > w.totalShares { return Err(ArithmeticOverflow); }
        if w.totalPayout * (w.totalShares - holding) > U128_MAX { return Err(ArithmeticOverflow); }
        payout := w.totalPayout - w.totalPayout * (w.totalShares - holding) / w.totalShares;
      }
      if holding > w.outstanding { return Err(ArithmeticOverflow); }
      var paid := if k in payments then payments[k] else map[];
      payments := payments[k := paid[holder := Payment(holding, payout)]];
      StoreBalance(k, holder, 0);
      wraps := wraps[k := w.(outstanding := w.outstanding - holding, totalPayout := w.totalPayout - payout)];
      return Ok(payout);
    }

    method UnwrapShares(investor: Address, id: nat) returns (r: Result<(), FractionalizerError>)
      modifies this
      ensures var spec := Unwrap(old(View()), investor, id);
        if spec.Ok? then r == Ok(()) && View() == spec.value else r == Err(spec.error) && View() == old(View())
    {
      var k := (id, investor);
      if k !in wraps { return Err(WrapNotFound); }
      if ShareBalance(k, investor) != wraps[k].totalShares { return Err(SharesOutstanding); }
      if id in closedPools { return Err(PoolRefusedTransfer); }
      StoreBalance(k, investor, 0);
      wraps := wraps - {k};
      return Ok(());
    }
  }
}
