/** Runs of the financing pool, from its first call on, that reach the states in which its promises fail. */
module PoolWitnesses {
  import opened Wrappers
  import opened Chain
  import opened MapSum
  import opened InvoiceNft
  import opened FinancingPool
  import opened PoolInvariants
  import Int128
  import SeqSum

  type Calls = seq<(Call, Env)>

  lemma Next(calls: Calls, s: State, c: Call, env: Env, r: State)
    requires Run(EMPTY, calls) == s && Attempt(s, c, env) == Ok(r)
    ensures Run(EMPTY, calls + [(c, env)]) == r
  {
    assert (calls + [(c, env)])[..|calls|] == calls;
  }

  lemma Overwrite<V>(k: nat, a: V, b: V)
    ensures map[k := a][k := b] == map[k := b]
  {
  }

  // ── A funded invoice ─────────────────────────────────────────────────────────

  const T := Token(1, 7)
  const SME: Address := 9

  /** No penalty is charged; the caller is the admin. */
  const EARLY := Env(0, false, true, 0, 0, 10_000, 0, false)

  function Minted(status: Status): State {
    EMPTY.(nft := map[1 := Invoice(status, 10_000, 100, SME, false)])
  }

  const FUNDED := Minted(Funded).(
    pools := map[1 := Pool(T, 0, 10_000, 0, false, 0, 10_000, false)], stats := Stats(1, 0, 0, 1))

  const OPENING: Calls := [(MintCall(1, 10_000, 100, SME), EARLY), (ListCall(1), EARLY), (ReleaseCall(1, T), EARLY)]

  lemma Opening()
    ensures Run(EMPTY, OPENING) == FUNDED
  {
    var mint, list, release := (MintCall(1, 10_000, 100, SME), EARLY), (ListCall(1), EARLY), (ReleaseCall(1, T), EARLY);
    assert Run(EMPTY, []) == EMPTY;
    Overwrite(1, Invoice(Created, 10_000, 100, SME, false), Invoice(Listed, 10_000, 100, SME, false));
    Overwrite(1, Invoice(Listed, 10_000, 100, SME, false), Invoice(Funded, 10_000, 100, SME, false));
    Next([], EMPTY, mint.0, EARLY, Minted(Created));
    Next([mint], Minted(Created), list.0, EARLY, Minted(Listed));
    assert [mint] + [list] == [mint, list] && [] + [mint] == [mint];
    Next([mint, list], Minted(Listed), release.0, EARLY, FUNDED);
    assert [mint, list] + [release] == OPENING;
  }

  // ── Positions recorded while a buyout is open ────────────────────────────────

  /** The funded invoice with these positions and this offer. */
  function Offering(ps: map<Address, Position>, o: Offer): State {
    FUNDED.(positions := map[1 := ps], held := map[T := 9_000], offers := map[1 := o])
  }

  function Even(amount: nat): Position { Position(amount, amount) }

  function Pair(first: nat, second: nat): map<Address, Position> { map[5 := Even(first), 6 := Even(second)] }

  /** The first investor accepts with one share and is then recorded with another. */
  function Recording(before: nat, second: nat): Calls {
    OPENING + [(RecordCall(1, 5, before, 10_000), EARLY)] + [(RecordCall(1, 6, second, 10_000), EARLY)]
  }

  function Rerecording(before: nat, second: nat, after: nat): Calls {
    Recording(before, second) + [(ProposeEarlyCall(SME, 1, 9_000), EARLY)] + [(AcceptEarlyCall(5, 1), EARLY)]
    + [(RecordCall(1, 5, after, 10_000), EARLY)]
  }

  lemma RecordOne(s: State, investor: Address, amount: nat)
    requires 1 in s.pools && 1 in s.nft && !s.nft[1].frozen && 1 !in s.credited && 1 !in s.pending
    requires 0 < amount <= 10_000 && |PositionsOf(s, 1)| < MAX_POSITIONS_PER_POOL
    ensures Attempt(s, RecordCall(1, investor, amount, 10_000), EARLY)
      == Ok(s.(positions := s.positions[1 := PositionsOf(s, 1)[investor := Even(amount)]]))
  {
  }

  lemma RecordedBoth(before: nat, second: nat)
    requires 0 < before < 10_000 && 0 < second < 10_000
    ensures Run(EMPTY, Recording(before, second)) == FUNDED.(positions := map[1 := Pair(before, second)])
  {
    Opening();
    var one: map<Address, Position> := map[5 := Even(before)];
    var s1 := FUNDED.(positions := map[1 := one]);
    RecordOne(FUNDED, 5, before);
    assert map[][5 := Even(before)] == one && map[][1 := one] == map[1 := one];
    Next(OPENING, FUNDED, RecordCall(1, 5, before, 10_000), EARLY, s1);
    RecordOne(s1, 6, second);
    assert one[6 := Even(second)] == Pair(before, second);
    Overwrite(1, one, Pair(before, second));
    Next(OPENING + [(RecordCall(1, 5, before, 10_000), EARLY)], s1, RecordCall(1, 6, second, 10_000), EARLY,
         FUNDED.(positions := map[1 := Pair(before, second)]));
  }

  lemma Propose(ps: map<Address, Position>)
    ensures Attempt(FUNDED.(positions := map[1 := ps]), ProposeEarlyCall(SME, 1, 9_000), EARLY)
      == Ok(Offering(ps, Offer(9_000, 0, [])))
  {
    assert map[][T := 9_000] == map[T := 9_000] && map[][1 := Offer(9_000, 0, [])] == map[1 := Offer(9_000, 0, [])];
  }

  lemma AcceptFirst(ps: map<Address, Position>)
    requires 5 in ps && ps[5].shareBps < 10_000
    ensures Attempt(Offering(ps, Offer(9_000, 0, [])), AcceptEarlyCall(5, 1), EARLY)
      == Ok(Offering(ps, Offer(9_000, ps[5].shareBps, [5])))
  {
    assert [] + [5] == [5];
    Overwrite(1, Offer(9_000, 0, []), Offer(9_000, ps[5].shareBps, [5]));
  }

  lemma Rerecorded(before: nat, second: nat, after: nat)
    requires 0 < before < 10_000 && 0 < second < 10_000 && 0 < after < 10_000
    ensures Run(EMPTY, Rerecording(before, second, after)) == Offering(Pair(after, second), Offer(9_000, before, [5]))
  {
    RecordedBoth(before, second);
    var ps := Pair(before, second);
    var calls := Recording(before, second);
    Propose(ps);
    Next(calls, FUNDED.(positions := map[1 := ps]), ProposeEarlyCall(SME, 1, 9_000), EARLY,
      Offering(ps, Offer(9_000, 0, [])));
    AcceptFirst(ps);
    var proposed := calls + [(ProposeEarlyCall(SME, 1, 9_000), EARLY)];
    Next(proposed, Offering(ps, Offer(9_000, 0, [])), AcceptEarlyCall(5, 1), EARLY,
      Offering(ps, Offer(9_000, before, [5])));
    RecordAgain(proposed + [(AcceptEarlyCall(5, 1), EARLY)], before, second, after);
  }

  lemma RecordAgain(calls: Calls, before: nat, second: nat, after: nat)
    requires 0 < after < 10_000 && Run(EMPTY, calls) == Offering(Pair(before, second), Offer(9_000, before, [5]))
    ensures Run(EMPTY, calls + [(RecordCall(1, 5, after, 10_000), EARLY)]) ==
      Offering(Pair(after, second), Offer(9_000, before, [5]))
  {
    var ps := Pair(before, second);
    var s := Offering(ps, Offer(9_000, before, [5]));
    RecordOne(s, 5, after);
    assert ps[5 := Even(after)] == Pair(after, second);
    Overwrite(1, ps, Pair(after, second));
    Next(calls, s, RecordCall(1, 5, after, 10_000), EARLY, Offering(Pair(after, second), Offer(9_000, before, [5])));
  }

  lemma TwoShares(s: State, first: nat, second: nat)
    requires PositionsOf(s, 1) == Pair(first, second)
    ensures ShareSum(PositionsOf(s, 1)) == first + second
  {
    var one: map<Address, int> := map[5 := first];
    TotalUpdate(map[], 5, first);
    TotalUpdate(one, 6, second);
    assert map[][5 := first] == one && Shares(PositionsOf(s, 1)) == one[6 := second];
  }

  /** Recorded at 4 000 when accepting and raised to 5 000 afterwards: the second and last investor accepts, the
      recorded shares come to exactly 10 000, and the offer stays open. */
  lemma RaisedShareStaysOpen()
    ensures var s := Run(EMPTY, Rerecording(4_000, 5_000, 5_000));
      && PositionsOf(s, 1).Keys == {5, 6} && 1 in s.offers && s.offers[1].accepted == [5]
      && ShareSum(PositionsOf(s, 1)) == 10_000
      && var r := AcceptEarly(s, 6, 1, EARLY); r.Ok? && 1 in r.value.offers
  {
    Rerecorded(4_000, 5_000, 5_000);
    TwoShares(Offering(Pair(5_000, 5_000), Offer(9_000, 4_000, [5])), 5_000, 5_000);
  }

  /** Recorded at 6 000 when accepting and lowered to one basis point afterwards: the second acceptance settles the
      offer although only 4 001 basis points are recorded. */
  lemma LoweredShareSettles()
    ensures var s := Run(EMPTY, Rerecording(6_000, 4_000, 1));
      && ShareSum(PositionsOf(s, 1)) == 4_001
      && var r := AcceptEarly(s, 6, 1, EARLY); r.Ok? && 1 !in r.value.offers
  {
    Rerecorded(6_000, 4_000, 1);
    var s := Offering(Pair(1, 4_000), Offer(9_000, 6_000, [5]));
    TwoShares(s, 1, 4_000);
    SettlesWithLess(s);
  }

  lemma SettlesWithLess(s: State)
    requires s == Offering(Pair(1, 4_000), Offer(9_000, 6_000, [5])) && ShareSum(Pair(1, 4_000)) == 4_001
    ensures AcceptEarly(s, 6, 1, EARLY).Ok? && 1 !in AcceptEarly(s, 6, 1, EARLY).value.offers
  {
    var ps := Pair(1, 4_000);
    assert PayoutOf(9_000, ps[5], T) == Some(0) && PayoutOf(9_000, ps[6], T) == Some(3_600);
    PayoutsBounded(ps, 9_000, T);
  }

  // ── A schedule whose last payment is late ────────────────────────────────────

  /** Past the due date of the first invoice, with these rates. */
  function Late(penaltyBps: nat, treasurySplitBps: nat): Env {
    Env(200, false, true, penaltyBps, treasurySplitBps, 10_000, 0, false)
  }

  const ONE_INSTALLMENT := Schedule([Installment(10_000, 100, false)], 0)
  const TICKED := Schedule([Installment(10_000, 100, true)], 1)

  const UNDERPAID := FUNDED.(
    pools := map[1 := Pool(T, 0, 10_000, 10_000, false, 0, 10_500, true)], cuts := map[1 := 500],
    schedules := map[1 := TICKED], stats := Stats(1, 10_000, 0, 1), held := map[T := 10_000])

  lemma ScheduleOne()
    ensures Attempt(FUNDED, ScheduleCall(1, ONE_INSTALLMENT), EARLY) ==
      Ok(FUNDED.(schedules := map[1 := ONE_INSTALLMENT]))
  {
    var parts := ONE_INSTALLMENT.installments;
    assert parts[..0] == [] && Amounts(parts) == [10_000];
    assert SeqSum.Sum([10_000]) == 10_000;
    assert map[][1 := ONE_INSTALLMENT] == map[1 := ONE_INSTALLMENT];
  }

  const SCHEDULED := FUNDED.(schedules := map[1 := ONE_INSTALLMENT])

  lemma ChargeLate()
    ensures DueDate(SCHEDULED, 1, 10_000) == Ok(100)
    ensures Charged(SCHEDULED.pools[1], 100, 10_000, Late(1_000, 5_000)) == Ok((UNDERPAID.pools[1], 500))
    ensures Advance(ONE_INSTALLMENT) == TICKED
  {
    assert LatePenalty(SCHEDULED.pools[1], 100, Late(1_000, 5_000)) == Ok((500, 500));
    assert ONE_INSTALLMENT.installments[0 := Installment(10_000, 100, true)] == TICKED.installments;
  }

  /** A late repayment on a schedule that does not close the pool, field by field. */
  lemma LateRepayment(s: State, id: nat, amount: int, env: Env, due: nat, cut: int, r: State)
    requires id !in s.pending && id in s.nft && !s.nft[id].frozen && id in s.pools && !s.pools[id].closed
    requires 0 < amount < REPAYMENT_APPROVAL_THRESHOLD && amount <= MAX_AMOUNT
    requires id in s.schedules && DueDate(s, id, amount) == Ok(due) && PenaltyDue(s.pools[id], due, env)
    requires id in r.pools && !r.pools[id].closed && Charged(s.pools[id], due, amount, env) == Ok((r.pools[id], cut))
    requires r == s.(held := r.held, pools := r.pools, cuts := r.cuts, schedules := r.schedules, stats := r.stats)
    requires r.held == s.held[s.pools[id].token := Held(s, s.pools[id].token) + amount]
    requires r.pools == s.pools[id := r.pools[id]] && r.cuts == s.cuts[id := Int128.Saturate(Cut(s, id) + cut)]
    requires r.schedules == s.schedules[id := Advance(s.schedules[id])]
    requires r.stats == CountRepaid(s.stats, amount, false)
    ensures Attempt(s, RepayCall(id, amount, false), env) == Ok(r)
  {
    assert Repaying(s, id, amount, env) == Ok(r);
  }

  lemma LateFields()
    ensures SCHEDULED.schedules[1 := TICKED] == UNDERPAID.schedules
    ensures SCHEDULED.pools[1 := UNDERPAID.pools[1]] == UNDERPAID.pools
    ensures SCHEDULED.cuts[1 := 500] == UNDERPAID.cuts && SCHEDULED.held[T := 10_000] == UNDERPAID.held
  {
  }

  lemma PayLate()
    ensures Attempt(SCHEDULED, RepayCall(1, 10_000, false), Late(1_000, 5_000)) == Ok(UNDERPAID)
  {
    ChargeLate();
    LateFields();
    LateRepayment(SCHEDULED, 1, 10_000, Late(1_000, 5_000), 100, 500, UNDERPAID);
  }

  /** One installment of the whole debt, paid in full but late: the penalty leaves 500 owing, the pool stays open, and
      `repay` refuses every amount from then on. */
  lemma UnderpaidScheduleReached()
    ensures var calls :=
      OPENING + [(ScheduleCall(1, ONE_INSTALLMENT), EARLY)] + [(RepayCall(1, 10_000, false), Late(1_000, 5_000))];
      var s := Run(EMPTY, calls);
      && 1 in s.pools && !s.pools[1].closed && s.pools[1].totalOwed - s.pools[1].repaid == 500
      && forall amount, env :: RepayInternal(s, 1, amount, env) == Err(RepaymentAlreadyMade)
  {
    Opening();
    ScheduleOne();
    Next(OPENING, FUNDED, ScheduleCall(1, ONE_INSTALLMENT), EARLY, SCHEDULED);
    PayLate();
    Next(OPENING + [(ScheduleCall(1, ONE_INSTALLMENT), EARLY)], SCHEDULED,
         RepayCall(1, 10_000, false), Late(1_000, 5_000), UNDERPAID);
  }

  // ── A default on another pool's money ────────────────────────────────────────

  const OTHER := Invoice(Funded, 50_000, 1_000, SME, false)

  function Other(status: Status): State { FUNDED.(nft := FUNDED.nft[2 := OTHER.(status := status)]) }

  const BOTH := Other(Funded).(
    pools := FUNDED.pools[2 := Pool(T, 0, 50_000, 0, false, 0, 50_000, false)], stats := Stats(2, 0, 0, 2))

  const SECOND: Calls := [(MintCall(2, 50_000, 1_000, SME), EARLY), (ListCall(2), EARLY), (ReleaseCall(2, T), EARLY)]

  lemma OpeningBoth()
    ensures Run(EMPTY, OPENING + [SECOND[0]] + [SECOND[1]] + [SECOND[2]]) == BOTH
  {
    Opening();
    Next(OPENING, FUNDED, SECOND[0].0, EARLY, Other(Created));
    OverwriteSecond(OTHER.(status := Created), OTHER.(status := Listed));
    Next(OPENING + [SECOND[0]], Other(Created), SECOND[1].0, EARLY, Other(Listed));
    OverwriteSecond(OTHER.(status := Listed), OTHER);
    Next(OPENING + [SECOND[0]] + [SECOND[1]], Other(Listed), SECOND[2].0, EARLY, BOTH);
  }

  lemma OverwriteSecond(a: Invoice, b: Invoice)
    ensures FUNDED.nft[2 := a][2 := b] == FUNDED.nft[2 := b]
  {
  }

  const OWN := Pool(T, 0, 10_000, 1, false, 0, 10_000, true)
  const PAID := Pool(T, 0, 50_000, 20_000, false, 0, 50_000, false)

  /** The second pool was repaid 20 000; then one unit came late for the first, whose whole penalty is the
      treasury's. */
  const TWENTY := BOTH.(pools := BOTH.pools[2 := PAID], held := map[T := 20_000], stats := Stats(2, 20_000, 0, 2))
  const UNCOVERED := TWENTY.(
    pools := TWENTY.pools[1 := OWN], cuts := map[1 := 10_000], held := map[T := 20_001],
      stats := Stats(2, 20_001, 0, 2))

  const LEAKED := UNCOVERED.(
    cuts := map[], held := map[T := 10_001], nft := UNCOVERED.nft[1 := UNCOVERED.nft[1].(status := Defaulted)],
    stats := Stats(2, 20_001, 1, 1), disbursed := [Disbursement(1, 10_000, map[])])

  lemma PaySecond()
    ensures Attempt(BOTH, RepayCall(2, 20_000, false), EARLY) == Ok(TWENTY)
  {
    assert map[][T := 20_000] == map[T := 20_000];
  }

  lemma PayFirst()
    ensures Attempt(TWENTY, RepayCall(1, 1, false), Late(10_000, 10_000)) == Ok(UNCOVERED)
  {
    assert map[T := 20_000][T := 20_001] == map[T := 20_001];
    assert map[][1 := 10_000] == map[1 := 10_000];
  }

  lemma DefaultFirst()
    ensures Attempt(UNCOVERED, DefaultCall(1), Late(0, 0)) == Ok(LEAKED)
  {
    var total := Int128.Saturate(1 - 10_000);
    assert Payouts(map[], total, T) == map[];
    assert UNCOVERED.cuts - {1} == map[];
    assert [] + [Disbursement(1, 10_000, map[])] == LEAKED.disbursed;
    assert map[T := 20_001][T := 10_001] == map[T := 10_001];
  }

  lemma SecondStillOwed()
    ensures Total(Liabilities(LEAKED, T)) == 20_000
  {
    var owed: map<nat, int> := map[2 := 20_000];
    TotalUpdate(map[], 2, 20_000);
    assert map[][2 := 20_000] == owed && Liabilities(LEAKED, T) == owed;
  }

  /** The default of the first pool succeeds and leaves 10 001 in the contract, of the 20 000 it holds for the
      second. */
  lemma DefaultLeaks()
    ensures var calls := OPENING + [SECOND[0]] + [SECOND[1]] + [SECOND[2]] + [(RepayCall(2, 20_000, false), EARLY)]
        + [(RepayCall(1, 1, false), Late(10_000, 10_000))] + [(DefaultCall(1), Late(0, 0))];
      var s := Run(EMPTY, calls);
      && 1 in s.nft && s.nft[1].status == Defaulted
      && Held(s, T) == 10_001 && Total(Liabilities(s, T)) == 20_000
  {
    OpeningBoth();
    var begun := OPENING + [SECOND[0]] + [SECOND[1]] + [SECOND[2]];
    PaySecond();
    Next(begun, BOTH, RepayCall(2, 20_000, false), EARLY, TWENTY);
    PayFirst();
    Next(begun + [(RepayCall(2, 20_000, false), EARLY)], TWENTY, RepayCall(1, 1, false), Late(10_000, 10_000),
      UNCOVERED);
    DefaultFirst();
    Next(begun + [(RepayCall(2, 20_000, false), EARLY)] + [(RepayCall(1, 1, false), Late(10_000, 10_000))],
         UNCOVERED, DefaultCall(1), Late(0, 0), LEAKED);
    SecondStillOwed();
  }
}
