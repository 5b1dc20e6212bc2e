/** The companion status machine of the invoice NFT, as the financing pool drives it. */
module InvoiceNft {
  import opened Wrappers

  datatype Status = Created | Listed | Funded | Repaid | Defaulted
  datatype TransitionError = InvalidInvoiceStatus | NotYetDue

  function SetListed(s: Status): Result<Status, TransitionError> {
    if s != Created then Err(InvalidInvoiceStatus) else Ok(Listed)
  }

  function SetFunded(s: Status): Result<Status, TransitionError> {
    if s != Listed then Err(InvalidInvoiceStatus) else Ok(Funded)
  }

  function SetRepaid(s: Status): Result<Status, TransitionError> {
    if s != Funded then Err(InvalidInvoiceStatus) else Ok(Repaid)
  }

  function SetDefaulted(s: Status, pastDue: bool): Result<Status, TransitionError> {
    if s != Funded then Err(InvalidInvoiceStatus) else if !pastDue then Err(NotYetDue) else Ok(Defaulted)
  }
}

/** `financing_pool`: many pools over shared token balances. A call that fails leaves everything as it
    was, because the host rolls it back; so each entry point is a partial function on the storage. */
module FinancingPool {
  import opened Wrappers
  import opened Int128
  import opened Chain
  import opened SeqSum
  import opened MapSum
  import opened Rounding
  import opened InvoiceNft

  const MAX_AMOUNT: int := 0x3FFF_FFFF_FFFF_FFFF_FFFF_FFFF_FFFF_FFFF
  const REPAYMENT_APPROVAL_THRESHOLD: int := 10_000_000_000
  const MAX_NETTING_INVOICES: nat := 10
  const MAX_POSITIONS_PER_POOL: nat := 100

  datatype PoolError =
    | ProtocolPaused | NotAdmin | InvalidAmount | InvalidDueDate | InvalidAddress | ArithmeticOverflow
    | PoolNotFound | PoolAlreadyClosed | InvoiceNotFound | InvoiceFrozen | ExceedsFundingTarget
    | TooManyInvestors | RepaymentAlreadyMade | ApprovalThresholdNotMet | PartialRepayInvalid
    | EscrowPending | EscrowNotFound | BatchSizeExceeded | GracePeriodActive | DisputeOpen
    | AlreadyInitialized | Unauthorized | InsufficientBalance | StatusRefused

  datatype Token = Token(address: Address, decimals: nat)

  datatype Pool = Pool(
    token: Token, totalFunded: int, faceValue: int, repaid: int, closed: bool, latePenaltyBps: nat,
    totalOwed: int, penaltyApplied: bool)

  datatype Position = Position(contributed: int, shareBps: nat)
  datatype Installment = Installment(amount: int, dueDate: nat, paid: bool)
  datatype Schedule = Schedule(installments: seq<Installment>, nextIndex: nat)
  datatype Offer = Offer(amount: int, acceptedBps: nat, accepted: seq<Address>)
  datatype Stats = Stats(poolsOpened: nat, totalRepaid: int, poolsDefaulted: nat, activePools: nat)
  datatype Invoice = Invoice(status: Status, amount: int, dueDate: nat, sme: Address, frozen: bool)

  /** The transfers of one committed `distribute_yield`: treasury cut and payout of every investor. */
  datatype Disbursement = Disbursement(invoice: nat, cut: int, payouts: map<Address, int>)

  datatype State = State(
    pools: map<nat, Pool>,
    positions: map<nat, map<Address, Position>>,
    cuts: map<nat, int>,
    schedules: map<nat, Schedule>,
    offers: map<nat, Offer>,
    pending: map<nat, int>,
    credited: set<nat>,
    stats: Stats,
    held: map<Token, int>,
    nft: map<nat, Invoice>,
    disbursed: seq<Disbursement>)

  /** What a call reads from outside: the clock, the pause flag, governed parameters, the caller's rank. */
  datatype Env = Env(
    now: nat, paused: bool, byAdmin: bool, penaltyBps: nat, treasurySplitBps: nat, maxPositionBps: nat,
    gracePeriod: nat, disputeOpen: bool)

  type Outcome = Result<State, PoolError>

  // ── Accessors and elementary writes ──────────────────────────────────────────

  function Held(s: State, t: Token): int { if t in s.held then s.held[t] else 0 }
  function Cut(s: State, id: nat): int { if id in s.cuts then s.cuts[id] else 0 }
  function PositionsOf(s: State, id: nat): map<Address, Position> {
    if id in s.positions then s.positions[id] else map[]
  }
  function Remaining(p: Pool): int { if p.totalOwed > p.repaid then p.totalOwed - p.repaid else 0 }

  function Receive(s: State, t: Token, amount: int): State { s.(held := s.held[t := Held(s, t) + amount]) }
  function PutPool(s: State, id: nat, p: Pool): State { s.(pools := s.pools[id := p]) }
  function PutStatus(s: State, id: nat, status: Status): State
    requires id in s.nft
  {
    s.(nft := s.nft[id := s.nft[id].(status := status)])
  }

  function Saturating32(x: nat): nat { if x > U32_MAX then U32_MAX else x }
  function Minus1(x: nat): nat { if x == 0 then 0 else x - 1 }

  function CountRepaid(st: Stats, amount: int, closes: bool): Stats {
    st.(totalRepaid := Saturate(st.totalRepaid + amount),
        activePools := if closes then Minus1(st.activePools) else st.activePools)
  }

  // ── distribute_yield ─────────────────────────────────────────────────────────

  function PayoutOf(investorTotal: int, p: Position, t: Token): Option<int> {
    BpsOfNormalized(investorTotal, p.shareBps, t.decimals)
  }

  predicate PayoutsDefined(ps: map<Address, Position>, investorTotal: int, t: Token) {
    forall a :: a in ps ==> PayoutOf(investorTotal, ps[a], t).Some?
  }

  function Payouts(ps: map<Address, Position>, investorTotal: int, t: Token): map<Address, int>
    requires PayoutsDefined(ps, investorTotal, t)
  {
    map a | a in ps :: PayoutOf(investorTotal, ps[a], t).value
  }

  /** Only a positive treasury cut is transferred. */
  function Fee(cut: int): int { if cut > 0 then cut else 0 }

  ghost function Distribute(s: State, id: nat, total: int): Outcome
    requires id in s.pools
  {
    var t, cut, ps := s.pools[id].token, Cut(s, id), PositionsOf(s, id);
    var investorTotal := Saturate(total - cut);
    if !PayoutsDefined(ps, investorTotal, t) then Err(ArithmeticOverflow)
    else
      var payouts, fee := Payouts(ps, investorTotal, t), Fee(cut);
      var outflow := fee + Total(payouts);
      if Held(s, t) < outflow then Err(InsufficientBalance)
      else Ok(s.(cuts := s.cuts - {id}, held := s.held[t := Held(s, t) - outflow],
                 disbursed := s.disbursed + [Disbursement(id, fee, payouts)]))
  }

  /** Distribution of a pool that was just closed, and the NFT's transition. */
  ghost function PayOut(s: State, id: nat, total: int): Outcome
    requires id in s.pools
  {
    var paid :- Distribute(s, id, total);
    if id !in paid.nft || SetRepaid(paid.nft[id].status).Err? then Err(StatusRefused)
    else Ok(PutStatus(paid, id, SetRepaid(paid.nft[id].status).value))
  }

  // ── release_funds and record_position ────────────────────────────────────────

  function ReleaseFunds(s: State, id: nat, t: Token, env: Env): Outcome {
    if env.paused then Err(ProtocolPaused)
    else if id in s.pools then Err(PoolAlreadyClosed)
    else if id !in s.nft then Err(InvoiceNotFound)
    else
      var amount := s.nft[id].amount;
      if amount <= 0 || amount > MAX_AMOUNT then Err(InvalidAmount)
      else if SetFunded(s.nft[id].status).Err? then Err(StatusRefused)
      else
        var withPool := PutPool(s, id, Pool(t, 0, amount, 0, false, env.penaltyBps, amount, false));
        var counted := withPool.(stats := s.stats.(poolsOpened := Saturating32(s.stats.poolsOpened + 1),
                                                 activePools := Saturating32(s.stats.activePools + 1)));
        Ok(PutStatus(counted, id, SetFunded(s.nft[id].status).value))
  }

  /** A contribution's share of the pool it is compared with, rounded down. */
  function PositionBps(contributed: int, totalPool: int): (bps: nat)
    requires 0 < contributed <= totalPool
    ensures bps <= BPS
  {
    MultiplyMonotone(contributed, totalPool, BPS);
    BpsFloor(contributed * BPS, totalPool);
    contributed * BPS / totalPool
  }

  lemma BpsFloor(x: int, d: int)
    requires d > 0 && 0 <= x <= d * BPS
    ensures 0 <= x / d <= BPS
  {
    DivideBounds(x, d);
    if x / d > BPS { MultiplyMonotone(BPS + 1, x / d, d); }
    if x / d < 0 { MultiplyMonotone(x / d, -1, d); }
  }

  function RecordPosition(s: State, id: nat, investor: Address, contributed: int, totalPool: int, env: Env): Outcome {
    if id in s.credited then Err(PartialRepayInvalid)
    else if id in s.pending then Err(EscrowPending)
    else if !env.byAdmin then Err(NotAdmin)
    else if env.paused then Err(ProtocolPaused)
    else if id !in s.nft then Err(InvoiceNotFound)
    else if s.nft[id].frozen then Err(InvoiceFrozen)
    else if contributed <= 0 || totalPool <= 0 then Err(InvalidAmount)
    else if contributed > totalPool || contributed > MAX_AMOUNT || totalPool > MAX_AMOUNT then Err(InvalidAmount)
    else if !Fits(contributed * BPS) then Err(ArithmeticOverflow)
    else
      var bps := PositionBps(contributed, totalPool);
      var ps := PositionsOf(s, id);
      if bps > env.maxPositionBps then Err(ExceedsFundingTarget)
      else if (investor !in ps || ps[investor].contributed == 0) && |ps| >= MAX_POSITIONS_PER_POOL
        then Err(TooManyInvestors)
      else if id !in s.pools then Err(PoolNotFound)
      else Ok(s.(positions := s.positions[id := ps[investor := Position(contributed, bps)]]))
  }

  // ── repay ────────────────────────────────────────────────────────────────────

  /** Treasury and investor part of a late penalty; zero when none is due. */
  function LatePenalty(p: Pool, due: nat, env: Env): Result<(int, int), PoolError> {
    if p.penaltyApplied || env.penaltyBps == 0 || env.now <= due then Ok((0, 0))
    else
      match BpsOf(p.faceValue, env.penaltyBps)
      case None => Err(ArithmeticOverflow)
      case Some(penalty) =>
        match BpsOf(penalty, env.treasurySplitBps)
        case None => Err(ArithmeticOverflow)
        case Some(cut) => if Fits(penalty - cut) then Ok((cut, penalty - cut)) else Err(ArithmeticOverflow)
  }

  predicate PenaltyDue(p: Pool, due: nat, env: Env) { !p.penaltyApplied && env.penaltyBps > 0 && env.now > due }

  /** The installment check, and the due date the penalty looks at. */
  function DueDate(s: State, id: nat, amount: int): Result<nat, PoolError>
    requires id in s.nft
  {
    if id in s.schedules then
      var sc := s.schedules[id];
      if sc.nextIndex >= |sc.installments| then Err(RepaymentAlreadyMade)
      else
        var i := sc.installments[sc.nextIndex];
        if sc.nextIndex == |sc.installments| - 1 then
          if amount < i.amount then Err(InvalidAmount) else Ok(i.dueDate)
        else if amount != i.amount then Err(InvalidAmount) else Ok(i.dueDate)
    else Ok(s.nft[id].dueDate)
  }

  function Advance(sc: Schedule): Schedule {
    if sc.nextIndex < |sc.installments|
    then Schedule(sc.installments[sc.nextIndex := sc.installments[sc.nextIndex].(paid := true)], sc.nextIndex + 1)
    else sc
  }

  /** The pool after penalty and repayment, and the treasury cut to record. */
  function Charged(p: Pool, due: nat, amount: int, env: Env): Result<(Pool, int), PoolError> {
    var penalty :- LatePenalty(p, due, env);
    var owed, repaid := p.totalOwed + penalty.1, p.repaid + amount;
    if !Fits(owed) || !Fits(repaid) then Err(ArithmeticOverflow)
    else Ok((p.(totalOwed := owed, penaltyApplied := p.penaltyApplied || PenaltyDue(p, due, env), repaid := repaid,
                closed := repaid >= owed), penalty.0))
  }

  function Repaying(s: State, id: nat, amount: int, env: Env): Outcome
    requires id in s.pools && id in s.nft
  {
    var p := s.pools[id];
    var due :- DueDate(s, id, amount);
    var charged :- Charged(p, due, amount, env);
    Ok(Receive(s, p.token, amount).(
      pools := s.pools[id := charged.0],
      cuts := if PenaltyDue(p, due, env) then s.cuts[id := Saturate(Cut(s, id) + charged.1)] else s.cuts,
      schedules := if id in s.schedules then s.schedules[id := Advance(s.schedules[id])] else s.schedules,
      stats := CountRepaid(s.stats, amount, charged.0.closed)))
  }

  ghost function RepayInternal(s: State, id: nat, amount: int, env: Env): Outcome {
    if id in s.pending then Err(EscrowPending)
    else if id !in s.nft then Err(InvoiceNotFound)
    else if s.nft[id].frozen then Err(InvoiceFrozen)
    else if id !in s.pools then Err(PoolNotFound)
    else if s.pools[id].closed then Err(PoolAlreadyClosed)
    else
      var credited :- Repaying(s, id, amount, env);
      if credited.pools[id].closed then PayOut(credited, id, credited.pools[id].repaid) else Ok(credited)
  }

  /** `approved` says that an executed high-value approval is stored for the invoice. */
  ghost function Repay(s: State, id: nat, amount: int, approved: bool, env: Env): Outcome {
    if amount <= 0 || amount > MAX_AMOUNT then Err(InvalidAmount)
    else if amount >= REPAYMENT_APPROVAL_THRESHOLD && !approved then Err(ApprovalThresholdNotMet)
    else RepayInternal(s, id, amount, env)
  }

  // ── net_settle ───────────────────────────────────────────────────────────────

  function NettingCheck(s: State, payer: Address, id: nat, t: Token): Option<PoolError> {
    if id in s.credited then Some(PartialRepayInvalid)
    else if id in s.pending then Some(EscrowPending)
    else if id !in s.nft then Some(InvoiceNotFound)
    else if s.nft[id].frozen then Some(InvoiceFrozen)
    else if id !in s.pools then Some(PoolNotFound)
    else if s.pools[id].closed then Some(PoolAlreadyClosed)
    else if s.pools[id].token != t then Some(InvalidAddress)
    else if s.nft[id].sme != payer then Some(Unauthorized)
    else None
  }

  /** The outstanding balances of the first `n` listed pools, or the first objection. */
  function Preflight(s: State, payer: Address, ids: seq<nat>, n: nat, t: Token): (r: Result<seq<int>, PoolError>)
    requires n <= |ids|
    ensures r.Ok? ==> |r.value| == n && forall i :: 0 <= i < n ==>
      NettingCheck(s, payer, ids[i], t).None? && r.value[i] == Remaining(s.pools[ids[i]])
  {
    if n == 0 then Ok([])
    else
      var before :- Preflight(s, payer, ids, n - 1, t);
      var objection := NettingCheck(s, payer, ids[n - 1], t);
      if objection.Some? then Err(objection.value)
      else if !Fits(Sum(before) + Remaining(s.pools[ids[n - 1]])) then Err(ArithmeticOverflow)
      else Ok(before + [Remaining(s.pools[ids[n - 1]])])
  }

  /** Rounded-down shares of `amount` proportional to the outstanding balances. */
  function BaseAllocations(remaining: seq<int>, amount: int): seq<int>
    requires Sum(remaining) > 0
  {
    seq(|remaining|, i requires 0 <= i < |remaining| => amount * remaining[i] / Sum(remaining))
  }

  /** The rounding remainder goes to the first pool. */
  function Allocations(remaining: seq<int>, amount: int): seq<int>
    requires remaining != [] && Sum(remaining) > 0
  {
    var base := BaseAllocations(remaining, amount);
    var remainder := amount - Sum(base);
    if remainder > 0 then base[0 := base[0] + remainder] else base
  }

  predicate Late(p: Pool, due: nat, now: nat) { !p.penaltyApplied && p.latePenaltyBps > 0 && now > due }

  /** One netted pool: the whole late penalty is added to the debt, at the rate stored with the pool. */
  function Netted(p: Pool, due: nat, now: nat, alloc: int): Option<Pool> {
    var late := Late(p, due, now);
    var penalty := if late then BpsOf(p.faceValue, p.latePenaltyBps) else Some(0);
    if penalty.None? || !Fits(p.totalOwed + penalty.value) || !Fits(p.repaid + alloc) then None
    else
      var owed, repaid := p.totalOwed + penalty.value, p.repaid + alloc;
      Some(p.(totalOwed := owed, penaltyApplied := p.penaltyApplied || late, repaid := repaid,
        closed := repaid >= owed))
  }

  predicate AllStored(s: State, ids: seq<nat>) { forall i :: 0 <= i < |ids| ==> ids[i] in s.pools && ids[i] in s.nft }

  /** The pool `id` after `alloc` was netted into it, from what the preflight read in `s`. */
  function NettedAt(s: State, id: nat, alloc: int, now: nat): Option<Pool>
    requires id in s.pools && id in s.nft
  {
    if alloc <= 0 then Some(s.pools[id]) else Netted(s.pools[id], s.nft[id].dueDate, now, alloc)
  }

  /** The state after the first `n` allocations; each pool is written from what the preflight read in `s`. */
  function ApplyAllocations(s: State, ids: seq<nat>, allocs: seq<int>, n: nat, now: nat): Outcome
    requires n <= |ids| == |allocs| && AllStored(s, ids)
  {
    if n == 0 then Ok(s)
    else
      var earlier :- ApplyAllocations(s, ids, allocs, n - 1, now);
      if allocs[n - 1] <= 0 then Ok(earlier)
      else
        match NettedAt(s, ids[n - 1], allocs[n - 1], now)
        case None => Err(ArithmeticOverflow)
        case Some(p) => Ok(PutPool(earlier, ids[n - 1], p))
  }

  predicate ClosesAt(s: State, id: nat, alloc: int, now: nat)
    requires id in s.pools && id in s.nft
  {
    alloc > 0 && NettedAt(s, id, alloc, now).Some? && NettedAt(s, id, alloc, now).value.closed
  }

  /** Those of the first `n` pools that their allocation closes, in order. */
  function Closing(s: State, ids: seq<nat>, allocs: seq<int>, n: nat, now: nat): seq<nat>
    requires n <= |ids| == |allocs| && AllStored(s, ids)
  {
    if n == 0 then []
    else
      Closing(s, ids, allocs, n - 1, now) + if ClosesAt(s, ids[n - 1], allocs[n - 1], now) then [ids[n - 1]] else []
  }

  /** The state after the first `n` of the closed pools were paid out. */
  ghost function CloseAll(s: State, ids: seq<nat>, n: nat): Outcome
    requires n <= |ids|
  {
    if n == 0 then Ok(s)
    else
      var earlier :- CloseAll(s, ids, n - 1);
      ClosePaid(earlier, ids[n - 1])
  }

  ghost function ClosePaid(s: State, id: nat): Outcome {
    if id !in s.pools then Err(PoolNotFound)
    else
      var total := s.pools[id].repaid;
      var paid :- PayOut(s, id, total);
      Ok(paid.(stats := CountRepaid(paid.stats, total, true)))
  }

  ghost function NetSettle(s: State, payer: Address, ids: seq<nat>, t: Token, amount: int, env: Env): Outcome {
    if env.paused then Err(ProtocolPaused)
    else if amount <= 0 || amount > MAX_AMOUNT then Err(InvalidAmount)
    else if |ids| < 2 then Err(InvalidAmount)
    else if |ids| > MAX_NETTING_INVOICES then Err(BatchSizeExceeded)
    else
      var remaining :- Preflight(s, payer, ids, |ids|, t);
      if Sum(remaining) <= 0 then Err(InvalidAmount)
      else if exists i :: 0 <= i < |ids| && !Fits(amount * remaining[i]) then Err(ArithmeticOverflow)
      else NetAllocated(s, ids, Allocations(remaining, amount), t, amount, env.now)
  }

  /** The netting from the allocations on: pools first, then the one transfer, then the payouts. */
  ghost function NetAllocated(s: State, ids: seq<nat>, allocs: seq<int>, t: Token, amount: int, now: nat): Outcome
    requires |ids| == |allocs| && AllStored(s, ids)
  {
    var applied :- ApplyAllocations(s, ids, allocs, |ids|, now);
    var closing := Closing(s, ids, allocs, |ids|, now);
    CloseAll(Receive(applied, t, amount), closing, |closing|)
  }

  // ── set_installment_schedule and mark_default ────────────────────────────────

  function Amounts(parts: seq<Installment>): seq<int> {
    seq(|parts|, i requires 0 <= i < |parts| => parts[i].amount)
  }

  /** First objection while walking the installments, as the loop meets them. */
  function ScheduleObjection(parts: seq<Installment>): Option<PoolError> {
    if parts == [] then None
    else
      var n := |parts| - 1;
      var earlier := ScheduleObjection(parts[..n]);
      if earlier.Some? then earlier
      else if parts[n].amount <= 0 then Some(InvalidAmount)
      else if parts[n].dueDate < (if n == 0 then 0 else parts[n - 1].dueDate) then Some(InvalidDueDate)
      else if !Fits(Sum(Amounts(parts))) then Some(ArithmeticOverflow)
      else None
  }

  function SetInstallmentSchedule(s: State, id: nat, sc: Schedule, env: Env): Outcome {
    if id in s.credited then Err(PartialRepayInvalid)
    else if id in s.pending then Err(EscrowPending)
    else if !env.byAdmin then Err(NotAdmin)
    else if env.paused then Err(ProtocolPaused)
    else if id !in s.pools then Err(PoolNotFound)
    else if s.pools[id].closed then Err(PoolAlreadyClosed)
    else if s.pools[id].repaid > 0 || sc.installments == [] || sc.nextIndex != 0 then Err(InvalidAmount)
    else if ScheduleObjection(sc.installments).Some? then Err(ScheduleObjection(sc.installments).value)
    else if Sum(Amounts(sc.installments)) != s.pools[id].totalOwed then Err(InvalidAmount)
    else Ok(s.(schedules := s.schedules[id := sc]))
  }

  /** A pool that was credited through the escrow is closed by its default; any other stays open. */
  function Marked(s: State, id: nat): State
    requires id in s.pools
  {
    if id in s.credited then PutPool(s, id, s.pools[id].(closed := true)) else s
  }

  ghost function DefaultPayout(s: State, id: nat): Outcome
    requires id in s.pools
  {
    if s.pools[id].repaid > 0 then Distribute(Marked(s, id), id, s.pools[id].repaid) else Ok(Marked(s, id))
  }

  ghost function MarkDefault(s: State, id: nat, env: Env): Outcome {
    if !env.byAdmin then Err(NotAdmin)
    else if env.paused then Err(ProtocolPaused)
    else if id in s.pending then Err(EscrowPending)
    else if id !in s.pools then Err(PoolNotFound)
    else if s.pools[id].closed then Err(PoolAlreadyClosed)
    else if id !in s.nft then Err(InvoiceNotFound)
    else if s.nft[id].dueDate + env.gracePeriod > U64_MAX then Err(ArithmeticOverflow)
    else if env.now < s.nft[id].dueDate + env.gracePeriod then Err(GracePeriodActive)
    else if env.disputeOpen then Err(DisputeOpen)
    else
      var paid :- DefaultPayout(s, id);
      match SetDefaulted(s.nft[id].status, env.now > s.nft[id].dueDate)
      case Err(_) => Err(StatusRefused)
      case Ok(status) =>
        Ok(PutStatus(paid, id, status).(stats := s.stats.(poolsDefaulted := Saturating32(s.stats.poolsDefaulted + 1),
                                                          activePools := Minus1(s.stats.activePools))))
  }

  // ── Early settlement ─────────────────────────────────────────────────────────

  function ProposeEarly(s: State, sme: Address, id: nat, amount: int, env: Env): Outcome {
    if id in s.credited then Err(PartialRepayInvalid)
    else if id in s.pending then Err(EscrowPending)
    else if env.paused then Err(ProtocolPaused)
    else if amount <= 0 || amount > MAX_AMOUNT then Err(InvalidAmount)
    else if id !in s.pools then Err(PoolNotFound)
    else if s.pools[id].closed then Err(PoolAlreadyClosed)
    else if amount < s.pools[id].totalFunded || amount >= s.pools[id].totalOwed then Err(InvalidAmount)
    else if id in s.offers then Err(AlreadyInitialized)
    else if id !in s.nft then Err(InvoiceNotFound)
    else if s.nft[id].sme != sme then Err(Unauthorized)
    else Ok(Receive(s, s.pools[id].token, amount).(offers := s.offers[id := Offer(amount, 0, [])]))
  }

  ghost function AcceptEarly(s: State, investor: Address, id: nat, env: Env): Outcome {
    if id in s.pending then Err(EscrowPending)
    else if env.paused then Err(ProtocolPaused)
    else if id !in s.offers then Err(PoolNotFound)
    else if id !in s.pools then Err(PoolNotFound)
    else if s.pools[id].closed then Err(PoolAlreadyClosed)
    else if investor !in PositionsOf(s, id) then Err(Unauthorized)
    else if investor in s.offers[id].accepted then Err(AlreadyInitialized)
    else
      var o := s.offers[id];
      var bps := o.acceptedBps + PositionsOf(s, id)[investor].shareBps;
      if bps > U32_MAX then Err(ArithmeticOverflow)
      else if bps < 10_000 then Ok(s.(offers := s.offers[id := Offer(o.amount, bps, o.accepted + [investor])]))
      else
        var closed := PutPool(s, id, s.pools[id].(repaid := o.amount, closed := true));
        var paid :- PayOut(closed, id, o.amount);
        Ok(paid.(offers := s.offers - {id}, stats := CountRepaid(s.stats, o.amount, true)))
  }

  function CancelEarly(s: State, sme: Address, id: nat): Outcome {
    if id in s.pending then Err(EscrowPending)
    else if id !in s.offers then Err(PoolNotFound)
    else if id !in s.pools then Err(PoolNotFound)
    else if id !in s.nft then Err(InvoiceNotFound)
    else if s.nft[id].sme != sme then Err(Unauthorized)
    else
      var t, amount := s.pools[id].token, s.offers[id].amount;
      if Held(s, t) < amount then Err(InsufficientBalance)
      else Ok(Receive(s, t, -amount).(offers := s.offers - {id}))
  }

  // ── Escrow hooks ─────────────────────────────────────────────────────────────

  /** Token, SME and outstanding debt of a fresh lump-sum pool. */
  function EscrowTerms(s: State, id: nat): Result<(Token, Address, int), PoolError> {
    if id in s.pending then Err(EscrowPending)
    else if id !in s.pools then Err(PoolNotFound)
    else
      var p := s.pools[id];
      if p.closed then Err(PoolAlreadyClosed)
      else if p.repaid != 0 || p.latePenaltyBps != 0 || id in s.schedules || id in s.offers then Err(InvalidAmount)
      else if p.totalOwed - p.repaid <= 0 then Err(RepaymentAlreadyMade)
      else if p.totalOwed - p.repaid >= REPAYMENT_APPROVAL_THRESHOLD then Err(ApprovalThresholdNotMet)
      else if id !in s.nft then Err(InvoiceNotFound)
      else if s.nft[id].status != Funded then Err(PoolAlreadyClosed)
      else if s.nft[id].frozen then Err(InvoiceFrozen)
      else if p.token.decimals != 7 then Err(InvalidAmount)
      else Ok((p.token, s.nft[id].sme, p.totalOwed - p.repaid))
  }

  function ReserveEscrow(s: State, id: nat, amount: int, env: Env): Outcome {
    if env.paused then Err(ProtocolPaused)
    else
      var terms :- EscrowTerms(s, id);
      if amount <= 0 || amount > MAX_AMOUNT || amount > terms.2 then Err(InvalidAmount)
      else Ok(s.(pending := s.pending[id := amount]))
  }

  /** A reserved amount credited to its pool. */
  function Crediting(s: State, id: nat, amount: int): State
    requires id in s.pools
  {
    var p := s.pools[id];
    var repaid := p.repaid + amount;
    PutPool(s, id, p.(repaid := repaid, closed := repaid == p.totalOwed)).(
      credited := s.credited + {id}, stats := CountRepaid(s.stats, amount, repaid == p.totalOwed))
  }

  ghost function SettleToPool(s: State, id: nat, amount: int): Outcome {
    if id !in s.pools then Err(PoolNotFound)
    else if s.pools[id].closed then Err(PoolAlreadyClosed)
    else if id !in s.nft then Err(InvoiceNotFound)
    else if s.nft[id].status != Funded then Err(PoolAlreadyClosed)
    else if s.nft[id].frozen then Err(InvoiceFrozen)
    else
      var p := s.pools[id];
      var repaid := p.repaid + amount;
      if !Fits(repaid) then Err(ArithmeticOverflow)
      else if repaid > p.totalOwed then Err(InvalidAmount)
      else if !Fits(s.stats.totalRepaid + amount) then Err(ArithmeticOverflow)
      else if repaid == p.totalOwed then PayOut(Crediting(s, id, amount), id, repaid)
      else Ok(Crediting(s, id, amount))
  }

  /** Ends a reservation. A payment to the pool has already arrived as tokens. */
  ghost function SettleEscrow(s: State, id: nat, amount: int, payPool: bool): Outcome {
    if id !in s.pending then Err(EscrowNotFound)
    else if amount != s.pending[id] || amount <= 0 then Err(InvalidAmount)
    else if !payPool then Ok(s.(pending := s.pending - {id}))
    else
      var paid :- SettleToPool(s, id, amount);
      Ok(paid.(pending := s.pending - {id}))
  }

  // ── Runs ─────────────────────────────────────────────────────────────────────

  datatype Call =
    | MintCall(id: nat, amount: int, dueDate: nat, sme: Address)
    | ListCall(id: nat)
    | FreezeCall(id: nat, frozen: bool)
    | ReleaseCall(id: nat, token: Token)
    | RecordCall(id: nat, investor: Address, contributed: int, totalPool: int)
    | RepayCall(id: nat, amount: int, approved: bool)
    | NetSettleCall(payer: Address, ids: seq<nat>, token: Token, amount: int)
    | ScheduleCall(id: nat, schedule: Schedule)
    | DefaultCall(id: nat)
    | ProposeEarlyCall(sme: Address, id: nat, amount: int)
    | AcceptEarlyCall(investor: Address, id: nat)
    | CancelEarlyCall(sme: Address, id: nat)
    | ReserveCall(id: nat, amount: int)
    | SettleCall(id: nat, amount: int, payPool: bool)

  // Minting, listing and freezing happen in the NFT contract.

  function Mint(s: State, id: nat, amount: int, dueDate: nat, sme: Address): Outcome {
    if id in s.nft then Err(StatusRefused)
      else Ok(s.(nft := s.nft[id := Invoice(Created, amount, dueDate, sme, false)]))
  }

  function List(s: State, id: nat): Outcome {
    if id !in s.nft then Err(InvoiceNotFound)
    else if SetListed(s.nft[id].status).Err? then Err(StatusRefused)
    else Ok(PutStatus(s, id, Listed))
  }

  function Freeze(s: State, id: nat, frozen: bool): Outcome {
    if id !in s.nft then Err(InvoiceNotFound) else Ok(s.(nft := s.nft[id := s.nft[id].(frozen := frozen)]))
  }

  ghost function Attempt(s: State, c: Call, env: Env): Outcome {
    match c
    case MintCall(id, amount, due, sme) => Mint(s, id, amount, due, sme)
    case ListCall(id) => List(s, id)
    case FreezeCall(id, frozen) => Freeze(s, id, frozen)
    case ReleaseCall(id, t) => ReleaseFunds(s, id, t, env)
    case RecordCall(id, investor, contributed, totalPool) => RecordPosition(s, id, investor, contributed, totalPool,
      env)
    case RepayCall(id, amount, approved) => Repay(s, id, amount, approved, env)
    case NetSettleCall(payer, ids, t, amount) => NetSettle(s, payer, ids, t, amount, env)
    case ScheduleCall(id, sc) => SetInstallmentSchedule(s, id, sc, env)
    case DefaultCall(id) => MarkDefault(s, id, env)
    case ProposeEarlyCall(sme, id, amount) => ProposeEarly(s, sme, id, amount, env)
    case AcceptEarlyCall(investor, id) => AcceptEarly(s, investor, id, env)
    case CancelEarlyCall(sme, id) => CancelEarly(s, sme, id)
    case ReserveCall(id, amount) => ReserveEscrow(s, id, amount, env)
    case SettleCall(id, amount, payPool) =>
      SettleEscrow(if payPool && id in s.pools then Receive(s, s.pools[id].token, amount) else s, id, amount, payPool)
  }

  ghost function Step(s: State, c: Call, env: Env): State {
    var r := Attempt(s, c, env);
    if r.Ok? then r.value else s
  }

  ghost function Run(s: State, calls: seq<(Call, Env)>): State
    decreases |calls|
  {
    if calls == [] then s
    else
      var n := |calls| - 1;
      Step(Run(s, calls[..n]), calls[n].0, calls[n].1)
  }

  const EMPTY := State(map[], map[], map[], map[], map[], map[], {}, Stats(0, 0, 0, 0), map[], map[], [])
}
