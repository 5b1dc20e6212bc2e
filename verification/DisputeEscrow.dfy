/** `dispute_escrow`: a second contract that holds disputed repayments and reserves them at the pool. */
module DisputeEscrow {
  import opened Wrappers
  import opened Chain
  import opened FinancingPool

  const DISPUTE_TIMEOUT: nat := 7 * 86_400

  datatype EscrowError =
    | Unauthorized | InvalidAmount | AlreadyDisputed | NotFound | Resolved | TimeoutNotReached | TimeoutExpired
    | TransferFailed | PoolRefused(reason: PoolError)

  datatype Dispute = Dispute(
    challenger: Address, payer: Address, token: Token, amount: int, openedAt: nat, resolved: bool, paidToPool: bool)

  /** One transfer out of the escrow. */
  datatype Release = Release(invoice: nat, token: Token, amount: int, toPool: bool)

  /** Both contracts: the pool's storage, and the escrow's disputes, token balances and outgoing transfers. */
  datatype World = World(pool: State, disputes: map<nat, Dispute>, vault: map<Token, int>, released: seq<Release>)

  type Verdict = Result<World, EscrowError>

  function Vault(w: World, t: Token): int { if t in w.vault then w.vault[t] else 0 }

  function Deadline(d: Dispute): nat {
    if d.openedAt + DISPUTE_TIMEOUT > U64_MAX then U64_MAX else d.openedAt + DISPUTE_TIMEOUT
  }

  predicate HasPosition(s: State, id: nat, investor: Address) {
    investor in PositionsOf(s, id) && PositionsOf(s, id)[investor].contributed > 0
  }

  function OpenDispute(w: World, challenger: Address, payer: Address, id: nat, amount: int, env: Env): Verdict {
    if amount <= 0 then Err(EscrowError.InvalidAmount)
    else if id in w.disputes then Err(AlreadyDisputed)
    else
      match EscrowTerms(w.pool, id)
      case Err(e) => Err(PoolRefused(e))
      case Ok((t, sme, remaining)) =>
        if payer != sme then Err(EscrowError.Unauthorized)
        else if amount > remaining then Err(EscrowError.InvalidAmount)
        else if challenger != sme && !HasPosition(w.pool, id, challenger) then Err(EscrowError.Unauthorized)
        else
          match ReserveEscrow(w.pool, id, amount, env)
          case Err(e) => Err(PoolRefused(e))
          case Ok(pool) =>
            Ok(w.(pool := pool, vault := w.vault[t := Vault(w, t) + amount],
                  disputes := w.disputes[id := Dispute(challenger, payer, t, amount, env.now, false, false)]))
  }

  /** The escrow's own part of a settlement: the dispute is resolved and its amount leaves the vault. */
  function Releasing(w: World, id: nat, payPool: bool): World
    requires id in w.disputes
  {
    var d := w.disputes[id];
    w.(disputes := w.disputes[id := d.(resolved := true, paidToPool := payPool)],
       vault := w.vault[d.token := Vault(w, d.token) - d.amount],
       released := w.released + [Release(id, d.token, d.amount, payPool)])
  }

  ghost function Settle(w: World, id: nat, payPool: bool): Verdict
    requires id in w.disputes
  {
    var d := w.disputes[id];
    if Vault(w, d.token) < d.amount then Err(TransferFailed)
    else
      match SettleEscrow(if payPool then Receive(w.pool, d.token, d.amount) else w.pool, id, d.amount, payPool)
      case Err(e) => Err(PoolRefused(e))
      case Ok(pool) => Ok(Releasing(w, id, payPool).(pool := pool))
  }

  /** `byAdmin` says that the configured admin signed. */
  ghost function ResolveDispute(w: World, byAdmin: bool, id: nat, payPool: bool, env: Env): Verdict {
    if !byAdmin then Err(EscrowError.Unauthorized)
    else if id !in w.disputes then Err(NotFound)
    else if w.disputes[id].resolved then Err(Resolved)
    else if env.now >= Deadline(w.disputes[id]) then Err(TimeoutExpired)
    else Settle(w, id, payPool)
  }

  ghost function ResolveTimeout(w: World, id: nat, env: Env): Verdict {
    if id !in w.disputes then Err(NotFound)
    else if w.disputes[id].resolved then Err(Resolved)
    else if env.now < Deadline(w.disputes[id]) then Err(TimeoutNotReached)
    else Settle(w, id, false)
  }

  // ── Runs of both contracts ───────────────────────────────────────────────────

  datatype Move =
    | PoolMove(call: Call)
    | OpenMove(challenger: Address, payer: Address, id: nat, amount: int)
    | ResolveMove(byAdmin: bool, id: nat, payPool: bool)
    | TimeoutMove(id: nat)

  /** Only the escrow may call the pool's hooks. */
  predicate Permitted(m: Move) { m.PoolMove? ==> !m.call.ReserveCall? && !m.call.SettleCall? }

  ghost function Try(w: World, m: Move, env: Env): Verdict {
    match m
    case PoolMove(c) =>
      (match Attempt(w.pool, c, env)
       case Err(e) => Err(PoolRefused(e))
       case Ok(pool) => Ok(w.(pool := pool)))
    case OpenMove(challenger, payer, id, amount) => OpenDispute(w, challenger, payer, id, amount, env)
    case ResolveMove(byAdmin, id, payPool) => ResolveDispute(w, byAdmin, id, payPool, env)
    case TimeoutMove(id) => ResolveTimeout(w, id, env)
  }

  ghost function Make(w: World, m: Move, env: Env): World {
    var r := Try(w, m, env);
    if r.Ok? then r.value else w
  }

  ghost function Play(w: World, moves: seq<(Move, Env)>): World
    decreases |moves|
  {
    if moves == [] then w
    else
      var n := |moves| - 1;
      Make(Play(w, moves[..n]), moves[n].0, moves[n].1)
  }

  const NEW_WORLD := World(EMPTY, map[], map[], [])
}

/** The reservation of a disputed amount stays honourable, over every run of both contracts. */
module EscrowSafety {
  import opened Wrappers
  import opened Chain
  import opened MapSum
  import opened FinancingPool
  import opened PoolInvariants
  import opened PoolSteps
  import opened PoolSafety
  import opened Netting
  import opened PoolNetting
  import opened PoolFrames
  import opened PoolRuns
  import opened DisputeEscrow

  // ── The joint invariant ──────────────────────────────────────────────────────

  predicate Open(w: World, id: nat) { id in w.disputes && !w.disputes[id].resolved }

  /** The pool has a reservation exactly for an unresolved dispute, of the same amount and token. */
  ghost predicate Reserved(w: World, id: nat) {
    && (id in w.pool.pending <==> Open(w, id))
    && (Open(w, id) ==>
          && w.pool.pending[id] == w.disputes[id].amount > 0
          && id in w.pool.pools && w.disputes[id].token == w.pool.pools[id].token)
  }

  /** Amounts of the unresolved disputes in one token. */
  ghost function Unresolved(w: World, t: Token): map<nat, int> {
    map id | id in w.disputes && !w.disputes[id].resolved && w.disputes[id].token == t :: w.disputes[id].amount
  }

  /** A resolved dispute was released once, with its own token and amount and to the side decided for. */
  ghost predicate ReleasedOnce(w: World) {
    && (forall i, j :: 0 <= i < j < |w.released| ==> w.released[i].invoice != w.released[j].invoice)
    && (forall i :: 0 <= i < |w.released| ==> Honours(w, w.released[i]))
    && (forall id :: id in w.disputes && w.disputes[id].resolved ==> WasReleased(w, id))
  }

  ghost predicate Honours(w: World, r: Release) {
    && r.invoice in w.disputes && w.disputes[r.invoice].resolved
    && r == Release(r.invoice, w.disputes[r.invoice].token, w.disputes[r.invoice].amount,
      w.disputes[r.invoice].paidToPool)
  }

  ghost predicate WasReleased(w: World, id: nat) { exists i :: 0 <= i < |w.released| && w.released[i].invoice == id }

  ghost predicate Covers(w: World, t: Token) { Vault(w, t) == Total(Unresolved(w, t)) }

  ghost predicate EscrowSound(w: World) {
    && (forall id: nat {:trigger Reserved(w, id)} :: Reserved(w, id))
    && (forall t {:trigger Covers(w, t)} :: Covers(w, t))
    && ReleasedOnce(w)
  }

  ghost predicate Solvent(s: State) { forall t :: Slack(s, t) >= 0 }

  ghost predicate WorldSound(w: World) { Sound(w.pool) && Solvent(w.pool) && EscrowSound(w) }

  // ── What the pool's own calls leave alone ────────────────────────────────────

  /** Reservations, tokens, and every pool that has a reservation. */
  ghost predicate Keeps(s: State, r: State) {
    && r.pending == s.pending
    && forall id {:trigger r.pools[id]} {:trigger id in r.pools} :: id in s.pools ==>
         && id in r.pools && r.pools[id].token == s.pools[id].token
         && (id in s.pending ==> r.pools[id] == s.pools[id])
  }

  lemma PayOutKeeps(s: State, id: nat, total: int)
    requires id in s.pools && PayOut(s, id, total).Ok?
    ensures PayOut(s, id, total).value.pools == s.pools && PayOut(s, id, total).value.pending == s.pending
  {
  }

  lemma RepayKeeps(s: State, id: nat, amount: int, env: Env)
    requires RepayInternal(s, id, amount, env).Ok?
    ensures Keeps(s, RepayInternal(s, id, amount, env).value)
  {
    var m := Repaying(s, id, amount, env).value;
    if m.pools[id].closed { PayOutKeeps(m, id, m.pools[id].repaid); }
  }

  lemma AcceptKeeps(s: State, investor: Address, id: nat, env: Env)
    requires AcceptEarly(s, investor, id, env).Ok?
    ensures Keeps(s, AcceptEarly(s, investor, id, env).value)
  {
    var o := s.offers[id];
    if o.acceptedBps + PositionsOf(s, id)[investor].shareBps >= 10_000 { PayOutKeeps(Accepted(s, id), id, o.amount); }
  }

  lemma DefaultKeeps(s: State, id: nat, env: Env)
    requires MarkDefault(s, id, env).Ok?
    ensures Keeps(s, MarkDefault(s, id, env).value)
  {
    DefaultShape(s, id, env);
    assert DefaultPayout(s, id).value.pools == Marked(s, id).pools;
  }

  lemma AppliedKeeps(s: State, r: State, ids: seq<nat>, allocs: seq<int>, now: nat, t: Token, id: nat)
    requires |ids| == |allocs| && AllNettable(s, ids, t) && AllStored(s, ids) && Applied(s, r, ids, allocs, |ids|, now)
    requires id in s.pools
    ensures id in r.pools && r.pools[id].token == s.pools[id].token && (id in s.pending ==> r.pools[id] == s.pools[id])
  {
    assert ids[..|ids|] == ids;
    if id in ids {
      var i :| 0 <= i < |ids| && ids[i] == id;
      assert Nettable(s, ids[i], t);
      assert NettedAt(s, ids[i], allocs[i], now) == Some(r.pools[ids[i]]);
    }
  }

  lemma NetSettleKeeps(s: State, payer: Address, ids: seq<nat>, t: Token, amount: int, env: Env)
    requires NoDuplicates(ids) && NetSettle(s, payer, ids, t, amount, env).Ok?
    ensures Keeps(s, NetSettle(s, payer, ids, t, amount, env).value)
  {
    NetSettleMoney(s, payer, ids, t, amount, env);
    NetSettleEffect(s, payer, ids, t, amount, env);
    var r := NetSettle(s, payer, ids, t, amount, env).value;
    var allocs := Allocations(Preflight(s, payer, ids, |ids|, t).value, amount);
    forall id | id in s.pools
      ensures id in r.pools && r.pools[id].token == s.pools[id].token
        && (id in s.pending ==> r.pools[id] == s.pools[id])
    {
      AppliedKeeps(s, s.(pools := r.pools), ids, allocs, env.now, t, id);
    }
  }

  lemma OtherCallsKeep(s: State, c: Call, env: Env)
    requires c.MintCall? || c.ListCall? || c.FreezeCall? || c.ReleaseCall? || c.RecordCall? || c.ScheduleCall?
      || c.ProposeEarlyCall? || c.CancelEarlyCall?
    requires Attempt(s, c, env).Ok?
    ensures Keeps(s, Attempt(s, c, env).value)
  {
  }

  lemma PoolCallKeeps(s: State, c: Call, env: Env)
    requires Disciplined(s, c, env) && !c.ReserveCall? && !c.SettleCall? && Attempt(s, c, env).Ok?
    ensures Keeps(s, Attempt(s, c, env).value)
  {
    match c
    case RepayCall(id, amount, approved) => RepayKeeps(s, id, amount, env);
    case NetSettleCall(payer, ids, t, amount) => NetSettleKeeps(s, payer, ids, t, amount, env);
    case DefaultCall(id) => DefaultKeeps(s, id, env);
    case AcceptEarlyCall(investor, id) => AcceptKeeps(s, investor, id, env);
    case _ => OtherCallsKeep(s, c, env);
  }

  // ── Each move keeps the joint invariant ──────────────────────────────────────

  lemma PoolMoveSound(w: World, c: Call, env: Env)
    requires WorldSound(w) && Permitted(PoolMove(c)) && Disciplined(w.pool, c, env)
    ensures WorldSound(Make(w, PoolMove(c), env))
  {
    var w' := Make(w, PoolMove(c), env);
    StepSound(w.pool, c, env);
    if Attempt(w.pool, c, env).Ok? {
      PoolCallKeeps(w.pool, c, env);
      KeepsReserved(w, w'.pool);
    }
  }

  /** The escrow's side only looks at reservations and tokens. */
  lemma KeepsReserved(w: World, pool: State)
    requires EscrowSound(w) && Keeps(w.pool, pool)
    ensures EscrowSound(w.(pool := pool))
  {
    var w' := w.(pool := pool);
    forall id: nat ensures Reserved(w', id) { assert Reserved(w, id); }
    forall t ensures Covers(w', t) {
      assert Covers(w, t);
      assert Unresolved(w', t) == Unresolved(w, t);
    }
    forall i | 0 <= i < |w.released| ensures Honours(w', w.released[i]) { assert Honours(w, w.released[i]); }
    forall id | id in w.disputes && w.disputes[id].resolved ensures WasReleased(w', id) { assert WasReleased(w, id); }
  }

  lemma OpenShape(w: World, challenger: Address, payer: Address, id: nat, amount: int, env: Env)
    requires OpenDispute(w, challenger, payer, id, amount, env).Ok?
    ensures id !in w.disputes && id in w.pool.pools && amount > 0 && id !in w.pool.pending
    ensures ReserveEscrow(w.pool, id, amount, env) == Ok(w.pool.(pending := w.pool.pending[id := amount]))
    ensures var t := w.pool.pools[id].token;
      OpenDispute(w, challenger, payer, id, amount, env).value
      == w.(pool := w.pool.(pending := w.pool.pending[id := amount]), vault := w.vault[t := Vault(w, t) + amount],
            disputes := w.disputes[id := Dispute(challenger, payer, t, amount, env.now, false, false)])
  {
  }

  lemma OpenCovers(w: World, id: nat, d: Dispute, t: Token)
    requires id !in w.disputes && !d.resolved && Covers(w, t) && Covers(w, d.token)
    ensures var w' := w.(vault := w.vault[d.token := Vault(w, d.token) + d.amount], disputes := w.disputes[id := d]);
      Covers(w', t)
  {
    var w' := w.(vault := w.vault[d.token := Vault(w, d.token) + d.amount], disputes := w.disputes[id := d]);
    if t == d.token {
      assert Unresolved(w', t) == Unresolved(w, t)[id := d.amount];
      TotalUpdate(Unresolved(w, t), id, d.amount);
    } else {
      assert Unresolved(w', t) == Unresolved(w, t);
    }
  }

  lemma OpenedEscrow(w: World, id: nat, d: Dispute)
    requires EscrowSound(w) && id !in w.disputes && !d.resolved && d.amount > 0
    requires id in w.pool.pools && d.token == w.pool.pools[id].token
    ensures EscrowSound(w.(pool := w.pool.(pending := w.pool.pending[id := d.amount]),
                           vault := w.vault[d.token := Vault(w, d.token) + d.amount], disputes := w.disputes[id := d]))
  {
    var w1 := w.(vault := w.vault[d.token := Vault(w, d.token) + d.amount], disputes := w.disputes[id := d]);
    var w' := w1.(pool := w.pool.(pending := w.pool.pending[id := d.amount]));
    forall j: nat ensures Reserved(w', j) { assert Reserved(w, j); }
    forall t ensures Covers(w', t) {
      assert Covers(w, t) && Covers(w, d.token);
      OpenCovers(w, id, d, t);
      assert Covers(w1, t);
      assert Unresolved(w', t) == Unresolved(w1, t);
    }
    forall i | 0 <= i < |w.released| ensures Honours(w', w.released[i]) { assert Honours(w, w.released[i]); }
    forall j | j in w'.disputes && w'.disputes[j].resolved ensures WasReleased(w', j) { assert WasReleased(w, j); }
  }

  lemma OpenMoveSound(w: World, challenger: Address, payer: Address, id: nat, amount: int, env: Env)
    requires WorldSound(w) && ValidEnv(env) && OpenDispute(w, challenger, payer, id, amount, env).Ok?
    ensures WorldSound(OpenDispute(w, challenger, payer, id, amount, env).value)
  {
    OpenShape(w, challenger, payer, id, amount, env);
    StepSound(w.pool, ReserveCall(id, amount), env);
    OpenedEscrow(w, id, Dispute(challenger, payer, w.pool.pools[id].token, amount, env.now, false, false));
  }

  // ── Settling ─────────────────────────────────────────────────────────────────

  lemma SettleToPoolKeeps(s: State, id: nat, amount: int)
    requires SettleToPool(s, id, amount).Ok?
    ensures id in s.pools && SettleToPool(s, id, amount).value.pools == Crediting(s, id, amount).pools
  {
    SettleToPoolShape(s, id, amount);
    var m := Crediting(s, id, amount);
    if m.pools[id].closed { PayOutMoney(m, id, s.pools[id].repaid + amount); }
  }

  /** What the pool's hook does to reservations and tokens. */
  lemma SettleHookKeeps(s: State, id: nat, amount: int, payPool: bool)
    requires SettleEscrow(s, id, amount, payPool).Ok?
    ensures var r := SettleEscrow(s, id, amount, payPool).value;
      && r.pending == s.pending - {id}
      && forall j :: j in s.pools ==> j in r.pools && r.pools[j].token == s.pools[j].token
  {
    if payPool { SettleToPoolKeeps(s, id, amount); }
  }

  /** The hook as the pool's own run sees it. */
  lemma SettleIsCall(w: World, id: nat, payPool: bool, env: Env)
    requires Reserved(w, id) && Open(w, id)
    ensures var d := w.disputes[id];
      SettleEscrow(if payPool then Receive(w.pool, d.token, d.amount) else w.pool, id, d.amount, payPool)
      == Attempt(w.pool, SettleCall(id, d.amount, payPool), env)
  {
  }

  lemma SettleCovers(w: World, id: nat, payPool: bool, t: Token)
    requires Open(w, id) && Covers(w, t) && Covers(w, w.disputes[id].token)
    ensures Covers(Releasing(w, id, payPool), t)
  {
    var d, w' := w.disputes[id], Releasing(w, id, payPool);
    if t == d.token {
      TotalRemove(Unresolved(w, t), id);
      assert Unresolved(w', t) == Unresolved(w, t) - {id};
    } else {
      assert Unresolved(w', t) == Unresolved(w, t);
    }
  }

  lemma ReleasesOnce(w: World, id: nat, payPool: bool)
    requires ReleasedOnce(w) && Open(w, id)
    ensures ReleasedOnce(Releasing(w, id, payPool))
  {
    var w' := Releasing(w, id, payPool);
    var n := |w.released|;
    forall i | 0 <= i < n ensures Honours(w', w'.released[i]) && w'.released[i].invoice != id {
      assert Honours(w, w.released[i]);
    }
    assert Honours(w', w'.released[n]);
    forall j | j in w'.disputes && w'.disputes[j].resolved ensures WasReleased(w', j) {
      if j == id {
        assert w'.released[n].invoice == id;
      } else {
        assert WasReleased(w, j);
        var i :| 0 <= i < n && w.released[i].invoice == j;
        assert w'.released[i].invoice == j;
      }
    }
  }

  lemma SettledEscrow(w: World, id: nat, payPool: bool, pool: State)
    requires EscrowSound(w) && Open(w, id)
    requires pool.pending == w.pool.pending - {id}
    requires forall j :: j in w.pool.pools ==> j in pool.pools && pool.pools[j].token == w.pool.pools[j].token
    ensures EscrowSound(Releasing(w, id, payPool).(pool := pool))
  {
    var w1 := Releasing(w, id, payPool);
    var w' := w1.(pool := pool);
    forall j: nat ensures Reserved(w', j) { assert Reserved(w, j); }
    forall t ensures Covers(w', t) {
      assert Covers(w, t) && Covers(w, w.disputes[id].token);
      SettleCovers(w, id, payPool, t);
      assert Unresolved(w', t) == Unresolved(w1, t);
    }
    ReleasesOnce(w, id, payPool);
    forall i | 0 <= i < |w1.released| ensures Honours(w', w1.released[i]) { assert Honours(w1, w1.released[i]); }
    forall j | j in w1.disputes && w1.disputes[j].resolved ensures WasReleased(w', j) { assert WasReleased(w1, j); }
  }

  lemma SettleSound(w: World, id: nat, payPool: bool, env: Env)
    requires WorldSound(w) && ValidEnv(env) && Open(w, id) && Settle(w, id, payPool).Ok?
    ensures WorldSound(Settle(w, id, payPool).value)
  {
    assert Reserved(w, id);
    var d := w.disputes[id];
    var s0 := if payPool then Receive(w.pool, d.token, d.amount) else w.pool;
    SettleIsCall(w, id, payPool, env);
    StepSound(w.pool, SettleCall(id, d.amount, payPool), env);
    SettleHookKeeps(s0, id, d.amount, payPool);
    SettledEscrow(w, id, payPool, SettleEscrow(s0, id, d.amount, payPool).value);
  }

  // ── Runs ─────────────────────────────────────────────────────────────────────

  ghost predicate FairMove(w: World, m: Move, env: Env) {
    Permitted(m) && ValidEnv(env) && (m.PoolMove? ==> Disciplined(w.pool, m.call, env))
  }

  ghost predicate FairPlay(w: World, moves: seq<(Move, Env)>)
    decreases |moves|
  {
    moves != [] ==>
      var n := |moves| - 1;
      FairPlay(w, moves[..n]) && FairMove(Play(w, moves[..n]), moves[n].0, moves[n].1)
  }

  lemma MoveSound(w: World, m: Move, env: Env)
    requires WorldSound(w) && FairMove(w, m, env)
    ensures WorldSound(Make(w, m, env))
  {
    match m
    case PoolMove(c) => PoolMoveSound(w, c, env);
    case OpenMove(challenger, payer, id, amount) =>
      if Try(w, m, env).Ok? { OpenMoveSound(w, challenger, payer, id, amount, env); }
    case ResolveMove(byAdmin, id, payPool) =>
      if Try(w, m, env).Ok? { SettleSound(w, id, payPool, env); }
    case TimeoutMove(id) =>
      if Try(w, m, env).Ok? { SettleSound(w, id, false, env); }
  }

  lemma NewWorldSound()
    ensures WorldSound(NEW_WORLD)
  {
    EmptySound();
    forall id: nat ensures Reserved(NEW_WORLD, id) {}
    forall t ensures Covers(NEW_WORLD, t) { assert Unresolved(NEW_WORLD, t) == map[]; }
  }

  lemma {:induction false} PlaySound(moves: seq<(Move, Env)>)
    requires FairPlay(NEW_WORLD, moves)
    ensures WorldSound(Play(NEW_WORLD, moves))
    decreases |moves|
  {
    NewWorldSound();
    if moves != [] {
      var n := |moves| - 1;
      PlaySound(moves[..n]);
      MoveSound(Play(NEW_WORLD, moves[..n]), moves[n].0, moves[n].1);
    }
  }

  // ── The theorems ─────────────────────────────────────────────────────────────

  /** In every reachable joint state the pool has a reservation exactly for each unresolved dispute, of its
      amount and token, the amount fits into what the pool is still owed, and the escrow holds exactly the
      unresolved amounts. */
  lemma ReservationHonourable(moves: seq<(Move, Env)>, id: nat, t: Token)
    requires FairPlay(NEW_WORLD, moves)
    ensures var w := Play(NEW_WORLD, moves);
      && (id in w.pool.pending <==> Open(w, id))
      && (Open(w, id) ==>
            && id in w.pool.pools && !w.pool.pools[id].closed
            && w.pool.pending[id] == w.disputes[id].amount
            && 0 < w.disputes[id].amount <= w.pool.pools[id].totalOwed - w.pool.pools[id].repaid
            && w.disputes[id].token == w.pool.pools[id].token)
      && Vault(w, t) == Total(Unresolved(w, t))
  {
    PlaySound(moves);
    var w := Play(NEW_WORLD, moves);
    assert Reserved(w, id) && Covers(w, t);
    SoundAt(w.pool, id);
  }

  /** While a dispute is unresolved, no call of the pool's own touches the pool it is about. */
  lemma PendingPoolIsFrozen(w: World, c: Call, env: Env, r: State, id: nat)
    requires WorldSound(w) && Open(w, id) && Permitted(PoolMove(c)) && Disciplined(w.pool, c, env)
    requires Attempt(w.pool, c, env) == Ok(r)
    ensures id in w.pool.pools && id in r.pools && r.pools[id] == w.pool.pools[id]
    ensures r.pending == w.pool.pending && id in r.pending
  {
    assert Reserved(w, id);
    PoolCallKeeps(w.pool, c, env);
  }

  /** Over a whole run each dispute is paid out at most once, with its own amount and to the side it was
      decided for, and exactly the resolved ones have been. */
  lemma ReleasedExactlyOnce(moves: seq<(Move, Env)>, id: nat)
    requires FairPlay(NEW_WORLD, moves)
    ensures var w := Play(NEW_WORLD, moves);
      && (id in w.disputes ==>
        (w.disputes[id].resolved <==> exists i :: 0 <= i < |w.released| && w.released[i].invoice == id))
      && (forall i, j :: 0 <= i < j < |w.released| ==> w.released[i].invoice != w.released[j].invoice)
      && (forall i :: 0 <= i < |w.released| && w.released[i].invoice == id ==>
            id in w.disputes
              && w.released[i] == Release(id, w.disputes[id].token, w.disputes[id].amount, w.disputes[id].paidToPool))
  {
    PlaySound(moves);
    var w := Play(NEW_WORLD, moves);
    if id in w.disputes && w.disputes[id].resolved { assert WasReleased(w, id); }
    forall i | 0 <= i < |w.released| && w.released[i].invoice == id
      ensures Honours(w, w.released[i])
    {
    }
  }
}
