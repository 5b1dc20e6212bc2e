/** The storage-changing entry points of `dispute_escrow`, calling the pool as a second object. */
module DisputeEscrowContract {
  import opened Wrappers
  import opened Chain
  import opened FinancingPool
  import FinancingPoolContract
  import opened DisputeEscrow
  import D = DisputeEscrow

  class Escrow {
    const pool: FinancingPoolContract.Contract
    var disputes: map<nat, Dispute>
    var vault: map<Token, int>
    var released: seq<Release>

    ghost function View(): World
      reads this, pool
    {
      World(pool.storage, disputes, vault, released)
    }

    constructor (pool: FinancingPoolContract.Contract)
      ensures this.pool == pool && View() == World(pool.storage, map[], map[], [])
    {
      this.pool := pool;
      disputes, vault, released := map[], map[], [];
    }

    ghost predicate Tracks(spec: Verdict, r: Result<(), EscrowError>)
      reads this, pool
    {
      match spec
      case Ok(w) => r.Ok? && View() == w
      case Err(e) => r.Err? && SameFailure(e, r.error)
    }

    /** A payout that fails may report either of its two reasons. */
    static ghost predicate SameFailure(e: EscrowError, f: EscrowError) {
      f == e || (e.PoolRefused? && f.PoolRefused?
                 && FinancingPoolContract.Unpayable(e.reason) && FinancingPoolContract.Unpayable(f.reason))
    }

    method OpenDispute(challenger: Address, payer: Address, id: nat, amount: int, env: Env)
        returns (r: Result<(), EscrowError>)
      modifies this, pool
      ensures Tracks(D.OpenDispute(old(View()), challenger, payer, id, amount, env), r)
    {
      if amount <= 0 { return Err(EscrowError.InvalidAmount); }
      if id in disputes { return Err(AlreadyDisputed); }
      var terms := EscrowTerms(pool.storage, id);
      if terms.Err? { return Err(PoolRefused(terms.error)); }
      var (asset, sme, remaining) := terms.value;
      if payer != sme { return Err(EscrowError.Unauthorized); }
      if amount > remaining { return Err(EscrowError.InvalidAmount); }
      if challenger != sme && !HasPosition(pool.storage, id, challenger) { return Err(EscrowError.Unauthorized); }
      disputes := disputes[id := Dispute(challenger, payer, asset, amount, env.now, false, false)];
      var reserved := pool.ReserveEscrow(id, amount, env);
      if reserved.Err? { return Err(PoolRefused(reserved.error)); }
      vault := vault[asset := (if asset in vault then vault[asset] else 0) + amount];
      return Ok(());
    }

    method LoadOpen(id: nat) returns (r: Result<Dispute, EscrowError>)
      ensures r == if id !in disputes then Err(NotFound) else if disputes[id].resolved then Err(Resolved)
        else Ok(disputes[id])
    {
      if id !in disputes { return Err(NotFound); }
      if disputes[id].resolved { return Err(Resolved); }
      return Ok(disputes[id]);
    }

    /** The escrow's own writes: the dispute is resolved and its amount leaves the vault. */
    method SendAmount(id: nat, payPool: bool) returns (sent: bool)
      requires id in disputes
      modifies this
      ensures sent <==> old(Vault(View(), disputes[id].token) >= disputes[id].amount)
      ensures sent ==> View() == Releasing(old(View()), id, payPool)
    {
      var d := disputes[id];
      var balance := if d.token in vault then vault[d.token] else 0;
      if balance < d.amount { return false; }
      disputes := disputes[id := d.(resolved := true, paidToPool := payPool)];
      vault := vault[d.token := balance - d.amount];
      released := released + [Release(id, d.token, d.amount, payPool)];
      return true;
    }

    /** The pool receives the amount, if it is for the pool, and ends the reservation. */
    method CallHook(id: nat, t: Token, amount: int, payPool: bool) returns (r: Result<(), EscrowError>)
      modifies pool
      ensures match SettleEscrow(
          if payPool then Receive(old(pool.storage), t, amount) else old(pool.storage), id, amount, payPool)
        case Ok(s) => r.Ok? && pool.storage == s
        case Err(e) => r.Err? && SameFailure(PoolRefused(e), r.error)
    {
      if payPool {
        ghost var before := pool.storage;
        pool.TakeIn(t, amount);
        assert pool.storage == Receive(before, t, amount);
      }
      var settled := pool.SettleEscrow(id, amount, payPool);
      if settled.Err? { return Err(PoolRefused(settled.error)); }
      return Ok(());
    }

    /** Resolves the dispute, sends its amount to one of the two sides, and ends the reservation. */
    method Settle(id: nat, payPool: bool) returns (r: Result<(), EscrowError>)
      requires id in disputes
      modifies this, pool
      ensures Tracks(D.Settle(old(View()), id, payPool), r)
    {
      var d := disputes[id];
      var sent := SendAmount(id, payPool);
      if !sent { return Err(TransferFailed); }
      r := CallHook(id, d.token, d.amount, payPool);
    }

    method ResolveDispute(byAdmin: bool, id: nat, payPool: bool, env: Env) returns (r: Result<(), EscrowError>)
      modifies this, pool
      ensures Tracks(D.ResolveDispute(old(View()), byAdmin, id, payPool, env), r)
    {
      if !byAdmin { return Err(EscrowError.Unauthorized); }
      var dispute :- LoadOpen(id);
      if env.now >= Deadline(dispute) { return Err(TimeoutExpired); }
      r := Settle(id, payPool);
    }

    method ResolveTimeout(id: nat, env: Env) returns (r: Result<(), EscrowError>)
      modifies this, pool
      ensures Tracks(D.ResolveTimeout(old(View()), id, env), r)
    {
      var dispute :- LoadOpen(id);
      if env.now < Deadline(dispute) { return Err(TimeoutNotReached); }
      r := Settle(id, false);
    }

    method Dispatch(m: Move, env: Env) returns (r: Result<(), EscrowError>)
      requires !m.PoolMove?
      modifies this, pool
      ensures Tracks(Try(old(View()), m, env), r)
    {
      match m
      case OpenMove(challenger, payer, id, amount) => r := OpenDispute(challenger, payer, id, amount, env);
      case ResolveMove(byAdmin, id, payPool) => r := ResolveDispute(byAdmin, id, payPool, env);
      case TimeoutMove(id) => r := ResolveTimeout(id, env);
    }

    /** One transaction on the escrow: on an error the host discards the writes of both contracts. */
    method Invoke(m: Move, env: Env) returns (r: Result<(), EscrowError>)
      requires !m.PoolMove?
      modifies this, pool
      ensures View() == Make(old(View()), m, env)
      ensures r.Ok? <==> Try(old(View()), m, env).Ok?
    {
      var savedPool, savedDisputes, savedVault, savedReleased := pool.storage, disputes, vault, released;
      r := Dispatch(m, env);
      if r.Err? {
        pool.storage := savedPool;
        disputes, vault, released := savedDisputes, savedVault, savedReleased;
      }
    }
  }
}
