/** What an executed proposal does: each action changes what it names and nothing else, alone and inside a batch; and a
    pause holds until an unpause is executed. */
module ExecutedActions {
  import opened Wrappers
  import opened Chain
  import opened AccessControl

  function RoleOf(s: State, a: Address): Option<Role> { if a in s.roles then Some(s.roles[a]) else None }

  /** Role 1 is the operator, role 2 the verifier. */
  predicate RoleNumber(role: nat, r: Role) { (role == 1 && r == Operator) || (role == 2 && r == Verifier) }

  /** Who holds which role after the action. */
  predicate RoleMoves(before: State, after: State, action: Action, a: Address) {
    match action
    case GrantRole(target, role) =>
      if a == target then RoleOf(after, a).Some? && RoleNumber(role, RoleOf(after, a).value)
      else RoleOf(after, a) == RoleOf(before, a)
    case RevokeRole(target) => RoleOf(after, a) == if a == target then None else RoleOf(before, a)
    case TransferAdmin(newAdmin) => RoleOf(after, a) == if a == newAdmin then Some(Admin) else RoleOf(before, a)
    case RotateAdmin(newAdmin) =>
      RoleOf(after, a)
      == if a == newAdmin then Some(Admin) else if a == before.admin then None else RoleOf(before, a)
    case _ => RoleOf(after, a) == RoleOf(before, a)
  }

  /** What the action does to pause flag, admin and roles; everything else but the proposals stays. */
  ghost predicate Effect(before: State, after: State, action: Action) {
    && (action.Pause? ==> after.paused) && (action.Unpause? ==> !after.paused)
    && (!action.Pause? && !action.Unpause? ==> after.paused == before.paused)
    && (if action.TransferAdmin? || action.RotateAdmin? then after.admin == action.newAdmin
        else after.admin == before.admin)
    && (forall a {:trigger RoleMoves(before, after, action, a)} :: RoleMoves(before, after, action, a))
    && (!action.RotateAdmin? ==> after.pendingRotation == before.pendingRotation)
    && (action.RotateAdmin? ==> !before.paused && action.newAdmin != before.admin)
    && SameGovernance(before, after)
  }

  lemma ActionTakesEffect(s: State, p: Proposal, currentAdmin: Address, now: nat, r: State)
    requires ApplyAction(s, p, currentAdmin, now) == Ok(r)
    ensures Effect(s, r, p.action) && r.proposals == s.proposals
    ensures p.action.GrantRole? ==> p.action.target != currentAdmin
  {
    forall a ensures RoleMoves(s, r, p.action, a) { ActionMovesRoles(s, p, currentAdmin, now, r, a); }
    ActionFrame(s, p, currentAdmin, now);
  }

  lemma RotationMovesRoles(s: State, newAdmin: Address, p: Proposal, now: nat, r: State, a: Address)
    requires Rotate(s, newAdmin, p, now) == Ok(r)
    ensures RoleMoves(s, r, RotateAdmin(newAdmin), a)
  {
  }

  lemma OtherMovesRoles(s: State, p: Proposal, currentAdmin: Address, now: nat, r: State, a: Address)
    requires ApplyAction(s, p, currentAdmin, now) == Ok(r) && !p.action.RotateAdmin?
    ensures RoleMoves(s, r, p.action, a)
  {
  }

  lemma ActionMovesRoles(s: State, p: Proposal, currentAdmin: Address, now: nat, r: State, a: Address)
    requires ApplyAction(s, p, currentAdmin, now) == Ok(r)
    ensures RoleMoves(s, r, p.action, a)
  {
    if p.action.RotateAdmin? {
      RotationMovesRoles(s, p.action.newAdmin, p, now, r, a);
    } else {
      OtherMovesRoles(s, p, currentAdmin, now, r, a);
    }
  }

  /** An execution that succeeds is by a signer, marks the proposal and does what it proposes. */
  lemma ExecutionTakesEffect(s: State, executor: Address, id: nat, now: nat, r: State)
    requires ExecuteAction(s, executor, id, now) == Ok(r)
    ensures s.config.Some? && executor in s.config.value.signers && id in s.proposals
    ensures Effect(s, r, s.proposals[id].action)
    ensures r.proposals == s.proposals[id := s.proposals[id].(executed := true)]
    ensures s.proposals[id].action.GrantRole? ==> s.proposals[id].action.target != s.admin
  {
    var p := s.proposals[id];
    ActionTakesEffect(MarkExecuted(s, id, p), p, s.admin, now, r);
    forall a ensures RoleMoves(s, r, p.action, a) { assert RoleMoves(MarkExecuted(s, id, p), r, p.action, a); }
  }

  // ── Batches ──────────────────────────────────────────────────────────────────

  /** The states a batch goes through, one for each element. */
  ghost predicate Trace(trace: seq<State>, actions: seq<Action>) {
    |trace| == |actions| + 1 && forall k :: 0 <= k < |actions| ==> Effect(trace[k], trace[k + 1], actions[k])
  }

  ghost function ActionsOf(s: State, ids: seq<nat>): seq<Action>
    requires forall i :: 0 <= i < |ids| ==> ids[i] in s.proposals
  {
    seq(|ids|, i requires 0 <= i < |ids| => s.proposals[ids[i]].action)
  }

  lemma ElementTakesEffect(s: State, ids: seq<nat>, batch: seq<Proposal>, now: nat, k: nat)
    requires k < |ids| == |batch| && ApplyBatch(s, ids, batch, s.admin, now).Ok?
    ensures ApplyBatch(s, ids[..k], batch[..k], s.admin, now).Ok?
    ensures ApplyBatch(s, ids[..k + 1], batch[..k + 1], s.admin, now).Ok?
    ensures Effect(ApplyBatch(s, ids[..k], batch[..k], s.admin, now).value,
                   ApplyBatch(s, ids[..k + 1], batch[..k + 1], s.admin, now).value, batch[k].action)
  {
    BatchPrefix(s, ids, batch, s.admin, now, k);
    BatchPrefix(s, ids, batch, s.admin, now, k + 1);
    assert ids[..k + 1][..k] == ids[..k] && batch[..k + 1][..k] == batch[..k];
    var before := ApplyBatch(s, ids[..k], batch[..k], s.admin, now).value;
    var after := ApplyBatch(s, ids[..k + 1], batch[..k + 1], s.admin, now).value;
    ActionTakesEffect(MarkExecuted(before, ids[k], batch[k]), batch[k], s.admin, now, after);
    forall a ensures RoleMoves(before, after, batch[k].action, a) {
      assert RoleMoves(MarkExecuted(before, ids[k], batch[k]), after, batch[k].action, a);
    }
  }

  /** A batch that succeeds does what its elements propose, in order. */
  lemma BatchTakesEffect(s: State, executor: Address, ids: seq<nat>, now: nat, r: State) returns (trace: seq<State>)
    requires ExecuteBatch(s, executor, ids, now) == Ok(r)
    ensures forall i :: 0 <= i < |ids| ==> ids[i] in s.proposals
    ensures Trace(trace, ActionsOf(s, ids)) && trace[0] == s && trace[|ids|] == r
  {
    var batch := CollectBatch(s, s.config.value, ids, now).value;
    CollectedMembers(s, s.config.value, ids, now);
    assert forall i :: 0 <= i < |ids| ==> Executable(s, s.config.value, ids[i], now) == Ok(batch[i]);
    forall k | 0 <= k <= |ids| ensures ApplyBatch(s, ids[..k], batch[..k], s.admin, now).Ok? {
      BatchPrefix(s, ids, batch, s.admin, now, k);
    }
    trace := seq(|ids| + 1, k requires 0 <= k <= |ids| => ApplyBatch(s, ids[..k], batch[..k], s.admin, now).value);
    forall k | 0 <= k < |ids| ensures Effect(trace[k], trace[k + 1], ActionsOf(s, ids)[k]) {
      ElementTakesEffect(s, ids, batch, now, k);
    }
    assert ids[..|ids|] == ids && batch[..|ids|] == batch;
  }

  /** The last pause or unpause decides. */
  function PausedAfter(actions: seq<Action>, paused: bool): bool
    decreases |actions|
  {
    if actions == [] then paused
    else
      var n := |actions| - 1;
      if actions[n].Pause? then true else if actions[n].Unpause? then false else PausedAfter(actions[..n], paused)
  }

  lemma {:induction false} TracePauses(trace: seq<State>, actions: seq<Action>)
    requires Trace(trace, actions)
    ensures trace[|actions|].paused == PausedAfter(actions, trace[0].paused)
    decreases |actions|
  {
    if actions != [] {
      var n := |actions| - 1;
      TracePauses(trace[..n + 1], actions[..n]);
      assert Effect(trace[n], trace[n + 1], actions[n]);
    }
  }

  lemma BatchPauses(s: State, executor: Address, ids: seq<nat>, now: nat, r: State)
    requires ExecuteBatch(s, executor, ids, now) == Ok(r)
    ensures forall i :: 0 <= i < |ids| ==> ids[i] in s.proposals
    ensures r.paused == PausedAfter(ActionsOf(s, ids), s.paused)
  {
    var trace := BatchTakesEffect(s, executor, ids, now, r);
    TracePauses(trace, ActionsOf(s, ids));
  }

  // ── A pause holds ────────────────────────────────────────────────────────────

  predicate Proposes(s: State, id: nat, action: Action) { id in s.proposals && s.proposals[id].action == action }

  /** The call executes an unpause. */
  ghost predicate Unpauses(s: State, c: Call, now: nat) {
    && Attempt(s, c, now).Ok?
    && ((c.ExecuteCall? && Proposes(s, c.id, Unpause))
        || (c.BatchCall? && exists i :: 0 <= i < |c.ids| && Proposes(s, c.ids[i], Unpause)))
  }

  lemma {:induction false} StaysPaused(actions: seq<Action>)
    requires forall i :: 0 <= i < |actions| ==> !actions[i].Unpause?
    ensures PausedAfter(actions, true)
    decreases |actions|
  {
    if actions != [] { StaysPaused(actions[..|actions| - 1]); }
  }

  lemma BatchStaysPaused(s: State, c: Call, now: nat)
    requires s.paused && c.BatchCall? && !Unpauses(s, c, now)
    ensures Step(s, c, now).paused
  {
    if Attempt(s, c, now).Ok? {
      BatchPauses(s, c.executor, c.ids, now, Attempt(s, c, now).value);
      forall i | 0 <= i < |c.ids| ensures !ActionsOf(s, c.ids)[i].Unpause? {
        assert !Proposes(s, c.ids[i], Unpause);
      }
      StaysPaused(ActionsOf(s, c.ids));
    }
  }

  lemma OtherStaysPaused(s: State, c: Call, now: nat)
    requires s.paused && !c.BatchCall? && !c.ExecuteCall?
    ensures Step(s, c, now).paused
  {
  }

  /** Nothing but an executed unpause lifts a pause. */
  lemma StepStaysPaused(s: State, c: Call, now: nat)
    requires s.paused && !Unpauses(s, c, now)
    ensures Step(s, c, now).paused
  {
    if c.BatchCall? {
      BatchStaysPaused(s, c, now);
    } else if c.ExecuteCall? {
      if Attempt(s, c, now).Ok? { ExecutionTakesEffect(s, c.executor, c.id, now, Attempt(s, c, now).value); }
    } else {
      OtherStaysPaused(s, c, now);
    }
  }

  ghost predicate NoUnpause(s: State, calls: seq<(Call, nat)>)
    decreases |calls|
  {
    calls != [] ==>
      var n := |calls| - 1;
      NoUnpause(s, calls[..n]) && !Unpauses(Run(s, calls[..n]), calls[n].0, calls[n].1)
  }

  lemma {:induction false} RunStaysPaused(s: State, calls: seq<(Call, nat)>)
    requires s.paused && NoUnpause(s, calls)
    ensures Run(s, calls).paused
    decreases |calls|
  {
    if calls != [] {
      var n := |calls| - 1;
      RunStaysPaused(s, calls[..n]);
      StepStaysPaused(Run(s, calls[..n]), calls[n].0, calls[n].1);
    }
  }

  /** The rotation has waited a day and not expired. */
  predicate Due(p: Proposal, now: nat) {
    p.createdAt + 86_400 <= now <= p.expiresAt && p.createdAt + 86_400 <= U64_MAX
  }

  lemma RotationRefusedWhilePaused(s: State, executor: Address, id: nat, now: nat)
    requires s.paused && id in s.proposals && s.proposals[id].action.RotateAdmin?
    ensures ExecuteAction(s, executor, id, now).Err?
    ensures SignedBy(s, executor).Ok? && Executable(s, s.config.value, id, now).Ok? && Due(s.proposals[id], now) ==>
      ExecuteAction(s, executor, id, now) == Err(AdminRotationWhilePaused)
  {
  }

  lemma BatchRotationRefused(s: State, executor: Address, ids: seq<nat>, now: nat, k: nat)
    requires s.paused && k < |ids| && ids[k] in s.proposals && s.proposals[ids[k]].action.RotateAdmin?
    requires forall i :: 0 <= i < k ==> !Proposes(s, ids[i], Unpause)
    ensures ExecuteBatch(s, executor, ids, now).Err?
  {
    if ExecuteBatch(s, executor, ids, now).Ok? {
      var r := ExecuteBatch(s, executor, ids, now).value;
      var trace := BatchTakesEffect(s, executor, ids, now, r);
      var actions := ActionsOf(s, ids);
      TracePauses(trace[..k + 1], actions[..k]);
      forall i | 0 <= i < k ensures !actions[..k][i].Unpause? { assert !Proposes(s, ids[i], Unpause); }
      RotatesUnpaused(trace, actions, k);
      StaysPaused(actions[..k]);
    }
  }

  lemma RotatesUnpaused(trace: seq<State>, actions: seq<Action>, k: nat)
    requires Trace(trace, actions) && k < |actions| && actions[k].RotateAdmin?
    ensures !trace[k].paused
  {
    assert Effect(trace[k], trace[k + 1], actions[k]);
  }

  /** After an executed pause, and until an unpause is executed, the protocol is paused and every admin rotation fails,
      for that reason when it is otherwise due. */
  lemma PauseBlocksRotations(s: State, pauser: Address, pause: nat, time: nat, s1: State, calls: seq<(Call, nat)>,
      executor: Address, id: nat, now: nat)
    requires ExecuteAction(s, pauser, pause, time) == Ok(s1) && s.proposals[pause].action.Pause? && NoUnpause(s1, calls)
    requires var w := Run(s1, calls); id in w.proposals && w.proposals[id].action.RotateAdmin?
    ensures var w := Run(s1, calls);
      && w.paused && ExecuteAction(w, executor, id, now).Err?
      && (SignedBy(w, executor).Ok? && Executable(w, w.config.value, id, now).Ok? && Due(w.proposals[id], now) ==>
            ExecuteAction(w, executor, id, now) == Err(AdminRotationWhilePaused))
  {
    ExecutionTakesEffect(s, pauser, pause, time, s1);
    RunStaysPaused(s1, calls);
    RotationRefusedWhilePaused(Run(s1, calls), executor, id, now);
  }

  // ── Where pauses, admins and roles come from ─────────────────────────────────

  /** The call executes a proposal with this action. */
  ghost predicate Executes(s: State, c: Call, now: nat, action: Action) {
    && Attempt(s, c, now).Ok?
    && ((c.ExecuteCall? && Proposes(s, c.id, action))
        || (c.BatchCall? && exists i :: 0 <= i < |c.ids| && Proposes(s, c.ids[i], action)))
  }

  lemma ElementExecutes(s: State, c: Call, now: nat, k: nat)
    requires c.BatchCall? && Attempt(s, c, now).Ok? && k < |c.ids|
    requires forall i :: 0 <= i < |c.ids| ==> c.ids[i] in s.proposals
    ensures Executes(s, c, now, ActionsOf(s, c.ids)[k])
  {
    assert Proposes(s, c.ids[k], ActionsOf(s, c.ids)[k]);
  }

  lemma {:induction false} PauseAmong(actions: seq<Action>) returns (k: nat)
    requires PausedAfter(actions, false)
    ensures k < |actions| && actions[k] == Pause
    decreases |actions|
  {
    k := |actions| - 1;
    if !actions[k].Pause? { k := PauseAmong(actions[..k]); }
  }

  /** Only a guardian or an executed pause stops the protocol. */
  lemma PauseComesFrom(s: State, c: Call, now: nat)
    requires !s.paused && Step(s, c, now).paused
    ensures (c.EmergencyPauseCall? && RoleOf(s, c.guardian) == Some(Guardian)) || Executes(s, c, now, Pause)
  {
    if c.ExecuteCall? {
      ExecutionTakesEffect(s, c.executor, c.id, now, Attempt(s, c, now).value);
    } else if c.BatchCall? {
      BatchPauses(s, c.executor, c.ids, now, Attempt(s, c, now).value);
      var k := PauseAmong(ActionsOf(s, c.ids));
      ElementExecutes(s, c, now, k);
    }
  }

  predicate Appoints(action: Action, a: Address) {
    (action.TransferAdmin? || action.RotateAdmin?) && action.newAdmin == a
  }

  lemma {:induction false} TraceAppoints(trace: seq<State>, actions: seq<Action>) returns (k: nat)
    requires Trace(trace, actions) && trace[|actions|].admin != trace[0].admin
    ensures k < |actions| && Appoints(actions[k], trace[|actions|].admin)
    decreases |actions|
  {
    k := |actions| - 1;
    assert Effect(trace[k], trace[k + 1], actions[k]);
    if trace[k].admin == trace[k + 1].admin && !Appoints(actions[k], trace[k + 1].admin) {
      assert Trace(trace[..k + 1], actions[..k]);
      k := TraceAppoints(trace[..k + 1], actions[..k]);
    }
  }

  /** Whoever becomes admin was named by an executed transfer or rotation. */
  lemma AdminComesFrom(s: State, c: Call, now: nat) returns (action: Action)
    requires Step(s, c, now).admin != s.admin
    ensures Executes(s, c, now, action) && Appoints(action, Step(s, c, now).admin)
  {
    if c.ExecuteCall? {
      ExecutionTakesEffect(s, c.executor, c.id, now, Attempt(s, c, now).value);
      action := s.proposals[c.id].action;
      assert Proposes(s, c.id, action);
    } else {
      assert c.BatchCall?;
      var r := Attempt(s, c, now).value;
      var trace := BatchTakesEffect(s, c.executor, c.ids, now, r);
      var k := TraceAppoints(trace, ActionsOf(s, c.ids));
      action := ActionsOf(s, c.ids)[k];
      ElementExecutes(s, c, now, k);
    }
  }

  /** The actions that can change somebody's role: those that name them, and a rotation for the admin it replaces. */
  predicate Touches(action: Action, a: Address) {
    match action
    case GrantRole(target, _) => target == a
    case RevokeRole(target) => target == a
    case TransferAdmin(newAdmin) => newAdmin == a
    case RotateAdmin(_) => true
    case _ => false
  }

  lemma {:induction false} TraceTouches(trace: seq<State>, actions: seq<Action>, a: Address) returns (k: nat)
    requires Trace(trace, actions) && RoleOf(trace[|actions|], a) != RoleOf(trace[0], a)
    ensures k < |actions| && Touches(actions[k], a)
    decreases |actions|
  {
    k := |actions| - 1;
    assert Effect(trace[k], trace[k + 1], actions[k]);
    assert RoleMoves(trace[k], trace[k + 1], actions[k], a);
    if !Touches(actions[k], a) {
      assert Trace(trace[..k + 1], actions[..k]);
      k := TraceTouches(trace[..k + 1], actions[..k], a);
    }
  }

  /** No role is gained or lost but by an executed action. */
  lemma RoleComesFrom(s: State, c: Call, now: nat, a: Address) returns (action: Action)
    requires RoleOf(Step(s, c, now), a) != RoleOf(s, a)
    ensures Executes(s, c, now, action) && Touches(action, a)
  {
    if c.ExecuteCall? {
      var r := Attempt(s, c, now).value;
      ExecutionTakesEffect(s, c.executor, c.id, now, r);
      action := s.proposals[c.id].action;
      assert RoleMoves(s, r, action, a) && Proposes(s, c.id, action);
    } else {
      assert c.BatchCall?;
      var trace := BatchTakesEffect(s, c.executor, c.ids, now, Attempt(s, c, now).value);
      var k := TraceTouches(trace, ActionsOf(s, c.ids), a);
      action := ActionsOf(s, c.ids)[k];
      ElementExecutes(s, c, now, k);
    }
  }
}
