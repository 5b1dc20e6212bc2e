/** The storage-changing entry points of `access_control`, each against its specification. */
module AccessControlContract {
  import opened Wrappers
  import opened Chain
  import opened AccessControl

  class Contract {
    const self: Address
    var admin: Address
    var paused: bool
    var roles: map<Address, Role>
    var config: Option<Config>
    var nextId: nat
    var proposals: map<nat, Proposal>
    var pendingRotation: Option<nat>
    var nextRecovery: nat
    var recoveries: map<nat, Recovery>
    var nextElection: nat
    var elections: map<nat, Election>

    function View(): State
      reads this
    {
      State(self, admin, paused, roles, config, nextId, proposals, pendingRotation,
            nextRecovery, recoveries, nextElection, elections)
    }

    constructor (self: Address, admin: Address)
      ensures View() == State(self, admin, false, map[admin := Role.Admin], None, 1, map[], None, 1, map[], 1, map[])
      ensures Sound(View())
    {
      this.self, this.admin, paused, roles, config := self, admin, false, map[admin := Role.Admin], None;
      nextId, proposals, pendingRotation := 1, map[], None;
      nextRecovery, recoveries, nextElection, elections := 1, map[], 1, map[];
    }

    /** The host discards the writes of a call that returns an error. */
    method RollBack(saved: State)
      requires saved.self == self
      modifies this
      ensures View() == saved
    {
      admin, paused, roles, config := saved.admin, saved.paused, saved.roles, saved.config;
      nextId, proposals, pendingRotation := saved.nextId, saved.proposals, saved.pendingRotation;
      nextRecovery, recoveries := saved.nextRecovery, saved.recoveries;
      nextElection, elections := saved.nextElection, saved.elections;
    }

    ghost predicate Commits(before: State, spec: Outcome, r: Result<(), AccessError>)
      reads this
    {
      if spec.Ok? then r == Ok(()) && View() == spec.value else r == Err(spec.error) && View() == before
    }

    static method RequireSigner(signers: seq<Address>, caller: Address) returns (r: Result<(), AccessError>)
      ensures r == if caller in signers then Ok(()) else Err(SignerNotFound)
    {
      var i := 0;
      while i < |signers|
        invariant 0 <= i <= |signers|
        invariant caller !in signers[..i]
      {
        if signers[i] == caller { return Ok(()); }
        i := i + 1;
      }
      return Err(SignerNotFound);
    }

    method LoadConfig(caller: Address) returns (r: Result<Config, AccessError>)
      ensures r == SignedBy(View(), caller)
    {
      if config.None? { return Err(MultisigNotConfigured); }
      var _ :- RequireSigner(config.value.signers, caller);
      return Ok(config.value);
    }

    static method CountValid(approvals: seq<Address>, signers: seq<Address>) returns (valid: nat)
      ensures valid == ValidVotes(approvals, signers)
    {
      valid := 0;
      var i := 0;
      while i < |approvals|
        invariant 0 <= i <= |approvals|
        invariant valid == ValidVotes(approvals[..i], signers)
      {
        assert approvals[..i + 1][..i] == approvals[..i];
        var signer := RequireSigner(signers, approvals[i]);
        if signer.Ok? { valid := valid + 1; }
        i := i + 1;
      }
      assert approvals[..i] == approvals;
    }

    method CheckExecutable(signed: Config, id: nat, now: nat) returns (r: Result<Proposal, AccessError>)
      ensures r == Executable(View(), signed, id, now)
    {
      if id !in proposals { return Err(ProposalNotFound); }
      var p := proposals[id];
      if p.executed { return Err(ProposalAlreadyExecuted); }
      if p.cancelled { return Err(ProposalCancelled); }
      if now > p.expiresAt { return Err(ProposalExpired); }
      var valid := CountValid(p.approvals, signed.signers);
      if valid < signed.threshold { return Err(ThresholdNotMet); }
      return Ok(p);
    }

    method RequireNoOtherActive(skip: nat, now: nat) returns (r: Result<(), AccessError>)
      ensures r == if OthersInactive(View(), skip, now) then Ok(()) else Err(RotationBlockedByPendingProposal)
    {
      var id := 1;
      while id < nextId
        invariant 1 <= id
        invariant forall i: nat :: 1 <= i < id && i != skip && i in proposals ==> !Active(proposals[i], now)
      {
        if id != skip && id in proposals && Active(proposals[id], now) {
          return Err(RotationBlockedByPendingProposal);
        }
        id := id + 1;
      }
      return Ok(());
    }

    method ExecuteAdminRotation(newAdmin: Address, p: Proposal, now: nat) returns (r: Result<(), AccessError>)
      modifies this`admin, this`roles, this`pendingRotation
      ensures Commits(old(View()), Rotate(old(View()), newAdmin, p, now), r)
    {
      var timing := RotationTiming(p, now);
      if timing.Some? { return Err(timing.value); }
      if paused { return Err(AdminRotationWhilePaused); }
      var currentAdmin := admin;
      var target := TransferTarget(View(), newAdmin, currentAdmin);
      if target.Some? { return Err(target.value); }
      var _ :- RequireNoOtherActive(p.id, now);
      admin := newAdmin;
      roles := roles[newAdmin := Role.Admin];
      roles := roles - {currentAdmin};
      if pendingRotation == Some(p.id) {
        pendingRotation := None;
      }
      return Ok(());
    }

    method Apply(p: Proposal, currentAdmin: Address, now: nat) returns (r: Result<(), AccessError>)
      modifies this`admin, this`roles, this`pendingRotation, this`paused
      ensures Commits(old(View()), ApplyAction(old(View()), p, currentAdmin, now), r)
    {
      match p.action {
        case Pause =>
          paused := true;
        case Unpause =>
          paused := false;
        case GrantRole(target, role) =>
          if role != 1 && role != 2 { return Err(Unauthorized); }
          if target == currentAdmin { return Err(Unauthorized); }
          roles := roles[target := if role == 1 then Operator else Verifier];
        case RevokeRole(target) =>
          roles := roles - {target};
        case TransferAdmin(newAdmin) =>
          var target := TransferTarget(View(), newAdmin, currentAdmin);
          if target.Some? { return Err(target.value); }
          admin := newAdmin;
          roles := roles[newAdmin := Role.Admin];
        case RotateAdmin(newAdmin) =>
          r := ExecuteAdminRotation(newAdmin, p, now);
          return;
        case ResolveDispute(_, _, _) =>
      }
      return Ok(());
    }

    method Execute(executor: Address, id: nat, now: nat) returns (r: Result<(), AccessError>)
      modifies this
      ensures Commits(old(View()), ExecuteAction(old(View()), executor, id, now), r)
    {
      var saved := View();
      var signed :- LoadConfig(executor);
      var p :- CheckExecutable(signed, id, now);
      proposals := proposals[id := p.(executed := true)];
      var currentAdmin := admin;
      r := Apply(p, currentAdmin, now);
      if r.Err? { RollBack(saved); }
    }

    static method RequireNoConflict(p: Proposal, batch: seq<Proposal>) returns (r: Result<(), AccessError>)
      ensures r == if exists i :: 0 <= i < |batch| && Conflicts(p.action, batch[i].action) then Err(Unauthorized)
        else Ok(())
    {
      var i := 0;
      while i < |batch|
        invariant 0 <= i <= |batch|
        invariant forall j :: 0 <= j < i ==> !Conflicts(p.action, batch[j].action)
      {
        if Conflicts(p.action, batch[i].action) { return Err(Unauthorized); }
        i := i + 1;
      }
      return Ok(());
    }

    method Collect(signed: Config, ids: seq<nat>, now: nat) returns (r: Result<seq<Proposal>, AccessError>)
      ensures r == CollectBatch(View(), signed, ids, now)
    {
      var batch: seq<Proposal> := [];
      var i := 0;
      while i < |ids|
        invariant 0 <= i <= |ids|
        invariant CollectBatch(View(), signed, ids[..i], now) == Ok(batch)
      {
        assert ids[..i + 1][..i] == ids[..i];
        var p := CheckExecutable(signed, ids[i], now);
        var failure := if p.Err? then Some(p.error) else None;
        if p.Ok? {
          if p.value.action.RotateAdmin? && RotationTiming(p.value, now).Some? {
            failure := RotationTiming(p.value, now);
          } else {
            var conflict := RequireNoConflict(p.value, batch);
            if conflict.Err? { failure := Some(conflict.error); }
          }
        }
        if failure.Some? {
          FailedPrefix(View(), signed, ids, i + 1, now);
          return Err(failure.value);
        }
        batch := batch + [p.value];
        i := i + 1;
      }
      assert ids[..i] == ids;
      return Ok(batch);
    }

    /** One element of a batch; what a failing one has written is rolled back with the whole batch. */
    method ExecuteMember(id: nat, p: Proposal, currentAdmin: Address, now: nat) returns (r: Result<(), AccessError>)
      modifies this
      ensures match ApplyAction(MarkExecuted(old(View()), id, p), p, currentAdmin, now)
        case Ok(s) => r == Ok(()) && View() == s
        case Err(e) => r == Err(e)
    {
      proposals := proposals[id := p.(executed := true)];
      r := Apply(p, currentAdmin, now);
    }

    method Batch(executor: Address, ids: seq<nat>, now: nat) returns (r: Result<(), AccessError>)
      modifies this
      ensures Commits(old(View()), ExecuteBatch(old(View()), executor, ids, now), r)
    {
      var saved := View();
      var signed :- LoadConfig(executor);
      var batch :- Collect(signed, ids, now);
      var currentAdmin := admin;
      var i := 0;
      while i < |ids|
        invariant 0 <= i <= |ids| == |batch|
        invariant ApplyBatch(saved, ids[..i], batch[..i], currentAdmin, now) == Ok(View())
      {
        NextMember(saved, ids, batch, currentAdmin, now, i);
        r := ExecuteMember(ids[i], batch[i], currentAdmin, now);
        if r.Err? {
          FailedBatch(saved, ids, batch, currentAdmin, now, i + 1);
          RollBack(saved);
          return;
        }
        i := i + 1;
      }
      assert ids[..i] == ids && batch[..i] == batch;
      return Ok(());
    }

    method ConfigureMultisig(caller: Address, signers: seq<Address>, threshold: nat)
        returns (r: Result<(), AccessError>)
      modifies this`config
      ensures Commits(old(View()), Configure(old(View()), caller, signers, threshold), r)
    {
      if caller != admin { return Err(NotAdmin); }
      if threshold == 0 || threshold > |signers| { return Err(InvalidThreshold); }
      config := Some(Config(threshold, signers));
      return Ok(());
    }

    method SupersedePendingRotation(newId: nat, now: nat)
      modifies this`proposals, this`pendingRotation
      ensures View() == Supersede(old(View()), newId, now)
    {
      if pendingRotation.Some? && pendingRotation.value in proposals {
        var previous := proposals[pendingRotation.value];
        if !previous.executed && !previous.cancelled && now <= previous.expiresAt && previous.action.RotateAdmin? {
          proposals := proposals[pendingRotation.value := previous.(cancelled := true)];
        }
      }
      pendingRotation := Some(newId);
    }

    method ProposeAction(proposer: Address, action: Action, now: nat) returns (r: Result<nat, AccessError>)
      modifies this
      ensures var spec := Propose(old(View()), proposer, action, now);
        if spec.Ok? then r == Ok(old(nextId)) && View() == spec.value else r == Err(spec.error) && View() == old(View())
    {
      var _ :- LoadConfig(proposer);
      var id := nextId;
      if now + PROPOSAL_TTL_LEDGERS > U64_MAX || id + 1 > U64_MAX { return Err(ArithmeticOverflow); }
      if action.RotateAdmin? {
        SupersedePendingRotation(id, now);
      }
      proposals := proposals[id :=
        Proposal(id, action, proposer, [proposer], false, false, now, now + PROPOSAL_TTL_LEDGERS)];
      nextId := id + 1;
      return Ok(id);
    }

    method ApproveAction(approver: Address, id: nat, now: nat) returns (r: Result<(), AccessError>)
      modifies this`proposals
      ensures Commits(old(View()), Approve(old(View()), approver, id, now), r)
    {
      var _ :- LoadConfig(approver);
      if id !in proposals { return Err(ProposalNotFound); }
      var p := proposals[id];
      if p.executed { return Err(ProposalAlreadyExecuted); }
      if p.cancelled { return Err(ProposalCancelled); }
      if now > p.expiresAt { return Err(ProposalExpired); }
      var i := 0;
      while i < |p.approvals|
        invariant 0 <= i <= |p.approvals|
        invariant approver !in p.approvals[..i]
      {
        if p.approvals[i] == approver { return Err(AlreadyApproved); }
        i := i + 1;
      }
      proposals := proposals[id := p.(approvals := p.approvals + [approver])];
      return Ok(());
    }

    method CancelAction(canceller: Address, id: nat) returns (r: Result<(), AccessError>)
      modifies this`proposals
      ensures Commits(old(View()), Cancel(old(View()), canceller, id), r)
    {
      var signed :- LoadConfig(canceller);
      if id !in proposals { return Err(ProposalNotFound); }
      var p := proposals[id];
      if p.executed { return Err(ProposalAlreadyExecuted); }
      if p.cancelled { return Err(ProposalCancelled); }
      if p.proposer != canceller && |p.approvals| < signed.threshold { return Err(Unauthorized); }
      proposals := proposals[id := p.(cancelled := true)];
      return Ok(());
    }

    method ExecuteSignerRecovery(executor: Address, id: nat, now: nat) returns (r: Result<(), AccessError>)
      modifies this`recoveries, this`config
      ensures Commits(old(View()), ExecuteRecovery(old(View()), executor, id, now), r)
    {
      var _ :- LoadConfig(executor);
      if id !in recoveries { return Err(ProposalNotFound); }
      var p := recoveries[id];
      if p.executed { return Err(ProposalAlreadyExecuted); }
      if p.createdAt + RECOVERY_TIMELOCK_DELAY > U64_MAX { return Err(ArithmeticOverflow); }
      if now < p.createdAt + RECOVERY_TIMELOCK_DELAY { return Err(GovernanceTimelockNotElapsed); }
      if p.objections != [] { return Err(AlreadyApproved); }
      recoveries := recoveries[id := p.(executed := true)];
      config := Some(Config(p.newThreshold, p.newSigners));
      return Ok(());
    }

    method ConcludeCouncilRotation(id: nat) returns (r: Result<(), AccessError>)
      modifies this`elections, this`config
      ensures Commits(old(View()), ConcludeElection(old(View()), id), r)
    {
      if config.None? { return Err(MultisigNotConfigured); }
      if id !in elections { return Err(RotationElectionNotFound); }
      var e := elections[id];
      if e.concluded { return Err(RotationElectionAlreadyConcluded); }
      var confirmed := e.votesFor >= config.value.threshold;
      if confirmed {
        var signers := config.value.signers;
        var newSigners: seq<Address> := [];
        var i := 0;
        while i < |signers|
          invariant 0 <= i <= |signers|
          invariant newSigners == Reseat(signers, e.seat, e.replacement)[..i]
        {
          newSigners := newSigners + [if signers[i] == e.seat then e.replacement else signers[i]];
          i := i + 1;
        }
        assert newSigners == Reseat(signers, e.seat, e.replacement);
        if |newSigners| < config.value.threshold || config.value.threshold < 2 { return Err(QuorumSafetyViolation); }
        config := Some(config.value.(signers := newSigners));
      }
      elections := elections[id := e.(concluded := true, confirmed := confirmed)];
      return Ok(());
    }
  }

  /** The first failing member fails the whole batch. */
  lemma {:induction false} FailedPrefix(s: State, config: Config, ids: seq<nat>, k: nat, now: nat)
    requires k <= |ids| && CollectBatch(s, config, ids[..k], now).Err?
    ensures CollectBatch(s, config, ids, now) == CollectBatch(s, config, ids[..k], now)
    decreases |ids| - k
  {
    if k == |ids| {
      assert ids[..k] == ids;
    } else {
      assert ids[..k + 1][..k] == ids[..k];
      FailedPrefix(s, config, ids, k + 1, now);
    }
  }

  lemma NextMember(s: State, ids: seq<nat>, batch: seq<Proposal>, currentAdmin: Address, now: nat, i: nat)
    requires i < |ids| == |batch| && ApplyBatch(s, ids[..i], batch[..i], currentAdmin, now).Ok?
    ensures ApplyBatch(s, ids[..i + 1], batch[..i + 1], currentAdmin, now)
      == ApplyAction(
           MarkExecuted(ApplyBatch(s, ids[..i], batch[..i], currentAdmin, now).value, ids[i], batch[i]),
           batch[i], currentAdmin, now)
  {
    assert ids[..i + 1][..i] == ids[..i] && batch[..i + 1][..i] == batch[..i];
  }

  lemma {:induction false} FailedBatch(s: State, ids: seq<nat>, batch: seq<Proposal>, currentAdmin: Address, now: nat,
      k: nat)
    requires k <= |ids| == |batch| && ApplyBatch(s, ids[..k], batch[..k], currentAdmin, now).Err?
    ensures ApplyBatch(s, ids, batch, currentAdmin, now) == ApplyBatch(s, ids[..k], batch[..k], currentAdmin, now)
    decreases |ids| - k
  {
    if k == |ids| {
      assert ids[..k] == ids && batch[..k] == batch;
    } else {
      assert ids[..k + 1][..k] == ids[..k] && batch[..k + 1][..k] == batch[..k];
      FailedBatch(s, ids, batch, currentAdmin, now, k + 1);
    }
  }
}
