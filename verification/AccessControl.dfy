/** `access_control`: the multisig proposal lifecycle, batches, admin rotation and the changes of the
    signer set. */
module AccessControl {
  import opened Wrappers
  import opened Chain

  const GOVERNANCE_TIMELOCK_DELAY: nat := 86_400
  const RECOVERY_TIMELOCK_DELAY: nat := 518_400
  const PROPOSAL_TTL_LEDGERS: nat := 120_960

  datatype AccessError =
    | NotAdmin | InvalidThreshold | MultisigNotConfigured | SignerNotFound | ProposalNotFound
    | ProposalAlreadyExecuted | ProposalCancelled | ProposalExpired | AlreadyApproved | ThresholdNotMet
    | Unauthorized | InvalidAddress | ArithmeticOverflow | GovernanceTimelockNotElapsed
    | AdminRotationWhilePaused | RotationBlockedByPendingProposal | NotGuardian | AlreadyPaused
    | RotationElectionNotFound | RotationElectionAlreadyConcluded | AlreadyVoted | QuorumSafetyViolation

  datatype Role = Admin | Operator | Verifier | Guardian

  datatype Action =
    | Pause | Unpause
    | GrantRole(target: Address, role: nat)
    | RevokeRole(target: Address)
    | TransferAdmin(newAdmin: Address)
    | RotateAdmin(newAdmin: Address)
    | ResolveDispute(resolver: Address, invoice: nat, upheld: bool)

  datatype Proposal = Proposal(
    id: nat, action: Action, proposer: Address, approvals: seq<Address>,
    executed: bool, cancelled: bool, createdAt: nat, expiresAt: nat)

  datatype Config = Config(threshold: nat, signers: seq<Address>)

  datatype Recovery = Recovery(
    newSigners: seq<Address>, newThreshold: nat, createdAt: nat, objections: seq<Address>, executed: bool)

  datatype Election = Election(
    seat: Address, replacement: Address, votesFor: nat, votesAgainst: nat, voters: seq<Address>,
    concluded: bool, confirmed: bool)

  /** `self` is the contract's own address. */
  datatype State = State(
    self: Address, admin: Address, paused: bool, roles: map<Address, Role>, config: Option<Config>,
    nextId: nat, proposals: map<nat, Proposal>, pendingRotation: Option<nat>,
    nextRecovery: nat, recoveries: map<nat, Recovery>, nextElection: nat, elections: map<nat, Election>)

  type Outcome = Result<State, AccessError>

  // ── Specification: reads ─────────────────────────────────────────────────────

  predicate Active(p: Proposal, now: nat) { !p.executed && !p.cancelled && now <= p.expiresAt }

  predicate Mentions(s: seq<Address>, a: Address) { a in s }

  function SignedBy(s: State, caller: Address): Result<Config, AccessError> {
    if s.config.None? then Err(MultisigNotConfigured)
    else if caller !in s.config.value.signers then Err(SignerNotFound)
    else Ok(s.config.value)
  }

  /** Approvals by addresses that are signers now. */
  function ValidVotes(approvals: seq<Address>, signers: seq<Address>): nat {
    if approvals == [] then 0
    else
      var n := |approvals| - 1;
      ValidVotes(approvals[..n], signers) + if approvals[n] in signers then 1 else 0
  }

  function RotationTiming(p: Proposal, now: nat): Option<AccessError> {
    var activation := p.createdAt + GOVERNANCE_TIMELOCK_DELAY;
    if activation > U64_MAX then Some(ArithmeticOverflow)
    else if now > p.expiresAt || activation > p.expiresAt then Some(ProposalExpired)
    else if now < activation then Some(GovernanceTimelockNotElapsed)
    else None
  }

  ghost predicate OthersInactive(s: State, skip: nat, now: nat) {
    forall id: nat :: 1 <= id < s.nextId && id != skip && id in s.proposals ==> !Active(s.proposals[id], now)
  }

  function TransferTarget(s: State, newAdmin: Address, currentAdmin: Address): Option<AccessError> {
    if newAdmin == currentAdmin || newAdmin == s.self then Some(InvalidAddress)
    else if newAdmin in s.roles && s.roles[newAdmin] != Admin then Some(Unauthorized)
    else None
  }

  /** What a call checks of a proposal before it may execute it. */
  function Executable(s: State, config: Config, id: nat, now: nat): Result<Proposal, AccessError> {
    if id !in s.proposals then Err(ProposalNotFound)
    else
      var p := s.proposals[id];
      if p.executed then Err(ProposalAlreadyExecuted)
      else if p.cancelled then Err(ProposalCancelled)
      else if now > p.expiresAt then Err(ProposalExpired)
      else if ValidVotes(p.approvals, config.signers) < config.threshold then Err(ThresholdNotMet)
      else Ok(p)
  }

  // ── Specification: execution ─────────────────────────────────────────────────

  ghost function Rotate(s: State, newAdmin: Address, p: Proposal, now: nat): Outcome {
    if RotationTiming(p, now).Some? then Err(RotationTiming(p, now).value)
    else if s.paused then Err(AdminRotationWhilePaused)
    else if TransferTarget(s, newAdmin, s.admin).Some? then Err(TransferTarget(s, newAdmin, s.admin).value)
    else if !OthersInactive(s, p.id, now) then Err(RotationBlockedByPendingProposal)
    else Ok(s.(admin := newAdmin, roles := s.roles[newAdmin := Admin] - {s.admin},
               pendingRotation := if s.pendingRotation == Some(p.id) then None else s.pendingRotation))
  }

  /** `currentAdmin` is read once a call, before its first action. */
  ghost function ApplyAction(s: State, p: Proposal, currentAdmin: Address, now: nat): Outcome {
    match p.action
    case Pause => Ok(s.(paused := true))
    case Unpause => Ok(s.(paused := false))
    case GrantRole(target, role) =>
      if role != 1 && role != 2 then Err(Unauthorized)
      else if target == currentAdmin then Err(Unauthorized)
      else Ok(s.(roles := s.roles[target := if role == 1 then Operator else Verifier]))
    case RevokeRole(target) => Ok(s.(roles := s.roles - {target}))
    case TransferAdmin(newAdmin) =>
      if TransferTarget(s, newAdmin, currentAdmin).Some? then Err(TransferTarget(s, newAdmin, currentAdmin).value)
      else Ok(s.(admin := newAdmin, roles := s.roles[newAdmin := Admin]))
    case RotateAdmin(newAdmin) => Rotate(s, newAdmin, p, now)
    case ResolveDispute(_, _, _) => Ok(s)
  }

  function MarkExecuted(s: State, id: nat, p: Proposal): State {
    s.(proposals := s.proposals[id := p.(executed := true)])
  }

  ghost function ExecuteAction(s: State, executor: Address, id: nat, now: nat): Outcome {
    var config :- SignedBy(s, executor);
    var p :- Executable(s, config, id, now);
    ApplyAction(MarkExecuted(s, id, p), p, s.admin, now)
  }

  predicate Conflicts(a: Action, b: Action) {
    match (a, b)
    case (TransferAdmin(_), TransferAdmin(_)) => true
    case (TransferAdmin(_), RotateAdmin(_)) => true
    case (RotateAdmin(_), TransferAdmin(_)) => true
    case (RotateAdmin(_), RotateAdmin(_)) => true
    case (GrantRole(x, _), GrantRole(y, _)) => x == y
    case (GrantRole(x, _), RevokeRole(y)) => x == y
    case (RevokeRole(x), GrantRole(y, _)) => x == y
    case (RevokeRole(x), RevokeRole(y)) => x == y
    case _ => false
  }

  function BatchMember(s: State, config: Config, id: nat, now: nat,
      batch: seq<Proposal>): Result<Proposal, AccessError>
  {
    var p :- Executable(s, config, id, now);
    if p.action.RotateAdmin? && RotationTiming(p, now).Some? then Err(RotationTiming(p, now).value)
    else if exists i :: 0 <= i < |batch| && Conflicts(p.action, batch[i].action) then Err(Unauthorized)
    else Ok(p)
  }

  function CollectBatch(s: State, config: Config, ids: seq<nat>, now: nat): (r: Result<seq<Proposal>, AccessError>)
    ensures r.Ok? ==> |r.value| == |ids|
  {
    if ids == [] then Ok([])
    else
      var n := |ids| - 1;
      var batch :- CollectBatch(s, config, ids[..n], now);
      var p :- BatchMember(s, config, ids[n], now, batch);
      Ok(batch + [p])
  }

  ghost function ApplyBatch(s: State, ids: seq<nat>, batch: seq<Proposal>, currentAdmin: Address, now: nat): Outcome
    requires |ids| == |batch|
  {
    if ids == [] then Ok(s)
    else
      var n := |ids| - 1;
      var before :- ApplyBatch(s, ids[..n], batch[..n], currentAdmin, now);
      ApplyAction(MarkExecuted(before, ids[n], batch[n]), batch[n], currentAdmin, now)
  }

  ghost function ExecuteBatch(s: State, executor: Address, ids: seq<nat>, now: nat): Outcome {
    var config :- SignedBy(s, executor);
    var batch :- CollectBatch(s, config, ids, now);
    ApplyBatch(s, ids, batch, s.admin, now)
  }

  // ── Specification: proposals and the signer set ──────────────────────────────

  function Configure(s: State, caller: Address, signers: seq<Address>, threshold: nat): Outcome {
    if caller != s.admin then Err(NotAdmin)
    else if threshold == 0 || threshold > |signers| then Err(InvalidThreshold)
    else Ok(s.(config := Some(Config(threshold, signers))))
  }

  function Supersede(s: State, newId: nat, now: nat): State {
    var stale := s.pendingRotation.Some? && s.pendingRotation.value in s.proposals
      && var p := s.proposals[s.pendingRotation.value]; Active(p, now) && p.action.RotateAdmin?;
    s.(pendingRotation := Some(newId),
       proposals := if stale
                    then s.proposals[s.pendingRotation.value :=
                      s.proposals[s.pendingRotation.value].(cancelled := true)]
                    else s.proposals)
  }

  function Propose(s: State, proposer: Address, action: Action, now: nat): Outcome {
    var config :- SignedBy(s, proposer);
    if now + PROPOSAL_TTL_LEDGERS > U64_MAX || s.nextId >= U64_MAX then Err(ArithmeticOverflow)
    else
      var superseded := if action.RotateAdmin? then Supersede(s, s.nextId, now) else s;
      var p := Proposal(s.nextId, action, proposer, [proposer], false, false, now, now + PROPOSAL_TTL_LEDGERS);
      Ok(superseded.(proposals := superseded.proposals[s.nextId := p], nextId := s.nextId + 1))
  }

  function Approve(s: State, approver: Address, id: nat, now: nat): Outcome {
    var config :- SignedBy(s, approver);
    if id !in s.proposals then Err(ProposalNotFound)
    else
      var p := s.proposals[id];
      if p.executed then Err(ProposalAlreadyExecuted)
      else if p.cancelled then Err(ProposalCancelled)
      else if now > p.expiresAt then Err(ProposalExpired)
      else if approver in p.approvals then Err(AlreadyApproved)
      else Ok(s.(proposals := s.proposals[id := p.(approvals := p.approvals + [approver])]))
  }

  function Cancel(s: State, canceller: Address, id: nat): Outcome {
    var config :- SignedBy(s, canceller);
    if id !in s.proposals then Err(ProposalNotFound)
    else
      var p := s.proposals[id];
      if p.executed then Err(ProposalAlreadyExecuted)
      else if p.cancelled then Err(ProposalCancelled)
      else if p.proposer != canceller && |p.approvals| < config.threshold then Err(Unauthorized)
      else Ok(s.(proposals := s.proposals[id := p.(cancelled := true)]))
  }

  function EmergencyPause(s: State, guardian: Address): Outcome {
    if guardian !in s.roles || s.roles[guardian] != Guardian then Err(NotGuardian)
    else if s.paused then Err(AlreadyPaused)
    else Ok(s.(paused := true))
  }

  function ProposeRecovery(s: State, proposer: Address, signers: seq<Address>, threshold: nat, now: nat): Outcome {
    var config :- SignedBy(s, proposer);
    if threshold == 0 || threshold > |signers| then Err(InvalidThreshold)
    else if s.nextRecovery >= U64_MAX then Err(ArithmeticOverflow)
    else Ok(s.(recoveries := s.recoveries[s.nextRecovery := Recovery(signers, threshold, now, [], false)],
               nextRecovery := s.nextRecovery + 1))
  }

  function ObjectRecovery(s: State, objector: Address, id: nat): Outcome {
    var config :- SignedBy(s, objector);
    if id !in s.recoveries then Err(ProposalNotFound)
    else
      var r := s.recoveries[id];
      if r.executed then Err(ProposalAlreadyExecuted)
      else if objector in r.objections then Err(AlreadyApproved)
      else Ok(s.(recoveries := s.recoveries[id := r.(objections := r.objections + [objector])]))
  }

  function ExecuteRecovery(s: State, executor: Address, id: nat, now: nat): Outcome {
    var config :- SignedBy(s, executor);
    if id !in s.recoveries then Err(ProposalNotFound)
    else
      var r := s.recoveries[id];
      if r.executed then Err(ProposalAlreadyExecuted)
      else if r.createdAt + RECOVERY_TIMELOCK_DELAY > U64_MAX then Err(ArithmeticOverflow)
      else if now < r.createdAt + RECOVERY_TIMELOCK_DELAY then Err(GovernanceTimelockNotElapsed)
      else if r.objections != [] then Err(AlreadyApproved)
      else Ok(s.(recoveries := s.recoveries[id := r.(executed := true)],
                 config := Some(Config(r.newThreshold, r.newSigners))))
  }

  function InitiateElection(s: State, initiator: Address, seat: Address, replacement: Address): Outcome {
    var config :- SignedBy(s, initiator);
    if seat !in config.signers then Err(SignerNotFound)
    else if s.nextElection >= U64_MAX then Err(ArithmeticOverflow)
    else Ok(s.(elections := s.elections[s.nextElection := Election(seat, replacement, 1, 0, [initiator], false, false)],
               nextElection := s.nextElection + 1))
  }

  function VoteElection(s: State, voter: Address, id: nat, support: bool): Outcome {
    var config :- SignedBy(s, voter);
    if id !in s.elections then Err(RotationElectionNotFound)
    else
      var e := s.elections[id];
      if e.concluded then Err(RotationElectionAlreadyConcluded)
      else if voter in e.voters then Err(AlreadyVoted)
      else Ok(s.(elections := s.elections[id := e.(voters := e.voters + [voter],
                   votesFor := e.votesFor + (if support then 1 else 0),
                   votesAgainst := e.votesAgainst + (if support then 0 else 1))]))
  }

  /** Every entry equal to the seat is handed to the replacement. */
  function Reseat(signers: seq<Address>, seat: Address, replacement: Address): seq<Address> {
    seq(|signers|, i requires 0 <= i < |signers| => if signers[i] == seat then replacement else signers[i])
  }

  function ConcludeElection(s: State, id: nat): Outcome {
    if s.config.None? then Err(MultisigNotConfigured)
    else if id !in s.elections then Err(RotationElectionNotFound)
    else
      var config, e := s.config.value, s.elections[id];
      var confirmed := e.votesFor >= config.threshold;
      var closed := s.(elections := s.elections[id := e.(concluded := true, confirmed := confirmed)]);
      if e.concluded then Err(RotationElectionAlreadyConcluded)
      else if !confirmed then Ok(closed)
      else if |config.signers| < config.threshold || config.threshold < 2 then Err(QuorumSafetyViolation)
      else Ok(closed.(config := Some(config.(signers := Reseat(config.signers, e.seat, e.replacement)))))
  }

  datatype Call =
    | ConfigureCall(caller: Address, signers: seq<Address>, threshold: nat)
    | ProposeCall(proposer: Address, action: Action)
    | ApproveCall(approver: Address, id: nat)
    | ExecuteCall(executor: Address, id: nat)
    | BatchCall(executor: Address, ids: seq<nat>)
    | CancelCall(canceller: Address, id: nat)
    | EmergencyPauseCall(guardian: Address)
    | ProposeRecoveryCall(proposer: Address, signers: seq<Address>, threshold: nat)
    | ObjectRecoveryCall(objector: Address, id: nat)
    | ExecuteRecoveryCall(executor: Address, id: nat)
    | InitiateElectionCall(initiator: Address, seat: Address, replacement: Address)
    | VoteElectionCall(voter: Address, id: nat, support: bool)
    | ConcludeElectionCall(id: nat)

  ghost function Attempt(s: State, c: Call, now: nat): Outcome {
    match c
    case ConfigureCall(caller, signers, threshold) => Configure(s, caller, signers, threshold)
    case ProposeCall(proposer, action) => Propose(s, proposer, action, now)
    case ApproveCall(approver, id) => Approve(s, approver, id, now)
    case ExecuteCall(executor, id) => ExecuteAction(s, executor, id, now)
    case BatchCall(executor, ids) => ExecuteBatch(s, executor, ids, now)
    case CancelCall(canceller, id) => Cancel(s, canceller, id)
    case EmergencyPauseCall(guardian) => EmergencyPause(s, guardian)
    case ProposeRecoveryCall(proposer, signers, threshold) => ProposeRecovery(s, proposer, signers, threshold, now)
    case ObjectRecoveryCall(objector, id) => ObjectRecovery(s, objector, id)
    case ExecuteRecoveryCall(executor, id) => ExecuteRecovery(s, executor, id, now)
    case InitiateElectionCall(initiator, seat, replacement) => InitiateElection(s, initiator, seat, replacement)
    case VoteElectionCall(voter, id, support) => VoteElection(s, voter, id, support)
    case ConcludeElectionCall(id) => ConcludeElection(s, id)
  }

  ghost function Step(s: State, c: Call, now: nat): State {
    var r := Attempt(s, c, now);
    if r.Ok? then r.value else s
  }

  /** A run is a list of calls with the ledger time of each. */
  ghost function Run(s: State, calls: seq<(Call, nat)>): State
    decreases |calls|
  {
    if calls == [] then s
    else
      var n := |calls| - 1;
      Step(Run(s, calls[..n]), calls[n].0, calls[n].1)
  }

  // ── Every reachable state ────────────────────────────────────────────────────

  /** Approvals are pairwise distinct; executed and cancelled exclude each other. */
  ghost predicate ProposalSound(id: nat, p: Proposal) {
    p.id == id && NoDuplicates(p.approvals) && !(p.executed && p.cancelled)
  }

  predicate ThresholdSound(threshold: nat, signers: seq<Address>) { 1 <= threshold <= |signers| }

  /** Stored ids are exactly 1..nextId-1, and every signer set in force or proposed can reach its threshold. */
  ghost predicate Sound(s: State) {
    && s.nextId >= 1
    && (forall id: nat :: id in s.proposals <==> 1 <= id < s.nextId)
    && (forall id :: id in s.proposals ==> ProposalSound(id, s.proposals[id]))
    && (s.config.Some? ==> ThresholdSound(s.config.value.threshold, s.config.value.signers))
    && (forall id :: id in s.recoveries ==> ThresholdSound(s.recoveries[id].newThreshold, s.recoveries[id].newSigners))
  }

  function Executed(ps: map<nat, Proposal>, ids: set<nat>): map<nat, Proposal> {
    map id | id in ps :: if id in ids then ps[id].(executed := true) else ps[id]
  }

  function Ids(ids: seq<nat>): set<nat> { set id | id in ids }

  /** Everything but proposals, admin, pause flag, roles and the pending rotation. */
  ghost predicate SameGovernance(s: State, s': State) {
    && s'.self == s.self && s'.config == s.config && s'.nextId == s.nextId
    && s'.nextRecovery == s.nextRecovery && s'.recoveries == s.recoveries
    && s'.nextElection == s.nextElection && s'.elections == s.elections
  }

  lemma RotateFrame(s: State, newAdmin: Address, p: Proposal, now: nat)
    ensures var r := Rotate(s, newAdmin, p, now);
      r.Ok? ==> SameGovernance(s, r.value) && r.value.proposals == s.proposals
  {
  }

  lemma ActionFrame(s: State, p: Proposal, currentAdmin: Address, now: nat)
    ensures var r := ApplyAction(s, p, currentAdmin, now);
      r.Ok? ==> SameGovernance(s, r.value) && r.value.proposals == s.proposals
  {
    if p.action.RotateAdmin? { RotateFrame(s, p.action.newAdmin, p, now); }
  }

  lemma {:induction false} CollectedMembers(s: State, config: Config, ids: seq<nat>, now: nat)
    requires CollectBatch(s, config, ids, now).Ok?
    ensures var batch := CollectBatch(s, config, ids, now).value;
      forall i :: 0 <= i < |ids| ==> Executable(s, config, ids[i], now) == Ok(batch[i])
    decreases |ids|
  {
    if ids != [] {
      CollectedMembers(s, config, ids[..|ids| - 1], now);
    }
  }

  /** A batch marks exactly its members executed, whatever their actions do. */
  lemma {:induction false} BatchFrame(s: State, ids: seq<nat>, batch: seq<Proposal>, currentAdmin: Address, now: nat)
    requires |ids| == |batch|
    requires forall i :: 0 <= i < |ids| ==> ids[i] in s.proposals && batch[i] == s.proposals[ids[i]]
    ensures var r := ApplyBatch(s, ids, batch, currentAdmin, now);
      r.Ok? ==> SameGovernance(s, r.value) && r.value.proposals == Executed(s.proposals, Ids(ids))
    decreases |ids|
  {
    var r := ApplyBatch(s, ids, batch, currentAdmin, now);
    if ids == [] {
      assert Executed(s.proposals, Ids(ids)) == s.proposals;
    } else if r.Ok? {
      var n := |ids| - 1;
      BatchFrame(s, ids[..n], batch[..n], currentAdmin, now);
      var before := ApplyBatch(s, ids[..n], batch[..n], currentAdmin, now).value;
      ActionFrame(MarkExecuted(before, ids[n], batch[n]), batch[n], currentAdmin, now);
      assert Ids(ids) == Ids(ids[..n]) + {ids[n]};
      assert Executed(s.proposals, Ids(ids[..n]))[ids[n] := batch[n].(executed := true)] ==
        Executed(s.proposals, Ids(ids));
    }
  }

  /** A prefix of a successful batch succeeds. */
  lemma {:induction false} BatchPrefix(s: State, ids: seq<nat>, batch: seq<Proposal>, currentAdmin: Address, now: nat,
      k: nat)
    requires |ids| == |batch| && k <= |ids|
    requires ApplyBatch(s, ids, batch, currentAdmin, now).Ok?
    ensures ApplyBatch(s, ids[..k], batch[..k], currentAdmin, now).Ok?
    decreases |ids|
  {
    if k == |ids| {
      assert ids[..k] == ids && batch[..k] == batch;
    } else {
      var n := |ids| - 1;
      BatchPrefix(s, ids[..n], batch[..n], currentAdmin, now, k);
      assert ids[..n][..k] == ids[..k] && batch[..n][..k] == batch[..k];
    }
  }

  // ── Rotation safety ──────────────────────────────────────────────────────────

  /** Nothing voted for under the old admin can still be executed, the protocol runs, and the rotation
      waited out its delay without expiring. */
  ghost predicate RotationSafe(s: State, p: Proposal, now: nat) {
    && (forall id :: id in s.proposals ==> !Active(s.proposals[id], now))
    && !s.paused
    && p.createdAt + GOVERNANCE_TIMELOCK_DELAY <= now <= p.expiresAt
    && p.action.RotateAdmin? && s.admin == p.action.newAdmin
  }

  lemma RotateSafe(s: State, p: Proposal, currentAdmin: Address, now: nat)
    requires p.action.RotateAdmin? && p.id in s.proposals && s.proposals[p.id].executed
    requires forall id: nat :: id in s.proposals <==> 1 <= id < s.nextId
    ensures var r := ApplyAction(s, p, currentAdmin, now); r.Ok? ==> RotationSafe(r.value, p, now)
  {
  }

  lemma RotationSafety(s: State, executor: Address, id: nat, now: nat)
    requires Sound(s) && id in s.proposals && s.proposals[id].action.RotateAdmin?
    requires ExecuteAction(s, executor, id, now).Ok?
    ensures RotationSafe(ExecuteAction(s, executor, id, now).value, s.proposals[id], now)
  {
    var p := s.proposals[id];
    RotateSafe(MarkExecuted(s, id, p), p, s.admin, now);
  }

  /** The state of a batch right after its element k, a rotation: the rotation is safe there, and
      whatever the batch lists after it repeats an earlier element. */
  lemma RotationInBatch(s: State, executor: Address, ids: seq<nat>, now: nat, k: nat)
    requires Sound(s) && k < |ids|
    requires ExecuteBatch(s, executor, ids, now).Ok?
    requires ids[k] in s.proposals && s.proposals[ids[k]].action.RotateAdmin?
    ensures var batch := CollectBatch(s, s.config.value, ids, now).value;
      var r := ApplyBatch(s, ids[..k + 1], batch[..k + 1], s.admin, now);
      r.Ok? && RotationSafe(r.value, s.proposals[ids[k]], now)
    ensures forall j :: k < j < |ids| ==> ids[j] in ids[..k + 1]
  {
    var batch := CollectBatch(s, s.config.value, ids, now).value;
    CollectedMembers(s, s.config.value, ids, now);
    RotationAt(s, ids, batch, now, k);
    BatchPrefix(s, ids, batch, s.admin, now, k + 1);
    BatchFrame(s, ids[..k + 1], batch[..k + 1], s.admin, now);
    var after := ApplyBatch(s, ids[..k + 1], batch[..k + 1], s.admin, now).value;
    forall j | k < j < |ids|
      ensures ids[j] in ids[..k + 1]
    {
      assert Executable(s, s.config.value, ids[j], now).Ok?;
      assert ids[j] in after.proposals && !Active(after.proposals[ids[j]], now);
    }
  }

  lemma RotationAt(s: State, ids: seq<nat>, batch: seq<Proposal>, now: nat, k: nat)
    requires Sound(s) && k < |ids| == |batch|
    requires forall i :: 0 <= i < |ids| ==> ids[i] in s.proposals && batch[i] == s.proposals[ids[i]]
    requires ApplyBatch(s, ids, batch, s.admin, now).Ok? && batch[k].action.RotateAdmin?
    ensures var r := ApplyBatch(s, ids[..k + 1], batch[..k + 1], s.admin, now);
      r.Ok? && RotationSafe(r.value, batch[k], now)
  {
    BatchPrefix(s, ids, batch, s.admin, now, k + 1);
    BatchPrefix(s, ids, batch, s.admin, now, k);
    assert ids[..k + 1][..k] == ids[..k] && batch[..k + 1][..k] == batch[..k];
    var before := ApplyBatch(s, ids[..k], batch[..k], s.admin, now).value;
    BatchFrame(s, ids[..k], batch[..k], s.admin, now);
    assert ProposalSound(ids[k], batch[k]);
    RotateSafe(MarkExecuted(before, ids[k], batch[k]), batch[k], s.admin, now);
  }

  /** In a successful batch of distinct proposals a rotation is the last element, and the batch ends safely. */
  lemma RotationEndsBatch(s: State, executor: Address, ids: seq<nat>, now: nat, k: nat)
    requires Sound(s) && k < |ids| && NoDuplicates(ids)
    requires ExecuteBatch(s, executor, ids, now).Ok?
    requires ids[k] in s.proposals && s.proposals[ids[k]].action.RotateAdmin?
    ensures k == |ids| - 1
    ensures RotationSafe(ExecuteBatch(s, executor, ids, now).value, s.proposals[ids[k]], now)
  {
    RotationInBatch(s, executor, ids, now, k);
    var last := |ids| - 1;
    assert ids[last] in ids[..k + 1];
    assert ids[..k + 1] == ids;
    var batch := CollectBatch(s, s.config.value, ids, now).value;
    assert batch[..k + 1] == batch;
  }

  // ── Quorum ───────────────────────────────────────────────────────────────────

  ghost function CurrentApprovers(approvals: seq<Address>, signers: seq<Address>): set<Address> {
    set a | a in approvals && a in signers
  }

  /** Distinct approvals are counted once each. */
  lemma {:induction false} ValidVotesCountApprovers(approvals: seq<Address>, signers: seq<Address>)
    requires NoDuplicates(approvals)
    ensures ValidVotes(approvals, signers) == |CurrentApprovers(approvals, signers)|
    decreases |approvals|
  {
    if approvals == [] {
      assert CurrentApprovers(approvals, signers) == {};
    } else {
      var n := |approvals| - 1;
      ValidVotesCountApprovers(approvals[..n], signers);
      var earlier := CurrentApprovers(approvals[..n], signers);
      assert approvals[n] !in earlier;
      assert approvals == approvals[..n] + [approvals[n]];
      if approvals[n] in signers {
        assert CurrentApprovers(approvals, signers) == earlier + {approvals[n]};
      } else {
        assert CurrentApprovers(approvals, signers) == earlier;
      }
    }
  }

  /** At least `threshold` different addresses approved that are signers in this very state. */
  ghost predicate HasQuorum(s: State, id: nat) {
    && id in s.proposals && s.config.Some?
    && |CurrentApprovers(s.proposals[id].approvals, s.config.value.signers)| >= s.config.value.threshold
  }

  lemma ExecutableHasQuorum(s: State, config: Config, id: nat, now: nat)
    requires Sound(s) && s.config == Some(config) && Executable(s, config, id, now).Ok?
    ensures HasQuorum(s, id) && Active(s.proposals[id], now)
  {
    assert ProposalSound(id, s.proposals[id]);
    ValidVotesCountApprovers(s.proposals[id].approvals, config.signers);
  }

  /** What any call may do to a stored proposal: flags only latch, approvals only grow, and the executed
      flag rises only in an execution that had the quorum of the signers of that moment. */
  ghost predicate Progress(s: State, s': State, id: nat)
    requires id in s.proposals
  {
    && id in s'.proposals
    && var p, q := s.proposals[id], s'.proposals[id];
    && (p.executed ==> q.executed) && (p.cancelled ==> q.cancelled)
    && p.approvals <= q.approvals
    && q.action == p.action && q.createdAt == p.createdAt && q.expiresAt == p.expiresAt
    && (!p.executed && q.executed ==> HasQuorum(s, id) && !p.cancelled)
  }

  lemma ExecuteStep(s: State, executor: Address, id: nat, now: nat)
    requires Sound(s)
    ensures var r := ExecuteAction(s, executor, id, now);
      r.Ok? ==> Sound(r.value) && forall i :: i in s.proposals ==> Progress(s, r.value, i)
  {
    var r := ExecuteAction(s, executor, id, now);
    if r.Ok? {
      var p := s.proposals[id];
      ExecutableHasQuorum(s, s.config.value, id, now);
      ActionFrame(MarkExecuted(s, id, p), p, s.admin, now);
      assert ProposalSound(id, p);
    }
  }

  lemma BatchStep(s: State, executor: Address, ids: seq<nat>, now: nat)
    requires Sound(s)
    ensures var r := ExecuteBatch(s, executor, ids, now);
      r.Ok? ==> Sound(r.value) && forall i :: i in s.proposals ==> Progress(s, r.value, i)
  {
    var r := ExecuteBatch(s, executor, ids, now);
    if r.Ok? {
      var config := s.config.value;
      var batch := CollectBatch(s, config, ids, now).value;
      CollectedMembers(s, config, ids, now);
      BatchFrame(s, ids, batch, s.admin, now);
      forall i | i in s.proposals
        ensures Progress(s, r.value, i) && ProposalSound(i, r.value.proposals[i])
      {
        assert ProposalSound(i, s.proposals[i]);
        if i in ids {
          assert Executable(s, config, i, now).Ok?;
          ExecutableHasQuorum(s, config, i, now);
        }
      }
    }
  }

  lemma ProposeStep(s: State, proposer: Address, action: Action, now: nat)
    requires Sound(s)
    ensures var r := Propose(s, proposer, action, now);
      r.Ok? ==> Sound(r.value) && forall i :: i in s.proposals ==> Progress(s, r.value, i)
  {
    var r := Propose(s, proposer, action, now);
    if r.Ok? {
      var superseded := if action.RotateAdmin? then Supersede(s, s.nextId, now) else s;
      forall i | i in s.proposals
        ensures i != s.nextId && Progress(s, superseded, i) && ProposalSound(i, superseded.proposals[i])
      {
        assert ProposalSound(i, s.proposals[i]);
      }
    }
  }

  /** Replacing one stored proposal by a sound successor of it. */
  lemma UpdateStep(s: State, id: nat, q: Proposal)
    requires Sound(s) && id in s.proposals && ProposalSound(id, q)
    requires Progress(s, s.(proposals := s.proposals[id := q]), id)
    ensures var s' := s.(proposals := s.proposals[id := q]);
      Sound(s') && forall i :: i in s.proposals ==> Progress(s, s', i)
  {
  }

  lemma ApproveStep(s: State, approver: Address, id: nat, now: nat)
    requires Sound(s)
    ensures var r := Approve(s, approver, id, now);
      r.Ok? ==> Sound(r.value) && forall i :: i in s.proposals ==> Progress(s, r.value, i)
  {
    if Approve(s, approver, id, now).Ok? {
      var p := s.proposals[id];
      assert ProposalSound(id, p);
      UpdateStep(s, id, p.(approvals := p.approvals + [approver]));
    }
  }

  lemma CancelStep(s: State, canceller: Address, id: nat)
    requires Sound(s)
    ensures var r := Cancel(s, canceller, id);
      r.Ok? ==> Sound(r.value) && forall i :: i in s.proposals ==> Progress(s, r.value, i)
  {
    if Cancel(s, canceller, id).Ok? {
      assert ProposalSound(id, s.proposals[id]);
      UpdateStep(s, id, s.proposals[id].(cancelled := true));
    }
  }

  lemma SignerSetStep(s: State, c: Call, now: nat)
    requires Sound(s)
    requires !c.ProposeCall? && !c.ApproveCall? && !c.CancelCall? && !c.ExecuteCall? && !c.BatchCall?
    ensures Sound(Step(s, c, now)) && Step(s, c, now).proposals == s.proposals
  {
  }

  lemma StepSound(s: State, c: Call, now: nat)
    requires Sound(s)
    ensures Sound(Step(s, c, now))
    ensures forall i :: i in s.proposals ==> Progress(s, Step(s, c, now), i)
  {
    match c
    case ExecuteCall(executor, id) => ExecuteStep(s, executor, id, now);
    case BatchCall(executor, ids) => BatchStep(s, executor, ids, now);
    case ProposeCall(proposer, action) => ProposeStep(s, proposer, action, now);
    case ApproveCall(approver, id) => ApproveStep(s, approver, id, now);
    case CancelCall(canceller, id) => CancelStep(s, canceller, id);
    case _ => SignerSetStep(s, c, now);
  }

  /** Over every run: distinct approvals, exclusive flags, consecutive ids, and a threshold the signer
      list can reach survive configuration, recovery, council rotation and everything else. */
  lemma {:induction false} RunSound(s: State, calls: seq<(Call, nat)>)
    requires Sound(s)
    ensures Sound(Run(s, calls))
    decreases |calls|
  {
    if calls != [] {
      var n := |calls| - 1;
      RunSound(s, calls[..n]);
      StepSound(Run(s, calls[..n]), calls[n].0, calls[n].1);
    }
  }

  /** The call that leads from one state to the next raised the executed flag, with a quorum. */
  ghost predicate ExecutedIn(before: State, after: State, id: nat) {
    && HasQuorum(before, id) && !before.proposals[id].executed && !before.proposals[id].cancelled
    && id in after.proposals && after.proposals[id].executed
  }

  lemma FlagRises(s: State, c: Call, now: nat, id: nat)
    requires Sound(s) && (id in s.proposals ==> !s.proposals[id].executed)
    requires id in Step(s, c, now).proposals && Step(s, c, now).proposals[id].executed
    ensures ExecutedIn(s, Step(s, c, now), id)
  {
    StepSound(s, c, now);
    if id !in s.proposals { NewProposalsAreOpen(s, c, now, id); }
  }

  predicate IsExecuted(s: State, id: nat) { id in s.proposals && s.proposals[id].executed }

  lemma {:induction false} FirstRise(flags: seq<bool>) returns (k: nat)
    requires |flags| > 1 && !flags[0] && flags[|flags| - 1]
    ensures k + 1 < |flags| && !flags[k] && flags[k + 1]
    decreases |flags|
  {
    if flags[1] {
      k := 0;
    } else {
      k := FirstRise(flags[1..]);
      k := k + 1;
    }
  }

  lemma RunOneMore(s: State, calls: seq<(Call, nat)>, k: nat)
    requires k < |calls|
    ensures Run(s, calls[..k + 1]) == Step(Run(s, calls[..k]), calls[k].0, calls[k].1)
  {
    assert calls[..k + 1][..k] == calls[..k];
  }

  /** Whatever a run executed was executed at one moment of it, by a quorum of the signers in force then. */
  lemma ExecutedHadQuorum(s: State, calls: seq<(Call, nat)>, id: nat) returns (k: nat)
    requires Sound(s) && !IsExecuted(s, id) && IsExecuted(Run(s, calls), id)
    ensures k < |calls| && ExecutedIn(Run(s, calls[..k]), Run(s, calls[..k + 1]), id)
  {
    var flags := seq(|calls| + 1, i requires 0 <= i <= |calls| => IsExecuted(Run(s, calls[..i]), id));
    assert calls[..|calls|] == calls && calls[..0] == [];
    k := FirstRise(flags);
    RunSound(s, calls[..k]);
    RunOneMore(s, calls, k);
    FlagRises(Run(s, calls[..k]), calls[k].0, calls[k].1, id);
  }

  lemma NewProposalsAreOpen(s: State, c: Call, now: nat, id: nat)
    requires Sound(s) && id !in s.proposals
    ensures id in Step(s, c, now).proposals ==> !Step(s, c, now).proposals[id].executed
  {
    if Attempt(s, c, now).Err? {
    } else if c.ExecuteCall? {
      ExecutionAddsNothing(s, c.executor, c.id, now, id);
    } else if c.BatchCall? {
      BatchAddsNothing(s, c.executor, c.ids, now, id);
    }
  }

  lemma ExecutionAddsNothing(s: State, executor: Address, i: nat, now: nat, id: nat)
    requires id !in s.proposals && ExecuteAction(s, executor, i, now).Ok?
    ensures id !in ExecuteAction(s, executor, i, now).value.proposals
  {
    ActionFrame(MarkExecuted(s, i, s.proposals[i]), s.proposals[i], s.admin, now);
  }

  lemma BatchAddsNothing(s: State, executor: Address, ids: seq<nat>, now: nat, id: nat)
    requires id !in s.proposals && ExecuteBatch(s, executor, ids, now).Ok?
    ensures id !in ExecuteBatch(s, executor, ids, now).value.proposals
  {
    CollectedMembers(s, s.config.value, ids, now);
    BatchFrame(s, ids, CollectBatch(s, s.config.value, ids, now).value, s.admin, now);
  }

  /** A council rotation keeps the signers pairwise distinct, so that distinct approvals can still reach
      the threshold, exactly when the replacement does not already hold another seat. */
  lemma ReseatKeepsDistinctIff(signers: seq<Address>, seat: Address, replacement: Address)
    requires NoDuplicates(signers) && seat in signers
    ensures NoDuplicates(Reseat(signers, seat, replacement)) <==> replacement == seat || replacement !in signers
  {
    var reseated := Reseat(signers, seat, replacement);
    var i :| 0 <= i < |signers| && signers[i] == seat;
    if replacement != seat && replacement in signers {
      var j :| 0 <= j < |signers| && signers[j] == replacement;
      assert reseated[i] == replacement && reseated[j] == replacement;
    } else {
      assert forall j :: 0 <= j < |signers| && j != i ==> reseated[j] == signers[j] != reseated[i];
    }
  }
}
