/** Where signer sets and proposals come from: who may change the signers and with what support, and that what is
    executed is what was proposed. */
module SignerChanges {
  import opened Wrappers
  import opened Chain
  import opened AccessControl

  predicate IsSigner(s: State, a: Address) { s.config.Some? && a in s.config.value.signers }

  // ── The signer set ───────────────────────────────────────────────────────────

  /** The admin configured it. */
  predicate Configured(s: State, r: State, c: Call) {
    c.ConfigureCall? && c.caller == s.admin && 1 <= c.threshold <= |c.signers|
    && r.config == Some(Config(c.threshold, c.signers))
  }

  /** A signer executed a recovery nobody objected to, at least six days after it was proposed. */
  predicate Recovered(s: State, r: State, c: Call, now: nat) {
    && c.ExecuteRecoveryCall? && IsSigner(s, c.executor) && c.id in s.recoveries && c.id in r.recoveries
    && var x := s.recoveries[c.id];
    && !x.executed && x.objections == [] && now >= x.createdAt + 518_400
    && r.config == Some(Config(x.newThreshold, x.newSigners)) && r.recoveries[c.id].executed
  }

  /** Enough signers voted to give one seat to the replacement; everybody else keeps theirs. */
  predicate Reseated(s: State, r: State, c: Call) {
    && c.ConcludeElectionCall? && c.id in s.elections && c.id in r.elections && s.config.Some? && r.config.Some?
    && var e, before, after := s.elections[c.id], s.config.value, r.config.value;
    && !e.concluded && r.elections[c.id].concluded && r.elections[c.id].confirmed
    && 2 <= before.threshold <= e.votesFor && after.threshold == before.threshold
    && |after.signers| == |before.signers|
    && forall i :: 0 <= i < |before.signers| ==>
         after.signers[i] == if before.signers[i] == e.seat then e.replacement else before.signers[i]
  }

  /** Executing marks proposals executed; it touches no signer set, recovery, election or counter. */
  lemma ExecutionOnlyMarks(s: State, c: Call, now: nat) returns (ids: set<nat>)
    requires c.ExecuteCall? || c.BatchCall?
    ensures SameGovernance(s, Step(s, c, now)) && Step(s, c, now).proposals == Executed(s.proposals, ids)
  {
    ids := {};
    assert Executed(s.proposals, {}) == s.proposals;
    if Attempt(s, c, now).Ok? {
      if c.ExecuteCall? {
        var p := s.proposals[c.id];
        ids := {c.id};
        ActionFrame(MarkExecuted(s, c.id, p), p, s.admin, now);
        assert s.proposals[c.id := p.(executed := true)] == Executed(s.proposals, ids);
      } else {
        ids := Ids(c.ids);
        CollectedMembers(s, s.config.value, c.ids, now);
        var batch := CollectBatch(s, s.config.value, c.ids, now).value;
        assert forall i :: 0 <= i < |c.ids| ==> Executable(s, s.config.value, c.ids[i], now) == Ok(batch[i]);
        BatchFrame(s, c.ids, batch, s.admin, now);
      }
    }
  }

  /** The signers or their threshold change in these three ways only; no proposal can change them. */
  lemma SignersChangeOnlyBy(s: State, c: Call, now: nat)
    ensures var r := Step(s, c, now);
      r.config != s.config ==> Configured(s, r, c) || Recovered(s, r, c, now) || Reseated(s, r, c)
  {
    if c.ExecuteCall? || c.BatchCall? { var _ := ExecutionOnlyMarks(s, c, now); }
  }

  // ── Elections and recoveries over runs ───────────────────────────────────────

  ghost predicate ElectionSound(e: Election) {
    NoDuplicates(e.voters) && e.votesFor + e.votesAgainst == |e.voters| && (e.confirmed ==> e.concluded)
  }

  ghost predicate ElectionsSound(s: State) { forall id :: id in s.elections ==> ElectionSound(s.elections[id]) }

  lemma ElectionStep(s: State, c: Call, now: nat)
    requires ElectionsSound(s)
    ensures ElectionsSound(Step(s, c, now))
  {
    if c.ExecuteCall? || c.BatchCall? { var _ := ExecutionOnlyMarks(s, c, now); }
  }

  lemma {:induction false} RunElections(s: State, calls: seq<(Call, nat)>)
    requires ElectionsSound(s)
    ensures ElectionsSound(Run(s, calls))
    decreases |calls|
  {
    if calls != [] {
      var n := |calls| - 1;
      RunElections(s, calls[..n]);
      ElectionStep(Run(s, calls[..n]), calls[n].0, calls[n].1);
    }
  }

  ghost function Voters(s: seq<Address>): set<Address> { set a | a in s }

  lemma {:induction false} DistinctCardinality(s: seq<Address>)
    requires NoDuplicates(s)
    ensures |Voters(s)| == |s|
    decreases |s|
  {
    if s != [] {
      var n := |s| - 1;
      DistinctCardinality(s[..n]);
      assert s == s[..n] + [s[n]];
      assert s[n] !in s[..n];
      assert Voters(s) == Voters(s[..n]) + {s[n]};
    }
  }

  /** A seat changes hands only if at least the threshold of distinct addresses voted, over any run. */
  lemma ReseatingHadVotes(s: State, calls: seq<(Call, nat)>, c: Call, now: nat)
    requires ElectionsSound(s) && c.ConcludeElectionCall?
    requires Step(Run(s, calls), c, now).config != Run(s, calls).config
    ensures var w := Run(s, calls);
      && c.id in w.elections && w.config.Some?
      && |Voters(w.elections[c.id].voters)| >= w.config.value.threshold >= 2
  {
    RunElections(s, calls);
    SignersChangeOnlyBy(Run(s, calls), c, now);
    DistinctCardinality(Run(s, calls).elections[c.id].voters);
  }

  /** The supporting votes for an election that a run accepts. */
  ghost function Supporters(s: State, calls: seq<(Call, nat)>, id: nat): nat
    decreases |calls|
  {
    if calls == [] then 0
    else
      var n := |calls| - 1;
      Supporters(s, calls[..n], id) + if Supports(Run(s, calls[..n]), calls[n].0, calls[n].1, id) then 1 else 0
  }

  ghost predicate Supports(s: State, c: Call, now: nat, id: nat) {
    c.VoteElectionCall? && c.id == id && c.support && Attempt(s, c, now).Ok?
  }

  lemma AcceptedVoteCounts(s: State, voter: Address, id: nat, support: bool)
    requires VoteElection(s, voter, id, support).Ok?
    ensures id in s.elections
    ensures var e, r := s.elections[id], VoteElection(s, voter, id, support).value;
      && r == s.(elections := s.elections[id := r.elections[id]])
      && r.elections[id].votesFor == e.votesFor + (if support then 1 else 0)
      && r.elections[id].seat == e.seat && r.elections[id].replacement == e.replacement
  {
  }

  lemma OtherCallsCastNoVote(s: State, c: Call, now: nat, id: nat)
    requires id in s.elections && id < s.nextElection && !c.VoteElectionCall?
    ensures var r := Step(s, c, now);
      && id in r.elections && id < r.nextElection && r.elections[id].votesFor == s.elections[id].votesFor
      && r.elections[id].seat == s.elections[id].seat && r.elections[id].replacement == s.elections[id].replacement
  {
    if c.ExecuteCall? || c.BatchCall? { var _ := ExecutionOnlyMarks(s, c, now); }
  }

  lemma VoteCounts(s: State, c: Call, now: nat, id: nat)
    requires id in s.elections && id < s.nextElection
    ensures var r := Step(s, c, now);
      && id in r.elections && id < r.nextElection
      && r.elections[id].votesFor == s.elections[id].votesFor + (if Supports(s, c, now, id) then 1 else 0)
      && r.elections[id].seat == s.elections[id].seat && r.elections[id].replacement == s.elections[id].replacement
  {
    if !c.VoteElectionCall? {
      OtherCallsCastNoVote(s, c, now, id);
    } else if Attempt(s, c, now).Ok? {
      AcceptedVoteCounts(s, c.voter, c.id, c.support);
    }
  }

  /** Over any run the votes for an election grow by the supporting votes cast, no more and no less. */
  lemma {:induction false} VotesAreSupport(s: State, calls: seq<(Call, nat)>, id: nat)
    requires id in s.elections && id < s.nextElection
    ensures var r := Run(s, calls);
      && id in r.elections && id < r.nextElection
      && r.elections[id].votesFor == s.elections[id].votesFor + Supporters(s, calls, id)
      && r.elections[id].seat == s.elections[id].seat && r.elections[id].replacement == s.elections[id].replacement
    decreases |calls|
  {
    if calls != [] {
      var n := |calls| - 1;
      VotesAreSupport(s, calls[..n], id);
      VoteCounts(Run(s, calls[..n]), calls[n].0, calls[n].1, id);
    }
  }

  /** An objection stays, and a recovery somebody objected to stays unexecuted. */
  predicate Blocked(s: State, id: nat) {
    id < s.nextRecovery && id in s.recoveries && s.recoveries[id].objections != [] && !s.recoveries[id].executed
  }

  lemma StepStaysBlocked(s: State, c: Call, now: nat, id: nat)
    requires Blocked(s, id)
    ensures Blocked(Step(s, c, now), id)
  {
    if c.ExecuteCall? || c.BatchCall? { var _ := ExecutionOnlyMarks(s, c, now); }
  }

  /** One objection blocks a recovery for good. */
  lemma {:induction false} ObjectionBlocksRecovery(s: State, calls: seq<(Call, nat)>, id: nat, executor: Address,
      now: nat)
    requires Blocked(s, id)
    ensures Blocked(Run(s, calls), id) && ExecuteRecovery(Run(s, calls), executor, id, now).Err?
    decreases |calls|
  {
    if calls != [] {
      var n := |calls| - 1;
      ObjectionBlocksRecovery(s, calls[..n], id, executor, now);
      StepStaysBlocked(Run(s, calls[..n]), calls[n].0, calls[n].1, id);
    }
  }

  /** Any signer's objection counts. */
  lemma ObjectionCounts(s: State, objector: Address, id: nat)
    requires IsSigner(s, objector) && id in s.recoveries && id < s.nextRecovery && !s.recoveries[id].executed
    ensures Blocked(s, id)
      || (ObjectRecovery(s, objector, id).Ok? && Blocked(ObjectRecovery(s, objector, id).value, id))
  {
  }

  // ── Proposals ────────────────────────────────────────────────────────────────

  /** The call proposed this proposal, with its proposer's approval and a life of a week. */
  predicate ProposesIt(c: Call, time: nat, p: Proposal) {
    c.ProposeCall? && c.action == p.action && c.proposer == p.proposer && p.createdAt == time
    && p.expiresAt == time + 120_960
  }

  predicate SameTerms(p: Proposal, q: Proposal) {
    q.action == p.action && q.proposer == p.proposer && q.createdAt == p.createdAt && q.expiresAt == p.expiresAt
  }

  lemma StepKeepsTerms(s: State, c: Call, now: nat, id: nat)
    requires id in Step(s, c, now).proposals
    ensures var q := Step(s, c, now).proposals[id];
      (id in s.proposals && SameTerms(s.proposals[id], q)) || (IsSigner(s, q.proposer) && ProposesIt(c, now, q))
  {
    if c.ExecuteCall? || c.BatchCall? {
      var _ := ExecutionOnlyMarks(s, c, now);
    } else if c.ProposeCall? && Attempt(s, c, now).Ok? {
      ProposalKeepsTerms(s, c.proposer, c.action, now, id);
    }
  }

  lemma ProposalKeepsTerms(s: State, proposer: Address, action: Action, now: nat, id: nat)
    requires Propose(s, proposer, action, now).Ok? && id in Propose(s, proposer, action, now).value.proposals
    ensures var q := Propose(s, proposer, action, now).value.proposals[id];
      || (id in s.proposals && SameTerms(s.proposals[id], q))
      || (IsSigner(s, q.proposer) && ProposesIt(ProposeCall(proposer, action), now, q))
  {
  }

  /** Every proposal of a run, executed or not, was proposed in it by a signer, with the action it has now. */
  lemma {:induction false} WasProposed(s: State, calls: seq<(Call, nat)>, id: nat) returns (n: nat)
    requires s.proposals == map[] && id in Run(s, calls).proposals
    ensures n < |calls| && ProposesIt(calls[n].0, calls[n].1, Run(s, calls).proposals[id])
    ensures IsSigner(Run(s, calls[..n]), Run(s, calls).proposals[id].proposer)
    decreases |calls|
  {
    n := |calls| - 1;
    var w, q := Run(s, calls[..n]), Run(s, calls).proposals[id];
    StepKeepsTerms(w, calls[n].0, calls[n].1, id);
    if !(IsSigner(w, q.proposer) && ProposesIt(calls[n].0, calls[n].1, q)) {
      var m := WasProposed(s, calls[..n], id);
      assert calls[..n][..m] == calls[..m];
      n := m;
    }
  }

  /** The signers that have approved: an accepted approval adds exactly the approver. */
  lemma ApprovalCounts(s: State, approver: Address, id: nat, now: nat, r: State)
    requires Approve(s, approver, id, now) == Ok(r)
    ensures IsSigner(s, approver) && id in s.proposals && id in r.proposals && Active(s.proposals[id], now)
    ensures approver !in s.proposals[id].approvals
    ensures ValidVotes(r.proposals[id].approvals, s.config.value.signers)
      == ValidVotes(s.proposals[id].approvals, s.config.value.signers) + 1
    ensures r == s.(proposals := s.proposals[id := r.proposals[id]]) && SameTerms(s.proposals[id], r.proposals[id])
  {
    var approvals := s.proposals[id].approvals;
    assert (approvals + [approver])[..|approvals|] == approvals;
  }

  /** A proposal is cancelled by its proposer, or by a signer once it has the threshold of approvals; a new rotation
      also cancels the pending one. */
  lemma CancelledBy(s: State, c: Call, now: nat, id: nat)
    requires id in s.proposals && !s.proposals[id].cancelled && id < s.nextId
    requires id in Step(s, c, now).proposals && Step(s, c, now).proposals[id].cancelled
    ensures !s.proposals[id].executed && s.config.Some?
    ensures
      || (c.CancelCall? && c.id == id && IsSigner(s, c.canceller)
          && (c.canceller == s.proposals[id].proposer || |s.proposals[id].approvals| >= s.config.value.threshold))
      || (c.ProposeCall? && c.action.RotateAdmin? && s.proposals[id].action.RotateAdmin?
        && s.pendingRotation == Some(id)
          && IsSigner(s, c.proposer))
  {
    if c.ExecuteCall? || c.BatchCall? { var _ := ExecutionOnlyMarks(s, c, now); }
  }

  /** What a run has cancelled it never executes. */
  lemma CancelledIsNeverExecuted(s: State, calls: seq<(Call, nat)>, id: nat)
    requires Sound(s) && id in s.proposals && s.proposals[id].cancelled
    ensures id in Run(s, calls).proposals && Run(s, calls).proposals[id].cancelled
    ensures !Run(s, calls).proposals[id].executed
  {
    StaysCancelled(s, calls, id);
    RunSound(s, calls);
    assert ProposalSound(id, Run(s, calls).proposals[id]);
  }

  lemma {:induction false} StaysCancelled(s: State, calls: seq<(Call, nat)>, id: nat)
    requires Sound(s) && id in s.proposals && s.proposals[id].cancelled
    ensures id in Run(s, calls).proposals && Run(s, calls).proposals[id].cancelled
    decreases |calls|
  {
    if calls != [] {
      var n := |calls| - 1;
      StaysCancelled(s, calls[..n], id);
      RunSound(s, calls[..n]);
      StepSound(Run(s, calls[..n]), calls[n].0, calls[n].1);
    }
  }
}
