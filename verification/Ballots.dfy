/** Where ballots and proposals come from, and what an execution needs: the quorum of all ballots cast. */
module Ballots {
  import Int128
  import opened Chain
  import opened MapSum
  import opened Tally
  import opened SquareRoot

  // ── Proposals ────────────────────────────────────────────────────────────────

  predicate SameProposal(p: Proposal, q: Proposal) {
    q.kind == p.kind && q.mode == p.mode && q.quorumRequired == p.quorumRequired && q.createdAt == p.createdAt
    && q.expiresAt == p.expiresAt
  }

  lemma StepKeepsProposal(b: Book, c: Call, id: nat)
    requires id in b.proposals && id < b.nextId
    ensures id in Step(b, c).proposals && id < Step(b, c).nextId
    ensures SameProposal(b.proposals[id], Step(b, c).proposals[id])
  {
  }

  lemma {:induction false} RunKeepsProposal(b: Book, calls: seq<Call>, id: nat)
    requires id in b.proposals && id < b.nextId
    ensures id in Run(b, calls).proposals && SameProposal(b.proposals[id], Run(b, calls).proposals[id])
    decreases |calls|
  {
    if calls != [] {
      StepKeepsProposal(b, calls[0], id);
      RunKeepsProposal(Step(b, calls[0]), calls[1..], id);
    }
  }

  /** The call created the proposal: its life is what was asked for, or a week. Money is never voted on
      quadratically. */
  predicate CreatedBy(c: Call, p: Proposal) {
    c.CreateCall? && c.kind == p.kind && c.mode == p.mode && c.quorum == p.quorumRequired && c.now == p.createdAt
    && p.expiresAt == c.now + (if c.duration == 0 then 604_800 else c.duration)
    && (p.kind == Financial ==> p.mode == Standard)
  }

  /** Documented as for sentiment only; a quadratic proposal is accepted if and only if it is not about money. */
  lemma QuadraticAcceptedIff(b: Book, kind: Kind, quorum: int, duration: nat, now: nat)
    requires b.nextId < U64_MAX && now + duration <= U64_MAX && now + 604_800 <= U64_MAX
    ensures Create(b, kind, Quadratic, quorum, duration, now).Ok?
      <==> kind == Sentiment || kind == Upgrade || kind == ParameterChange
  {
  }

  lemma {:induction false} WasCreatedFrom(b: Book, calls: seq<Call>, id: nat) returns (n: nat)
    requires (forall i :: i in b.proposals ==> i < b.nextId) && id !in b.proposals && id in Run(b, calls).proposals
    ensures n < |calls| && CreatedBy(calls[n], Run(b, calls).proposals[id])
    decreases |calls|
  {
    var m := Step(b, calls[0]);
    if id in m.proposals {
      n := 0;
      RunKeepsProposal(m, calls[1..], id);
    } else {
      n := WasCreatedFrom(m, calls[1..], id);
      n := n + 1;
    }
  }

  /** Every proposal of a run was created in it, with the terms it has. */
  lemma WasCreated(calls: seq<Call>, id: nat) returns (n: nat)
    requires id in Run(EMPTY, calls).proposals
    ensures n < |calls| && CreatedBy(calls[n], Run(EMPTY, calls).proposals[id])
  {
    n := WasCreatedFrom(EMPTY, calls, id);
  }

  // ── Ballots ──────────────────────────────────────────────────────────────────

  /** The call cast the ballot, in time: with the whole base weight, or with the floor root of the credits spent. */
  predicate CastBy(c: Call, k: (nat, Address), r: Record, p: Proposal) {
    && c.VoteCall? && c.id == k.0 && c.voter == k.1 && c.choice == r.choice && c.now <= p.expiresAt && c.baseWeight > 0
    && (p.mode == Standard ==> r.weight == c.baseWeight && r.credits == 0)
    && (p.mode == Quadratic ==>
          && 0 < r.credits == c.voiceCredits <= c.baseWeight
          && (r.credits < Int128.MAX ==> IsFloorRoot(r.credits, r.weight)))
  }

  lemma StepCasts(b: Book, c: Call, k: (nat, Address))
    requires k !in b.records && k in Step(b, c).records
    ensures k.0 in b.proposals && !b.proposals[k.0].executed && CastBy(c, k, Step(b, c).records[k], b.proposals[k.0])
  {
  }

  lemma {:induction false} WasCastFrom(b: Book, calls: seq<Call>, k: (nat, Address)) returns (n: nat)
    requires forall i :: i in b.proposals ==> i < b.nextId
    requires k !in b.records && k in Run(b, calls).records
    ensures n < |calls| && k.0 in Run(b, calls).proposals
    ensures CastBy(calls[n], k, Run(b, calls).records[k], Run(b, calls).proposals[k.0])
    decreases |calls|
  {
    var m := Step(b, calls[0]);
    if k in m.records {
      n := 0;
      StepCasts(b, calls[0], k);
      RunKeepsProposal(b, calls, k.0);
      RecordsAreImmutable(m, calls[1..], k);
    } else {
      n := WasCastFrom(m, calls[1..], k);
      n := n + 1;
    }
  }

  /** Every ballot of a run was cast in it by its voter, with the choice and weight it has. */
  lemma WasCast(calls: seq<Call>, k: (nat, Address)) returns (n: nat)
    requires k in Run(EMPTY, calls).records
    ensures n < |calls| && k.0 in Run(EMPTY, calls).proposals
    ensures CastBy(calls[n], k, Run(EMPTY, calls).records[k], Run(EMPTY, calls).proposals[k.0])
  {
    n := WasCastFrom(EMPTY, calls, k);
  }

  // ── Quorum ───────────────────────────────────────────────────────────────────

  ghost function WeightsIn(records: map<(nat, Address), Record>, id: nat, c: Choice): map<(nat, Address), int> {
    map k | k in records && k.0 == id && records[k].choice == c :: records[k].weight
  }

  ghost function AllWeightsIn(records: map<(nat, Address), Record>, id: nat): map<(nat, Address), int> {
    map k | k in records && k.0 == id :: records[k].weight
  }

  lemma OneFewer(records: map<(nat, Address), Record>, id: nat, c: Choice, k: (nat, Address))
    requires k in records
    ensures Total(WeightsIn(records, id, c)) == Total(WeightsIn(records - {k}, id, c))
      + if k.0 == id && records[k].choice == c then records[k].weight else 0
  {
    if k.0 == id && records[k].choice == c {
      TotalRemove(WeightsIn(records, id, c), k);
      assert WeightsIn(records, id, c) - {k} == WeightsIn(records - {k}, id, c);
    } else {
      assert WeightsIn(records, id, c) == WeightsIn(records - {k}, id, c);
    }
  }

  lemma AllOneFewer(records: map<(nat, Address), Record>, id: nat, k: (nat, Address))
    requires k in records
    ensures Total(AllWeightsIn(records, id)) == Total(AllWeightsIn(records - {k}, id))
      + if k.0 == id then records[k].weight else 0
  {
    if k.0 == id {
      TotalRemove(AllWeightsIn(records, id), k);
      assert AllWeightsIn(records, id) - {k} == AllWeightsIn(records - {k}, id);
    } else {
      assert AllWeightsIn(records, id) == AllWeightsIn(records - {k}, id);
    }
  }

  /** Every ballot has one of the three choices. */
  lemma {:induction false} BallotsByChoice(records: map<(nat, Address), Record>, id: nat)
    ensures Total(AllWeightsIn(records, id))
      == Total(WeightsIn(records, id, For)) + Total(WeightsIn(records, id, Against))
         + Total(WeightsIn(records, id, Abstain))
    decreases |records|
  {
    if records == map[] {
      assert AllWeightsIn(records, id) == map[];
      assert WeightsIn(records, id, For) == WeightsIn(records, id, Against) == WeightsIn(records, id, Abstain) == map[];
    } else {
      var k :| k in records;
      OneFewer(records, id, For, k);
      OneFewer(records, id, Against, k);
      OneFewer(records, id, Abstain, k);
      AllOneFewer(records, id, k);
      BallotsByChoice(records - {k}, id);
    }
  }

  lemma VotesAreBallots(b: Book, id: nat)
    requires Sound(b) && id in b.proposals
    ensures var p := b.proposals[id]; p.votesFor + p.votesAgainst + p.votesAbstain == Total(BallotWeights(b, id))
    ensures forall c :: Votes(b.proposals[id], c) >= 0
  {
    BallotsByChoice(b.records, id);
    assert AllWeightsIn(b.records, id) == BallotWeights(b, id);
    forall c: Choice ensures Votes(b.proposals[id], c) == Total(WeightsIn(b.records, id, c)) >= 0 {
      assert WeightsIn(b.records, id, c) == Weights(b, id, c);
      TotalNonNegative(Weights(b, id, c));
    }
    assert Votes(b.proposals[id], For) == b.proposals[id].votesFor;
    assert Votes(b.proposals[id], Against) == b.proposals[id].votesAgainst;
    assert Votes(b.proposals[id], Abstain) == b.proposals[id].votesAbstain;
  }

  /** The admin can execute a proposal if and only if it is open and all ballots cast for it, abstentions included,
      reach its quorum (and their sum is an `i128`). */
  lemma ExecuteSucceedsIff(b: Book, isAdmin: bool, id: nat, now: nat)
    requires Sound(b)
    ensures Execute(b, isAdmin, id, now).Ok? <==>
      && isAdmin && id in b.proposals && !b.proposals[id].executed && now <= b.proposals[id].expiresAt
      && b.proposals[id].quorumRequired <= Total(BallotWeights(b, id)) <= Int128.MAX
    ensures Execute(b, isAdmin, id, now).Ok? ==>
      Execute(b, isAdmin, id, now).value == b.(proposals := b.proposals[id := b.proposals[id].(executed := true)])
  {
    if id in b.proposals {
      VotesAreBallots(b, id);
      assert Votes(b.proposals[id], For) == b.proposals[id].votesFor;
      assert Votes(b.proposals[id], Against) == b.proposals[id].votesAgainst;
      assert Votes(b.proposals[id], Abstain) == b.proposals[id].votesAbstain;
    }
  }

  ghost predicate QuorumMet(b: Book) {
    forall id :: id in b.proposals && b.proposals[id].executed ==>
      var p := b.proposals[id]; p.votesFor + p.votesAgainst + p.votesAbstain >= p.quorumRequired
  }

  lemma StepKeepsQuorum(b: Book, c: Call)
    requires QuorumMet(b)
    ensures QuorumMet(Step(b, c))
  {
  }

  lemma {:induction false} RunKeepsQuorum(b: Book, calls: seq<Call>)
    requires QuorumMet(b)
    ensures QuorumMet(Run(b, calls))
    decreases |calls|
  {
    if calls != [] {
      StepKeepsQuorum(b, calls[0]);
      RunKeepsQuorum(Step(b, calls[0]), calls[1..]);
    }
  }

  /** Whatever was executed in a run has ballots of at least its quorum. */
  lemma ExecutedHasQuorum(calls: seq<Call>, id: nat)
    requires forall i :: 0 <= i < |calls| ==> WellTyped(calls[i])
    requires id in Run(EMPTY, calls).proposals && Run(EMPTY, calls).proposals[id].executed
    ensures Total(BallotWeights(Run(EMPTY, calls), id)) >= Run(EMPTY, calls).proposals[id].quorumRequired
  {
    RunKeepsQuorum(EMPTY, calls);
    TalliesAreSums(EMPTY, calls);
    VotesAreBallots(Run(EMPTY, calls), id);
  }
}
