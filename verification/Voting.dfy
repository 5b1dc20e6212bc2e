/** `governance_voting`: the integer square root of quadratic voting, and the tallies. */
module SquareRoot {
  import Int128

  newtype i128 = x: int | Int128.MIN <= x <= Int128.MAX

  const TOP: i128 := 0x7FFF_FFFF_FFFF_FFFF_FFFF_FFFF_FFFF_FFFF
  const TWO_TO_126: int := 0x4000_0000_0000_0000_0000_0000_0000_0000

  predicate IsFloorRoot(n: int, r: int) { 0 <= r && r * r <= n < (r + 1) * (r + 1) }

  function SaturatingMul(a: i128, b: i128): i128 { Int128.Saturate(a as int * b as int) as i128 }

  lemma SquareMonotone(a: int, b: int)
    requires 0 <= a <= b
    ensures a * a <= b * b
  {
  }

  lemma FloorRootUnique(n: int, r: int, q: int)
    requires IsFloorRoot(n, r) && IsFloorRoot(n, q)
    ensures r == q
  {
    if r < q { SquareMonotone(r + 1, q); }
    if q < r { SquareMonotone(q + 1, r); }
  }

  /** The reference: the root by counting up. */
  ghost function FloorRoot(n: nat): (r: nat)
    ensures IsFloorRoot(n, r)
  {
    if n == 0 then 0
    else
      var p := FloorRoot(n - 1);
      if (p + 1) * (p + 1) <= n then p + 1 else p
  }

  /** What `integer_sqrt` returns: the floor root, except at the two ends of the type. */
  ghost function Root(n: int): int {
    if n < 0 then 0 else if n == Int128.MAX then TWO_TO_126 else FloorRoot(n)
  }

  /** `integer_sqrt`: no step overflows the type, and the result is the floor root for every
      non-negative input but the largest, where the saturated square of 2^126 equals the input. */
  method IntegerSqrt(n: i128) returns (r: i128)
    ensures r as int == Root(n as int)
    ensures n >= 0 ==> (IsFloorRoot(n as int, r as int) <==> n != TOP)
  {
    if n < 0 { return 0; }
    if n == 0 { return 0; }
    if n == 1 {
      FloorRootUnique(1, FloorRoot(1), 1);
      return 1;
    }
    var low: i128 := 1;
    var high: i128 := n;
    var result: i128 := 1;
    while low <= high
      invariant 1 <= low as int <= high as int + 1 && high <= n
      invariant result as int == (if low == 1 then 1 else low as int - 1)
      invariant result as int * result as int <= n as int
      invariant n as int < (high as int + 1) * (high as int + 1)
      invariant n == TOP ==> low == 1 && high == n
      decreases high as int - low as int
    {
      var mid := low + (high - low) / 2;
      var square := SaturatingMul(mid, mid);
      if square == n {
        if n == TOP {
          assert mid as int == TWO_TO_126;
        } else {
          FloorRootUnique(n as int, FloorRoot(n as int), mid as int);
        }
        return mid;
      } else if square < n {
        low := mid + 1;
        result := mid;
      } else {
        high := mid - 1;
      }
    }
    FloorRootUnique(n as int, FloorRoot(n as int), result as int);
    return result;
  }
}

module Tally {
  import opened Wrappers
  import opened Int128
  import opened Chain
  import opened MapSum
  import Rounding
  import SquareRoot

  const DEFAULT_PROPOSAL_DURATION: nat := 604_800

  datatype TallyError =
    | NotAdmin | ProposalNotFound | ProposalExpired | ProposalAlreadyExecuted | AlreadyVoted
    | InsufficientVotingWeight | ArithmeticOverflow | InvalidVoiceCredits | QuadraticVotingNotAllowed

  datatype Mode = Standard | Quadratic
  datatype Kind = Financial | Sentiment | Upgrade | ParameterChange
  datatype Choice = For | Against | Abstain

  datatype Proposal = Proposal(
    kind: Kind, mode: Mode, votesFor: int, votesAgainst: int, votesAbstain: int,
    createdAt: nat, expiresAt: nat, executed: bool, quorumRequired: int)

  datatype Record = Record(choice: Choice, weight: int, credits: int)

  datatype Book = Book(proposals: map<nat, Proposal>, nextId: nat, records: map<(nat, Address), Record>)

  const EMPTY := Book(map[], 0, map[])

  function Votes(p: Proposal, c: Choice): int {
    match c
    case For => p.votesFor
    case Against => p.votesAgainst
    case Abstain => p.votesAbstain
  }

  // ── Specification ────────────────────────────────────────────────────────────

  function Create(b: Book, kind: Kind, mode: Mode, quorum: int, duration: nat, now: nat): Result<Book, TallyError> {
    var expires := now + (if duration > 0 then duration else DEFAULT_PROPOSAL_DURATION);
    if kind == Financial && mode == Quadratic then Err(QuadraticVotingNotAllowed)
    else if expires > U64_MAX || b.nextId >= U64_MAX then Err(ArithmeticOverflow)
    else Ok(b.(proposals := b.proposals[b.nextId := Proposal(kind, mode, 0, 0, 0, now, expires, false, quorum)],
               nextId := b.nextId + 1))
  }

  /** Weight and credits of a ballot: the full base weight, or the root of the credits spent. */
  ghost function Ballot(mode: Mode, choice: Choice, baseWeight: int, voiceCredits: int): Result<Record, TallyError> {
    if baseWeight <= 0 then Err(InsufficientVotingWeight)
    else if mode == Standard then Ok(Record(choice, baseWeight, 0))
    else if voiceCredits <= 0 || voiceCredits > baseWeight then Err(InvalidVoiceCredits)
    else Ok(Record(choice, SquareRoot.Root(voiceCredits), voiceCredits))
  }

  function AddVotes(p: Proposal, choice: Choice, weight: int): Proposal {
    match choice
    case For => p.(votesFor := p.votesFor + weight)
    case Against => p.(votesAgainst := p.votesAgainst + weight)
    case Abstain => p.(votesAbstain := p.votesAbstain + weight)
  }

  /** `baseWeight` is the voter's stake, or vested balance, at the proposal's snapshot. */
  ghost function Cast(b: Book, id: nat, voter: Address, choice: Choice, voiceCredits: int, baseWeight: int, now: nat)
    : Result<Book, TallyError>
  {
    if id !in b.proposals then Err(ProposalNotFound)
    else
      var p := b.proposals[id];
      if now > p.expiresAt then Err(ProposalExpired)
      else if p.executed then Err(ProposalAlreadyExecuted)
      else if (id, voter) in b.records then Err(AlreadyVoted)
      else
        var ballot :- Ballot(p.mode, choice, baseWeight, voiceCredits);
        if !Fits(Votes(p, choice) + ballot.weight) then Err(ArithmeticOverflow)
        else Ok(b.(proposals := b.proposals[id := AddVotes(p, choice, ballot.weight)],
                   records := b.records[(id, voter) := ballot]))
  }

  function Execute(b: Book, isAdmin: bool, id: nat, now: nat): Result<Book, TallyError> {
    if !isAdmin then Err(NotAdmin)
    else if id !in b.proposals then Err(ProposalNotFound)
    else
      var p := b.proposals[id];
      var sum := p.votesFor + p.votesAgainst;
      if p.executed then Err(ProposalAlreadyExecuted)
      else if now > p.expiresAt then Err(ProposalExpired)
      else if !Fits(sum) || !Fits(sum + p.votesAbstain) then Err(ArithmeticOverflow)
      else if sum + p.votesAbstain < p.quorumRequired then Err(InsufficientVotingWeight)
      else Ok(b.(proposals := b.proposals[id := p.(executed := true)]))
  }

  datatype Call =
    | CreateCall(kind: Kind, mode: Mode, quorum: int, duration: nat, now: nat)
    | VoteCall(id: nat, voter: Address, choice: Choice, voiceCredits: int, baseWeight: int, now: nat)
    | ExecuteCall(isAdmin: bool, id: nat, now: nat)

  ghost function Attempt(b: Book, c: Call): Result<Book, TallyError> {
    match c
    case CreateCall(kind, mode, quorum, duration, now) => Create(b, kind, mode, quorum, duration, now)
    case VoteCall(id, voter, choice, credits, base, now) => Cast(b, id, voter, choice, credits, base, now)
    case ExecuteCall(isAdmin, id, now) => Execute(b, isAdmin, id, now)
  }

  ghost function Step(b: Book, c: Call): Book {
    var r := Attempt(b, c);
    if r.Ok? then r.value else b
  }

  ghost function Run(b: Book, calls: seq<Call>): Book
    decreases |calls|
  {
    if calls == [] then b else Run(Step(b, calls[0]), calls[1..])
  }

  // ── Tallies are the sums of the records ──────────────────────────────────────

  ghost function Weights(b: Book, id: nat, c: Choice): map<(nat, Address), int> {
    map k | k in b.records && k.0 == id && b.records[k].choice == c :: b.records[k].weight
  }

  ghost predicate TallyAgrees(b: Book) {
    && (forall id :: id in b.proposals ==> id < b.nextId)
    && (forall k :: k in b.records ==> k.0 in b.proposals)
    && forall id, c :: id in b.proposals ==> Votes(b.proposals[id], c) == Total(Weights(b, id, c))
  }

  /** A quadratic ballot never weighs more than the root of the credits it spent. */
  ghost predicate RecordsSound(b: Book) {
    forall k :: k in b.records ==>
      var r := b.records[k];
      && k.0 in b.proposals && r.weight > 0
      && (b.proposals[k.0].mode == Standard ==> r.credits == 0)
      && (b.proposals[k.0].mode == Quadratic ==>
        r.credits > 0 && (r.weight * r.weight <= r.credits <==> r.credits != MAX))
  }

  ghost predicate Sound(b: Book) { TallyAgrees(b) && RecordsSound(b) }

  lemma CreatePreserves(b: Book, kind: Kind, mode: Mode, quorum: int, duration: nat, now: nat)
    requires Sound(b)
    ensures var r := Create(b, kind, mode, quorum, duration, now); r.Ok? ==> Sound(r.value)
  {
    var r := Create(b, kind, mode, quorum, duration, now);
    if r.Ok? {
      forall id, c | id in r.value.proposals
        ensures Votes(r.value.proposals[id], c) == Total(Weights(r.value, id, c))
      {
        assert Weights(r.value, id, c) == Weights(b, id, c);
        if id == b.nextId { assert Weights(b, id, c) == map[]; }
      }
    }
  }

  lemma BallotSound(mode: Mode, choice: Choice, baseWeight: int, voiceCredits: int)
    requires baseWeight <= MAX
    ensures var r := Ballot(mode, choice, baseWeight, voiceCredits);
      r.Ok? ==>
        && r.value.choice == choice && r.value.weight > 0
        && (mode == Standard ==> r.value.credits == 0 && r.value.weight == baseWeight)
        && (mode == Quadratic ==>
          && 0 < r.value.credits == voiceCredits <= baseWeight
          && (r.value.weight * r.value.weight <= r.value.credits <==> r.value.credits != MAX))
  {
    var r := Ballot(mode, choice, baseWeight, voiceCredits);
    if r.Ok? && mode == Quadratic && voiceCredits != MAX {
      var root := SquareRoot.FloorRoot(voiceCredits);
      assert root == 0 ==> voiceCredits < 1;
    }
  }

  /** Recording a ballot adds its weight to the sum for its own proposal and choice, and to no other. */
  lemma WeightsAfterBallot(b: Book, b': Book, k: (nat, Address), ballot: Record, id: nat, c: Choice)
    requires k !in b.records && b'.records == b.records[k := ballot]
    ensures Total(Weights(b', id, c)) == Total(Weights(b, id, c)) + if k.0 == id && ballot.choice == c
      then ballot.weight else 0
  {
    if k.0 == id && ballot.choice == c {
      TotalUpdate(Weights(b, id, c), k, ballot.weight);
      assert Weights(b', id, c) == Weights(b, id, c)[k := ballot.weight];
    } else {
      assert Weights(b', id, c) == Weights(b, id, c);
    }
  }

  lemma AddVotesEffect(p: Proposal, choice: Choice, weight: int, c: Choice)
    ensures Votes(AddVotes(p, choice, weight), c) == Votes(p, c) + if c == choice then weight else 0
    ensures AddVotes(p, choice, weight).mode == p.mode
  {
  }

  lemma CastPreserves(b: Book, id: nat, voter: Address, choice: Choice, voiceCredits: int, baseWeight: int, now: nat)
    requires Sound(b) && baseWeight <= MAX
    ensures var r := Cast(b, id, voter, choice, voiceCredits, baseWeight, now); r.Ok? ==> Sound(r.value)
  {
    var r := Cast(b, id, voter, choice, voiceCredits, baseWeight, now);
    if r.Ok? {
      BallotSound(b.proposals[id].mode, choice, baseWeight, voiceCredits);
      RecordBallot(b, r.value, id, voter, Ballot(b.proposals[id].mode, choice, baseWeight, voiceCredits).value);
    }
  }

  lemma RecordBallot(b: Book, b': Book, id: nat, voter: Address, ballot: Record)
    requires Sound(b) && id in b.proposals && (id, voter) !in b.records
    requires b' == b.(proposals := b.proposals[id := AddVotes(b.proposals[id], ballot.choice, ballot.weight)],
                      records := b.records[(id, voter) := ballot])
    requires RecordsSound(b.(records := map[(id, voter) := ballot]))
    ensures Sound(b')
  {
    forall i, c | i in b'.proposals
      ensures Votes(b'.proposals[i], c) == Total(Weights(b', i, c))
    {
      assert Votes(b.proposals[i], c) == Total(Weights(b, i, c));
      WeightsAfterBallot(b, b', (id, voter), ballot, i, c);
      AddVotesEffect(b.proposals[id], ballot.choice, ballot.weight, c);
    }
    forall k | k in b'.records
      ensures b'.proposals[k.0].mode == b.proposals[k.0].mode
    {
      AddVotesEffect(b.proposals[id], ballot.choice, ballot.weight, For);
    }
    assert (id, voter) in map[(id, voter) := ballot];
  }

  lemma ExecutePreserves(b: Book, isAdmin: bool, id: nat, now: nat)
    requires Sound(b)
    ensures var r := Execute(b, isAdmin, id, now); r.Ok? ==> Sound(r.value)
  {
    var r := Execute(b, isAdmin, id, now);
    if r.Ok? {
      forall i, c | i in r.value.proposals
        ensures Votes(r.value.proposals[i], c) == Total(Weights(r.value, i, c))
      {
        assert Weights(r.value, i, c) == Weights(b, i, c);
      }
    }
  }

  /** The base weights the contract can read are `i128` values. */
  predicate WellTyped(c: Call) { c.VoteCall? ==> c.baseWeight <= MAX }

  lemma StepPreserves(b: Book, c: Call)
    requires Sound(b) && WellTyped(c)
    ensures Sound(Step(b, c))
  {
    match c
    case CreateCall(kind, mode, quorum, duration, now) => CreatePreserves(b, kind, mode, quorum, duration, now);
    case VoteCall(id, voter, choice, credits, base, now) => CastPreserves(b, id, voter, choice, credits, base, now);
    case ExecuteCall(isAdmin, id, now) => ExecutePreserves(b, isAdmin, id, now);
  }

  /** After any run every tally is the sum of the recorded weights of its choice. */
  lemma {:induction false} TalliesAreSums(b: Book, calls: seq<Call>)
    requires Sound(b)
    requires forall i :: 0 <= i < |calls| ==> WellTyped(calls[i])
    ensures Sound(Run(b, calls))
    decreases |calls|
  {
    if calls != [] {
      StepPreserves(b, calls[0]);
      TalliesAreSums(Step(b, calls[0]), calls[1..]);
    }
  }

  /** In every reachable book each count of a proposal is exactly the sum of the ballots cast for it. */
  lemma ReachableTallies(calls: seq<Call>, id: nat, c: Choice)
    requires forall i :: 0 <= i < |calls| ==> WellTyped(calls[i])
    requires id in Run(EMPTY, calls).proposals
    ensures Votes(Run(EMPTY, calls).proposals[id], c) == Total(Weights(Run(EMPTY, calls), id, c))
  {
    TalliesAreSums(EMPTY, calls);
  }

  /** One immutable record a voter: no run changes or drops a ballot. */
  lemma {:induction false} RecordsAreImmutable(b: Book, calls: seq<Call>, k: (nat, Address))
    requires k in b.records
    ensures k in Run(b, calls).records && Run(b, calls).records[k] == b.records[k]
    decreases |calls|
  {
    if calls != [] {
      RecordsAreImmutable(Step(b, calls[0]), calls[1..], k);
    }
  }

  ghost predicate ClosedFor(b: Book, id: nat, calls: seq<Call>) {
    && id in b.proposals && id < b.nextId
    && (b.proposals[id].executed || forall i :: 0 <= i < |calls| ==> calls[i].now > b.proposals[id].expiresAt)
  }

  /** Once executed or expired, a proposal and its ballots never change again. */
  lemma {:induction false} ClosedProposalsAreFrozen(b: Book, id: nat, calls: seq<Call>)
    requires ClosedFor(b, id, calls)
    ensures id in Run(b, calls).proposals && Run(b, calls).proposals[id] == b.proposals[id]
    ensures forall voter: Address :: (id, voter) in Run(b, calls).records <==> (id, voter) in b.records
    decreases |calls|
  {
    if calls != [] {
      var c := calls[0];
      var b' := Step(b, c);
      assert calls[0].now == c.now;
      assert b'.proposals[id] == b.proposals[id] && b'.nextId >= b.nextId;
      assert forall voter: Address :: (id, voter) in b'.records <==> (id, voter) in b.records;
      assert forall i :: 0 <= i < |calls[1..]| ==> calls[1..][i] == calls[i + 1];
      ClosedProposalsAreFrozen(b', id, calls[1..]);
    }
  }

  // ── Quadratic voting bounds what a crowd can gain ────────────────────────────

  lemma CauchyStep(n: nat, w: int, c: int, x: int, credits: int)
    requires w >= 0 && x >= 0
    requires w * w <= n * c && x * x <= credits
    requires n == 0 ==> w == 0 && c == 0
    ensures (w + x) * (w + x) <= (n + 1) * (c + credits)
  {
    assert (w + x) * (w + x) == w * w + 2 * w * x + x * x;
    assert (n + 1) * (c + credits) == n * c + c + n * credits + credits;
    if n == 0 {
      assert w * x == 0 && w * w == 0;
    } else {
      var y := n * x;
      assert (w - y) * (w - y) >= 0;
      assert (w - y) * (w - y) == w * w - 2 * w * y + y * y;
      assert y * y == n * (n * (x * x));
      assert n * (x * x) <= n * credits;
      assert n * (n * (x * x)) <= n * (n * credits);
      assert w * y == n * (w * x);
      assert n * (2 * (w * x)) <= n * c + n * (n * credits);
      assert n * (2 * (w * x)) <= n * (c + n * credits);
      Rounding.MultiplyCancel(2 * (w * x), c + n * credits + 1, n);
    }
  }

  lemma {:induction false} RootsOfCredits<K>(weights: map<K, int>, credits: map<K, int>)
    requires weights.Keys == credits.Keys
    requires forall k :: k in weights ==> weights[k] >= 0 && weights[k] * weights[k] <= credits[k]
    ensures Total(weights) >= 0 && (weights == map[] ==> Total(credits) == 0)
    ensures Total(weights) * Total(weights) <= |weights| * Total(credits)
    decreases |weights|
  {
    if weights == map[] {
      assert credits == map[];
    } else {
      var k :| k in weights;
      TotalRemove(weights, k);
      TotalRemove(credits, k);
      RootsOfCredits(weights - {k}, credits - {k});
      CauchyStep(|weights - {k}|, Total(weights - {k}), Total(credits - {k}), weights[k], credits[k]);
    }
  }

  ghost function BallotWeights(b: Book, id: nat): map<(nat, Address), int> {
    map k | k in b.records && k.0 == id :: b.records[k].weight
  }

  ghost function BallotCredits(b: Book, id: nat): map<(nat, Address), int> {
    map k | k in b.records && k.0 == id :: b.records[k].credits
  }

  /** In every reachable book, the votes of a quadratic proposal squared are at most the number of
      voters times the credits they spent (for credits below the largest `i128`). */
  lemma QuadraticVotesAreBounded(calls: seq<Call>, id: nat)
    requires forall i :: 0 <= i < |calls| ==> WellTyped(calls[i])
    requires var b := Run(EMPTY, calls);
      && id in b.proposals && b.proposals[id].mode == Quadratic
      && forall k :: k in b.records && k.0 == id ==> b.records[k].credits != MAX
    ensures var b := Run(EMPTY, calls);
      var votes := Total(BallotWeights(b, id));
      votes * votes <= |BallotWeights(b, id)| * Total(BallotCredits(b, id))
  {
    var b := Run(EMPTY, calls);
    forall c: Choice ensures Weights(EMPTY, id, c) == map[] { }
    TalliesAreSums(EMPTY, calls);
    RootsOfCredits(BallotWeights(b, id), BallotCredits(b, id));
  }

  // ── The contract ─────────────────────────────────────────────────────────────

  class VotingContract {
    var proposals: map<nat, Proposal>
    var nextId: nat
    var records: map<(nat, Address), Record>
    const admin: Address

    function View(): Book
      reads this
    {
      Book(proposals, nextId, records)
    }

    constructor (admin: Address)
      ensures View() == EMPTY && this.admin == admin
    {
      this.admin := admin;
      proposals, nextId, records := map[], 0, map[];
    }

    method CreateProposal(kind: Kind, mode: Mode, quorum: int, duration: nat, now: nat)
        returns (r: Result<nat, TallyError>)
      modifies this
      ensures var spec := Create(old(View()), kind, mode, quorum, duration, now);
        if spec.Ok? then r == Ok(old(nextId)) && View() == spec.value else r == Err(spec.error) && View() == old(View())
    {
      if kind == Financial && mode == Quadratic { return Err(QuadraticVotingNotAllowed); }
      var id := nextId;
      var expires := now + (if duration > 0 then duration else DEFAULT_PROPOSAL_DURATION);
      if expires > U64_MAX || id + 1 > U64_MAX { return Err(ArithmeticOverflow); }
      proposals := proposals[id := Proposal(kind, mode, 0, 0, 0, now, expires, false, quorum)];
      nextId := id + 1;
      return Ok(id);
    }

    method Vote(voter: Address, id: nat, choice: Choice, voiceCredits: SquareRoot.i128, baseWeight: SquareRoot.i128,
        now: nat)
      returns (r: Result<(), TallyError>)
      modifies this
      ensures var spec := Cast(old(View()), id, voter, choice, voiceCredits as int, baseWeight as int, now);
        if spec.Ok? then r == Ok(()) && View() == spec.value else r == Err(spec.error) && View() == old(View())
    {
      if id !in proposals { return Err(ProposalNotFound); }
      var p := proposals[id];
      if now > p.expiresAt { return Err(ProposalExpired); }
      if p.executed { return Err(ProposalAlreadyExecuted); }
      if (id, voter) in records { return Err(AlreadyVoted); }
      if baseWeight <= 0 { return Err(InsufficientVotingWeight); }
      var weight, credits := baseWeight, 0 as SquareRoot.i128;
      if p.mode == Quadratic {
        if voiceCredits <= 0 { return Err(InvalidVoiceCredits); }
        if voiceCredits > baseWeight { return Err(InvalidVoiceCredits); }
        weight := SquareRoot.IntegerSqrt(voiceCredits);
        credits := voiceCredits;
      }
      var tally := Votes(p, choice) + weight as int;
      if !Fits(tally) { return Err(ArithmeticOverflow); }
      records := records[(id, voter) := Record(choice, weight as int, credits as int)];
      match choice {
        case For => p := p.(votesFor := tally);
        case Against => p := p.(votesAgainst := tally);
        case Abstain => p := p.(votesAbstain := tally);
      }
      proposals := proposals[id := p];
      return Ok(());
    }

    method ExecuteProposal(caller: Address, id: nat, now: nat) returns (r: Result<(), TallyError>)
      modifies this
      ensures var spec := Execute(old(View()), caller == admin, id, now);
        if spec.Ok? then r == Ok(()) && View() == spec.value else r == Err(spec.error) && View() == old(View())
    {
      if caller != admin { return Err(NotAdmin); }
      if id !in proposals { return Err(ProposalNotFound); }
      var p := proposals[id];
      if p.executed { return Err(ProposalAlreadyExecuted); }
      if now > p.expiresAt { return Err(ProposalExpired); }
      var sum := p.votesFor + p.votesAgainst;
      if !Fits(sum) || !Fits(sum + p.votesAbstain) { return Err(ArithmeticOverflow); }
      if sum + p.votesAbstain < p.quorumRequired { return Err(InsufficientVotingWeight); }
      proposals := proposals[id := p.(executed := true)];
      return Ok(());
    }
  }
}
