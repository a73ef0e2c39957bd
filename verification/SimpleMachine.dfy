/**
 What the pallet does, without its caches and in plain numbers: a machine that keeps only votes, stakeholders,
 proposals, counter-attestations, the approvals in the order in which they were given, one log per project, free
 balances and the events. It recomputes Eq. 1 from scratch after each vote, pays every bond in full, burns the
 whole units of the negligence share of a stake, and at each block enacts every proposal approved for it, unless
 a required role has no stake left.
 It departs from Eq. 1 in two ways: stake slashed from behind an aye goes on counting for it, and ayes whose
 multiple leaves 128 bits are enough for any quorum.
 */
module SimpleMachine {
  import opened Types
  import opened Sums
  import opened Protocol
  import opened Accounting
  import opened Ballots
  import opened Schedule
  import opened Quorum

  type Balances = map<AccountId, nat>
  type Logs = map<ProjectId, seq<ReleaseEntry>>

  datatype Simple = Simple(
    now: BlockNumber,
    nextProjectId: ProjectId,
    nextProposalId: ProposalId,
    projects: Projects,
    stakeholders: Registry,
    proposals: Proposals,
    votes: VoteBook,
    lost: map<ProposalId, nat>,
    counters: map<ProposalId, CounterAttestation>,
    approvals: seq<ProposalId>,
    logs: Logs,
    balances: Balances,
    events: Journal)

  function LogIn(logs: Logs, p: ProjectId): seq<ReleaseEntry> {
    if p in logs then logs[p] else []
  }

  function Pay(balances: Balances, who: AccountId, amount: nat): Balances {
    balances[who := ValueAt(balances, who) + amount]
  }

  function Take(balances: Balances, who: AccountId, amount: nat): Result<Balances> {
    if ValueAt(balances, who) < amount then Err(InsufficientBalance)
    else Ok(balances[who := ValueAt(balances, who) - amount])
  }

  function Emit(a: Simple, e: Event): Simple { a.(events := Deposit(a.events, e)) }

  /** The block so many blocks from now; the last block is number 4294967295. */
  function Later(now: BlockNumber, wait: BlockNumber): BlockNumber {
    if now + wait < 4_294_967_296 then now + wait else 4_294_967_295
  }

  lemma WholeUnits(parts: Perbill, stake: nat)
    ensures exists share: nat :: share * 1_000_000_000 <= parts * stake < (share + 1) * 1_000_000_000
  {
    var share: nat := parts * stake / 1_000_000_000;
    assert share * 1_000_000_000 <= parts * stake < (share + 1) * 1_000_000_000;
  }

  lemma OneShare(parts: Perbill, stake: nat, one: nat, two: nat)
    requires one * 1_000_000_000 <= parts * stake < (one + 1) * 1_000_000_000
    requires two * 1_000_000_000 <= parts * stake < (two + 1) * 1_000_000_000
    ensures one == two && one <= stake
  {
    var p: nat := parts;
    assert p * stake <= 1_000_000_000 * stake;
  }

  /** The whole units in so many parts of a billion of a stake. */
  ghost function Share(parts: Perbill, stake: nat): (share: nat)
    ensures share * 1_000_000_000 <= parts * stake < (share + 1) * 1_000_000_000
    ensures share <= stake
  {
    WholeUnits(parts, stake);
    var share: nat :| share * 1_000_000_000 <= parts * stake < (share + 1) * 1_000_000_000;
    OneShare(parts, stake, share, share);
    share
  }

  predicate DueAt(proposals: Proposals, id: ProposalId, b: BlockNumber) {
    id in proposals && proposals[id].status == Approved(b)
  }

  /** The proposals approved for one block, in order of approval. */
  function Due(approvals: seq<ProposalId>, proposals: Proposals, b: BlockNumber): seq<ProposalId> {
    if approvals == [] then []
    else (if DueAt(proposals, approvals[0], b) then [approvals[0]] else []) + Due(approvals[1..], proposals, b)
  }

  /** The approvals that are not for this block. */
  function NotDue(approvals: seq<ProposalId>, proposals: Proposals, b: BlockNumber): seq<ProposalId> {
    if approvals == [] then []
    else (if DueAt(proposals, approvals[0], b) then [] else [approvals[0]]) + NotDue(approvals[1..], proposals, b)
  }

  function WithStatus(proposals: Proposals, id: ProposalId, status: ProposalStatus): Proposals
    requires id in proposals
  {
    proposals[id := proposals[id].(status := status)]
  }

  // Calls

  function Enrol(a: Simple, p: ProjectId, init: StakeholderInit): Result<Simple> {
    if (p, init.account) in a.stakeholders then Err(DuplicateStakeholder)
    else
      match Take(a.balances, init.account, init.stake)
      case Err(e) => Err(e)
      case Ok(balances) =>
        Ok(Emit(a.(balances := balances,
                   stakeholders := a.stakeholders[(p, init.account) := Stakeholder(init.role, init.stake)]),
                StakeholderRegistered(p, init.account, init.role, init.stake)))
  }

  function EnrolAll(a: Simple, p: ProjectId, inits: seq<StakeholderInit>): Result<Simple>
    decreases |inits|
  {
    if inits == [] then Ok(a)
    else
      match Enrol(a, p, inits[0])
      case Err(e) => Err(e)
      case Ok(a1) => EnrolAll(a1, p, inits[1..])
  }

  ghost function Found(
    a: Simple, origin: Origin, name: seq<byte>, inits: seq<StakeholderInit>,
    policy: ReleasePolicy, slashing: SlashingParams, bond: Balance): Result<Simple>
  {
    if !origin.Root? then Err(BadOrigin)
    else if policy.requiredRoles == [] then Err(NoRequiredRoles)
    else
      var p := a.nextProjectId;
      match EnrolAll(a, p, inits)
      case Err(e) => Err(e)
      case Ok(a1) =>
        if exists rq :: rq in policy.requiredRoles && Sum(RoleWeights(a1.stakeholders, p, rq.role)) == 0 then
          Err(RequiredRoleHasNoStake)
        else
          Ok(Emit(a1.(projects := a1.projects[p := ProjectInfo(name, policy, slashing, bond)], nextProjectId := p + 1),
                  ProjectCreated(p, name)))
  }

  /** A vote, and the status it leaves: approved if the ayes back it now, voting if they do not. */
  ghost function Ballot(a: Simple, id: ProposalId, policy: ReleasePolicy, who: AccountId, aye: bool): Result<Simple>
    requires id in a.proposals && (a.proposals[id].projectId, who) in a.stakeholders
  {
    var v := a.proposals[id];
    var voter := a.stakeholders[(v.projectId, who)];
    var a1 := Emit(a.(votes := a.votes[(id, who) := aye]), Voted(id, who, voter.role, aye, voter.stake));
    var met := Backed(a1.stakeholders, a1.votes, ValueAt(a.lost, id), policy.requiredRoles, v.projectId, id);
    if met && v.status.Voting? then
      var b := Later(a.now, policy.enactmentDelay);
      if |Due(a.approvals, a.proposals, b)| >= 32 then Err(TooManyEnactments)
      else
        Ok(Emit(a1.(proposals := WithStatus(a.proposals, id, Approved(b)), approvals := a.approvals + [id]),
                ProposalApproved(id, b)))
    else if !met && v.status.Approved? then
      Ok(Emit(a1.(proposals := WithStatus(a.proposals, id, Voting), approvals := Without(a.approvals, id)),
              ProposalApprovalRevoked(id)))
    else Ok(a1)
  }

  ghost function ProposeRelease(
    verify: Verifier, a: Simple, origin: Origin, p: ProjectId, version: seq<byte>,
    attestation: BuildAttestation, cid: Hash32, signature: Signature): Result<Simple>
  {
    if !origin.Signed? then Err(BadOrigin)
    else if p !in a.projects then Err(ProjectNotFound)
    else if (p, origin.who) !in a.stakeholders then Err(NotStakeholder)
    else if a.stakeholders[(p, origin.who)].role != CoreDeveloper then Err(NotCoreDeveloper)
    else if (p, attestation.builder) !in a.stakeholders then Err(NotBuildService)
    else if a.stakeholders[(p, attestation.builder)].role != BuildService then Err(NotBuildService)
    else if !verify(signature, SigningPayload(attestation), attestation.builder) then Err(InvalidBuilderSignature)
    else
      var project := a.projects[p];
      match Take(a.balances, origin.who, project.proposalBond)
      case Err(e) => Err(e)
      case Ok(balances) =>
        var id := a.nextProposalId;
        var ends := Later(a.now, project.policy.votingPeriod);
        var v := Proposal(p, origin.who, version, attestation, cid, project.proposalBond, a.now, ends, Voting);
        Ballot(Emit(a.(balances := balances, nextProposalId := id + 1, proposals := a.proposals[id := v]),
                    ReleaseProposed(id, p, origin.who, ends)),
               id, project.policy, origin.who, true)
  }

  ghost function CastVote(a: Simple, origin: Origin, id: ProposalId, aye: bool): Result<Simple> {
    if !origin.Signed? then Err(BadOrigin)
    else if id !in a.proposals then Err(ProposalNotFound)
    else
      var v := a.proposals[id];
      if !Live(v.status) then Err(ProposalNotVoting)
      else if a.now > v.votingEnds then Err(VotingPeriodOver)
      else if v.projectId !in a.projects then Err(ProjectNotFound)
      else if (v.projectId, origin.who) !in a.stakeholders then Err(NotStakeholder)
      else Ballot(a, id, a.projects[v.projectId].policy, origin.who, aye)
  }

  /** What is lost from behind the ayes of each proposal once this builder is slashed. */
  function WithLosses(
    lost: map<ProposalId, nat>, proposals: Proposals, votes: VoteBook, p: ProjectId, builder: AccountId, share: nat)
    : map<ProposalId, nat>
  {
    map id | id in proposals ::
      ValueAt(lost, id)
      + if proposals[id].projectId == p && VoteOf(votes, id, builder) == Some(true) then share else 0
  }

  ghost function Reject(a: Simple, origin: Origin, id: ProposalId, rebuilt: Hash32): Result<Simple> {
    if !origin.Signed? then Err(BadOrigin)
    else if id !in a.proposals then Err(ProposalNotFound)
    else
      var v := a.proposals[id];
      var k := (v.projectId, v.attestation.builder);
      if v.projectId !in a.projects then Err(ProjectNotFound)
      else if (v.projectId, origin.who) !in a.stakeholders then Err(NotStakeholder)
      else if origin.who == v.attestation.builder then Err(BuilderCannotChallenge)
      else if rebuilt == v.attestation.outputBinaryHash then Err(NoDiscrepancy)
      else if !Live(v.status) then Err(ProposalNotChallengeable)
      else if k !in a.stakeholders then Err(NotBuildService)
      else
        var attested := v.attestation.outputBinaryHash;
        var stake := a.stakeholders[k].stake;
        var share := Share(a.projects[v.projectId].slashing.sigmaNeg, stake);
        var a1 := Emit(a, CounterAttestationAccepted(id, origin.who, attested, rebuilt));
        var a2 := Emit(a1, BuildServiceSlashed(v.projectId, v.attestation.builder, share, stake - share));
        Ok(Emit(a2, ProposalRejected(id)).(
             stakeholders := a.stakeholders[k := a.stakeholders[k].(stake := stake - share)],
             proposals := WithStatus(a.proposals, id, Rejected),
             lost := WithLosses(a.lost, a.proposals, a.votes, v.projectId, v.attestation.builder, share),
             counters := a.counters[id := CounterAttestation(origin.who, attested, rebuilt)],
             approvals := Without(a.approvals, id),
             balances := Pay(a.balances, v.proposer, v.bond)))
  }

  function Expire(a: Simple, origin: Origin, id: ProposalId): Result<Simple> {
    if !origin.Signed? then Err(BadOrigin)
    else if id !in a.proposals then Err(ProposalNotFound)
    else
      var v := a.proposals[id];
      if !v.status.Voting? then Err(ProposalNotVoting)
      else if a.now <= v.votingEnds then Err(VotingPeriodNotOver)
      else
        Ok(Emit(a.(proposals := WithStatus(a.proposals, id, Expired), balances := Pay(a.balances, v.proposer, v.bond)),
                ProposalExpired(id)))
  }

  // Blocks

  function Publish(a: Simple, id: ProposalId): Simple {
    if id !in a.proposals then a
    else
      var v := a.proposals[id];
      var log := LogIn(a.logs, v.projectId);
      var entry := ReleaseEntry(id, v.version, v.attestation.sourceCommitHash, v.attestation.outputBinaryHash,
                                v.attestationCid, a.now);
      Emit(a.(logs := a.logs[v.projectId := log + [entry]],
              proposals := WithStatus(a.proposals, id, ProposalStatus.Enacted),
              balances := Pay(a.balances, v.proposer, v.bond)),
           ReleaseEnacted(v.projectId, id, |log|))
  }

  /** Every required role of a project has stake left. */
  ghost predicate Manned(a: Simple, p: ProjectId) {
    forall rq :: rq in RequiredOf(a.projects, p) ==> Sum(RoleWeights(a.stakeholders, p, rq.role)) != 0
  }

  /** A due proposal is published, or goes back to the vote if a required role has no stake left. */
  ghost function Settle(a: Simple, id: ProposalId): Simple {
    if id !in a.proposals then a
    else if Manned(a, a.proposals[id].projectId) then Publish(a, id)
    else Emit(a.(proposals := WithStatus(a.proposals, id, Voting)), ProposalApprovalRevoked(id))
  }

  ghost function SettleAll(a: Simple, ids: seq<ProposalId>): Simple
    decreases |ids|
  {
    if ids == [] then a else SettleAll(Settle(a, ids[0]), ids[1..])
  }

  ghost function Tick(a: Simple): Simple {
    var now := a.now + 1;
    SettleAll(a.(now := now, approvals := NotDue(a.approvals, a.proposals, now)), Due(a.approvals, a.proposals, now))
  }

  function MovePaid(balances: Balances, from: AccountId, to: AccountId, amount: nat): Balances {
    if from !in balances || balances[from] < amount then balances
    else Pay(balances[from := balances[from] - amount], to, amount)
  }

  // Runs

  ghost function Do(verify: Verifier, a: Simple, origin: Origin, call: Call): Result<Simple> {
    match call
    case CallGenesis(name, inits, policy, slashing, bond) => Found(a, origin, name, inits, policy, slashing, bond)
    case CallNewRelease(p, version, attestation, cid, signature) =>
      ProposeRelease(verify, a, origin, p, version, attestation, cid, signature)
    case CallVote(id, aye) => CastVote(a, origin, id, aye)
    case CallCounter(id, rebuilt) => Reject(a, origin, id, rebuilt)
    case CallCloseExpired(id) => Expire(a, origin, id)
  }

  ghost function Next(verify: Verifier, a: Simple, step: Step): Simple {
    match step
    case Dispatch(origin, call) =>
      var r := Do(verify, a, origin, call);
      if r.Ok? then r.value else a
    case NextBlock => Tick(a)
    case TransferFree(from, to, amount) => a.(balances := MovePaid(a.balances, from, to, amount))
  }

  ghost function SimpleRun(verify: Verifier, a: Simple, steps: seq<Step>): Simple
    decreases |steps|
  {
    if steps == [] then a else SimpleRun(verify, Next(verify, a, steps[0]), steps[1..])
  }

  /** What a caller sees of a step: the error of a failed call. */
  ghost function Reply(verify: Verifier, a: Simple, step: Step): Option<Error> {
    if step.Dispatch? then
      var r := Do(verify, a, step.origin, step.call);
      if r.Err? then Some(r.error) else None
    else None
  }

  ghost function Replies(verify: Verifier, a: Simple, steps: seq<Step>): seq<Option<Error>>
    decreases |steps|
  {
    if steps == [] then [] else [Reply(verify, a, steps[0])] + Replies(verify, Next(verify, a, steps[0]), steps[1..])
  }

  ghost function Blank(now: BlockNumber, balances: Balances): Simple {
    Simple(now, 0, 0, map[], map[], map[], map[], map[], map[], [], map[], balances, Empty)
  }
}
