/**
 The pallet as functions from a storage state to the next. Each dispatchable returns either the new
 storage or the error that makes the runtime keep the old one.
 */
module Protocol {
  import opened Types
  import opened Currency

  type Projects = map<ProjectId, ProjectInfo>
  type Proposals = map<ProposalId, Proposal>
  type Tallies = map<(ProposalId, Role), RoleTally>
  type Buckets = map<BlockNumber, seq<ProposalId>>

  datatype State = State(
    now: BlockNumber,
    nextProjectId: ProjectId,
    nextProposalId: ProposalId,
    projects: Projects,
    stakeholders: map<(ProjectId, AccountId), Stakeholder>,
    roleStake: map<(ProjectId, Role), Balance>,
    proposals: Proposals,
    votes: map<(ProposalId, AccountId), bool>,
    tallies: Tallies,
    releaseCount: map<ProjectId, nat>,
    releaseLog: map<(ProjectId, nat), ReleaseEntry>,
    counterAttestations: map<ProposalId, CounterAttestation>,
    pending: Buckets,
    ledger: Ledger,
    journal: Journal)

  // Storage maps with a default value.

  function RoleStakeOf(roleStake: map<(ProjectId, Role), Balance>, p: ProjectId, r: Role): Balance {
    if (p, r) in roleStake then roleStake[(p, r)] else 0
  }

  function TallyOf(tallies: Tallies, id: ProposalId, r: Role): RoleTally {
    if (id, r) in tallies then tallies[(id, r)] else RoleTally(0, 0)
  }

  function VoteOf(votes: map<(ProposalId, AccountId), bool>, id: ProposalId, who: AccountId): Option<bool> {
    if (id, who) in votes then Some(votes[(id, who)]) else None
  }

  function Bucket(pending: Buckets, b: BlockNumber): seq<ProposalId> {
    if b in pending then pending[b] else []
  }

  function CountOf(releaseCount: map<ProjectId, nat>, p: ProjectId): nat {
    if p in releaseCount then releaseCount[p] else 0
  }

  /** `retain(|x| x != id)`. */
  function Without(ids: seq<ProposalId>, id: ProposalId): seq<ProposalId> {
    if ids == [] then []
    else if ids[0] == id then Without(ids[1..], id)
    else [ids[0]] + Without(ids[1..], id)
  }

  /** The bytes a Build Service signs. */
  function SigningPayload(a: BuildAttestation): seq<byte> {
    a.sourceCommitHash + a.sourceTreeHash + a.buildEnvironmentHash + a.outputBinaryHash
  }

  // Eq. 1

  /** The code's integer form of `ayes / total >= quorum`. */
  predicate RoleMeets(ayes: Balance, total: Balance, quorum: Perbill) {
    total != 0 && SatMul(ayes, ACCURACY) >= SatMul(quorum, total)
  }

  predicate MeetsQuorums(
    roleStake: map<(ProjectId, Role), Balance>, tallies: Tallies,
    required: seq<RoleQuorum>, p: ProjectId, id: ProposalId)
  {
    forall rq :: rq in required ==>
      RoleMeets(TallyOf(tallies, id, rq.role).ayes, RoleStakeOf(roleStake, p, rq.role), rq.quorum)
  }

  // project_genesis

  function Register(s: State, p: ProjectId, init: StakeholderInit): Result<State> {
    if (p, init.account) in s.stakeholders then Err(DuplicateStakeholder)
    else
      match Hold(s.ledger, Stake, init.account, init.stake)
      case Err(e) => Err(e)
      case Ok(ledger) =>
        Ok(s.(ledger := ledger,
              stakeholders := s.stakeholders[(p, init.account) := Stakeholder(init.role, init.stake)],
              roleStake := s.roleStake[(p, init.role) := SatAdd(RoleStakeOf(s.roleStake, p, init.role), init.stake)],
              journal := Deposit(s.journal, StakeholderRegistered(p, init.account, init.role, init.stake))))
  }

  function RegisterAll(s: State, p: ProjectId, inits: seq<StakeholderInit>): Result<State>
    decreases |inits|
  {
    if inits == [] then Ok(s)
    else
      match Register(s, p, inits[0])
      case Err(e) => Err(e)
      case Ok(s1) => RegisterAll(s1, p, inits[1..])
  }

  predicate AllStaked(roleStake: map<(ProjectId, Role), Balance>, p: ProjectId, required: seq<RoleQuorum>) {
    forall rq :: rq in required ==> RoleStakeOf(roleStake, p, rq.role) != 0
  }

  function ProjectGenesis(
    s: State, origin: Origin, name: seq<byte>, inits: seq<StakeholderInit>,
    policy: ReleasePolicy, slashing: SlashingParams, bond: Balance): Result<State>
  {
    if !origin.Root? then Err(BadOrigin)
    else if policy.requiredRoles == [] then Err(NoRequiredRoles)
    else
      var p := s.nextProjectId;
      match RegisterAll(s, p, inits)
      case Err(e) => Err(e)
      case Ok(s1) =>
        if !AllStaked(s1.roleStake, p, policy.requiredRoles) then Err(RequiredRoleHasNoStake)
        else
          Ok(s1.(projects := s1.projects[p := ProjectInfo(name, policy, slashing, bond)],
                 nextProjectId := NextId(p),
                 journal := Deposit(s1.journal, ProjectCreated(p, name))))
  }

  // Voting

  /** The tally after a stakeholder with this stake replaces its previous vote, if any. */
  function MoveVote(t: RoleTally, previous: Option<bool>, stake: Balance, aye: bool): RoleTally {
    var t1 :=
      match previous
      case None => t
      case Some(true) => t.(ayes := SatSub(t.ayes, stake))
      case Some(false) => t.(nays := SatSub(t.nays, stake));
    if aye then t1.(ayes := SatAdd(t1.ayes, stake)) else t1.(nays := SatAdd(t1.nays, stake))
  }

  /** A vote recorded and tallied, before its effect on the proposal's status. */
  function RecordVote(s: State, id: ProposalId, who: AccountId, voter: Stakeholder, aye: bool): State {
    var t := MoveVote(TallyOf(s.tallies, id, voter.role), VoteOf(s.votes, id, who), voter.stake, aye);
    s.(tallies := s.tallies[(id, voter.role) := t],
       votes := s.votes[(id, who) := aye],
       journal := Deposit(s.journal, Voted(id, who, voter.role, aye, voter.stake)))
  }

  function SetStatus(s: State, id: ProposalId, status: ProposalStatus): State {
    if id in s.proposals then s.(proposals := s.proposals[id := s.proposals[id].(status := status)]) else s
  }

  /** `Voting` to `Approved`; fails when the block is full. */
  function Approve(s: State, id: ProposalId, enactAt: BlockNumber): Result<State> {
    if |Bucket(s.pending, enactAt)| >= MAX_ENACTMENTS_PER_BLOCK then Err(TooManyEnactments)
    else
      var s1 := s.(pending := s.pending[enactAt := Bucket(s.pending, enactAt) + [id]]);
      var s2 := SetStatus(s1, id, Approved(enactAt));
      Ok(s2.(journal := Deposit(s2.journal, ProposalApproved(id, enactAt))))
  }

  /** `Approved` back to `Voting`. */
  function Revoke(s: State, id: ProposalId, enactAt: BlockNumber): State {
    var s1 := s.(pending := s.pending[enactAt := Without(Bucket(s.pending, enactAt), id)]);
    var s2 := SetStatus(s1, id, Voting);
    s2.(journal := Deposit(s2.journal, ProposalApprovalRevoked(id)))
  }

  /** Schedule or unschedule a proposal according to its standing tally. */
  function Reconsider(s: State, id: ProposalId, p: ProjectId, policy: ReleasePolicy): Result<State> {
    var met := MeetsQuorums(s.roleStake, s.tallies, policy.requiredRoles, p, id);
    if id !in s.proposals then Err(ProposalNotFound)
    else
      match s.proposals[id].status
      case Voting =>
        if met then Approve(s, id, BlockAdd(s.now, policy.enactmentDelay)) else Ok(s)
      case Approved(enactAt) =>
        if met then Ok(s) else Ok(Revoke(s, id, enactAt))
      case _ => Ok(s)
  }

  function DoVote(
    s: State, id: ProposalId, p: ProjectId, policy: ReleasePolicy,
    who: AccountId, voter: Stakeholder, aye: bool): Result<State>
  {
    Reconsider(RecordVote(s, id, who, voter, aye), id, p, policy)
  }

  // new_release

  /** The storage right after the proposal is inserted, before the proposer's own vote. */
  function Propose(
    s: State, who: AccountId, p: ProjectId, version: seq<byte>, attestation: BuildAttestation,
    cid: Hash32, ledger: Ledger): State
    requires p in s.projects
  {
    var id := s.nextProposalId;
    var project := s.projects[p];
    var ends := BlockAdd(s.now, project.policy.votingPeriod);
    s.(ledger := ledger,
       nextProposalId := NextId(id),
       proposals := s.proposals[id :=
         Proposal(p, who, version, attestation, cid, project.proposalBond, s.now, ends, Voting)],
       journal := Deposit(s.journal, ReleaseProposed(id, p, who, ends)))
  }

  function NewRelease(
    verify: Verifier, s: State, origin: Origin, p: ProjectId, version: seq<byte>,
    attestation: BuildAttestation, cid: Hash32, signature: Signature): Result<State>
  {
    if !origin.Signed? then Err(BadOrigin)
    else if p !in s.projects then Err(ProjectNotFound)
    else if (p, origin.who) !in s.stakeholders then Err(NotStakeholder)
    else
      var proposer := s.stakeholders[(p, origin.who)];
      if proposer.role != CoreDeveloper then Err(NotCoreDeveloper)
      else if (p, attestation.builder) !in s.stakeholders then Err(NotBuildService)
      else if s.stakeholders[(p, attestation.builder)].role != BuildService then Err(NotBuildService)
      else if !verify(signature, SigningPayload(attestation), attestation.builder) then Err(InvalidBuilderSignature)
      else
        match Hold(s.ledger, ProposalBond, origin.who, s.projects[p].proposalBond)
        case Err(e) => Err(e)
        case Ok(ledger) =>
          DoVote(Propose(s, origin.who, p, version, attestation, cid, ledger),
                 s.nextProposalId, p, s.projects[p].policy, origin.who, proposer, true)
  }

  // vote

  function Vote(s: State, origin: Origin, id: ProposalId, aye: bool): Result<State> {
    if !origin.Signed? then Err(BadOrigin)
    else if id !in s.proposals then Err(ProposalNotFound)
    else
      var proposal := s.proposals[id];
      var p := proposal.projectId;
      if !Live(proposal.status) then Err(ProposalNotVoting)
      else if s.now > proposal.votingEnds then Err(VotingPeriodOver)
      else if p !in s.projects then Err(ProjectNotFound)
      else if (p, origin.who) !in s.stakeholders then Err(NotStakeholder)
      else DoVote(s, id, p, s.projects[p].policy, origin.who, s.stakeholders[(p, origin.who)], aye)
  }

  // submit_counter_attestation

  function WithoutApproval(
    pending: Buckets, id: ProposalId, status: ProposalStatus): Buckets
  {
    match status
    case Approved(enactAt) => pending[enactAt := Without(Bucket(pending, enactAt), id)]
    case _ => pending
  }

  /** Take a challenged proposal out of its bucket, if it is in one. */
  function Challenge(s: State, id: ProposalId, who: AccountId, rebuilt: Hash32): State
    requires id in s.proposals
  {
    var proposal := s.proposals[id];
    s.(pending := WithoutApproval(s.pending, id, proposal.status),
       journal := Deposit(s.journal,
                          CounterAttestationAccepted(id, who, proposal.attestation.outputBinaryHash, rebuilt)))
  }

  /** Burn a share of a Build Service's stake. */
  function Slash(s: State, p: ProjectId, builder: AccountId, sigma: Perbill): State
    requires (p, builder) in s.stakeholders
  {
    var entry := s.stakeholders[(p, builder)];
    var slashed := Burnable(s.ledger, Stake, builder, MulFloor(sigma, entry.stake));
    var remaining := SatSub(entry.stake, slashed);
    s.(ledger := BurnHeld(s.ledger, Stake, builder, MulFloor(sigma, entry.stake)),
       stakeholders := s.stakeholders[(p, builder) := entry.(stake := remaining)],
       roleStake := s.roleStake[(p, BuildService) := SatSub(RoleStakeOf(s.roleStake, p, BuildService), slashed)],
       journal := Deposit(s.journal, BuildServiceSlashed(p, builder, slashed, remaining)))
  }

  /** End a live proposal and return its bond. */
  function Close(s: State, id: ProposalId, status: ProposalStatus): State
    requires id in s.proposals
  {
    var proposal := s.proposals[id];
    s.(ledger := Release(s.ledger, ProposalBond, proposal.proposer, proposal.bond),
       proposals := s.proposals[id := proposal.(status := status)])
  }

  function RecordCounter(s: State, id: ProposalId, who: AccountId, attested: Hash32, rebuilt: Hash32): State {
    s.(counterAttestations := s.counterAttestations[id := CounterAttestation(who, attested, rebuilt)],
       journal := Deposit(s.journal, ProposalRejected(id)))
  }

  function SubmitCounterAttestation(s: State, origin: Origin, id: ProposalId, rebuilt: Hash32): Result<State> {
    if !origin.Signed? then Err(BadOrigin)
    else if id !in s.proposals then Err(ProposalNotFound)
    else
      var proposal := s.proposals[id];
      var p := proposal.projectId;
      var builder := proposal.attestation.builder;
      if p !in s.projects then Err(ProjectNotFound)
      else if (p, origin.who) !in s.stakeholders then Err(NotStakeholder)
      else if origin.who == builder then Err(BuilderCannotChallenge)
      else if rebuilt == proposal.attestation.outputBinaryHash then Err(NoDiscrepancy)
      else if !Live(proposal.status) then Err(ProposalNotChallengeable)
      else if (p, builder) !in s.stakeholders then Err(NotBuildService)
      else
        var s1 := Challenge(s, id, origin.who, rebuilt);
        var s2 := Slash(s1, p, builder, s.projects[p].slashing.sigmaNeg);
        var s3 := Close(s2, id, Rejected);
        Ok(RecordCounter(s3, id, origin.who, proposal.attestation.outputBinaryHash, rebuilt))
  }

  // close_expired

  function CloseExpired(s: State, origin: Origin, id: ProposalId): Result<State> {
    if !origin.Signed? then Err(BadOrigin)
    else if id !in s.proposals then Err(ProposalNotFound)
    else if !s.proposals[id].status.Voting? then Err(ProposalNotVoting)
    else if s.now <= s.proposals[id].votingEnds then Err(VotingPeriodNotOver)
    else
      var s1 := Close(s, id, Expired);
      Ok(s1.(journal := Deposit(s1.journal, ProposalExpired(id))))
  }

  // on_initialize

  function EntryFor(id: ProposalId, proposal: Proposal, now: BlockNumber): ReleaseEntry {
    ReleaseEntry(id, proposal.version, proposal.attestation.sourceCommitHash,
                 proposal.attestation.outputBinaryHash, proposal.attestationCid, now)
  }

  /** Append a proposal to its project's log. */
  function Append(s: State, id: ProposalId, now: BlockNumber): State
    requires id in s.proposals
  {
    var p := s.proposals[id].projectId;
    var index := CountOf(s.releaseCount, p);
    var s1 := Close(s, id, ProposalStatus.Enacted);
    s1.(releaseLog := s.releaseLog[(p, index) := EntryFor(id, s.proposals[id], now)],
        releaseCount := s.releaseCount[p := NextId(index)],
        journal := Deposit(s.journal, ReleaseEnacted(p, id, index)))
  }

  /** The quorums no longer hold: back to the vote. */
  function FallBack(s: State, id: ProposalId): State {
    var s1 := SetStatus(s, id, Voting);
    s1.(journal := Deposit(s1.journal, ProposalApprovalRevoked(id)))
  }

  function Enact(s: State, id: ProposalId, now: BlockNumber): State {
    if id !in s.proposals || !s.proposals[id].status.Approved? then s
    else
      var p := s.proposals[id].projectId;
      if p !in s.projects then s
      else if !MeetsQuorums(s.roleStake, s.tallies, s.projects[p].policy.requiredRoles, p, id) then
        FallBack(s, id)
      else Append(s, id, now)
  }

  function EnactAll(s: State, ids: seq<ProposalId>, now: BlockNumber): State
    decreases |ids|
  {
    if ids == [] then s else EnactAll(Enact(s, ids[0], now), ids[1..], now)
  }

  function OnInitialize(s: State, now: BlockNumber): State {
    EnactAll(s.(pending := s.pending - {now}), Bucket(s.pending, now), now)
  }

  // Runs

  datatype Call =
    | CallGenesis(name: seq<byte>, inits: seq<StakeholderInit>, policy: ReleasePolicy,
                  slashing: SlashingParams, bond: Balance)
    | CallNewRelease(project: ProjectId, version: seq<byte>, attestation: BuildAttestation,
                     cid: Hash32, signature: Signature)
    | CallVote(proposal: ProposalId, aye: bool)
    | CallCounter(proposal: ProposalId, rebuilt: Hash32)
    | CallCloseExpired(proposal: ProposalId)

  /** One thing that happens on the chain. */
  datatype Step =
    | Dispatch(origin: Origin, call: Call)
    | NextBlock
    | TransferFree(from: AccountId, to: AccountId, amount: nat)

  function Apply(verify: Verifier, s: State, origin: Origin, call: Call): Result<State> {
    match call
    case CallGenesis(name, inits, policy, slashing, bond) =>
      ProjectGenesis(s, origin, name, inits, policy, slashing, bond)
    case CallNewRelease(p, version, attestation, cid, signature) =>
      NewRelease(verify, s, origin, p, version, attestation, cid, signature)
    case CallVote(id, aye) => Vote(s, origin, id, aye)
    case CallCounter(id, rebuilt) => SubmitCounterAttestation(s, origin, id, rebuilt)
    case CallCloseExpired(id) => CloseExpired(s, origin, id)
  }

  /** A failed call leaves the storage as it was. */
  function Commit(s: State, r: Result<State>): State { if r.Ok? then r.value else s }

  function After(verify: Verifier, s: State, step: Step): State {
    match step
    case Dispatch(origin, call) => Commit(s, Apply(verify, s, origin, call))
    case NextBlock => OnInitialize(s.(now := s.now + 1), s.now + 1)
    case TransferFree(from, to, amount) => s.(ledger := Transfer(s.ledger, from, to, amount))
  }

  function Run(verify: Verifier, s: State, steps: seq<Step>): State
    decreases |steps|
  {
    if steps == [] then s else Run(verify, After(verify, s, steps[0]), steps[1..])
  }
}
