/** The invariant of the pallet's storage, and what small changes do to it. */
module Invariant {
  import opened Types
  import opened Currency
  import opened Protocol
  import opened Accounting
  import opened History
  import opened Ballots
  import opened Schedule
  import opened Releases

  ghost predicate HasRole(st: Registry, p: ProjectId, a: AccountId, r: Role) {
    (p, a) in st && st[(p, a)].role == r
  }

  ghost predicate SignedBy(verify: Verifier, attestation: BuildAttestation) {
    exists signature :: verify(signature, SigningPayload(attestation), attestation.builder)
  }

  /** A proposal of a known project, made by one of its developers, signed by one of its Build Services. */
  ghost predicate ProposalRooted(verify: Verifier, projects: Projects, st: Registry, v: Proposal) {
    && v.projectId in projects
    && HasRole(st, v.projectId, v.proposer, CoreDeveloper)
    && HasRole(st, v.projectId, v.attestation.builder, BuildService)
    && SignedBy(verify, v.attestation)
  }

  ghost predicate Numbered(
    nextProjectId: ProjectId, nextProposalId: ProposalId,
    projects: Projects, st: Registry, proposals: Proposals)
  {
    && nextProjectId <= U32_MAX
    && nextProposalId <= U32_MAX
    && (forall p :: p in projects ==> p < nextProjectId)
    && (forall p: ProjectId, a: AccountId :: (p, a) in st ==> p < nextProjectId)
    && (forall id :: id in proposals ==> id < nextProposalId)
  }

  ghost predicate Rooted(
    verify: Verifier, projects: Projects, st: Registry, proposals: Proposals)
  {
    forall id :: id in proposals ==> ProposalRooted(verify, projects, st, proposals[id])
  }

  /** A slash takes the stake of its role as a whole or leaves some of it. */
  predicate Lasting(project: ProjectInfo, r: Role) { r != BuildService || project.slashing.sigmaNeg < ACCURACY }

  /** A required role has stake, unless it is that of Build Services and one slash takes everything. */
  ghost predicate PoliciesStaked(projects: Projects, roleStake: map<(ProjectId, Role), Balance>) {
    forall p, rq :: p in projects && rq in projects[p].policy.requiredRoles && Lasting(projects[p], rq.role) ==>
      0 < RoleStakeOf(roleStake, p, rq.role)
  }

  /** Exactly the rejected proposals have a counter-attestation, and it reports a different hash. */
  ghost predicate Countered(
    counters: map<ProposalId, CounterAttestation>, proposals: Proposals, st: Registry)
  {
    && (forall id :: id in counters <==> id in proposals && proposals[id].status.Rejected?)
    && (forall id :: id in counters ==>
          var c, v := counters[id], proposals[id];
          && c.attestedBinaryHash == v.attestation.outputBinaryHash
          && c.rebuiltBinaryHash != c.attestedBinaryHash
          && (v.projectId, c.challenger) in st
          && c.challenger != v.attestation.builder)
  }

  ghost predicate Based(verify: Verifier, s: State) {
    && Numbered(s.nextProjectId, s.nextProposalId, s.projects, s.stakeholders, s.proposals)
    && Rooted(verify, s.projects, s.stakeholders, s.proposals)
    && PoliciesStaked(s.projects, s.roleStake)
    && Countered(s.counterAttestations, s.proposals, s.stakeholders)
  }

  /** Everything but the agreement of statuses with quorums. */
  ghost predicate Frame(verify: Verifier, s: State, horizon: BlockNumber) {
    && s.now < BLOCK_MAX
    && Based(verify, s)
    && Books(s)
    && Chronicled(s)
    && Tallied(s)
    && Scheduled(s, horizon)
    && Logged(s)
  }

  ghost predicate Inv(verify: Verifier, s: State, horizon: BlockNumber) {
    Frame(verify, s, horizon) && StatusesFit(s)
  }

  /** The invariant between two blocks: whatever is still scheduled lies in the future. */
  ghost predicate Sound(verify: Verifier, s: State) { Inv(verify, s, s.now + 1) }

  // Small changes

  lemma RootedAt(verify: Verifier, s: State, id: ProposalId)
    requires Sound(verify, s) && id in s.proposals
    ensures ProposalRooted(verify, s.projects, s.stakeholders, s.proposals[id])
    ensures id < s.nextProposalId
  {
  }

  lemma NowInRange(verify: Verifier, s: State)
    requires Sound(verify, s)
    ensures s.now < BLOCK_MAX
  {
  }

  lemma SameAllStatuses(s: State, t: State)
    requires StatusesFit(s)
    requires t.proposals == s.proposals && t.projects == s.projects
    requires t.roleStake == s.roleStake && t.tallies == s.tallies
    requires SameSlashes(s.journal, t.journal, None)
    ensures StatusesFit(t)
  {
    hide StatusFits;
    forall i | i in t.proposals ensures StatusFits(t, i) {
      FitKept(s, t, i);
    }
  }

  lemma SameIssuance(st: Registry, l: Ledger, l1: Ledger, j: Journal)
    requires StakeConserved(st, l, j) && l1.issuance == l.issuance
    ensures StakeConserved(st, l1, j)
  {
  }

  lemma NumberedBounds(verify: Verifier, s: State, id: ProposalId)
    requires Based(verify, s) && id in s.proposals
    ensures s.nextProposalId <= U32_MAX && forall i :: i in s.proposals ==> i < s.nextProposalId
    ensures s.proposals[id].projectId in s.projects
  {
    assert ProposalRooted(verify, s.projects, s.stakeholders, s.proposals[id]);
  }

  lemma OtherStatusesKept(s: State, t: State, id: ProposalId)
    requires OtherStatusesFit(s, id) && id in s.proposals && id in t.proposals
    requires t.proposals == s.proposals[id := t.proposals[id]]
    requires t.projects == s.projects && t.roleStake == s.roleStake && t.tallies == s.tallies
    requires SameSlashes(s.journal, t.journal, Some(id))
    ensures OtherStatusesFit(t, id)
  {
    hide StatusFits;
    forall i | i in t.proposals && i != id ensures StatusFits(t, i) {
      FitKept(s, t, i);
    }
  }

  lemma AllStatusesFit(s: State, id: ProposalId)
    requires OtherStatusesFit(s, id) && id in s.proposals && StatusFits(s, id)
    ensures StatusesFit(s)
  {
    hide StatusFits;
  }

  /** The status of one proposal changes; nothing a verdict depends on does. */
  ghost predicate Restatused(s: State, t: State, id: ProposalId, status: ProposalStatus)
    requires id in s.proposals
  {
    && t.proposals == s.proposals[id := s.proposals[id].(status := status)]
    && t.projects == s.projects && t.roleStake == s.roleStake && t.tallies == s.tallies && t.now == s.now
    && SameSlashes(s.journal, t.journal, None)
  }

  lemma StatusKeepsBase(verify: Verifier, s: State, id: ProposalId, status: ProposalStatus)
    requires Based(verify, s) && id in s.proposals && !s.proposals[id].status.Rejected? && !status.Rejected?
    ensures var t := s.(proposals := s.proposals[id := s.proposals[id].(status := status)]);
      Based(verify, t) && SameBallots(s.proposals, t.proposals)
  {
    var t := s.(proposals := s.proposals[id := s.proposals[id].(status := status)]);
    forall i | i in t.proposals ensures ProposalRooted(verify, t.projects, t.stakeholders, t.proposals[i]) {
      assert ProposalRooted(verify, s.projects, s.stakeholders, s.proposals[i]);
    }
  }

  lemma TimelyUpdate(proposals: Proposals, projects: Projects, h: BlockNumber,
                     id: ProposalId, v: Proposal)
    requires Timely(proposals, projects, h)
    requires v.status.Approved? ==>
      && (h <= v.status.enactAt <==> 0 < DelayOf(projects, v.projectId))
      && v.status.enactAt <= BlockAdd(v.votingEnds, DelayOf(projects, v.projectId))
    ensures Timely(proposals[id := v], projects, h)
  {
  }

  lemma LiveMoveKeepsFrame(verify: Verifier, s: State, h: BlockNumber, id: ProposalId, status: ProposalStatus,
                           pending: Buckets, e: Event)
    requires Frame(verify, s, h) && id in s.proposals && Live(s.proposals[id].status) && Live(status)
    requires Quiet(e) && Silent(e)
    requires Scheduled(s.(pending := pending, proposals := s.proposals[id := s.proposals[id].(status := status)]), h)
    ensures Frame(verify, s.(pending := pending, proposals := s.proposals[id := s.proposals[id].(status := status)],
                             journal := Deposit(s.journal, e)), h)
  {
    hide Numbered, Rooted, PoliciesStaked, Countered, RoleStakeExact, Escrowed, Bonded, Conserved;
    hide StakesEroded, SlashesCounted, StakeConserved, TalliesFaithful, FirstVotesTallied, VotesRecorded;
    hide VotesCurrent, TalliesKeyed;
    hide Indexed, BucketsBounded, Timely, LogDense, LogFaithful, LogOrdered, LogComplete;
    var v := s.proposals[id].(status := status);
    var s1 := s.(proposals := s.proposals[id := v]);
    StatusKeepsBase(verify, s, id, status);
    StatusKeepsBonds(s, id, status);
    CountsKept(s.proposals, id, v, s.journal);
    QuietKeepsChronicle(s1, e);
    SameBallotsKeepTallied(s, s1.proposals);
    SilentKeepsTallied(s1, e);
    LogUntouched(s, id, v);
  }
}
