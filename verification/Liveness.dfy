/** When an approved proposal is enacted, and when it never is. */
module Liveness {
  import opened Types
  import opened Sums
  import opened Currency
  import opened Protocol
  import opened Accounting
  import opened History
  import opened Schedule
  import opened Ballots
  import opened Releases
  import opened Invariant
  import opened Voting
  import opened Runs
  import opened Evolution
  import opened BlockLoop

  ghost predicate Unslashable(s: State, id: ProposalId)
    requires id in s.proposals
  {
    BuildFree(RequiredOf(s.projects, s.proposals[id].projectId))
  }

  /** The project's log has an entry for this proposal, made at block `b`. */
  ghost predicate EnactedAt(s: State, id: ProposalId, b: BlockNumber)
    requires id in s.proposals
  {
    && s.proposals[id].status.Enacted?
    && exists i: nat :: (s.proposals[id].projectId, i) in s.releaseLog
         && s.releaseLog[(s.proposals[id].projectId, i)] == EntryFor(id, s.proposals[id], b)
  }

  /** A slash cannot empty any of the required roles. */
  ghost predicate LastingRoles(s: State, id: ProposalId)
    requires id in s.proposals
  {
    var p := s.proposals[id].projectId;
    p in s.projects && forall rq :: rq in s.projects[p].policy.requiredRoles ==> Lasting(s.projects[p], rq.role)
  }

  lemma LastingStaffed(verify: Verifier, s: State, id: ProposalId)
    requires Sound(verify, s) && id in s.proposals && LastingRoles(s, id)
    ensures Staffed(s, id)
  {
    hide Numbered, Rooted, Countered, Books, Chronicled, Tallied, Logged, Scheduled, StatusFits;
  }

  // What undoes an approval

  /** A vote on the proposal that leaves it unapproved, or an accepted counter-attestation against it. */
  predicate Undoes(verify: Verifier, s: State, step: Step, id: ProposalId) {
    match step
    case Dispatch(origin, call) =>
      var r := Apply(verify, s, origin, call);
      && r.Ok?
      && (match call
          case CallVote(i, _) => i == id && id in r.value.proposals && !r.value.proposals[id].status.Approved?
          case CallCounter(i, _) => i == id
          case _ => false)
    case _ => false
  }

  /** No step of this run undoes the approval. */
  predicate Undisturbed(verify: Verifier, s: State, steps: seq<Step>, id: ProposalId)
    decreases |steps|
  {
    steps == []
    || (!Undoes(verify, s, steps[0], id) && Undisturbed(verify, After(verify, s, steps[0]), steps[1..], id))
  }

  lemma {:induction false} RegisterAllKeepsProposals(s: State, p: ProjectId, inits: seq<StakeholderInit>)
    requires RegisterAll(s, p, inits).Ok?
    ensures RegisterAll(s, p, inits).value.proposals == s.proposals
    decreases |inits|
  {
    if inits != [] {
      RegisterAllKeepsProposals(Register(s, p, inits[0]).value, p, inits[1..]);
    }
  }

  lemma ReconsiderKeepsApproved(s: State, i: ProposalId, p: ProjectId, policy: ReleasePolicy, id: ProposalId)
    requires id in s.proposals && s.proposals[id].status.Approved? && i in s.proposals && Live(s.proposals[i].status)
    requires Reconsider(s, i, p, policy).Ok?
    ensures var t := Reconsider(s, i, p, policy).value;
      id in t.proposals && (t.proposals[id].status.Approved? || i != id ==> t.proposals[id] == s.proposals[id])
  {
    hide MeetsQuorums, Approve, Revoke, OnlyStatus;
    ReconsiderSettles(s, i, p, policy);
    if i == id {
      RevokeShape(s, id, s.proposals[id].status.enactAt);
      OnlyStatusRestates(s, Revoke(s, id, s.proposals[id].status.enactAt), id, Voting);
    } else {
      OnlyStatusRestates(s, Reconsider(s, i, p, policy).value, i,
                         Reconsider(s, i, p, policy).value.proposals[i].status);
    }
  }

  lemma VoteKeepsApproved(s: State, origin: Origin, i: ProposalId, aye: bool, id: ProposalId)
    requires Vote(s, origin, i, aye).Ok? && id in s.proposals && s.proposals[id].status.Approved?
    ensures var t := Vote(s, origin, i, aye).value;
      id in t.proposals && (t.proposals[id].status.Approved? || i != id ==> t.proposals[id] == s.proposals[id])
  {
    hide Reconsider, MoveVote;
    var p := s.proposals[i].projectId;
    ReconsiderKeepsApproved(RecordVote(s, i, origin.who, s.stakeholders[(p, origin.who)], aye), i, p,
                            s.projects[p].policy, id);
  }

  lemma NewReleaseKeepsApproved(verify: Verifier, s: State, origin: Origin, p: ProjectId, version: seq<byte>,
                                attestation: BuildAttestation, cid: Hash32, signature: Signature, id: ProposalId)
    requires s.nextProposalId !in s.proposals && id in s.proposals && s.proposals[id].status.Approved?
    requires NewRelease(verify, s, origin, p, version, attestation, cid, signature).Ok?
    ensures var t := NewRelease(verify, s, origin, p, version, attestation, cid, signature).value;
      id in t.proposals && t.proposals[id] == s.proposals[id]
  {
    hide Reconsider, MoveVote, Hold;
    var l := Hold(s.ledger, ProposalBond, origin.who, s.projects[p].proposalBond).value;
    var s1 := Propose(s, origin.who, p, version, attestation, cid, l);
    var i := s.nextProposalId;
    ReconsiderKeepsApproved(RecordVote(s1, i, origin.who, s.stakeholders[(p, origin.who)], true), i, p,
                            s.projects[p].policy, id);
  }

  lemma CounterKeepsApproved(s: State, origin: Origin, i: ProposalId, rebuilt: Hash32, id: ProposalId)
    requires SubmitCounterAttestation(s, origin, i, rebuilt).Ok? && i != id && id in s.proposals
    ensures var t := SubmitCounterAttestation(s, origin, i, rebuilt).value;
      id in t.proposals && t.proposals[id] == s.proposals[id]
  {
    hide Release, BurnHeld, Burnable, MulFloor, WithoutApproval;
  }

  lemma CloseKeepsApproved(s: State, origin: Origin, i: ProposalId, id: ProposalId)
    requires CloseExpired(s, origin, i).Ok? && id in s.proposals && s.proposals[id].status.Approved?
    ensures var t := CloseExpired(s, origin, i).value; id in t.proposals && t.proposals[id] == s.proposals[id]
  {
    hide Release;
  }

  /** Nothing but a revoking vote or an accepted counter-attestation changes an approved proposal in a call. */
  lemma CallKeepsApproved(verify: Verifier, s: State, origin: Origin, call: Call, id: ProposalId)
    requires Sound(verify, s) && Apply(verify, s, origin, call).Ok?
    requires id in s.proposals && s.proposals[id].status.Approved? && !Undoes(verify, s, Dispatch(origin, call), id)
    ensures var t := Apply(verify, s, origin, call).value; id in t.proposals && t.proposals[id] == s.proposals[id]
  {
    hide Sound, NewRelease, Vote, SubmitCounterAttestation, CloseExpired, RegisterAll;
    FreshIds(verify, s);
    match call
    case CallGenesis(name, inits, policy, slashing, bond) => RegisterAllKeepsProposals(s, s.nextProjectId, inits);
    case CallNewRelease(p, version, attestation, cid, signature) =>
      NewReleaseKeepsApproved(verify, s, origin, p, version, attestation, cid, signature, id);
    case CallVote(i, aye) => VoteKeepsApproved(s, origin, i, aye, id);
    case CallCounter(i, rebuilt) => CounterKeepsApproved(s, origin, i, rebuilt, id);
    case CallCloseExpired(i) => CloseKeepsApproved(s, origin, i, id);
  }

  // The schedule of one proposal

  lemma ScheduleOf(verify: Verifier, s: State)
    requires Sound(verify, s)
    ensures Scheduled(s, s.now + 1) && StatusesFit(s)
  {
    hide Indexed, BucketsBounded, Timely, StatusFits;
  }

  lemma DueOnlyThen(s: State, id: ProposalId, b: BlockNumber)
    requires Indexed(s.pending, s.proposals) && id in s.proposals && s.proposals[id].status.Approved?
    ensures id in Bucket(s.pending, b) <==> b == s.proposals[id].status.enactAt
  {
  }

  /** An approved proposal still meets its quorums unless a required role has lost all its stake. */
  lemma ApprovedMeets(verify: Verifier, s: State, id: ProposalId)
    requires Sound(verify, s) && id in s.proposals && s.proposals[id].status.Approved?
    ensures Meets(s, id) <==> Staffed(s, id)
  {
    hide Sound, Scheduled, Meets, Staffed, MetAtVote;
    ScheduleOf(verify, s);
    assert StatusFits(s, id);
    StillMet(s, id);
  }

  lemma {:induction false} AdditionInLog(s: State, ids: seq<ProposalId>, id: ProposalId,
                                         now: BlockNumber) returns (k: nat)
    requires AllKnown(s, ids) && id in ids && Meets(s, id)
    ensures var p := s.proposals[id].projectId;
      k < |Additions(s, ids, p, now)| && Additions(s, ids, p, now)[k] == EntryFor(id, s.proposals[id], now)
  {
    hide MeetsQuorums;
    var p := s.proposals[id].projectId;
    if ids[0] == id {
      k := 0;
    } else {
      k := AdditionInLog(s, ids[1..], id, now);
      if s.proposals[ids[0]].projectId == p && Meets(s, ids[0]) {
        k := k + 1;
      }
    }
  }

  lemma LogAt(t: State, p: ProjectId, i: nat)
    requires LogDense(t.releaseCount, t.releaseLog) && i < |LogOf(t, p)|
    ensures (p, i) in t.releaseLog && LogOf(t, p)[i] == t.releaseLog[(p, i)]
  {
    assert (p, i) in t.releaseLog;
  }

  lemma EnactedInLoop(s: State, t: State, ids: seq<ProposalId>, now: BlockNumber, id: ProposalId)
    requires LoopEffect(s, t, ids, now) && id in ids && Meets(s, id)
    ensures id in t.proposals && EnactedAt(t, id, now)
  {
    hide MeetsQuorums, LoopFrame, LogDense;
    var p := s.proposals[id].projectId;
    assert id in t.proposals && t.proposals[id] == Decided(s, id);
    hide ProposalsDecided;
    var k := AdditionInLog(s, ids, id, now);
    var i := |LogOf(s, p)| + k;
    assert LogOf(t, p)[i] == EntryFor(id, s.proposals[id], now);
    LogAt(t, p, i);
  }

  lemma SameMeets(s: State, t: State, id: ProposalId)
    requires id in s.proposals && t.proposals == s.proposals && t.projects == s.projects
    requires t.roleStake == s.roleStake && t.tallies == s.tallies
    ensures Meets(s, id) == Meets(t, id) && Staffed(s, id) == Staffed(t, id)
  {
  }

  /** What one block does to an approved proposal. */
  lemma NextBlockOnApproved(verify: Verifier, s: State, id: ProposalId)
    requires Sound(verify, s) && s.now + 1 < BLOCK_MAX && id in s.proposals && s.proposals[id].status.Approved?
    ensures var t := After(verify, s, NextBlock);
      && id in t.proposals
      && (s.proposals[id].status.enactAt != s.now + 1 ==> t.proposals[id] == s.proposals[id])
      && (s.proposals[id].status.enactAt == s.now + 1 && Staffed(s, id) ==> EnactedAt(t, id, s.now + 1))
      && (s.proposals[id].status.enactAt == s.now + 1 && !Staffed(s, id) ==> t.proposals[id].status.Voting?)
  {
    hide Sound, After, Meets, Staffed, LogsExtended, EnactedAt, Bucket, Indexed, BucketsBounded, Timely, StatusFits;
    var now := s.now + 1;
    var s1 := s.(now := now, pending := s.pending - {now});
    var t := After(verify, s, NextBlock);
    var ids := Bucket(s.pending, now);
    ScheduleOf(verify, s);
    DueOnlyThen(s, id, now);
    ApprovedMeets(verify, s, id);
    SameMeets(s, s1, id);
    BlockLoopEffect(verify, s);
    if id in ids && Staffed(s, id) {
      EnactedInLoop(s1, t, ids, now, id);
    }
  }

  // Over runs

  /** The stake of a role of an existing project only shrinks. */
  lemma RoleStakeShrinks(verify: Verifier, s: State, t: State, p: ProjectId, r: Role)
    requires Sound(verify, s) && Sound(verify, t) && Evolves(s, t) && p in s.projects
    ensures RoleStakeOf(t.roleStake, p, r) <= RoleStakeOf(s.roleStake, p, r)
  {
    hide Based, Chronicled, Tallied, Logged, Scheduled, StatusesFit, Escrowed, Bonded, Conserved;
    hide ProposalsKept, LogKept, ProjectsKept, CountersKept, Grown;
    var before, after := RoleWeights(s.stakeholders, p, r), RoleWeights(t.stakeholders, p, r);
    var widened := map k | k in t.stakeholders :: if k in s.stakeholders then before[k] else 0;
    SumExtend(before, widened);
    SumMonotone(after, widened);
  }

  lemma SameRequirements(verify: Verifier, s: State, t: State, id: ProposalId)
    requires Sound(verify, s) && Evolves(s, t) && id in s.proposals
    ensures s.proposals[id].projectId in s.projects
    ensures id in t.proposals && t.proposals[id].projectId == s.proposals[id].projectId
    ensures RequiredOf(t.projects, s.proposals[id].projectId) == RequiredOf(s.projects, s.proposals[id].projectId)
  {
    RootedAt(verify, s, id);
    hide Sound, RegistryKept, ElectorateFixed, LogKept, CountersKept, SignedBy;
  }

  lemma StaffedBefore(verify: Verifier, s: State, t: State, id: ProposalId)
    requires Sound(verify, s) && Sound(verify, t) && Evolves(s, t) && id in s.proposals
    requires id in t.proposals && Staffed(t, id)
    ensures Staffed(s, id)
  {
    hide Sound, Evolves;
    SameRequirements(verify, s, t, id);
    var p := s.proposals[id].projectId;
    forall rq | rq in RequiredOf(s.projects, p) ensures RoleStakeOf(s.roleStake, p, rq.role) != 0 {
      RoleStakeShrinks(verify, s, t, p, rq.role);
    }
  }

  /** Still the same approved proposal, or enacted at `b`, or robbed of a required role. */
  ghost predicate OnTrack(t: State, id: ProposalId, v: Proposal, b: BlockNumber) {
    id in t.proposals && (t.proposals[id] == v || EnactedAt(t, id, b) || !Staffed(t, id))
  }

  lemma EnactedStays(s: State, t: State, id: ProposalId, b: BlockNumber)
    requires Evolves(s, t) && id in s.proposals && EnactedAt(s, id, b)
    ensures id in t.proposals && EnactedAt(t, id, b)
  {
    hide RegistryKept, ElectorateFixed, ProjectsKept, CountersKept;
    var p := s.proposals[id].projectId;
    var i: nat :| (p, i) in s.releaseLog && s.releaseLog[(p, i)] == EntryFor(id, s.proposals[id], b);
    assert (p, i) in t.releaseLog;
  }

  lemma StaysThere(s: State, t: State, id: ProposalId)
    requires Evolves(s, t) && id in s.proposals
    ensures id in t.proposals && t.proposals[id] == s.proposals[id].(status := t.proposals[id].status)
  {
    hide RegistryKept, ElectorateFixed, LogKept, ProjectsKept, CountersKept;
  }

  lemma StepOnTrack(verify: Verifier, s: State, step: Step, id: ProposalId, v: Proposal, b: BlockNumber)
    requires Sound(verify, s) && Admissible(s, step) && !Undoes(verify, s, step, id)
    requires OnTrack(s, id, v, b) && v.status == Approved(b)
    ensures OnTrack(After(verify, s, step), id, v, b)
  {
    hide Sound, Apply, OnInitialize, Evolves, Staffed, EnactedAt, Undoes;
    var t := After(verify, s, step);
    StepEvolves(verify, s, step);
    StepKeepsSound(verify, s, step);
    StaysThere(s, t, id);
    if Staffed(t, id) {
      StaffedBefore(verify, s, t, id);
      if EnactedAt(s, id, b) {
        EnactedStays(s, t, id, b);
      } else {
        match step
        case Dispatch(origin, call) =>
          if Apply(verify, s, origin, call).Ok? {
            CallKeepsApproved(verify, s, origin, call, id);
          }
        case NextBlock => NextBlockOnApproved(verify, s, id);
        case TransferFree(from, to, amount) =>
      }
    }
  }

  lemma {:induction false} RunOnTrack(verify: Verifier, s: State, steps: seq<Step>, id: ProposalId, v: Proposal,
                                      b: BlockNumber)
    requires Sound(verify, s) && AdmissibleRun(verify, s, steps) && Undisturbed(verify, s, steps, id)
    requires OnTrack(s, id, v, b) && v.status == Approved(b)
    ensures OnTrack(Run(verify, s, steps), id, v, b)
    decreases |steps|
  {
    hide Sound, After, Admissible, OnTrack, Undoes;
    if steps != [] {
      StepOnTrack(verify, s, steps[0], id, v, b);
      StepKeepsSound(verify, s, steps[0]);
      RunOnTrack(verify, After(verify, s, steps[0]), steps[1..], id, v, b);
    }
  }

  lemma NothingOverdue(verify: Verifier, s: State, id: ProposalId)
    requires Sound(verify, s) && id in s.proposals && s.proposals[id].status.Approved?
    ensures var v := s.proposals[id];
      var delay := DelayOf(s.projects, v.projectId);
      && (s.now < v.status.enactAt <==> 0 < delay)
      && v.status.enactAt <= BlockAdd(v.votingEnds, delay)
      && s.now < BLOCK_MAX
  {
    hide Based, Books, Chronicled, Tallied, Logged, Indexed, BucketsBounded, StatusFits;
  }

  lemma LastingStays(verify: Verifier, s: State, t: State, id: ProposalId)
    requires Sound(verify, s) && Evolves(s, t) && id in s.proposals && LastingRoles(s, id)
    ensures id in t.proposals && LastingRoles(t, id)
  {
    hide Sound, RegistryKept, ElectorateFixed, LogKept, CountersKept;
  }

  lemma EnactedInTime(verify: Verifier, s: State, id: ProposalId, b: BlockNumber)
    requires Sound(verify, s) && id in s.proposals && EnactedAt(s, id, b)
    ensures b <= s.now
  {
    hide Based, Books, Chronicled, Tallied, Scheduled, StatusFits, LogDense, LogOrdered, LogComplete;
    var p := s.proposals[id].projectId;
    var i: nat :| (p, i) in s.releaseLog && s.releaseLog[(p, i)] == EntryFor(id, s.proposals[id], b);
    assert EntryFaithful(s.releaseLog[(p, i)], p, s.proposals, s.now);
  }

  lemma SameDelay(verify: Verifier, s: State, t: State, id: ProposalId)
    requires Sound(verify, s) && Evolves(s, t) && id in s.proposals
    ensures id in t.proposals
    ensures DelayOf(t.projects, t.proposals[id].projectId) == DelayOf(s.projects, s.proposals[id].projectId)
  {
    RootedAt(verify, s, id);
    hide Sound, RegistryKept, LogKept, CountersKept, ProposalRooted;
    RootedAt(verify, s, id);
  }

  /**
   Whatever the policy: a proposal approved for block `b`, in a project with an enactment delay, whose
   approval no vote revokes and no counter-attestation ends, stays as it is before `b` and is enacted
   exactly at `b`, unless slashes have taken all the stake of a required role. They cannot if no Build
   Service is required or one slash takes less than everything.
   */
  lemma EnactedWhenDue(verify: Verifier, s: State, steps: seq<Step>, id: ProposalId, b: BlockNumber)
    requires Reached(verify, s) && AdmissibleRun(verify, s, steps)
    requires id in s.proposals && s.proposals[id].status == Approved(b)
    requires 0 < DelayOf(s.projects, s.proposals[id].projectId)
    requires Undisturbed(verify, s, steps, id)
    ensures var t := Run(verify, s, steps);
      && id in t.proposals
      && (LastingRoles(s, id) ==> Staffed(t, id))
      && (Staffed(t, id) && b <= t.now ==> EnactedAt(t, id, b))
      && (Staffed(t, id) && t.now < b ==> t.proposals[id] == s.proposals[id])
  {
    hide Reached, Sound, Run, AdmissibleRun, Undisturbed, EnactedAt, Staffed, LastingRoles;
    ReachedSound(verify, s);
    var t := Run(verify, s, steps);
    RunKeepsSound(verify, s, steps);
    RunEvolves(verify, s, steps);
    RunOnTrack(verify, s, steps, id, s.proposals[id], b);
    if LastingRoles(s, id) {
      LastingStays(verify, s, t, id);
      LastingStaffed(verify, t, id);
    }
    SameDelay(verify, s, t, id);
    if t.proposals[id] == s.proposals[id] {
      NothingOverdue(verify, t, id);
    } else if EnactedAt(t, id, b) {
      EnactedInTime(verify, t, id, b);
    }
  }

  /**
   Whatever the policy: once the delay after the end of the vote has passed, a proposal with an enactment
   delay is closed, or anyone can close it.
   */
  lemma NothingLingers(verify: Verifier, s: State, id: ProposalId, who: AccountId)
    requires Reached(verify, s) && id in s.proposals
    requires 0 < DelayOf(s.projects, s.proposals[id].projectId)
    requires s.proposals[id].votingEnds + DelayOf(s.projects, s.proposals[id].projectId) <= s.now
    ensures !s.proposals[id].status.Approved?
    ensures Live(s.proposals[id].status) ==> CloseExpired(s, Signed(who), id).Ok?
  {
    hide Reached, Sound;
    ReachedSound(verify, s);
    NowInRange(verify, s);
    if s.proposals[id].status.Approved? {
      NothingOverdue(verify, s, id);
    }
  }

  // Projects without an enactment delay

  lemma NeverDue(verify: Verifier, s: State, id: ProposalId)
    requires Sound(verify, s) && id in s.proposals && DelayOf(s.projects, s.proposals[id].projectId) == 0
    ensures id !in Bucket(s.pending, s.now + 1)
  {
    hide Based, Books, Chronicled, Tallied, Logged, BucketsBounded, StatusFits, Bucket;
  }

  ghost predicate NoneEnacted(s: State, p: ProjectId) {
    forall id :: id in s.proposals && s.proposals[id].projectId == p ==> !s.proposals[id].status.Enacted?
  }

  /** Nothing but the block loop enacts a proposal. */
  ghost predicate NoNewEnactments(s: State, t: State) {
    forall id :: id in t.proposals && t.proposals[id].status.Enacted? ==>
      id in s.proposals && s.proposals[id].status.Enacted? && t.proposals[id].projectId == s.proposals[id].projectId
  }

  lemma ReconsiderEnactsNothing(s: State, id: ProposalId, p: ProjectId, policy: ReleasePolicy)
    requires id in s.proposals && Live(s.proposals[id].status) && Reconsider(s, id, p, policy).Ok?
    ensures NoNewEnactments(s, Reconsider(s, id, p, policy).value)
  {
    hide Reconsider, MeetsQuorums;
    ReconsiderSettles(s, id, p, policy);
  }

  lemma CallEnactsNothing(verify: Verifier, s: State, origin: Origin, call: Call)
    requires Apply(verify, s, origin, call).Ok?
    ensures NoNewEnactments(s, Apply(verify, s, origin, call).value)
  {
    hide Reconsider, RegisterAll, Release, Hold, BurnHeld, Burnable, MoveVote;
    match call
    case CallGenesis(_, inits, _, _, _) =>
      RegisterAllKeepsProposals(s, s.nextProjectId, inits);
    case CallNewRelease(p, version, attestation, cid, signature) =>
      var l := Hold(s.ledger, ProposalBond, origin.who, s.projects[p].proposalBond).value;
      var s1 := Propose(s, origin.who, p, version, attestation, cid, l);
      var s2 := RecordVote(s1, s.nextProposalId, origin.who, s.stakeholders[(p, origin.who)], true);
      ReconsiderEnactsNothing(s2, s.nextProposalId, p, s.projects[p].policy);
    case CallVote(id, aye) =>
      var p := s.proposals[id].projectId;
      ReconsiderEnactsNothing(RecordVote(s, id, origin.who, s.stakeholders[(p, origin.who)], aye), id, p,
                              s.projects[p].policy);
    case CallCounter(_, _) =>
    case CallCloseExpired(_) =>
  }

  lemma NextBlockEnactsNothing(verify: Verifier, s: State, p: ProjectId)
    requires Sound(verify, s) && s.now + 1 < BLOCK_MAX && NoneEnacted(s, p) && DelayOf(s.projects, p) == 0
    ensures NoneEnacted(After(verify, s, NextBlock), p)
  {
    hide Sound, After, MeetsQuorums, LogsExtended, Bucket;
    BlockLoopEffect(verify, s);
    var t := After(verify, s, NextBlock);
    forall id | id in t.proposals && t.proposals[id].projectId == p ensures !t.proposals[id].status.Enacted? {
      NeverDue(verify, s, id);
    }
  }

  lemma DelayStays(s: State, t: State, p: ProjectId)
    requires Evolves(s, t) && DelayOf(t.projects, p) == 0
    ensures DelayOf(s.projects, p) == 0
  {
  }

  lemma StepEnactsNothing(verify: Verifier, s: State, step: Step, p: ProjectId)
    requires Sound(verify, s) && Admissible(s, step) && NoneEnacted(s, p) && DelayOf(s.projects, p) == 0
    ensures NoneEnacted(After(verify, s, step), p)
  {
    hide Sound, Apply, OnInitialize;
    match step
    case Dispatch(origin, call) =>
      if Apply(verify, s, origin, call).Ok? {
        CallEnactsNothing(verify, s, origin, call);
      }
    case NextBlock => NextBlockEnactsNothing(verify, s, p);
    case TransferFree(from, to, amount) =>
  }

  lemma {:induction false} IdleWithoutDelay(verify: Verifier, s: State, steps: seq<Step>, p: ProjectId)
    requires Sound(verify, s) && AdmissibleRun(verify, s, steps)
    requires NoneEnacted(s, p) && DelayOf(Run(verify, s, steps).projects, p) == 0
    ensures NoneEnacted(Run(verify, s, steps), p)
    decreases |steps|
  {
    hide Sound, After, Admissible, NoneEnacted, Evolves, DelayOf;
    if steps != [] {
      var s1 := After(verify, s, steps[0]);
      RunEvolves(verify, s, steps);
      DelayStays(s, Run(verify, s, steps), p);
      StepEnactsNothing(verify, s, steps[0], p);
      StepKeepsSound(verify, s, steps[0]);
      IdleWithoutDelay(verify, s1, steps[1..], p);
    }
  }

  lemma EntryOf(verify: Verifier, s: State, p: ProjectId, i: nat)
    requires Sound(verify, s)
    ensures (p, i) in s.releaseLog <==> i < CountOf(s.releaseCount, p)
    ensures (p, i) in s.releaseLog ==> EntryFaithful(s.releaseLog[(p, i)], p, s.proposals, s.now)
  {
    hide Based, Books, Chronicled, Tallied, Scheduled, StatusFits, LogOrdered, LogComplete, EntryFaithful;
  }

  lemma EmptyLog(verify: Verifier, s: State, p: ProjectId)
    requires Sound(verify, s) && NoneEnacted(s, p)
    ensures CountOf(s.releaseCount, p) == 0
  {
    hide Sound;
    EntryOf(verify, s, p, 0);
  }

  /** A project created with a delay of zero never releases anything: its log is empty in every reachable state. */
  lemma ZeroDelayNeverReleases(verify: Verifier, s0: State, steps: seq<Step>, p: ProjectId)
    requires Initial(s0) && AdmissibleRun(verify, s0, steps)
    requires DelayOf(Run(verify, s0, steps).projects, p) == 0
    ensures NoneEnacted(Run(verify, s0, steps), p)
    ensures CountOf(Run(verify, s0, steps).releaseCount, p) == 0
  {
    hide Sound, Run, AdmissibleRun;
    InitialSound(verify, s0);
    IdleWithoutDelay(verify, s0, steps, p);
    Reachable(verify, s0, steps);
    EmptyLog(verify, Run(verify, s0, steps), p);
  }

  lemma StepStuck(verify: Verifier, s: State, step: Step, id: ProposalId)
    requires Sound(verify, s) && Admissible(s, step) && !Undoes(verify, s, step, id)
    requires id in s.proposals && s.proposals[id].status.Approved?
    requires DelayOf(s.projects, s.proposals[id].projectId) == 0
    ensures var t := After(verify, s, step); id in t.proposals && t.proposals[id] == s.proposals[id]
  {
    hide Sound, Apply, OnInitialize, Undoes, EnactedAt, Staffed;
    match step
    case Dispatch(origin, call) =>
      if Apply(verify, s, origin, call).Ok? {
        CallKeepsApproved(verify, s, origin, call, id);
      }
    case NextBlock =>
      NothingOverdue(verify, s, id);
      NextBlockOnApproved(verify, s, id);
    case TransferFree(from, to, amount) =>
  }

  lemma {:induction false} StuckFrom(verify: Verifier, s: State, steps: seq<Step>, id: ProposalId)
    requires Sound(verify, s) && AdmissibleRun(verify, s, steps) && Undisturbed(verify, s, steps, id)
    requires id in s.proposals && s.proposals[id].status.Approved?
    requires DelayOf(s.projects, s.proposals[id].projectId) == 0
    ensures var t := Run(verify, s, steps); id in t.proposals && t.proposals[id] == s.proposals[id]
    decreases |steps|
  {
    hide Sound, After, Admissible, Undoes, Evolves;
    if steps != [] {
      var s1 := After(verify, s, steps[0]);
      StepStuck(verify, s, steps[0], id);
      StepKeepsSound(verify, s, steps[0]);
      StepEvolves(verify, s, steps[0]);
      SameDelay(verify, s, s1, id);
      StuckFrom(verify, s1, steps[1..], id);
    }
  }

  /** Its approved proposals stay as they are, whatever the policy, unless the approval is undone by a call. */
  lemma ZeroDelayStuck(verify: Verifier, s: State, steps: seq<Step>, id: ProposalId)
    requires Reached(verify, s) && AdmissibleRun(verify, s, steps)
    requires id in s.proposals && s.proposals[id].status.Approved?
    requires DelayOf(s.projects, s.proposals[id].projectId) == 0
    requires Undisturbed(verify, s, steps, id)
    ensures var t := Run(verify, s, steps); id in t.proposals && t.proposals[id] == s.proposals[id]
  {
    hide Reached, Sound, Run, AdmissibleRun, Undisturbed;
    ReachedSound(verify, s);
    StuckFrom(verify, s, steps, id);
  }
}
