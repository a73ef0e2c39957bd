/** How far the status of a proposal can be trusted, for every policy: against the quorums and against Eq. 1. */
module Verdicts {
  import opened Types
  import opened Sums
  import opened Protocol
  import opened Accounting
  import opened History
  import opened Schedule
  import opened Ballots
  import opened Releases
  import opened Invariant
  import opened Voting
  import opened Closing
  import opened Runs
  import opened Evolution
  import opened Quorum
  import opened Liveness
  import opened Electorate

  // The status

  /** No slash that could matter to this proposal came after the last vote on it. */
  ghost predicate Calm(s: State, id: ProposalId)
    requires id in s.proposals
  {
    Unslashable(s, id) || SlashedSinceVote(s.journal, s.proposals[id].projectId, id) == 0
  }

  /**
   Whatever the policy, a status is the verdict at the last vote. If nothing was slashed in the project since,
   a live proposal is approved exactly when it meets its quorums. After a slash an approval still means that
   they are met, as long as every required role has stake; the status is wrong only for a proposal that is
   left to the vote although a slash has lowered a quorum below its ayes.
   */
  lemma StatusIsLastVerdict(verify: Verifier, s: State, id: ProposalId)
    requires Reached(verify, s) && id in s.proposals
    ensures var status := s.proposals[id].status;
      && (status.Approved? || status.Enacted? ==> MetAtVote(s, id) && (Meets(s, id) <==> Staffed(s, id)))
      && (status.Voting? ==> !MetAtVote(s, id) || !Staffed(s, id))
      && (Live(status) && Calm(s, id) ==> (status.Approved? <==> Meets(s, id)))
      && (status.Voting? && Meets(s, id) ==> !Calm(s, id))
  {
    hide Reached, Sound, Meets, MetAtVote, Staffed, Scheduled;
    ReachedSound(verify, s);
    ScheduleOf(verify, s);
    assert StatusFits(s, id);
    if MetAtVote(s, id) {
      StillMet(s, id);
    }
    if Calm(s, id) {
      VerdictUnmoved(s, id);
    }
  }

  lemma PunishedStakeAtVote(verify: Verifier, s: State, i: ProposalId, p: ProjectId, id: ProposalId, r: Role)
    requires Books(s) && Challengeable(verify, s, i)
    ensures StakeAtVote(Rejecting(verify, s, i), p, id, r) == StakeAtVote(s, p, id, r)
  {
    PunishedShape(verify, s, i);
    PunishedExactly(verify, s, i);
    hide Books, Punished, SlashOf, MulFloor, SignedBy;
    assert Rejecting(verify, s, i).journal == Punished(verify, s, i).journal;
    assert Rejecting(verify, s, i).roleStake == Punished(verify, s, i).roleStake;
  }

  lemma VoteSetsStake(s: State, origin: Origin, id: ProposalId, aye: bool, r: Role)
    requires Vote(s, origin, id, aye).Ok?
    ensures id in s.proposals
    ensures var p := s.proposals[id].projectId;
      StakeAtVote(Vote(s, origin, id, aye).value, p, id, r) == RoleStakeOf(s.roleStake, p, r)
  {
    hide Reconsider, MoveVote;
    var p := s.proposals[id].projectId;
    var s1 := RecordVote(s, id, origin.who, s.stakeholders[(p, origin.who)], aye);
    ReconsiderSettles(s1, id, p, s.projects[p].policy);
    assert SlashedSinceVote(s1.journal, p, id) == 0;
  }

  lemma SlashKeepsStake(verify: Verifier, s: State, origin: Origin, i: ProposalId, rebuilt: Hash32,
                        p: ProjectId, id: ProposalId, r: Role)
    requires Sound(verify, s) && SubmitCounterAttestation(s, origin, i, rebuilt).Ok?
    ensures StakeAtVote(SubmitCounterAttestation(s, origin, i, rebuilt).value, p, id, r) == StakeAtVote(s, p, id, r)
  {
    hide Sound, SubmitCounterAttestation, Rejecting, Books, ProposalRooted;
    hide Based, Chronicled, Tallied, Logged, StatusesFit, Scheduled, WithoutApproval;
    CounterGuards(s, origin, i, rebuilt);
    RootedAt(verify, s, i);
    CounterIsRejecting(verify, s, origin, i, rebuilt);
    ChallengedFrame(verify, s, i, origin.who, rebuilt);
    var s1 := Challenge(s, i, origin.who, rebuilt);
    PunishedStakeAtVote(verify, s1, i, p, id, r);
  }

  /** The stake at the last vote is what the role had then: an accepted vote sets it, and no slash changes it. */
  lemma StakeAtVoteStands(verify: Verifier, s: State, origin: Origin, i: ProposalId, id: ProposalId, r: Role)
    requires Reached(verify, s) && id in s.proposals
    ensures var p := s.proposals[id].projectId;
      && (forall aye :: Vote(s, origin, id, aye).Ok? ==>
            StakeAtVote(Vote(s, origin, id, aye).value, p, id, r) == RoleStakeOf(s.roleStake, p, r))
      && (forall rebuilt :: SubmitCounterAttestation(s, origin, i, rebuilt).Ok? ==>
            StakeAtVote(SubmitCounterAttestation(s, origin, i, rebuilt).value, p, id, r) == StakeAtVote(s, p, id, r))
  {
    hide Reached, Sound, Vote, SubmitCounterAttestation, StakeAtVote;
    ReachedSound(verify, s);
    var p := s.proposals[id].projectId;
    forall aye | Vote(s, origin, id, aye).Ok?
      ensures StakeAtVote(Vote(s, origin, id, aye).value, p, id, r) == RoleStakeOf(s.roleStake, p, r)
    {
      VoteSetsStake(s, origin, id, aye, r);
    }
    forall rebuilt | SubmitCounterAttestation(s, origin, i, rebuilt).Ok?
      ensures StakeAtVote(SubmitCounterAttestation(s, origin, i, rebuilt).value, p, id, r) == StakeAtVote(s, p, id, r)
    {
      SlashKeepsStake(verify, s, origin, i, rebuilt, p, id, r);
    }
  }

  // Against Eq. 1

  /** The tally side of a role never falls short of the real stake behind it, so Eq. 1 is always recognised. */
  lemma EqOneIsMet(verify: Verifier, s: State, id: ProposalId)
    requires Reached(verify, s) && id in s.proposals && EqOneHolds(s, id)
    ensures Meets(s, id)
  {
    hide Reached, Sound, RoleMeets, Fraction, Polled, RoleWeights, Books, Tallied;
    ReachedSound(verify, s);
    BooksAndTallies(verify, s);
    var p := s.proposals[id].projectId;
    forall rq | rq in RequiredOf(s.projects, p)
      ensures RoleMeets(TallyOf(s.tallies, id, rq.role).ayes, RoleStakeOf(s.roleStake, p, rq.role), rq.quorum)
    {
      assert EqOneFor(s.stakeholders, s.votes, p, id, rq);
      TallyCovers(verify, s, id, rq.role);
      RoleStakeReal(s, p, rq.role);
      var polled := Polled(s.stakeholders, s.votes, p, id, rq.role, true);
      FractionPasses(polled, RoleStakeOf(s.roleStake, p, rq.role), rq.quorum);
      MonotoneInAyes(polled, TallyOf(s.tallies, id, rq.role).ayes, RoleStakeOf(s.roleStake, p, rq.role), rq.quorum);
    }
  }

  /** Nothing that matters to this proposal was slashed from behind its ayes. */
  ghost predicate AyesIntact(s: State, id: ProposalId)
    requires id in s.proposals
  {
    Unslashable(s, id) || LostAyes(s, id) == 0
  }

  /** Whatever the policy, the quorums are Eq. 1 as long as nothing was slashed from behind the ayes. */
  lemma VerdictUnlessSlashed(verify: Verifier, s: State, id: ProposalId)
    requires Reached(verify, s) && id in s.proposals && AyesIntact(s, id)
    requires s.ledger.issuance * 1_000_000_000 <= 340_282_366_920_938_463_463_374_607_431_768_211_455
    ensures Meets(s, id) <==> EqOneHolds(s, id)
  {
    hide Reached, Sound, Books, Tallied, Meets, Polled, RoleWeights, LostAyes, Passes;
    ReachedSound(verify, s);
    BooksAndTallies(verify, s);
    VerdictFromBooks(s, id);
    var p := s.proposals[id].projectId;
    forall rq | rq in RequiredOf(s.projects, p)
      ensures rq.quorum * Sum(RoleWeights(s.stakeholders, p, rq.role))
           <= 340_282_366_920_938_463_463_374_607_431_768_211_455
    {
      RoleStakeReal(s, p, rq.role);
      WithinWord(rq.quorum, Sum(RoleWeights(s.stakeholders, p, rq.role)), s.ledger.issuance);
    }
    BackedWithoutLoss(s.stakeholders, s.votes, RequiredOf(s.projects, p), p, id);
  }

  /** If no voter of the role was slashed since its first vote, nothing was slashed from behind the ayes. */
  lemma UnslashedVotersIntact(verify: Verifier, s: State, id: ProposalId)
    requires Reached(verify, s) && id in s.proposals && NoneSlashedSince(s, id, BuildService)
    ensures AyesIntact(s, id)
  {
    hide Reached, Sound, NoneSlashedSince, LostBallots;
    ReachedSound(verify, s);
    TallyCovers(verify, s, id, BuildService);
    TallyExactIffNoneSlashed(verify, s, id, BuildService);
  }

  /** A live proposal is approved exactly when Eq. 1 holds of the real stakes, if no slash matters. */
  lemma ApprovedIffEqOne(verify: Verifier, s: State, id: ProposalId)
    requires Reached(verify, s) && id in s.proposals && Live(s.proposals[id].status)
    requires Calm(s, id) && AyesIntact(s, id)
    requires s.ledger.issuance * 1_000_000_000 <= 340_282_366_920_938_463_463_374_607_431_768_211_455
    ensures s.proposals[id].status.Approved? <==> EqOneHolds(s, id)
    ensures s.proposals[id].status.Voting? <==> !EqOneHolds(s, id)
  {
    hide Reached, Calm, AyesIntact, Meets, EqOneHolds;
    StatusIsLastVerdict(verify, s, id);
    VerdictUnlessSlashed(verify, s, id);
  }

  /** For policies without slashable required roles, no slash matters. */
  lemma UnslashableIsCalm(s: State, id: ProposalId)
    requires id in s.proposals && Unslashable(s, id)
    ensures Calm(s, id) && AyesIntact(s, id)
  {
  }

  /**
   `close_expired` is safe after a calm vote: what it drops satisfies neither the quorums nor Eq. 1. It drops
   a proposal that satisfies them only if a slash in the project followed the last vote on it.
   */
  lemma ExpiryNeverDropsEqOne(verify: Verifier, s: State, origin: Origin, id: ProposalId)
    requires Reached(verify, s) && CloseExpired(s, origin, id).Ok? && Calm(s, id)
    ensures !Meets(s, id) && !EqOneHolds(s, id)
  {
    hide Reached, Calm, Meets, EqOneHolds;
    StatusIsLastVerdict(verify, s, id);
    if EqOneHolds(s, id) {
      EqOneIsMet(verify, s, id);
    }
  }

  // Everyone votes aye

  /** Slashes after the last vote hit builders that stand on the aye side, if all that were ever slashed do. */
  lemma {:induction false} LateSlashesOnAyes(j: Journal, p: ProjectId, id: ProposalId)
    requires forall b :: 0 < SlashCount(j, p, b) ==> LastVote(j, id, b) == Some(true)
    ensures SlashedSinceVote(j, p, id) <= LostBallots(j, p, id, true)
  {
    if j.Deposit? && !(j.event.Voted? && j.event.proposal == id) {
      forall b | 0 < SlashCount(j.past, p, b) ensures LastVote(j.past, id, b) == Some(true) {
        assert 0 < SlashCount(j, p, b);
      }
      if j.event.BuildServiceSlashed? && j.event.project == p {
        assert 0 < SlashCount(j, p, j.event.builder);
      }
      LateSlashesOnAyes(j.past, p, id);
    }
  }

  lemma SlashedAreBuilders(verify: Verifier, s: State, p: ProjectId, b: AccountId)
    requires Sound(verify, s) && 0 < SlashCount(s.journal, p, b)
    ensures HasRole(s.stakeholders, p, b, BuildService)
  {
    hide Numbered, PoliciesStaked, Countered, Books, Tallied, Logged, Scheduled, StatusFits, StakesEroded;
    hide StakeConserved;
    hide SignedBy, HasRole;
    if !HasRole(s.stakeholders, p, b, BuildService) {
      forall i | i in s.proposals ensures IfRejected(s.proposals[i], p, b) == 0 {
        assert ProposalRooted(verify, s.projects, s.stakeholders, s.proposals[i]);
      }
      SumZero(RejectedWeights(s.proposals, p, b));
    }
  }

  ghost predicate Unanimous(s: State, id: ProposalId, r: Role)
    requires id in s.proposals
  {
    forall a :: HasRole(s.stakeholders, s.proposals[id].projectId, a, r) ==> VoteOf(s.votes, id, a) == Some(true)
  }

  lemma PolledUnanimously(s: State, id: ProposalId, r: Role)
    requires id in s.proposals && Unanimous(s, id, r)
    ensures var p := s.proposals[id].projectId;
      Polled(s.stakeholders, s.votes, p, id, r, true) == Sum(RoleWeights(s.stakeholders, p, r))
  {
    var p := s.proposals[id].projectId;
    forall k | k in s.stakeholders
      ensures BallotWeight(k, s.stakeholders[k], s.votes, p, id, r, true) == StakeIfRole(k, s.stakeholders[k], p, r)
    {
      if k.0 == p && s.stakeholders[k].role == r {
        assert k == (p, k.1);
        assert HasRole(s.stakeholders, p, k.1, r);
      }
    }
    assert BallotWeights(s.stakeholders, s.votes, p, id, r, true) == RoleWeights(s.stakeholders, p, r);
  }

  lemma LastVoteStored(verify: Verifier, s: State, id: ProposalId, a: AccountId)
    requires Sound(verify, s)
    ensures VoteOf(s.votes, id, a) == LastVote(s.journal, id, a)
  {
    hide Based, Books, Chronicled, Logged, Scheduled, StatusFits, TalliesFaithful, FirstVotesTallied, VotesRecorded;
    hide TalliesKeyed;
  }

  /** A unanimous role had all its stake behind the proposal at the last vote on it. */
  lemma UnanimousAtVote(verify: Verifier, s: State, id: ProposalId, r: Role)
    requires Sound(verify, s) && id in s.proposals && Unanimous(s, id, r)
    ensures StakeAtVote(s, s.proposals[id].projectId, id, r) <= TallyOf(s.tallies, id, r).ayes
  {
    hide Sound, Books, Tallied, Polled, RoleWeights, SlashedSinceVote, LostBallots;
    var p := s.proposals[id].projectId;
    BooksAndTallies(verify, s);
    TallyCovers(verify, s, id, r);
    RoleStakeReal(s, p, r);
    PolledUnanimously(s, id, r);
    if r == BuildService {
      forall b | 0 < SlashCount(s.journal, p, b) ensures LastVote(s.journal, id, b) == Some(true) {
        SlashedAreBuilders(verify, s, p, b);
        LastVoteStored(verify, s, id, b);
      }
      LateSlashesOnAyes(s.journal, p, id);
    }
  }

  lemma HadStake(s: State, id: ProposalId, rq: RoleQuorum)
    requires id in s.proposals && Staffed(s, id) && rq in RequiredOf(s.projects, s.proposals[id].projectId)
    ensures 0 < StakeAtVote(s, s.proposals[id].projectId, id, rq.role)
  {
  }

  /**
   Whatever the policy, if every stakeholder of every required role last voted aye, a live proposal is approved,
   unless slashes have taken all the stake of a required role.
   */
  lemma UnanimityApproves(verify: Verifier, s: State, id: ProposalId)
    requires Reached(verify, s) && id in s.proposals && Live(s.proposals[id].status)
    requires forall rq :: rq in RequiredOf(s.projects, s.proposals[id].projectId) ==> Unanimous(s, id, rq.role)
    ensures Staffed(s, id) ==> s.proposals[id].status.Approved?
    ensures LastingRoles(s, id) ==> s.proposals[id].status.Approved?
  {
    hide Reached, Sound, RoleMeets, Unanimous, StakeAtVote, LastingRoles;
    ReachedSound(verify, s);
    if LastingRoles(s, id) {
      LastingStaffed(verify, s, id);
    }
    if Staffed(s, id) {
      var p := s.proposals[id].projectId;
      forall rq | rq in RequiredOf(s.projects, p)
        ensures RoleMeets(TallyOf(s.tallies, id, rq.role).ayes, StakeAtVote(s, p, id, rq.role), rq.quorum)
      {
        UnanimousAtVote(verify, s, id, rq.role);
        HadStake(s, id, rq);
        UnanimousMeets(StakeAtVote(s, p, id, rq.role), rq.quorum);
        MonotoneInAyes(StakeAtVote(s, p, id, rq.role), TallyOf(s.tallies, id, rq.role).ayes,
                       StakeAtVote(s, p, id, rq.role), rq.quorum);
      }
      StatusIsLastVerdict(verify, s, id);
    }
  }

  // The release log

  /** Eq. 1 with the stakes that were slashed since put back, on both sides of the fraction. */
  ghost predicate EqOneAtVote(s: State, id: ProposalId)
    requires id in s.proposals
  {
    var p := s.proposals[id].projectId;
    forall rq :: rq in RequiredOf(s.projects, p) ==>
      Fraction(Polled(s.stakeholders, s.votes, p, id, rq.role, true) + Residue(s.journal, p, id, rq.role, true),
               StakeAtVote(s, p, id, rq.role), rq.quorum)
  }

  lemma {:induction false} SlashedSinceVoteBounded(j: Journal, p: ProjectId, id: ProposalId)
    ensures SlashedSinceVote(j, p, id) <= Slashed(j)
  {
    if j.Deposit? {
      SlashedSinceVoteBounded(j.past, p, id);
    }
  }

  lemma VerdictAtVoteIsEqOne(verify: Verifier, s: State, id: ProposalId)
    requires Sound(verify, s) && id in s.proposals
    requires (s.ledger.issuance + Slashed(s.journal)) * 1_000_000_000
          <= 340_282_366_920_938_463_463_374_607_431_768_211_455
    ensures MetAtVote(s, id) <==> EqOneAtVote(s, id)
  {
    hide Sound, Books, Tallied, Fraction, RoleMeets, Polled, Residue;
    BooksAndTallies(verify, s);
    var p := s.proposals[id].projectId;
    forall rq | rq in RequiredOf(s.projects, p)
      ensures RoleMeets(TallyOf(s.tallies, id, rq.role).ayes, StakeAtVote(s, p, id, rq.role), rq.quorum)
         <==> Fraction(Polled(s.stakeholders, s.votes, p, id, rq.role, true) + Residue(s.journal, p, id, rq.role, true),
                       StakeAtVote(s, p, id, rq.role), rq.quorum)
    {
      TallyCovers(verify, s, id, rq.role);
      RoleStakeReal(s, p, rq.role);
      SlashedSinceVoteBounded(s.journal, p, id);
      FractionVerdict(TallyOf(s.tallies, id, rq.role).ayes, StakeAtVote(s, p, id, rq.role), rq.quorum,
                      s.ledger.issuance + Slashed(s.journal));
    }
  }

  /**
   For every policy, a live proposal whose required roles have stake is approved exactly when Eq. 1 held at its last
   vote.
   */
  lemma ApprovedIffEqOneAtVote(verify: Verifier, s: State, id: ProposalId)
    requires Reached(verify, s) && id in s.proposals && Live(s.proposals[id].status) && Staffed(s, id)
    requires (s.ledger.issuance + Slashed(s.journal)) * 1_000_000_000
          <= 340_282_366_920_938_463_463_374_607_431_768_211_455
    ensures s.proposals[id].status.Approved? <==> EqOneAtVote(s, id)
  {
    hide Reached, Sound, Staffed, Meets, MetAtVote, EqOneAtVote, Slashed;
    ReachedSound(verify, s);
    StatusIsLastVerdict(verify, s, id);
    VerdictAtVoteIsEqOne(verify, s, id);
  }

  /**
   For every policy, an approved or enacted proposal whose required roles have stake satisfies Eq. 1 of the real
   stakes if nothing was slashed from behind its ayes.
   */
  lemma AcceptedSatisfyEqOne(verify: Verifier, s: State, id: ProposalId)
    requires Reached(verify, s) && id in s.proposals
    requires s.proposals[id].status.Approved? || s.proposals[id].status.Enacted?
    requires Staffed(s, id) && AyesIntact(s, id)
    requires s.ledger.issuance * 1_000_000_000 <= 340_282_366_920_938_463_463_374_607_431_768_211_455
    ensures EqOneHolds(s, id)
  {
    hide Reached, Staffed, AyesIntact, Meets, MetAtVote, EqOneHolds;
    StatusIsLastVerdict(verify, s, id);
    VerdictUnlessSlashed(verify, s, id);
  }

  lemma EntryStays(s: State, t: State, p: ProjectId, i: nat)
    requires Evolves(s, t) && (p, i) in s.releaseLog && s.releaseLog[(p, i)].proposalId in s.proposals
    requires s.proposals[s.releaseLog[(p, i)].proposalId].status.Enacted?
    ensures (p, i) in t.releaseLog && t.releaseLog[(p, i)] == s.releaseLog[(p, i)]
    ensures var id := s.releaseLog[(p, i)].proposalId;
      id in t.proposals && t.proposals[id].status.Enacted?
  {
    hide RegistryKept, ElectorateFixed, ProjectsKept, CountersKept;
  }

  /**
   Every log entry satisfies its quorums in every later state. It satisfies Eq. 1 of the real stakes as long as the
   required roles have stake and nothing was slashed from behind its ayes, which is always so for policies without
   slashable required roles; and for every policy it satisfies Eq. 1 with the stakes slashed since put back.
   */
  lemma ReleasedSatisfyEqOneForever(verify: Verifier, s: State, steps: seq<Step>, p: ProjectId, i: nat)
    requires Reached(verify, s) && AdmissibleRun(verify, s, steps) && (p, i) in s.releaseLog
    ensures var t := Run(verify, s, steps);
      var id := s.releaseLog[(p, i)].proposalId;
      && (p, i) in t.releaseLog && t.releaseLog[(p, i)] == s.releaseLog[(p, i)]
      && id in t.proposals && t.proposals[id].projectId == p
      && MetAtVote(t, id)
      && (&& Staffed(t, id) && AyesIntact(t, id)
          && s.ledger.issuance * 1_000_000_000 <= 340_282_366_920_938_463_463_374_607_431_768_211_455
          ==> EqOneHolds(t, id))
      && (BuildFree(RequiredOf(s.projects, p)) ==> Staffed(t, id) && AyesIntact(t, id))
      && ((s.ledger.issuance + Slashed(s.journal)) * 1_000_000_000
            <= 340_282_366_920_938_463_463_374_607_431_768_211_455
          ==> EqOneAtVote(t, id))
  {
    hide Reached, Sound, Run, AdmissibleRun, EqOneHolds, EqOneAtVote, MetAtVote, Meets, Staffed, BuildFree, Slashed;
    hide AyesIntact;
    ReachedSound(verify, s);
    var t := Run(verify, s, steps);
    RunKeepsSound(verify, s, steps);
    ReachedOnwards(verify, s, steps);
    RunEvolves(verify, s, steps);
    EntryOf(verify, s, p, i);
    var id := s.releaseLog[(p, i)].proposalId;
    EntryStays(s, t, p, i);
    SameRequirements(verify, s, t, id);
    StatusIsLastVerdict(verify, t, id);
    if BuildFree(RequiredOf(s.projects, p)) {
      StatusFollowsVerdict(verify, t, id);
      UnslashableIsCalm(t, id);
    }
    if Staffed(t, id) && AyesIntact(t, id)
       && s.ledger.issuance * 1_000_000_000 <= 340_282_366_920_938_463_463_374_607_431_768_211_455 {
      IssuanceShrinks(s, t);
      assert t.ledger.issuance * 1_000_000_000 <= 340_282_366_920_938_463_463_374_607_431_768_211_455;
      AcceptedSatisfyEqOne(verify, t, id);
    }
    if (s.ledger.issuance + Slashed(s.journal)) * 1_000_000_000 <= 340_282_366_920_938_463_463_374_607_431_768_211_455 {
      assert t.ledger.issuance + Slashed(t.journal) == s.ledger.issuance + Slashed(s.journal);
      VerdictAtVoteIsEqOne(verify, t, id);
    }
  }
}
