/** `new_release` and `vote` keep the invariant. */
module Voting {
  import opened Types
  import opened Currency
  import opened Protocol
  import opened Accounting
  import opened History
  import opened Ballots
  import opened Schedule
  import opened Releases
  import opened Invariant

  // Between Voting and Approved

  lemma BlockAddBounds(now: BlockNumber, ends: BlockNumber, delay: BlockNumber)
    requires now < BLOCK_MAX && now <= ends
    ensures now + 1 <= BlockAdd(now, delay) <==> 0 < delay
    ensures BlockAdd(now, delay) <= BlockAdd(ends, delay)
  {
  }

  lemma ApproveKeepsFrame(verify: Verifier, s: State, id: ProposalId)
    requires Frame(verify, s, s.now + 1) && id in s.proposals && s.proposals[id].status.Voting?
    requires s.now <= s.proposals[id].votingEnds
    requires Approve(s, id, BlockAdd(s.now, DelayOf(s.projects, s.proposals[id].projectId))).Ok?
    ensures var b := BlockAdd(s.now, DelayOf(s.projects, s.proposals[id].projectId));
      Frame(verify, Approve(s, id, b).value, s.now + 1)
  {
    hide Numbered, Rooted, PoliciesStaked, Countered, RoleStakeExact, Escrowed, Bonded, Conserved;
    hide StakesEroded, SlashesCounted, StakeConserved, TalliesFaithful, FirstVotesTallied, VotesRecorded;
    hide VotesCurrent, TalliesKeyed;
    hide Indexed, BucketsBounded, Timely, LogDense, LogFaithful, LogOrdered, LogComplete;
    var delay := DelayOf(s.projects, s.proposals[id].projectId);
    var b := BlockAdd(s.now, delay);
    var v := s.proposals[id].(status := Approved(b));
    BlockAddBounds(s.now, s.proposals[id].votingEnds, delay);
    TimelyUpdate(s.proposals, s.projects, s.now + 1, id, v);
    ScheduleIn(s.pending, s.proposals, id, b, v);
    LiveMoveKeepsFrame(verify, s, s.now + 1, id, Approved(b),
                       s.pending[b := Bucket(s.pending, b) + [id]], ProposalApproved(id, b));
  }

  lemma RevokeKeepsFrame(verify: Verifier, s: State, h: BlockNumber, id: ProposalId)
    requires Frame(verify, s, h) && id in s.proposals && s.proposals[id].status.Approved?
    ensures Frame(verify, Revoke(s, id, s.proposals[id].status.enactAt), h)
  {
    hide Numbered, Rooted, PoliciesStaked, Countered, RoleStakeExact, Escrowed, Bonded, Conserved;
    hide StakesEroded, SlashesCounted, StakeConserved, TalliesFaithful, FirstVotesTallied, VotesRecorded;
    hide VotesCurrent, TalliesKeyed;
    hide Indexed, BucketsBounded, Timely, LogDense, LogFaithful, LogOrdered, LogComplete;
    var b := s.proposals[id].status.enactAt;
    var v := s.proposals[id].(status := Voting);
    TimelyUpdate(s.proposals, s.projects, h, id, v);
    ScheduleOut(s.pending, s.proposals, id, b, v);
    LiveMoveKeepsFrame(verify, s, h, id, Voting,
                       s.pending[b := Without(Bucket(s.pending, b), id)], ProposalApprovalRevoked(id));
  }

  /** The status of one proposal changes, with the schedule and at most one event about neither votes nor stakes. */
  ghost predicate OnlyStatus(s: State, t: State, id: ProposalId, status: ProposalStatus)
    requires id in s.proposals
  {
    && t == s.(proposals := s.proposals[id := s.proposals[id].(status := status)],
               pending := t.pending, journal := t.journal)
    && (t.journal == s.journal
        || (t.journal.Deposit? && t.journal.past == s.journal && Quiet(t.journal.event) && Silent(t.journal.event)))
  }

  lemma NoChange(s: State, id: ProposalId)
    requires id in s.proposals
    ensures OnlyStatus(s, s, id, s.proposals[id].status)
  {
  }

  lemma OnlyStatusRestates(s: State, t: State, id: ProposalId, status: ProposalStatus)
    requires id in s.proposals && OnlyStatus(s, t, id, status)
    ensures Restatused(s, t, id, status)
    ensures id in t.proposals && t.proposals[id] == s.proposals[id].(status := status)
  {
  }

  lemma ApproveShape(s: State, id: ProposalId, b: BlockNumber)
    requires id in s.proposals && Approve(s, id, b).Ok?
    ensures OnlyStatus(s, Approve(s, id, b).value, id, Approved(b))
  {
    hide Bucket;
  }

  lemma RevokeShape(s: State, id: ProposalId, b: BlockNumber)
    requires id in s.proposals
    ensures OnlyStatus(s, Revoke(s, id, b), id, Voting)
  {
    hide Bucket, Without;
  }

  /** Reconsideration leaves the proposal approved if the quorums are met and voting if they are not. */
  lemma ReconsiderSettles(s: State, id: ProposalId, p: ProjectId, policy: ReleasePolicy)
    requires id in s.proposals && Live(s.proposals[id].status) && Reconsider(s, id, p, policy).Ok?
    ensures var t := Reconsider(s, id, p, policy).value;
      && id in t.proposals
      && OnlyStatus(s, t, id, t.proposals[id].status)
      && t.proposals[id] == s.proposals[id].(status := t.proposals[id].status)
      && Live(t.proposals[id].status)
      && (t.proposals[id].status.Approved? <==> MeetsQuorums(s.roleStake, s.tallies, policy.requiredRoles, p, id))
  {
    hide MeetsQuorums, Approve, Revoke, OnlyStatus;
    NoChange(s, id);
    if s.proposals[id].status.Voting? {
      if MeetsQuorums(s.roleStake, s.tallies, policy.requiredRoles, p, id) {
        var b := BlockAdd(s.now, policy.enactmentDelay);
        ApproveShape(s, id, b);
        OnlyStatusRestates(s, Approve(s, id, b).value, id, Approved(b));
      }
    } else if !MeetsQuorums(s.roleStake, s.tallies, policy.requiredRoles, p, id) {
      var b := s.proposals[id].status.enactAt;
      RevokeShape(s, id, b);
      OnlyStatusRestates(s, Revoke(s, id, b), id, Voting);
    }
  }

  lemma ReconsiderKeepsFrame(verify: Verifier, s: State, id: ProposalId)
    requires Frame(verify, s, s.now + 1)
    requires id in s.proposals && Live(s.proposals[id].status) && s.now <= s.proposals[id].votingEnds
    requires var p := s.proposals[id].projectId;
      p in s.projects && Reconsider(s, id, p, s.projects[p].policy).Ok?
    ensures var p := s.proposals[id].projectId;
      Frame(verify, Reconsider(s, id, p, s.projects[p].policy).value, s.now + 1)
  {
    hide Frame, MeetsQuorums, Approve, Revoke;
    var p := s.proposals[id].projectId;
    var t := Reconsider(s, id, p, s.projects[p].policy).value;
    if t != s {
      if s.proposals[id].status.Voting? {
        ApproveKeepsFrame(verify, s, id);
      } else {
        RevokeKeepsFrame(verify, s, s.now + 1, id);
      }
    }
  }

  lemma SettledFits(s: State, t: State, id: ProposalId)
    requires id in s.proposals && id in t.proposals && s.proposals[id].projectId in s.projects
    requires Restatused(s, t, id, t.proposals[id].status) && Live(t.proposals[id].status)
    requires t.proposals[id].status.Approved? <==> Meets(s, id)
    requires SlashedSinceVote(s.journal, s.proposals[id].projectId, id) == 0
    ensures StatusFits(t, id)
  {
    hide MetAtVote, Staffed;
    VerdictUnmoved(t, id);
    assert Meets(t, id) <==> Meets(s, id);
  }

  /** After reconsideration the status agrees with the standing tally, whatever it was before. */
  lemma ReconsiderKeepsInv(verify: Verifier, s: State, id: ProposalId)
    requires Frame(verify, s, s.now + 1) && OtherStatusesFit(s, id)
    requires id in s.proposals && Live(s.proposals[id].status) && s.now <= s.proposals[id].votingEnds
    requires SlashedSinceVote(s.journal, s.proposals[id].projectId, id) == 0
    requires var p := s.proposals[id].projectId;
      p in s.projects && Reconsider(s, id, p, s.projects[p].policy).Ok?
    ensures var p := s.proposals[id].projectId;
      Sound(verify, Reconsider(s, id, p, s.projects[p].policy).value)
  {
    hide Frame, OtherStatusesFit, MeetsQuorums, Reconsider, OnlyStatus;
    var p := s.proposals[id].projectId;
    var t := Reconsider(s, id, p, s.projects[p].policy).value;
    ReconsiderKeepsFrame(verify, s, id);
    ReconsiderSettles(s, id, p, s.projects[p].policy);
    OnlyStatusRestates(s, t, id, t.proposals[id].status);
    OtherStatusesKept(s, t, id);
    SettledFits(s, t, id);
    AllStatusesFit(t, id);
  }

  // vote

  lemma RecordKeepsFrame(verify: Verifier, s: State, h: BlockNumber, id: ProposalId, who: AccountId, aye: bool)
    requires Frame(verify, s, h) && id in s.proposals && (s.proposals[id].projectId, who) in s.stakeholders
    ensures Frame(verify, RecordVote(s, id, who, s.stakeholders[(s.proposals[id].projectId, who)], aye), h)
  {
    hide Numbered, Rooted, PoliciesStaked, Countered, RoleStakeExact, Escrowed, Bonded, Conserved;
    hide StakesEroded, SlashesCounted, StakeConserved, TalliesFaithful, FirstVotesTallied, VotesRecorded;
    hide VotesCurrent, TalliesKeyed;
    hide Indexed, BucketsBounded, Timely, LogDense, LogFaithful, LogOrdered, LogComplete;
    var v := s.stakeholders[(s.proposals[id].projectId, who)];
    VoteKeepsTallied(s, id, who, aye);
    QuietKeepsChronicle(s, Voted(id, who, v.role, aye, v.stake));
  }

  lemma RecordKeepsOtherStatuses(s: State, id: ProposalId, who: AccountId, voter: Stakeholder, aye: bool)
    requires OtherStatusesFit(s, id)
    ensures OtherStatusesFit(RecordVote(s, id, who, voter, aye), id)
  {
    var t := RecordVote(s, id, who, voter, aye);
    hide StatusFits;
    forall i | i in t.proposals && i != id ensures StatusFits(t, i) {
      FitKept(s, t, i);
    }
  }

  lemma DoVoteKeepsSound(verify: Verifier, s: State, id: ProposalId, who: AccountId, aye: bool)
    requires Frame(verify, s, s.now + 1) && OtherStatusesFit(s, id)
    requires id in s.proposals && Live(s.proposals[id].status) && s.now <= s.proposals[id].votingEnds
    requires var p := s.proposals[id].projectId;
      && p in s.projects && (p, who) in s.stakeholders
      && DoVote(s, id, p, s.projects[p].policy, who, s.stakeholders[(p, who)], aye).Ok?
    ensures var p := s.proposals[id].projectId;
      Sound(verify, DoVote(s, id, p, s.projects[p].policy, who, s.stakeholders[(p, who)], aye).value)
  {
    hide Frame, OtherStatusesFit, Inv;
    var p := s.proposals[id].projectId;
    RecordKeepsFrame(verify, s, s.now + 1, id, who, aye);
    RecordKeepsOtherStatuses(s, id, who, s.stakeholders[(p, who)], aye);
    ReconsiderKeepsInv(verify, RecordVote(s, id, who, s.stakeholders[(p, who)], aye), id);
  }

  lemma VoteKeepsSound(verify: Verifier, s: State, origin: Origin, id: ProposalId, aye: bool)
    requires Sound(verify, s) && Vote(s, origin, id, aye).Ok?
    ensures Sound(verify, Vote(s, origin, id, aye).value)
  {
    hide Frame, StatusFits, DoVote;
    DoVoteKeepsSound(verify, s, id, origin.who, aye);
  }

  // new_release

  lemma ProposeKeepsBase(verify: Verifier, s: State, id: ProposalId, v: Proposal)
    requires Based(verify, s) && id == s.nextProposalId < U32_MAX
    requires ProposalRooted(verify, s.projects, s.stakeholders, v) && v.status.Voting?
    ensures id !in s.proposals
    ensures Based(verify, s.(proposals := s.proposals[id := v], nextProposalId := id + 1))
  {
    hide PoliciesStaked, ProposalRooted;
    var t := s.(proposals := s.proposals[id := v], nextProposalId := id + 1);
    forall i | i in t.proposals ensures ProposalRooted(verify, t.projects, t.stakeholders, t.proposals[i]) {
      if i != id {
        assert ProposalRooted(verify, s.projects, s.stakeholders, s.proposals[i]);
      }
    }
  }

  lemma ProposeKeepsStatuses(s: State, t: State, id: ProposalId)
    requires StatusesFit(s) && id in t.proposals
    requires t.proposals == s.proposals[id := t.proposals[id]]
    requires t.projects == s.projects && t.roleStake == s.roleStake && t.tallies == s.tallies
    requires SameSlashes(s.journal, t.journal, None)
    ensures OtherStatusesFit(t, id)
  {
    hide StatusFits;
    forall i | i in t.proposals && i != id ensures StatusFits(t, i) {
      FitKept(s, t, i);
    }
  }

  lemma ProposeKeepsFrame(verify: Verifier, s: State, who: AccountId, p: ProjectId, version: seq<byte>,
                          attestation: BuildAttestation, cid: Hash32)
    requires Sound(verify, s) && p in s.projects && s.nextProposalId < U32_MAX
    requires HasRole(s.stakeholders, p, who, CoreDeveloper)
    requires HasRole(s.stakeholders, p, attestation.builder, BuildService) && SignedBy(verify, attestation)
    requires Hold(s.ledger, ProposalBond, who, s.projects[p].proposalBond).Ok?
    ensures var l := Hold(s.ledger, ProposalBond, who, s.projects[p].proposalBond).value;
      var t := Propose(s, who, p, version, attestation, cid, l);
      Frame(verify, t, t.now + 1) && OtherStatusesFit(t, s.nextProposalId)
  {
    hide Numbered, Rooted, PoliciesStaked, Countered, RoleStakeExact, Escrowed, Bonded, Conserved;
    hide StakesEroded, SlashesCounted, StakeConserved, TalliesFaithful, FirstVotesTallied, VotesRecorded;
    hide VotesCurrent, TalliesKeyed;
    hide Indexed, BucketsBounded, Timely, LogDense, LogFaithful, LogOrdered, LogComplete;
    hide StatusFits;
    var l := Hold(s.ledger, ProposalBond, who, s.projects[p].proposalBond).value;
    var id := s.nextProposalId;
    var t := Propose(s, who, p, version, attestation, cid, l);
    var v := t.proposals[id];
    var e := t.journal.event;
    var s1 := s.(proposals := s.proposals[id := v]);
    ProposeKeepsBase(verify, s, id, v);
    ProposeKeepsBooks(s, who, p, version, attestation, cid);
    HoldConserves(s.ledger, ProposalBond, who, s.projects[p].proposalBond);
    SameIssuance(s.stakeholders, s.ledger, l, s.journal);
    CountsKept(s.proposals, id, v, s.journal);
    QuietKeepsChronicle(s1.(ledger := l), e);
    ProposeKeepsTallied(s, id, v);
    SilentKeepsTallied(s1, e);
    ScheduleUntouched(s.pending, s.proposals, id, v);
    TimelyUpdate(s.proposals, s.projects, s.now + 1, id, v);
    LogUntouched(s, id, v);
    SilentKeeps(s.journal, e);
    ProposeKeepsStatuses(s, t, id);
  }

  lemma NewReleaseKeepsSound(
    verify: Verifier, s: State, origin: Origin, p: ProjectId, version: seq<byte>,
    attestation: BuildAttestation, cid: Hash32, signature: Signature)
    requires Sound(verify, s) && s.nextProposalId < U32_MAX
    requires NewRelease(verify, s, origin, p, version, attestation, cid, signature).Ok?
    ensures Sound(verify, NewRelease(verify, s, origin, p, version, attestation, cid, signature).value)
  {
    hide Inv, Frame, DoVote, Hold;
    var l := Hold(s.ledger, ProposalBond, origin.who, s.projects[p].proposalBond).value;
    var t := Propose(s, origin.who, p, version, attestation, cid, l);
    assert s.now <= t.proposals[s.nextProposalId].votingEnds by { NowInRange(verify, s); }
    ProposeKeepsFrame(verify, s, origin.who, p, version, attestation, cid);
    DoVoteKeepsSound(verify, t, s.nextProposalId, origin.who, true);
  }
}
