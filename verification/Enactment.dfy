/** `on_initialize` keeps the invariant, and so do transfers outside the pallet. */
module Enactment {
  import opened Types
  import opened Currency
  import opened Protocol
  import opened Accounting
  import opened History
  import opened Ballots
  import opened Schedule
  import opened Releases
  import opened Invariant
  import opened Voting

  // on_initialize

  lemma AppendShape(s: State, id: ProposalId, now: BlockNumber)
    requires id in s.proposals
    ensures var t := Append(s, id, now);
      && Restatused(s, t, id, ProposalStatus.Enacted)
      && t.pending == s.pending
  {
    hide Release;
  }

  lemma AppendIgnoresPending(s: State, pending: Buckets, id: ProposalId, now: BlockNumber)
    requires id in s.proposals
    ensures Append(s.(pending := pending), id, now) == Append(s, id, now).(pending := pending)
  {
    hide Release;
  }

  lemma FallBackIgnoresPending(s: State, pending: Buckets, id: ProposalId)
    requires id in s.proposals
    ensures FallBack(s.(pending := pending), id) == FallBack(s, id).(pending := pending)
    ensures FallBack(s, id).pending == s.pending && OnlyStatus(s, FallBack(s, id), id, Voting)
  {
  }

  /** Enacting a proposal does not look at the schedule. */
  lemma EnactIgnoresPending(s: State, pending: Buckets, id: ProposalId, now: BlockNumber)
    ensures Enact(s.(pending := pending), id, now) == Enact(s, id, now).(pending := pending)
    ensures Enact(s, id, now).pending == s.pending && Enact(s, id, now).now == s.now
  {
    hide MeetsQuorums, Append, FallBack;
    if id in s.proposals {
      AppendShape(s, id, now);
      AppendIgnoresPending(s, pending, id, now);
      FallBackIgnoresPending(s, pending, id);
    }
  }

  lemma AppendKeepsFrame(verify: Verifier, s: State, id: ProposalId, pending: Buckets)
    requires Frame(verify, s, s.now) && id in s.proposals && s.proposals[id].status.Approved?
    requires Indexed(pending, s.proposals[id := s.proposals[id].(status := ProposalStatus.Enacted)])
    requires BucketsBounded(pending)
    ensures Frame(verify, Append(s, id, s.now).(pending := pending), s.now)
  {
    hide Numbered, Rooted, PoliciesStaked, Countered, RoleStakeExact, Escrowed, Bonded, Conserved;
    hide StakesEroded, SlashesCounted, StakeConserved, TalliesFaithful, FirstVotesTallied, VotesRecorded;
    hide VotesCurrent, TalliesKeyed;
    hide Indexed, BucketsBounded, Timely, LogDense, LogFaithful, LogOrdered, LogComplete;
    var v := s.proposals[id].(status := ProposalStatus.Enacted);
    var t := Append(s, id, s.now);
    var e := t.journal.event;
    StatusKeepsBase(verify, s, id, ProposalStatus.Enacted);
    CloseKeepsBooks(s, id, ProposalStatus.Enacted);
    ReleaseConserves(s.ledger, ProposalBond, v.proposer, v.bond);
    SameIssuance(s.stakeholders, s.ledger, t.ledger, s.journal);
    CountsKept(s.proposals, id, v, s.journal);
    QuietKeepsChronicle(Close(s, id, ProposalStatus.Enacted), e);
    SameBallotsKeepTallied(s, t.proposals);
    SilentKeepsTallied(s.(proposals := t.proposals), e);
    TimelyUpdate(s.proposals, s.projects, s.now, id, v);
    NumberedBounds(verify, s, id);
    LogIndexFits(s, id);
    AppendKeepsLogged(s, id);
  }

  lemma EnactFirstKeepsFrame(verify: Verifier, s: State, id: ProposalId, ids: seq<ProposalId>)
    requires Frame(verify, s, s.now) && ids == Bucket(s.pending, s.now) && ids != [] && id == ids[0]
    requires id in s.proposals && s.proposals[id].status == Approved(s.now)
    ensures Frame(verify, Enact(s, id, s.now).(pending := s.pending[s.now := ids[1..]]), s.now)
  {
    hide Numbered, Rooted, PoliciesStaked, Countered, RoleStakeExact, Escrowed, Bonded, Conserved;
    hide StakesEroded, SlashesCounted, StakeConserved, TalliesFaithful, FirstVotesTallied, VotesRecorded;
    hide VotesCurrent, TalliesKeyed;
    hide Indexed, BucketsBounded, Timely, LogDense, LogFaithful, LogOrdered, LogComplete;
    hide MeetsQuorums, Bucket, Append;
    var rest := s.pending[s.now := ids[1..]];
    var p := s.proposals[id].projectId;
    NumberedBounds(verify, s, id);
    if MeetsQuorums(s.roleStake, s.tallies, s.projects[p].policy.requiredRoles, p, id) {
      SchedulePop(s.pending, s.proposals, s.now, s.proposals[id].(status := ProposalStatus.Enacted));
      AppendKeepsFrame(verify, s, id, rest);
    } else {
      var v := s.proposals[id].(status := Voting);
      SchedulePop(s.pending, s.proposals, s.now, v);
      TimelyUpdate(s.proposals, s.projects, s.now, id, v);
      LiveMoveKeepsFrame(verify, s, s.now, id, Voting, rest, ProposalApprovalRevoked(id));
    }
  }

  /** An approved proposal is enacted if it still meets the quorums, and goes back to the vote otherwise. */
  lemma EnactShape(s: State, id: ProposalId)
    requires id in s.proposals && s.proposals[id].projectId in s.projects && s.proposals[id].status.Approved?
    ensures var t := Enact(s, id, s.now);
      && id in t.proposals
      && Restatused(s, t, id, t.proposals[id].status)
      && t.proposals[id].status == if Meets(s, id) then ProposalStatus.Enacted else Voting
  {
    hide MeetsQuorums, Append, FallBack;
    AppendShape(s, id, s.now);
    FallBackIgnoresPending(s, s.pending, id);
  }

  lemma SameStakeAtVote(s: State, t: State, id: ProposalId)
    requires t.roleStake == s.roleStake && SameSlashes(s.journal, t.journal, None)
    ensures forall p, r :: StakeAtVote(t, p, id, r) == StakeAtVote(s, p, id, r)
  {
  }

  lemma EnactedFits(s: State, t: State, id: ProposalId)
    requires id in s.proposals && id in t.proposals
    requires Restatused(s, t, id, t.proposals[id].status)
    requires StatusFits(s, id) && s.proposals[id].status.Approved?
    requires t.proposals[id].status == if Meets(s, id) then ProposalStatus.Enacted else Voting
    ensures StatusFits(t, id)
  {
    StillMet(s, id);
    hide RoleMeets, StakeAtVote, Meets;
    var p := s.proposals[id].projectId;
    assert forall r :: StakeAtVote(t, p, id, r) == StakeAtVote(s, p, id, r) by {
      SameStakeAtVote(s, t, id);
    }
  }

  lemma EnactFirstKeepsInv(verify: Verifier, s: State, id: ProposalId, ids: seq<ProposalId>)
    requires Inv(verify, s, s.now) && ids == Bucket(s.pending, s.now) && ids != [] && id == ids[0]
    requires id in s.proposals && s.proposals[id].status == Approved(s.now)
    requires s.proposals[id].projectId in s.projects
    ensures Inv(verify, Enact(s, id, s.now).(pending := s.pending[s.now := ids[1..]]), s.now)
  {
    assert StatusFits(s, id);
    hide Frame, StatusFits, Enact, Bucket;
    var t := Enact(s, id, s.now).(pending := s.pending[s.now := ids[1..]]);
    EnactFirstKeepsFrame(verify, s, id, ids);
    EnactShape(s, id);
    OtherStatusesKept(s, t, id);
    EnactedFits(s, t, id);
    AllStatusesFit(t, id);
  }

  /** One turn of the block loop, seen with the rest of the bucket put back. */
  lemma EnactKeepsInv(verify: Verifier, s: State)
    requires Inv(verify, s, s.now) && Bucket(s.pending, s.now) != []
    ensures var ids := Bucket(s.pending, s.now);
      Inv(verify, Enact(s, ids[0], s.now).(pending := s.pending[s.now := ids[1..]]), s.now)
  {
    var ids := Bucket(s.pending, s.now);
    var id := ids[0];
    assert id in ids;
    assert s.proposals[id].status == Approved(s.now);
    NumberedBounds(verify, s, id);
    EnactFirstKeepsInv(verify, s, id, ids);
  }

  lemma {:induction false} EnactAllKeepsInv(verify: Verifier, s: State, ids: seq<ProposalId>)
    requires Inv(verify, s.(pending := s.pending[s.now := ids]), s.now)
    ensures var t := EnactAll(s, ids, s.now);
      && t.pending == s.pending && t.now == s.now
      && Inv(verify, t.(pending := s.pending[s.now := []]), s.now)
    decreases |ids|
  {
    hide Inv, Enact;
    if ids != [] {
      var full := s.pending[s.now := ids];
      EnactKeepsInv(verify, s.(pending := full));
      EnactIgnoresPending(s, full, ids[0], s.now);
      assert full[s.now := ids[1..]] == s.pending[s.now := ids[1..]];
      EnactAllKeepsInv(verify, Enact(s, ids[0], s.now), ids[1..]);
    }
  }

  lemma SameBuckets(a: Buckets, b: Buckets,
                    proposals: Proposals)
    requires Indexed(a, proposals) && BucketsBounded(a)
    requires forall c: BlockNumber :: Bucket(a, c) == Bucket(b, c)
    ensures Indexed(b, proposals) && BucketsBounded(b)
  {
    forall c: BlockNumber ensures NoRepeats(Bucket(b, c)) && |Bucket(b, c)| <= MAX_ENACTMENTS_PER_BLOCK {
      assert NoRepeats(Bucket(a, c));
    }
  }

  lemma BucketsKeepInv(verify: Verifier, s: State, h: BlockNumber, pending: Buckets)
    requires Inv(verify, s, h) && forall c: BlockNumber :: Bucket(s.pending, c) == Bucket(pending, c)
    ensures Inv(verify, s.(pending := pending), h)
  {
    hide Numbered, Rooted, PoliciesStaked, Countered, RoleStakeExact, Escrowed, Bonded, Conserved;
    hide StakesEroded, SlashesCounted, StakeConserved, TalliesFaithful, FirstVotesTallied, VotesRecorded;
    hide VotesCurrent, TalliesKeyed;
    hide Indexed, BucketsBounded, Timely, LogDense, LogFaithful, LogOrdered, LogComplete;
    hide StatusFits;
    SameBuckets(s.pending, pending, s.proposals);
    SameAllStatuses(s, s.(pending := pending));
  }

  lemma LogAges(log: Log, proposals: Proposals, now: BlockNumber)
    requires LogFaithful(log, proposals, now)
    ensures LogFaithful(log, proposals, now + 1)
  {
  }

  lemma ReachBlock(verify: Verifier, s: State)
    requires Sound(verify, s) && s.now + 1 < BLOCK_MAX
    ensures Inv(verify, s.(now := s.now + 1), s.now + 1)
  {
    hide Numbered, Rooted, PoliciesStaked, Countered, RoleStakeExact, Escrowed, Bonded, Conserved;
    hide StakesEroded, SlashesCounted, StakeConserved, TalliesFaithful, FirstVotesTallied, VotesRecorded;
    hide VotesCurrent, TalliesKeyed;
    hide Indexed, BucketsBounded, Timely, LogDense, LogOrdered, LogComplete, StatusFits;
    LogAges(s.releaseLog, s.proposals, s.now);
    SameAllStatuses(s, s.(now := s.now + 1));
  }

  /** With the bucket of the current block empty, everything scheduled lies in the future. */
  lemma BlockDone(verify: Verifier, s: State)
    requires Inv(verify, s, s.now) && Bucket(s.pending, s.now) == []
    ensures Sound(verify, s)
  {
    hide Numbered, Rooted, PoliciesStaked, Countered, RoleStakeExact, Escrowed, Bonded, Conserved;
    hide StakesEroded, SlashesCounted, StakeConserved, TalliesFaithful, FirstVotesTallied, VotesRecorded;
    hide VotesCurrent, TalliesKeyed;
    hide BucketsBounded, LogDense, LogFaithful, LogOrdered, LogComplete, StatusFits;
    forall id | id in s.proposals && s.proposals[id].status.Approved? ensures s.proposals[id].status.enactAt != s.now {
      assert id !in Bucket(s.pending, s.now);
    }
  }

  lemma OnInitializeKeepsSound(verify: Verifier, s: State)
    requires Sound(verify, s) && s.now + 1 < BLOCK_MAX
    ensures Sound(verify, After(verify, s, NextBlock))
  {
    hide Inv, EnactAll;
    var now := s.now + 1;
    var ids := Bucket(s.pending, now);
    var s1 := s.(now := now, pending := s.pending - {now});
    var t := EnactAll(s1, ids, now);
    ReachBlock(verify, s);
    BucketsKeepInv(verify, s.(now := now), now, s1.pending[now := ids]);
    EnactAllKeepsInv(verify, s1, ids);
    BlockDone(verify, t.(pending := t.pending[now := []]));
    BucketsKeepInv(verify, t.(pending := t.pending[now := []]), now + 1, t.pending);
  }

  lemma {:induction false} EnactAllKeepsNow(s: State, ids: seq<ProposalId>, block: BlockNumber)
    ensures EnactAll(s, ids, block).now == s.now
    decreases |ids|
  {
    hide Enact;
    if ids != [] {
      EnactIgnoresPending(s, s.pending, ids[0], block);
      EnactAllKeepsNow(Enact(s, ids[0], block), ids[1..], block);
    }
  }

  // transfers

  lemma TransferKeepsSound(verify: Verifier, s: State, from: AccountId, to: AccountId, amount: nat)
    requires Sound(verify, s)
    ensures Sound(verify, After(verify, s, TransferFree(from, to, amount)))
  {
    hide Numbered, Rooted, PoliciesStaked, Countered, RoleStakeExact, Conserved;
    hide StakesEroded, SlashesCounted, TalliesFaithful, FirstVotesTallied, VotesRecorded, VotesCurrent, TalliesKeyed;
    hide Indexed, BucketsBounded, Timely, LogDense, LogFaithful, LogOrdered, LogComplete, StatusFits;
    var t := After(verify, s, TransferFree(from, to, amount));
    TransferConserves(s.ledger, from, to, amount);
    assert forall a, reason :: Held(t.ledger, reason, a) == Held(s.ledger, reason, a);
    SameIssuance(s.stakeholders, s.ledger, t.ledger, s.journal);
    SameAllStatuses(s, t);
  }
}
