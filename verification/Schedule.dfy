/**
 The enactment schedule is an index of the approved proposals, and the status of a proposal follows
 from its standing tally.
 */
module Schedule {
  import opened Types
  import opened Protocol
  import opened Slashing
  import opened History

  ghost predicate NoRepeats(ids: seq<ProposalId>) {
    forall i, j :: 0 <= i < j < |ids| ==> ids[i] != ids[j]
  }

  /** A proposal is in the bucket of block `b` exactly when it is approved for `b`. */
  ghost predicate Indexed(pending: Buckets, proposals: Proposals) {
    forall b: BlockNumber, id: ProposalId ::
      id in Bucket(pending, b) <==> id in proposals && proposals[id].status == Approved(b)
  }

  /** No bucket repeats an id or exceeds the limit of one block. */
  ghost predicate BucketsBounded(pending: Buckets) {
    forall b: BlockNumber ::
      NoRepeats(Bucket(pending, b)) && |Bucket(pending, b)| <= MAX_ENACTMENTS_PER_BLOCK
  }

  function DelayOf(projects: Projects, p: ProjectId): BlockNumber {
    if p in projects then projects[p].policy.enactmentDelay else 0
  }

  /**
   Approvals are due at block `horizon` or later exactly in the projects with an enactment delay, and
   never later than the delay after the end of the vote.
   */
  ghost predicate Timely(
    proposals: Proposals, projects: Projects, horizon: BlockNumber)
  {
    forall id :: id in proposals && proposals[id].status.Approved? ==>
      var due := proposals[id].status.enactAt;
      var delay := DelayOf(projects, proposals[id].projectId);
      && (horizon <= due <==> 0 < delay)
      && due <= BlockAdd(proposals[id].votingEnds, delay)
  }

  ghost predicate Scheduled(s: State, horizon: BlockNumber) {
    && Indexed(s.pending, s.proposals)
    && BucketsBounded(s.pending)
    && Timely(s.proposals, s.projects, horizon)
  }

  /** No required role can be slashed. */
  predicate BuildFree(required: seq<RoleQuorum>) {
    forall rq :: rq in required ==> rq.role != BuildService
  }

  function RequiredOf(projects: Projects, p: ProjectId): seq<RoleQuorum> {
    if p in projects then projects[p].policy.requiredRoles else []
  }

  ghost predicate Meets(s: State, id: ProposalId)
    requires id in s.proposals
  {
    var p := s.proposals[id].projectId;
    MeetsQuorums(s.roleStake, s.tallies, RequiredOf(s.projects, p), p, id)
  }

  /** The stake of a role at the last vote on a proposal: what was slashed since is put back. */
  ghost function StakeAtVote(s: State, p: ProjectId, id: ProposalId, r: Role): nat {
    RoleStakeOf(s.roleStake, p, r) + if r == BuildService then SlashedSinceVote(s.journal, p, id) else 0
  }

  /** The verdict at the last vote on a proposal. */
  ghost predicate MetAtVote(s: State, id: ProposalId)
    requires id in s.proposals
  {
    var p := s.proposals[id].projectId;
    forall rq :: rq in RequiredOf(s.projects, p) ==>
      RoleMeets(TallyOf(s.tallies, id, rq.role).ayes, StakeAtVote(s, p, id, rq.role), rq.quorum)
  }

  /** Every required role still has stake. */
  ghost predicate Staffed(s: State, id: ProposalId)
    requires id in s.proposals
  {
    AllStaked(s.roleStake, s.proposals[id].projectId, RequiredOf(s.projects, s.proposals[id].projectId))
  }

  /**
   The status is the verdict at the last vote, whatever the policy: `Approved` and `Enacted` mean that the
   quorums were met then, `Voting` that they were not or that a required role has lost all its stake.
   */
  ghost predicate StatusFits(s: State, id: ProposalId)
    requires id in s.proposals
  {
    && (s.proposals[id].status.Approved? || s.proposals[id].status.Enacted? ==> MetAtVote(s, id))
    && (s.proposals[id].status.Voting? ==> !MetAtVote(s, id) || !Staffed(s, id))
  }

  ghost predicate StatusesFit(s: State) {
    forall id :: id in s.proposals ==> StatusFits(s, id)
  }

  ghost predicate OtherStatusesFit(s: State, exempt: ProposalId) {
    forall id :: id in s.proposals && id != exempt ==> StatusFits(s, id)
  }

  // Buckets

  lemma NoRepeatsCons(x: ProposalId, ids: seq<ProposalId>)
    ensures NoRepeats([x] + ids) <==> x !in ids && NoRepeats(ids)
  {
    var all := [x] + ids;
    if NoRepeats(all) {
      forall i | 0 <= i < |ids| ensures ids[i] != x {
        assert all[i + 1] == ids[i] && all[0] == x;
      }
      forall i, j | 0 <= i < j < |ids| ensures ids[i] != ids[j] {
        assert all[i + 1] == ids[i] && all[j + 1] == ids[j];
      }
    }
  }

  lemma {:induction false} WithoutRemoves(ids: seq<ProposalId>, id: ProposalId)
    ensures forall x :: x in Without(ids, id) <==> x in ids && x != id
    ensures |Without(ids, id)| <= |ids|
    ensures NoRepeats(ids) ==> NoRepeats(Without(ids, id))
  {
    if ids != [] {
      WithoutRemoves(ids[1..], id);
      assert ids == [ids[0]] + ids[1..];
      NoRepeatsCons(ids[0], ids[1..]);
      NoRepeatsCons(ids[0], Without(ids[1..], id));
    }
  }

  /** What is left is left in its order. */
  lemma {:induction false} WithoutConcat(xs: seq<ProposalId>, ys: seq<ProposalId>, id: ProposalId)
    ensures Without(xs + ys, id) == Without(xs, id) + Without(ys, id)
    ensures forall x :: Without([x], id) == if x == id then [] else [x]
  {
    assert forall x: ProposalId :: [x][1..] == [];
    if xs == [] {
      assert xs + ys == ys;
    } else {
      assert (xs + ys)[1..] == xs[1..] + ys;
      WithoutConcat(xs[1..], ys, id);
    }
  }

  lemma BoundedUpdate(pending: Buckets, b: BlockNumber, ids: seq<ProposalId>)
    requires BucketsBounded(pending) && NoRepeats(ids) && |ids| <= MAX_ENACTMENTS_PER_BLOCK
    ensures BucketsBounded(pending[b := ids])
  {
    var updated := pending[b := ids];
    forall c: BlockNumber
      ensures NoRepeats(Bucket(updated, c)) && |Bucket(updated, c)| <= MAX_ENACTMENTS_PER_BLOCK
    {
      assert c != b ==> Bucket(updated, c) == Bucket(pending, c);
    }
  }

  lemma ScheduleIn(pending: Buckets, proposals: Proposals,
                   id: ProposalId, b: BlockNumber, v: Proposal)
    requires Indexed(pending, proposals) && BucketsBounded(pending)
    requires id in proposals && !proposals[id].status.Approved? && v.status == Approved(b)
    requires |Bucket(pending, b)| < MAX_ENACTMENTS_PER_BLOCK
    ensures Indexed(pending[b := Bucket(pending, b) + [id]], proposals[id := v])
    ensures BucketsBounded(pending[b := Bucket(pending, b) + [id]])
  {
    assert id !in Bucket(pending, b) && NoRepeats(Bucket(pending, b));
    BoundedUpdate(pending, b, Bucket(pending, b) + [id]);
    var updated, changed := pending[b := Bucket(pending, b) + [id]], proposals[id := v];
    forall c: BlockNumber, i: ProposalId
      ensures i in Bucket(updated, c) <==> i in changed && changed[i].status == Approved(c)
    {
      assert i in Bucket(pending, c) <==> i in proposals && proposals[i].status == Approved(c);
    }
  }

  lemma ScheduleOut(pending: Buckets, proposals: Proposals,
                    id: ProposalId, b: BlockNumber, v: Proposal)
    requires Indexed(pending, proposals) && BucketsBounded(pending)
    requires id in proposals && proposals[id].status == Approved(b) && !v.status.Approved?
    ensures Indexed(pending[b := Without(Bucket(pending, b), id)], proposals[id := v])
    ensures BucketsBounded(pending[b := Without(Bucket(pending, b), id)])
  {
    WithoutRemoves(Bucket(pending, b), id);
    assert NoRepeats(Bucket(pending, b));
    BoundedUpdate(pending, b, Without(Bucket(pending, b), id));
    var updated, changed := pending[b := Without(Bucket(pending, b), id)], proposals[id := v];
    forall c: BlockNumber, i: ProposalId
      ensures i in Bucket(updated, c) <==> i in changed && changed[i].status == Approved(c)
    {
      assert i in Bucket(pending, c) <==> i in proposals && proposals[i].status == Approved(c);
    }
  }

  lemma ScheduleUntouched(pending: Buckets, proposals: Proposals,
                          id: ProposalId, v: Proposal)
    requires Indexed(pending, proposals)
    requires id in proposals ==> !proposals[id].status.Approved?
    requires !v.status.Approved?
    ensures Indexed(pending, proposals[id := v])
  {
  }

  lemma {:induction false} WithoutAbsent(ids: seq<ProposalId>, id: ProposalId)
    requires id !in ids
    ensures Without(ids, id) == ids
  {
    if ids != [] {
      WithoutAbsent(ids[1..], id);
    }
  }

  /** Taking the first id out of a bucket while its proposal stops being approved. */
  lemma SchedulePop(pending: Buckets, proposals: Proposals,
                    b: BlockNumber, v: Proposal)
    requires Indexed(pending, proposals) && BucketsBounded(pending)
    requires Bucket(pending, b) != [] && !v.status.Approved?
    ensures var ids := Bucket(pending, b);
      && Indexed(pending[b := ids[1..]], proposals[ids[0] := v])
      && BucketsBounded(pending[b := ids[1..]])
  {
    var ids := Bucket(pending, b);
    assert NoRepeats(ids) && ids == [ids[0]] + ids[1..];
    NoRepeatsCons(ids[0], ids[1..]);
    WithoutAbsent(ids[1..], ids[0]);
    assert ids[0] in Bucket(pending, b);
    ScheduleOut(pending, proposals, ids[0], b, v);
  }

  // Quorums

  /** The slashes since the last vote are the same for every proposal, but perhaps for one. */
  ghost predicate SameSlashes(before: Journal, after: Journal, exempt: Option<ProposalId>) {
    forall p: ProjectId, id: ProposalId :: Some(id) != exempt ==>
      SlashedSinceVote(after, p, id) == SlashedSinceVote(before, p, id)
  }

  lemma SatMulOrder(q: nat, x: nat, y: nat)
    requires x <= y
    ensures SatMul(q, x) <= SatMul(q, y)
  {
    MulOrder(q, x, y);
  }

  /** Less stake in a role is no obstacle, as long as there is some. */
  lemma LessStakeMeets(ayes: Balance, more: Balance, less: Balance, quorum: Perbill)
    requires RoleMeets(ayes, more, quorum) && 0 < less <= more
    ensures RoleMeets(ayes, less, quorum)
  {
    SatMulOrder(quorum, less, more);
  }

  /** What was met at the last vote is still met, unless a required role has lost all its stake. */
  lemma StillMet(s: State, id: ProposalId)
    requires id in s.proposals && MetAtVote(s, id)
    ensures Meets(s, id) <==> Staffed(s, id)
  {
    hide SatMul;
    var p := s.proposals[id].projectId;
    if Staffed(s, id) {
      forall rq | rq in RequiredOf(s.projects, p)
        ensures RoleMeets(TallyOf(s.tallies, id, rq.role).ayes, RoleStakeOf(s.roleStake, p, rq.role), rq.quorum)
      {
        LessStakeMeets(TallyOf(s.tallies, id, rq.role).ayes, StakeAtVote(s, p, id, rq.role),
                       RoleStakeOf(s.roleStake, p, rq.role), rq.quorum);
      }
    }
  }

  /** Without a slash since the last vote, the verdict has not changed. */
  lemma VerdictUnmoved(s: State, id: ProposalId)
    requires id in s.proposals
    requires BuildFree(RequiredOf(s.projects, s.proposals[id].projectId))
          || SlashedSinceVote(s.journal, s.proposals[id].projectId, id) == 0
    ensures MetAtVote(s, id) <==> Meets(s, id)
    ensures Meets(s, id) ==> Staffed(s, id)
  {
    hide SatMul;
    var p := s.proposals[id].projectId;
    forall rq | rq in RequiredOf(s.projects, p)
      ensures StakeAtVote(s, p, id, rq.role) == RoleStakeOf(s.roleStake, p, rq.role)
    {
    }
  }

  /** A proposal whose tally and stakes at the last vote stay keeps agreeing with its status. */
  lemma FitKept(s: State, t: State, id: ProposalId)
    requires id in s.proposals && id in t.proposals && StatusFits(s, id)
    requires t.proposals[id].projectId == s.proposals[id].projectId
    requires t.proposals[id].status == s.proposals[id].status
    requires RequiredOf(t.projects, s.proposals[id].projectId) == RequiredOf(s.projects, s.proposals[id].projectId)
    requires forall r ::
      var p := s.proposals[id].projectId;
      && TallyOf(t.tallies, id, r).ayes == TallyOf(s.tallies, id, r).ayes
      && StakeAtVote(t, p, id, r) == StakeAtVote(s, p, id, r)
      && RoleStakeOf(t.roleStake, p, r) <= RoleStakeOf(s.roleStake, p, r)
    ensures StatusFits(t, id)
  {
    hide RoleMeets, StakeAtVote;
    assert MetAtVote(t, id) <==> MetAtVote(s, id);
  }

  /** The verdict depends only on the tally of the proposal and the stake of the required roles. */
  lemma SameVerdict(s: State, t: State, id: ProposalId)
    requires id in s.proposals && id in t.proposals
    requires t.proposals[id].projectId == s.proposals[id].projectId
    requires RequiredOf(t.projects, s.proposals[id].projectId) == RequiredOf(s.projects, s.proposals[id].projectId)
    requires BuildFree(RequiredOf(s.projects, s.proposals[id].projectId))
    requires forall r :: r != BuildService ==>
      var p := s.proposals[id].projectId;
      && TallyOf(t.tallies, id, r).ayes == TallyOf(s.tallies, id, r).ayes
      && RoleStakeOf(t.roleStake, p, r) == RoleStakeOf(s.roleStake, p, r)
    ensures Meets(t, id) == Meets(s, id)
  {
    var p := s.proposals[id].projectId;
    forall rq | rq in RequiredOf(s.projects, p)
      ensures RoleMeets(TallyOf(t.tallies, id, rq.role).ayes, RoleStakeOf(t.roleStake, p, rq.role), rq.quorum)
           == RoleMeets(TallyOf(s.tallies, id, rq.role).ayes, RoleStakeOf(s.roleStake, p, rq.role), rq.quorum)
    {
    }
  }
}
