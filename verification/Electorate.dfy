/** What the tallies say about the real electorate, in one storage and across whole runs. */
module Electorate {
  import opened Types
  import opened Sums
  import opened Protocol
  import opened Accounting
  import opened History
  import opened Ballots
  import opened Schedule
  import opened Releases
  import opened Invariant
  import opened Runs
  import opened Evolution
  import opened Quorum
  import opened Liveness

  ghost predicate EqOneHolds(s: State, id: ProposalId)
    requires id in s.proposals
  {
    var p := s.proposals[id].projectId;
    EqOne(s.stakeholders, s.votes, RequiredOf(s.projects, p), p, id)
  }

  // One storage

  lemma FrameOf(verify: Verifier, s: State)
    requires Sound(verify, s)
    ensures Frame(verify, s, s.now + 1)
  {
    hide Frame, StatusFits;
  }

  lemma BooksOfFrame(verify: Verifier, s: State, horizon: BlockNumber)
    requires Frame(verify, s, horizon)
    ensures Books(s) && Tallied(s)
  {
    hide Books, Tallied, Based, Chronicled, Scheduled, Logged;
  }

  lemma BooksAndTallies(verify: Verifier, s: State)
    requires Sound(verify, s)
    ensures Books(s) && Tallied(s)
  {
    hide Sound, Frame, Books, Tallied;
    FrameOf(verify, s);
    BooksOfFrame(verify, s, s.now + 1);
  }

  lemma TallyIsPolled(s: State, id: ProposalId, r: Role)
    requires Books(s) && Tallied(s) && id in s.proposals && r != BuildService
    ensures var p := s.proposals[id].projectId;
      var t := TallyOf(s.tallies, id, r);
      && t.ayes == Polled(s.stakeholders, s.votes, p, id, r, true)
      && t.nays == Polled(s.stakeholders, s.votes, p, id, r, false)
      && t.ayes + t.nays <= RoleStakeOf(s.roleStake, p, r)
  {
    hide FirstVotesTallied, VotesRecorded, VotesCurrent, TalliesKeyed, Escrowed, Bonded;
    var p := s.proposals[id].projectId;
    PolledWithinRole(s.stakeholders, s.votes, p, id, r);
    assert TallyFaithful(s.stakeholders, s.votes, s.journal, TallyOf(s.tallies, id, r), p, id, r);
  }

  /** For a role that cannot be slashed, the tally is the real stake behind the last votes. */
  lemma TallyExact(verify: Verifier, s: State, id: ProposalId, r: Role)
    requires Sound(verify, s) && id in s.proposals && r != BuildService
    ensures var p := s.proposals[id].projectId;
      var t := TallyOf(s.tallies, id, r);
      && t.ayes == Polled(s.stakeholders, s.votes, p, id, r, true)
      && t.nays == Polled(s.stakeholders, s.votes, p, id, r, false)
      && t.ayes + t.nays <= RoleStakeOf(s.roleStake, p, r)
  {
    hide Sound, Books, Tallied;
    BooksAndTallies(verify, s);
    TallyIsPolled(s, id, r);
  }

  /**
   For any role, each side of the tally is the real stake behind its last votes plus what was slashed from
   behind it; both sides add up to the first votes.
   */
  lemma TallyCovers(verify: Verifier, s: State, id: ProposalId, r: Role)
    requires Sound(verify, s) && id in s.proposals
    ensures var p := s.proposals[id].projectId;
      var t := TallyOf(s.tallies, id, r);
      && t.ayes == Polled(s.stakeholders, s.votes, p, id, r, true) + Residue(s.journal, p, id, r, true)
      && t.nays == Polled(s.stakeholders, s.votes, p, id, r, false) + Residue(s.journal, p, id, r, false)
      && t.ayes + t.nays == Sum(FirstWeights(s.stakeholders, s.journal, p, id, r))
  {
    hide Based, Chronicled, Logged, Scheduled, StatusFits, Books, VotesRecorded, VotesCurrent, TalliesKeyed;
    var p, t := s.proposals[id].projectId, TallyOf(s.tallies, id, r);
    assert TallyFaithful(s.stakeholders, s.votes, s.journal, t, p, id, r);
  }

  /** The stake of a role's voters on one proposal, whichever way they voted last. */
  ghost function VoterWeight(
    k: (ProjectId, AccountId), v: Stakeholder, votes: VoteBook, p: ProjectId, id: ProposalId, r: Role): nat
  {
    if k.0 == p && v.role == r && (id, k.1) in votes then v.stake else 0
  }

  ghost function VoterWeights(
    st: Registry, votes: VoteBook, p: ProjectId, id: ProposalId, r: Role): map<(ProjectId, AccountId), nat>
  {
    map k | k in st :: VoterWeight(k, st[k], votes, p, id, r)
  }

  lemma BallotsTogether(k: (ProjectId, AccountId), v: Stakeholder, votes: VoteBook, p: ProjectId, id: ProposalId,
                        r: Role)
    ensures BallotWeight(k, v, votes, p, id, r, true) + BallotWeight(k, v, votes, p, id, r, false)
         == VoterWeight(k, v, votes, p, id, r)
  {
    match VoteOf(votes, id, k.1)
    case None =>
    case Some(aye) =>
      if aye {
        assert Some(true) != Some(false);
      }
  }

  lemma PolledTogether(st: Registry, votes: VoteBook, p: ProjectId, id: ProposalId, r: Role)
    ensures Polled(st, votes, p, id, r, true) + Polled(st, votes, p, id, r, false)
         == Sum(VoterWeights(st, votes, p, id, r))
  {
    forall k | k in st
      ensures BallotWeight(k, st[k], votes, p, id, r, true) + BallotWeight(k, st[k], votes, p, id, r, false)
           == VoterWeight(k, st[k], votes, p, id, r)
    {
      BallotsTogether(k, st[k], votes, p, id, r);
    }
    SumAdd(BallotWeights(st, votes, p, id, r, true), BallotWeights(st, votes, p, id, r, false),
           VoterWeights(st, votes, p, id, r));
  }

  /** No voter of this role has lost stake since its first vote on the proposal. */
  ghost predicate NoneSlashedSince(s: State, id: ProposalId, r: Role)
    requires id in s.proposals
  {
    forall k ::
      (k in s.stakeholders && k.0 == s.proposals[id].projectId && s.stakeholders[k].role == r && (id, k.1) in s.votes)
      ==> s.stakeholders[k].stake == OrZero(FirstVote(s.journal, id, k.1))
  }

  lemma VotedWeight(verify: Verifier, s: State, id: ProposalId, a: AccountId)
    requires Sound(verify, s) && id in s.proposals
    ensures (id, a) in s.votes <==> FirstVote(s.journal, id, a).Some?
    ensures (id, a) in s.votes && (s.proposals[id].projectId, a) in s.stakeholders ==>
      s.stakeholders[(s.proposals[id].projectId, a)].stake <= OrZero(FirstVote(s.journal, id, a))
  {
    hide Based, Chronicled, Logged, Scheduled, StatusFits, Books, TalliesFaithful, FirstVotesTallied, TalliesKeyed;
  }

  lemma VoterShrinks(verify: Verifier, s: State, id: ProposalId, r: Role, k: (ProjectId, AccountId))
    requires Sound(verify, s) && id in s.proposals && k in s.stakeholders
    ensures var p := s.proposals[id].projectId;
      var v := s.stakeholders[k];
      var current, first := VoterWeight(k, v, s.votes, p, id, r), FirstWeight(k, v, s.journal, p, id, r);
      && current <= first
      && (current == first <==>
            (k.0 == p && v.role == r && (id, k.1) in s.votes ==> v.stake == OrZero(FirstVote(s.journal, id, k.1))))
  {
    hide Sound;
    assert k == (k.0, k.1);
    VotedWeight(verify, s, id, k.1);
  }

  lemma SumsAgreeIffNoneSlashed(verify: Verifier, s: State, id: ProposalId, r: Role)
    requires Sound(verify, s) && id in s.proposals
    ensures var p := s.proposals[id].projectId;
      var current := VoterWeights(s.stakeholders, s.votes, p, id, r);
      var first := FirstWeights(s.stakeholders, s.journal, p, id, r);
      Sum(current) <= Sum(first) && (Sum(current) == Sum(first) <==> NoneSlashedSince(s, id, r))
  {
    hide Sound, VoterWeight, FirstWeight;
    var p := s.proposals[id].projectId;
    var current := VoterWeights(s.stakeholders, s.votes, p, id, r);
    var first := FirstWeights(s.stakeholders, s.journal, p, id, r);
    forall k | k in s.stakeholders
      ensures current[k] <= first[k]
      ensures current[k] == first[k] <==>
        (k.0 == p && s.stakeholders[k].role == r && (id, k.1) in s.votes ==>
           s.stakeholders[k].stake == OrZero(FirstVote(s.journal, id, k.1)))
    {
      VoterShrinks(verify, s, id, r, k);
    }
    SumMonotone(current, first);
    if NoneSlashedSince(s, id, r) {
      assert current == first;
    }
    if Sum(current) == Sum(first) {
      forall k | k in s.stakeholders ensures current[k] == first[k] {
        SumRigid(current, first, k);
      }
    }
  }

  /** The tally of a role is exact, on both sides, just when none of its voters was slashed since its first vote. */
  lemma TallyExactIffNoneSlashed(verify: Verifier, s: State, id: ProposalId, r: Role)
    requires Sound(verify, s) && id in s.proposals
    ensures var p := s.proposals[id].projectId;
      var actual := RoleTally(Polled(s.stakeholders, s.votes, p, id, r, true),
                              Polled(s.stakeholders, s.votes, p, id, r, false));
      TallyOf(s.tallies, id, r) == actual <==> NoneSlashedSince(s, id, r)
  {
    hide Sound, NoneSlashedSince, Residue;
    TallyCovers(verify, s, id, r);
    PolledTogether(s.stakeholders, s.votes, s.proposals[id].projectId, id, r);
    SumsAgreeIffNoneSlashed(verify, s, id, r);
  }

  lemma WithinWord(quorum: Perbill, total: nat, issuance: nat)
    requires total <= issuance && issuance * 1_000_000_000 <= 340_282_366_920_938_463_463_374_607_431_768_211_455
    ensures quorum * total <= 340_282_366_920_938_463_463_374_607_431_768_211_455
  {
    var q: nat := quorum;
    assert q * total <= 1_000_000_000 * total;
  }

  lemma FractionVerdict(ayes: nat, total: nat, quorum: Perbill, bound: nat)
    requires total <= bound && bound * 1_000_000_000 <= 340_282_366_920_938_463_463_374_607_431_768_211_455
    ensures RoleMeets(ayes, total, quorum) <==> Fraction(ayes, total, quorum)
  {
    hide RoleMeets, Fraction;
    WithinWord(quorum, total, bound);
    if RoleMeets(ayes, total, quorum) {
      PassesOnlyFraction(ayes, total, quorum);
    }
    if Fraction(ayes, total, quorum) {
      FractionPasses(ayes, total, quorum);
    }
  }

  lemma RoleStakeReal(s: State, p: ProjectId, r: Role)
    requires Books(s)
    ensures RoleStakeOf(s.roleStake, p, r) == Sum(RoleWeights(s.stakeholders, p, r)) <= s.ledger.issuance
  {
    hide Escrowed, Bonded;
    RoleStakeBounded(s, p, r);
  }

  /** Both sides of a tally, from the invariant of the tallies alone. */
  lemma TallyStands(s: State, id: ProposalId, r: Role)
    requires Tallied(s) && id in s.proposals
    ensures var p, t := s.proposals[id].projectId, TallyOf(s.tallies, id, r);
      && t.ayes == Polled(s.stakeholders, s.votes, p, id, r, true) + Residue(s.journal, p, id, r, true)
      && t.nays == Polled(s.stakeholders, s.votes, p, id, r, false) + Residue(s.journal, p, id, r, false)
  {
    hide FirstVotesTallied, VotesRecorded, VotesCurrent, TalliesKeyed;
    var p, t := s.proposals[id].projectId, TallyOf(s.tallies, id, r);
    assert TallyFaithful(s.stakeholders, s.votes, s.journal, t, p, id, r);
  }

  /** What slashes took from behind the ayes of a proposal. */
  ghost function LostAyes(s: State, id: ProposalId): nat
    requires id in s.proposals
  {
    LostBallots(s.journal, s.proposals[id].projectId, id, true)
  }

  /** A proposal that does not exist yet has lost nothing. */
  lemma FreshLosses(s: State, id: ProposalId, p: ProjectId)
    requires Tallied(s) && id !in s.proposals
    ensures LostBallots(s.journal, p, id, true) == 0
  {
    hide TalliesFaithful, FirstVotesTallied, TalliesKeyed, VotesRecorded, VotesCurrent;
    UnvotedProposal(s.stakeholders, s.votes, s.journal, s.proposals, id);
    NoBallotsLost(s.journal, p, id, true);
  }

  ghost predicate BackedIn(s: State, id: ProposalId)
    requires id in s.proposals
  {
    var p := s.proposals[id].projectId;
    Backed(s.stakeholders, s.votes, LostAyes(s, id), RequiredOf(s.projects, p), p, id)
  }

  /** The verdict, recomputed from registry, votes and losses. */
  lemma VerdictFromBooks(s: State, id: ProposalId)
    requires Books(s) && Tallied(s) && id in s.proposals
    ensures Meets(s, id) <==> BackedIn(s, id)
  {
    hide Books, Tallied, Passes, RoleMeets, Polled, RoleWeights, LostBallots;
    var p := s.proposals[id].projectId;
    forall rq | rq in RequiredOf(s.projects, p)
      ensures RoleMeets(TallyOf(s.tallies, id, rq.role).ayes, RoleStakeOf(s.roleStake, p, rq.role), rq.quorum)
         <==> Passes(Polled(s.stakeholders, s.votes, p, id, rq.role, true)
                     + (if rq.role == BuildService then LostAyes(s, id) else 0),
                     Sum(RoleWeights(s.stakeholders, p, rq.role)), rq.quorum)
    {
      TallyStands(s, id, rq.role);
      RoleStakeReal(s, p, rq.role);
      TestIsPasses(TallyOf(s.tallies, id, rq.role).ayes, RoleStakeOf(s.roleStake, p, rq.role), rq.quorum);
    }
  }

  /** With no slashable role required, the status of every proposal is its verdict. */
  lemma StatusFollowsVerdict(verify: Verifier, s: State, id: ProposalId)
    requires Sound(verify, s) && id in s.proposals && Unslashable(s, id)
    ensures s.proposals[id].status.Approved? || s.proposals[id].status.Enacted? ==> Meets(s, id)
    ensures s.proposals[id].status.Voting? ==> !Meets(s, id)
  {
    hide Sound, Meets, MetAtVote, Staffed, Scheduled;
    ScheduleOf(verify, s);
    assert StatusFits(s, id);
    VerdictUnmoved(s, id);
  }

  // The order of votes does not matter

  lemma PolledByAll(projects: Projects, st: Registry, after: Registry, votes: VoteBook,
                    p: ProjectId, id: ProposalId, r: Role, aye: bool)
    requires RegistryKept(st, after) && ElectorateFixed(projects, st, after) && p in projects && r != BuildService
    ensures Polled(after, votes, p, id, r, aye) == Polled(st, votes, p, id, r, aye)
  {
    hide VoteOf;
    SumExtend(BallotWeights(st, votes, p, id, r, aye), BallotWeights(after, votes, p, id, r, aye));
  }

  lemma PolledAcross(s: State, t: State, votes: VoteBook, p: ProjectId, id: ProposalId, r: Role, aye: bool)
    requires Evolves(s, t) && p in s.projects && r != BuildService
    ensures Polled(t.stakeholders, votes, p, id, r, aye) == Polled(s.stakeholders, votes, p, id, r, aye)
    ensures Sum(RoleWeights(t.stakeholders, p, r)) == Sum(RoleWeights(s.stakeholders, p, r))
  {
    hide ProposalsKept, LogKept, ProjectsKept, CountersKept, Grown, VoteOf;
    PolledByAll(s.projects, s.stakeholders, t.stakeholders, votes, p, id, r, aye);
    hide Polled;
    SumExtend(RoleWeights(s.stakeholders, p, r), RoleWeights(t.stakeholders, p, r));
  }

  lemma PolledByVotes(st: Registry, votes: VoteBook, others: VoteBook, p: ProjectId, id: ProposalId, r: Role, aye: bool)
    requires forall a :: VoteOf(votes, id, a) == VoteOf(others, id, a)
    ensures Polled(st, votes, p, id, r, aye) == Polled(st, others, p, id, r, aye)
  {
    assert BallotWeights(st, votes, p, id, r, aye) == BallotWeights(st, others, p, id, r, aye);
  }

  lemma PolledAlike(s: State, t: State, u: State, id: ProposalId, r: Role, p: ProjectId, aye: bool)
    requires Evolves(s, t) && Evolves(s, u) && p in s.projects && r != BuildService
    requires forall a :: VoteOf(t.votes, id, a) == VoteOf(u.votes, id, a)
    ensures Polled(t.stakeholders, t.votes, p, id, r, aye) == Polled(u.stakeholders, u.votes, p, id, r, aye)
    ensures Sum(RoleWeights(t.stakeholders, p, r)) == Sum(RoleWeights(u.stakeholders, p, r))
  {
    hide Evolves, Polled, RoleWeights;
    PolledAcross(s, t, t.votes, p, id, r, aye);
    PolledAcross(s, u, u.votes, p, id, r, aye);
    PolledByVotes(s.stakeholders, t.votes, u.votes, p, id, r, aye);
  }

  lemma SameTally(verify: Verifier, s: State, t: State, u: State, id: ProposalId, r: Role)
    requires Sound(verify, s) && Sound(verify, t) && Sound(verify, u) && Evolves(s, t) && Evolves(s, u)
    requires id in s.proposals && r != BuildService
    requires forall a :: VoteOf(t.votes, id, a) == VoteOf(u.votes, id, a)
    ensures id in t.proposals && id in u.proposals
    ensures TallyOf(t.tallies, id, r) == TallyOf(u.tallies, id, r)
    ensures var p := s.proposals[id].projectId; RoleStakeOf(t.roleStake, p, r) == RoleStakeOf(u.roleStake, p, r)
  {
    hide Sound, Evolves, Polled, RoleWeights, TallyOf, VoteOf, RoleStakeOf, Books, Tallied;
    var p := s.proposals[id].projectId;
    SameRequirements(verify, s, t, id);
    SameRequirements(verify, s, u, id);
    TallyExact(verify, t, id, r);
    TallyExact(verify, u, id, r);
    BooksAndTallies(verify, t);
    BooksAndTallies(verify, u);
    RoleStakeReal(t, p, r);
    RoleStakeReal(u, p, r);
    PolledAlike(s, t, u, id, r, p, true);
    PolledAlike(s, t, u, id, r, p, false);
  }

  lemma SameOutcome(verify: Verifier, s: State, t: State, u: State, id: ProposalId)
    requires Sound(verify, s) && Sound(verify, t) && Sound(verify, u) && Evolves(s, t) && Evolves(s, u)
    requires id in s.proposals
    requires forall a :: VoteOf(t.votes, id, a) == VoteOf(u.votes, id, a)
    ensures id in t.proposals && id in u.proposals
    ensures forall r :: r != BuildService ==> TallyOf(t.tallies, id, r) == TallyOf(u.tallies, id, r)
    ensures Unslashable(s, id) ==>
      && (Meets(t, id) <==> Meets(u, id))
      && (Live(t.proposals[id].status) && Live(u.proposals[id].status) ==>
            (t.proposals[id].status.Approved? <==> u.proposals[id].status.Approved?))
  {
    hide Sound, RegistryKept, ElectorateFixed, LogKept, CountersKept, Meets;
    SameTally(verify, s, t, u, id, CoreDeveloper);
    var p := s.proposals[id].projectId;
    forall r | r != BuildService
      ensures TallyOf(t.tallies, id, r) == TallyOf(u.tallies, id, r)
      ensures RoleStakeOf(t.roleStake, p, r) == RoleStakeOf(u.roleStake, p, r)
    {
      SameTally(verify, s, t, u, id, r);
    }
    if Unslashable(s, id) {
      SameRequirements(verify, s, t, id);
      SameRequirements(verify, s, u, id);
      SameVerdict(t, u, id);
      StatusFollowsVerdict(verify, t, id);
      StatusFollowsVerdict(verify, u, id);
    }
  }

  /**
   Two runs from the same storage that leave the same last vote of every account on a proposal leave the
   same tallies in the roles that cannot be slashed. If no other role is required they also leave the
   same verdict, and the proposal approved in both or in neither as long as it is open in both.
   */
  lemma HistoryIndependent(verify: Verifier, s: State, xs: seq<Step>, ys: seq<Step>, id: ProposalId)
    requires Reached(verify, s) && AdmissibleRun(verify, s, xs) && AdmissibleRun(verify, s, ys) && id in s.proposals
    requires forall a :: VoteOf(Run(verify, s, xs).votes, id, a) == VoteOf(Run(verify, s, ys).votes, id, a)
    ensures var t, u := Run(verify, s, xs), Run(verify, s, ys);
      && id in t.proposals && id in u.proposals
      && (forall r :: r != BuildService ==> TallyOf(t.tallies, id, r) == TallyOf(u.tallies, id, r))
      && (Unslashable(s, id) ==>
            && (Meets(t, id) <==> Meets(u, id))
            && (Live(t.proposals[id].status) && Live(u.proposals[id].status) ==>
                  (t.proposals[id].status.Approved? <==> u.proposals[id].status.Approved?)))
  {
    hide Reached, Sound, Run, AdmissibleRun, Meets;
    ReachedSound(verify, s);
    var t, u := Run(verify, s, xs), Run(verify, s, ys);
    RunKeepsSound(verify, s, xs);
    RunKeepsSound(verify, s, ys);
    RunEvolves(verify, s, xs);
    RunEvolves(verify, s, ys);
    SameOutcome(verify, s, t, u, id);
  }
}
