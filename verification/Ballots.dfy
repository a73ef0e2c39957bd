/**
 What the tallies mean: each side is exactly the stake now behind its last votes plus, for Build Services,
 what was slashed from behind it, and both sides add up to the stakes of the first votes.
 */
module Ballots {
  import opened Types
  import opened Sums
  import opened Currency
  import opened Protocol
  import opened Slashing
  import opened Accounting
  import opened History
  import opened Schedule

  type VoteBook = map<(ProposalId, AccountId), bool>

  ghost function BallotWeight(
    k: (ProjectId, AccountId), v: Stakeholder, votes: VoteBook, p: ProjectId, id: ProposalId, r: Role, aye: bool): nat
  {
    if k.0 == p && v.role == r && VoteOf(votes, id, k.1) == Some(aye) then v.stake else 0
  }

  ghost function BallotWeights(
    st: Registry, votes: VoteBook, p: ProjectId, id: ProposalId, r: Role, aye: bool): map<(ProjectId, AccountId), nat>
  {
    map k | k in st :: BallotWeight(k, st[k], votes, p, id, r, aye)
  }

  /** The current stake of the stakeholders of a role whose last vote on a proposal is `aye`. */
  ghost function Polled(st: Registry, votes: VoteBook, p: ProjectId, id: ProposalId, r: Role, aye: bool): nat {
    Sum(BallotWeights(st, votes, p, id, r, aye))
  }

  ghost function FirstWeight(
    k: (ProjectId, AccountId), v: Stakeholder, j: Journal, p: ProjectId, id: ProposalId, r: Role): nat
  {
    if k.0 == p && v.role == r then OrZero(FirstVote(j, id, k.1)) else 0
  }

  ghost function FirstWeights(
    st: Registry, j: Journal, p: ProjectId, id: ProposalId, r: Role): map<(ProjectId, AccountId), nat>
  {
    map k | k in st :: FirstWeight(k, st[k], j, p, id, r)
  }

  /** What a tally still counts although it was slashed from the voters since they voted. */
  ghost function Residue(j: Journal, p: ProjectId, id: ProposalId, r: Role, side: bool): nat {
    if r == BuildService then LostBallots(j, p, id, side) else 0
  }

  /** Both sides are the current stakes behind the last votes, and what was slashed from behind them. */
  ghost predicate TallyFaithful(
    st: Registry, votes: VoteBook, j: Journal, t: RoleTally, p: ProjectId, id: ProposalId, r: Role)
  {
    && t.ayes == Polled(st, votes, p, id, r, true) + Residue(j, p, id, r, true)
    && t.nays == Polled(st, votes, p, id, r, false) + Residue(j, p, id, r, false)
  }

  ghost predicate TalliesFaithful(
    st: Registry, votes: VoteBook, j: Journal, tallies: Tallies, proposals: Proposals)
  {
    forall id, r :: id in proposals ==>
      TallyFaithful(st, votes, j, TallyOf(tallies, id, r), proposals[id].projectId, id, r)
  }

  ghost predicate FirstVotesTallied(
    st: Registry, j: Journal, tallies: Tallies, proposals: Proposals)
  {
    forall id, r :: id in proposals ==>
      TallyOf(tallies, id, r).ayes + TallyOf(tallies, id, r).nays
        == Sum(FirstWeights(st, j, proposals[id].projectId, id, r))
  }

  /**
   Votes are cast by registered stakeholders and journaled; a first vote weighs at most the registered
   stake and at least the present one.
   */
  ghost predicate VotesRecorded(st: Registry, votes: VoteBook, j: Journal, proposals: Proposals) {
    && (forall id: ProposalId, a: AccountId :: (id, a) in votes <==> FirstVote(j, id, a).Some?)
    && (forall id, a :: (id, a) in votes ==>
          && id in proposals
          && (proposals[id].projectId, a) in st
          && st[(proposals[id].projectId, a)].stake <= OrZero(FirstVote(j, id, a))
          && OrZero(FirstVote(j, id, a)) <= OrZero(Registered(j, proposals[id].projectId, a)))
  }

  /** The stored vote of every account is its last one. */
  ghost predicate VotesCurrent(votes: VoteBook, j: Journal) {
    forall id: ProposalId, a: AccountId :: VoteOf(votes, id, a) == LastVote(j, id, a)
  }

  ghost predicate TalliesKeyed(tallies: Tallies, proposals: Proposals) {
    forall id, r :: (id, r) in tallies ==> id in proposals
  }

  ghost predicate Tallied(s: State) {
    && TalliesFaithful(s.stakeholders, s.votes, s.journal, s.tallies, s.proposals)
    && FirstVotesTallied(s.stakeholders, s.journal, s.tallies, s.proposals)
    && VotesRecorded(s.stakeholders, s.votes, s.journal, s.proposals)
    && VotesCurrent(s.votes, s.journal)
    && TalliesKeyed(s.tallies, s.proposals)
  }

  // Recording a vote

  lemma OtherBallots(
    k: (ProjectId, AccountId), v: Stakeholder, votes: VoteBook, p: ProjectId, id: ProposalId, r: Role, side: bool,
    who: AccountId, aye: bool)
    requires k != (p, who)
    ensures BallotWeight(k, v, votes[(id, who) := aye], p, id, r, side) == BallotWeight(k, v, votes, p, id, r, side)
  {
    if k.0 == p {
      assert k == (p, k.1);
    }
  }

  lemma PolledUpdate(
    st: Registry, votes: VoteBook, p: ProjectId, id: ProposalId, r: Role, side: bool, who: AccountId, aye: bool)
    requires (p, who) in st
    ensures Polled(st, votes[(id, who) := aye], p, id, r, side)
          + BallotWeight((p, who), st[(p, who)], votes, p, id, r, side)
         == Polled(st, votes, p, id, r, side)
          + (if st[(p, who)].role == r && side == aye then st[(p, who)].stake else 0)
  {
    var k := (p, who);
    var before := BallotWeights(st, votes, p, id, r, side);
    var w := BallotWeight(k, st[k], votes[(id, who) := aye], p, id, r, side);
    assert BallotWeights(st, votes[(id, who) := aye], p, id, r, side) == before[k := w] by {
      forall m | m in st && m != k
        ensures BallotWeight(m, st[m], votes[(id, who) := aye], p, id, r, side)
             == BallotWeight(m, st[m], votes, p, id, r, side)
      {
        OtherBallots(m, st[m], votes, p, id, r, side, who, aye);
      }
    }
    SumUpdate(before, k, w);
  }

  lemma PolledElsewhere(
    st: Registry, votes: VoteBook, p: ProjectId, other: ProposalId, r: Role, side: bool,
    id: ProposalId, who: AccountId, aye: bool)
    requires other != id
    ensures Polled(st, votes[(id, who) := aye], p, other, r, side) == Polled(st, votes, p, other, r, side)
  {
    assert BallotWeights(st, votes[(id, who) := aye], p, other, r, side) == BallotWeights(st, votes, p, other, r, side);
  }

  /** All registered stake, slashed or not, fits the balance type. */
  lemma RegisteredFits(s: State)
    requires Books(s) && StakeConserved(s.stakeholders, s.ledger, s.journal)
    ensures Sum(RegisteredWeights(s.stakeholders, s.journal)) <= U128_MAX
  {
  }

  lemma FirstWeightUpdate(k: (ProjectId, AccountId), u: Stakeholder, j: Journal, p: ProjectId, id: ProposalId, r: Role,
                          who: AccountId, v: Stakeholder, aye: bool)
    requires k == (p, who) ==> u == v
    ensures FirstWeight(k, u, Deposit(j, Voted(id, who, v.role, aye, v.stake)), p, id, r)
         == FirstWeight(k, u, j, p, id, r)
          + if k == (p, who) && v.role == r && FirstVote(j, id, who).None? then v.stake else 0
  {
    assert k == (k.0, k.1);
  }

  /** The first-vote total grows by a voter's stake exactly when it had not voted yet. */
  lemma FirstTotalUpdate(
    st: Registry, j: Journal, p: ProjectId, id: ProposalId, r: Role, who: AccountId, aye: bool)
    requires (p, who) in st
    ensures var v := st[(p, who)];
      Sum(FirstWeights(st, Deposit(j, Voted(id, who, v.role, aye, v.stake)), p, id, r))
        == Sum(FirstWeights(st, j, p, id, r))
         + (if v.role == r && FirstVote(j, id, who).None? then v.stake else 0)
  {
    hide FirstWeight, FirstVote;
    var v := st[(p, who)];
    var j1 := Deposit(j, Voted(id, who, v.role, aye, v.stake));
    var w := FirstWeight((p, who), v, j1, p, id, r);
    forall k | k in st
      ensures FirstWeight(k, st[k], j1, p, id, r)
           == FirstWeight(k, st[k], j, p, id, r)
            + if k == (p, who) && v.role == r && FirstVote(j, id, who).None? then v.stake else 0
    {
      FirstWeightUpdate(k, st[k], j, p, id, r, who, v, aye);
    }
    assert FirstWeights(st, j1, p, id, r) == FirstWeights(st, j, p, id, r)[(p, who) := w];
    SumUpdate(FirstWeights(st, j, p, id, r), (p, who), w);
  }

  lemma FirstWithinRegistered(st: Registry, votes: VoteBook, j: Journal, proposals: Proposals,
                              id: ProposalId, r: Role, k: (ProjectId, AccountId))
    requires VotesRecorded(st, votes, j, proposals) && id in proposals && k in st
    ensures FirstWeight(k, st[k], j, proposals[id].projectId, id, r) <= OrZero(Registered(j, k.0, k.1))
  {
    assert (id, k.1) in votes <==> FirstVote(j, id, k.1).Some?;
  }

  /** First votes never weigh more than what was registered. */
  lemma FirstTotalFits(s: State, id: ProposalId, r: Role)
    requires Books(s) && StakeConserved(s.stakeholders, s.ledger, s.journal) && id in s.proposals
    requires VotesRecorded(s.stakeholders, s.votes, s.journal, s.proposals)
    ensures Sum(FirstWeights(s.stakeholders, s.journal, s.proposals[id].projectId, id, r)) <= U128_MAX
  {
    RegisteredFits(s);
    hide Books, StakeConserved, VotesRecorded;
    var p := s.proposals[id].projectId;
    forall k | k in s.stakeholders
      ensures FirstWeight(k, s.stakeholders[k], s.journal, p, id, r) <= OrZero(Registered(s.journal, k.0, k.1))
    {
      FirstWithinRegistered(s.stakeholders, s.votes, s.journal, s.proposals, id, r, k);
    }
    SumMonotone(FirstWeights(s.stakeholders, s.journal, p, id, r), RegisteredWeights(s.stakeholders, s.journal));
  }

  lemma FirstVoteUpdate(j: Journal, id: ProposalId, who: AccountId, r: Role, aye: bool, w: Balance)
    ensures forall i: ProposalId, a: AccountId ::
      FirstVote(Deposit(j, Voted(id, who, r, aye, w)), i, a)
        == if i == id && a == who && FirstVote(j, i, a).None? then Some(w) else FirstVote(j, i, a)
    ensures forall p, a :: Registered(Deposit(j, Voted(id, who, r, aye, w)), p, a) == Registered(j, p, a)
  {
  }

  lemma StakeWithinRegistered(s: State, p: ProjectId, a: AccountId)
    requires Chronicled(s) && (p, a) in s.stakeholders
    ensures s.stakeholders[(p, a)].stake <= OrZero(Registered(s.journal, p, a))
  {
    ErosionShrinks(SigmaOf(s.projects, p), Registered(s.journal, p, a).value, SlashCount(s.journal, p, a));
  }

  lemma RecordsAfterVote(st: Registry, votes: VoteBook, j: Journal, proposals: Proposals,
                         id: ProposalId, who: AccountId, aye: bool)
    requires VotesRecorded(st, votes, j, proposals)
    requires id in proposals && (proposals[id].projectId, who) in st
    requires st[(proposals[id].projectId, who)].stake <= OrZero(Registered(j, proposals[id].projectId, who))
    ensures var v := st[(proposals[id].projectId, who)];
      VotesRecorded(st, votes[(id, who) := aye], Deposit(j, Voted(id, who, v.role, aye, v.stake)), proposals)
  {
    var v := st[(proposals[id].projectId, who)];
    FirstVoteUpdate(j, id, who, v.role, aye, v.stake);
  }

  /** A vote recorded by its stakeholder keeps the journal of first votes in step. */
  lemma VoteKeepsRecords(s: State, id: ProposalId, who: AccountId, aye: bool)
    requires Chronicled(s) && VotesRecorded(s.stakeholders, s.votes, s.journal, s.proposals)
    requires id in s.proposals && (s.proposals[id].projectId, who) in s.stakeholders
    ensures var t := RecordVote(s, id, who, s.stakeholders[(s.proposals[id].projectId, who)], aye);
      VotesRecorded(t.stakeholders, t.votes, t.journal, t.proposals)
  {
    var p := s.proposals[id].projectId;
    var v := s.stakeholders[(p, who)];
    StakeWithinRegistered(s, p, who);
    RecordsAfterVote(s.stakeholders, s.votes, s.journal, s.proposals, id, who, aye);
  }

  /** With no saturation in the way, moving a vote takes its stake from one side to the other. */
  lemma MoveVoteArithmetic(t: RoleTally, previous: Option<bool>, stake: Balance, aye: bool)
    requires previous == Some(true) ==> stake <= t.ayes
    requires previous == Some(false) ==> stake <= t.nays
    requires t.ayes + t.nays + (if previous.None? then stake else 0) <= U128_MAX
    ensures var u := MoveVote(t, previous, stake, aye);
      && u.ayes + (if previous == Some(true) then stake else 0) == t.ayes + (if aye then stake else 0)
      && u.nays + (if previous == Some(false) then stake else 0) == t.nays + (if aye then 0 else stake)
  {
  }

  lemma FirstVoteKnown(st: Registry, votes: VoteBook, j: Journal, proposals: Proposals,
                       id: ProposalId, who: AccountId)
    requires VotesRecorded(st, votes, j, proposals)
    ensures VoteOf(votes, id, who).None? <==> FirstVote(j, id, who).None?
  {
  }

  /** After a vote is recorded, the first votes still fit the balance type. */
  lemma FirstTotalAfterVote(s: State, id: ProposalId, who: AccountId, aye: bool)
    requires Books(s) && Chronicled(s) && Tallied(s)
    requires id in s.proposals && (s.proposals[id].projectId, who) in s.stakeholders
    ensures var v := s.stakeholders[(s.proposals[id].projectId, who)];
      var t := TallyOf(s.tallies, id, v.role);
      t.ayes + t.nays + (if VoteOf(s.votes, id, who).None? then v.stake else 0) <= U128_MAX
  {
    hide Conserved, RoleStakeExact, Escrowed, Bonded, StakesEroded, SlashesCounted, StakeConserved;
    hide TalliesFaithful, TalliesKeyed, VotesRecorded, FirstWeights, FirstVote, MoveVote, RegisteredWeights;
    var p := s.proposals[id].projectId;
    var v := s.stakeholders[(p, who)];
    var e := Voted(id, who, v.role, aye, v.stake);
    VoteKeepsRecords(s, id, who, aye);
    FirstVoteKnown(s.stakeholders, s.votes, s.journal, s.proposals, id, who);
    FirstTotalUpdate(s.stakeholders, s.journal, p, id, v.role, who, aye);
    QuietKeepsChronicle(s, e);
    FirstTotalFits(RecordVote(s, id, who, v, aye), id, v.role);
  }

  lemma BallotWithinPolled(st: Registry, votes: VoteBook, p: ProjectId, id: ProposalId, r: Role, side: bool,
                           who: AccountId)
    requires (p, who) in st
    ensures BallotWeight((p, who), st[(p, who)], votes, p, id, r, side) <= Polled(st, votes, p, id, r, side)
  {
    SumMember(BallotWeights(st, votes, p, id, r, side), (p, who));
  }

  /** A tally that covers the real votes never saturates when one vote moves. */
  lemma MoveVoteExact(s: State, id: ProposalId, who: AccountId, aye: bool)
    requires Books(s) && Chronicled(s) && Tallied(s)
    requires id in s.proposals && (s.proposals[id].projectId, who) in s.stakeholders
    ensures var p := s.proposals[id].projectId;
      var v := s.stakeholders[(p, who)];
      var t := TallyOf(s.tallies, id, v.role);
      var u := MoveVote(t, VoteOf(s.votes, id, who), v.stake, aye);
      && u.ayes + BallotWeight((p, who), v, s.votes, p, id, v.role, true) == t.ayes + (if aye then v.stake else 0)
      && u.nays + BallotWeight((p, who), v, s.votes, p, id, v.role, false) == t.nays + (if aye then 0 else v.stake)
  {
    FirstTotalAfterVote(s, id, who, aye);
    hide Books, Chronicled, FirstVotesTallied, VotesRecorded, VotesCurrent, TalliesKeyed, MoveVote;
    var p := s.proposals[id].projectId;
    var v := s.stakeholders[(p, who)];
    var t := TallyOf(s.tallies, id, v.role);
    assert TallyFaithful(s.stakeholders, s.votes, s.journal, t, p, id, v.role);
    hide TalliesFaithful, Polled;
    BallotWithinPolled(s.stakeholders, s.votes, p, id, v.role, true, who);
    BallotWithinPolled(s.stakeholders, s.votes, p, id, v.role, false, who);
    MoveVoteArithmetic(t, VoteOf(s.votes, id, who), v.stake, aye);
  }

  lemma FaithAfterVote(st: Registry, votes: VoteBook, j: Journal, t: RoleTally, u: RoleTally,
                       p: ProjectId, id: ProposalId, who: AccountId, aye: bool)
    requires (p, who) in st && TallyFaithful(st, votes, j, t, p, id, st[(p, who)].role)
    requires var v := st[(p, who)];
      && u.ayes + BallotWeight((p, who), v, votes, p, id, v.role, true) == t.ayes + (if aye then v.stake else 0)
      && u.nays + BallotWeight((p, who), v, votes, p, id, v.role, false) == t.nays + (if aye then 0 else v.stake)
    ensures TallyFaithful(st, votes[(id, who) := aye], j, u, p, id, st[(p, who)].role)
  {
    PolledUpdate(st, votes, p, id, st[(p, who)].role, true, who, aye);
    PolledUpdate(st, votes, p, id, st[(p, who)].role, false, who, aye);
  }

  lemma FaithOfOtherRoles(st: Registry, votes: VoteBook, j: Journal, t: RoleTally,
                          p: ProjectId, id: ProposalId, r: Role, who: AccountId, aye: bool)
    requires (p, who) in st && r != st[(p, who)].role && TallyFaithful(st, votes, j, t, p, id, r)
    ensures TallyFaithful(st, votes[(id, who) := aye], j, t, p, id, r)
  {
    PolledUpdate(st, votes, p, id, r, true, who, aye);
    PolledUpdate(st, votes, p, id, r, false, who, aye);
  }

  lemma FaithOfOtherProposals(st: Registry, votes: VoteBook, j: Journal, t: RoleTally,
                              p: ProjectId, i: ProposalId, r: Role, id: ProposalId, who: AccountId, aye: bool)
    requires i != id && TallyFaithful(st, votes, j, t, p, i, r)
    ensures TallyFaithful(st, votes[(id, who) := aye], j, t, p, i, r)
  {
    PolledElsewhere(st, votes, p, i, r, true, id, who, aye);
    PolledElsewhere(st, votes, p, i, r, false, id, who, aye);
  }

  ghost predicate Moved(t: RoleTally, u: RoleTally, votes: VoteBook, p: ProjectId, id: ProposalId,
                        who: AccountId, v: Stakeholder, aye: bool) {
    && u.ayes + BallotWeight((p, who), v, votes, p, id, v.role, true) == t.ayes + (if aye then v.stake else 0)
    && u.nays + BallotWeight((p, who), v, votes, p, id, v.role, false) == t.nays + (if aye then 0 else v.stake)
  }

  /** What one recorded vote does to the meaning of one tally. */
  lemma TallyAfterVote(st: Registry, votes: VoteBook, j: Journal, tallies: Tallies, u: RoleTally,
                       q: ProjectId, i: ProposalId, r: Role, id: ProposalId, who: AccountId, v: Stakeholder, aye: bool)
    requires TallyFaithful(st, votes, j, TallyOf(tallies, i, r), q, i, r)
    requires i == id ==> (q, who) in st && st[(q, who)] == v
    requires i == id && r == v.role ==> Moved(TallyOf(tallies, id, r), u, votes, q, id, who, v, aye)
    ensures TallyFaithful(st, votes[(id, who) := aye], Deposit(j, Voted(id, who, v.role, aye, v.stake)),
                          TallyOf(tallies[(id, v.role) := u], i, r), q, i, r)
  {
    if i != id {
      FaithOfOtherProposals(st, votes, j, TallyOf(tallies, i, r), q, i, r, id, who, aye);
    } else if r != v.role {
      FaithOfOtherRoles(st, votes, j, TallyOf(tallies, i, r), q, id, r, who, aye);
    } else {
      FaithAfterVote(st, votes, j, TallyOf(tallies, i, r), u, q, id, who, aye);
    }
  }

  lemma VoteKeepsFaith(s: State, id: ProposalId, who: AccountId, aye: bool)
    requires Books(s) && Chronicled(s) && Tallied(s)
    requires id in s.proposals && (s.proposals[id].projectId, who) in s.stakeholders
    ensures var t := RecordVote(s, id, who, s.stakeholders[(s.proposals[id].projectId, who)], aye);
      TalliesFaithful(t.stakeholders, t.votes, t.journal, t.tallies, t.proposals)
  {
    var v := s.stakeholders[(s.proposals[id].projectId, who)];
    var t := RecordVote(s, id, who, v, aye);
    var u := MoveVote(TallyOf(s.tallies, id, v.role), VoteOf(s.votes, id, who), v.stake, aye);
    MoveVoteExact(s, id, who, aye);
    forall i, r | i in s.proposals
      ensures TallyFaithful(t.stakeholders, t.votes, t.journal, TallyOf(t.tallies, i, r),
                            s.proposals[i].projectId, i, r)
    {
      TallyAfterVote(s.stakeholders, s.votes, s.journal, s.tallies, u, s.proposals[i].projectId, i, r, id, who, v, aye);
    }
  }

  lemma FirstWeightsElsewhere(st: Registry, j: Journal, e: Event, p: ProjectId, id: ProposalId, r: Role)
    requires e.Voted? ==> e.proposal != id
    ensures FirstWeights(st, Deposit(j, e), p, id, r) == FirstWeights(st, j, p, id, r)
  {
  }

  lemma MoveVoteTotal(s: State, id: ProposalId, who: AccountId, aye: bool)
    requires Books(s) && Chronicled(s) && Tallied(s)
    requires id in s.proposals && (s.proposals[id].projectId, who) in s.stakeholders
    ensures var v := s.stakeholders[(s.proposals[id].projectId, who)];
      var t := TallyOf(s.tallies, id, v.role);
      var u := MoveVote(t, VoteOf(s.votes, id, who), v.stake, aye);
      u.ayes + u.nays == t.ayes + t.nays + (if FirstVote(s.journal, id, who).None? then v.stake else 0)
  {
    MoveVoteExact(s, id, who, aye);
    assert (id, who) in s.votes <==> FirstVote(s.journal, id, who).Some?;
  }

  /** What one recorded vote does to the first-vote total of one tally. */
  lemma FirstTotalAfter(st: Registry, j: Journal, tallies: Tallies, u: RoleTally,
                        q: ProjectId, i: ProposalId, r: Role, id: ProposalId, who: AccountId, v: Stakeholder, aye: bool)
    requires TallyOf(tallies, i, r).ayes + TallyOf(tallies, i, r).nays == Sum(FirstWeights(st, j, q, i, r))
    requires i == id ==> (q, who) in st && st[(q, who)] == v
    requires i == id && r == v.role ==>
      u.ayes + u.nays == TallyOf(tallies, i, r).ayes + TallyOf(tallies, i, r).nays
                       + (if FirstVote(j, id, who).None? then v.stake else 0)
    ensures var t := TallyOf(tallies[(id, v.role) := u], i, r);
      t.ayes + t.nays == Sum(FirstWeights(st, Deposit(j, Voted(id, who, v.role, aye, v.stake)), q, i, r))
  {
    if i == id {
      FirstTotalUpdate(st, j, q, id, r, who, aye);
    } else {
      FirstWeightsElsewhere(st, j, Voted(id, who, v.role, aye, v.stake), q, i, r);
    }
  }

  lemma VoteKeepsFirstVotes(s: State, id: ProposalId, who: AccountId, aye: bool)
    requires Books(s) && Chronicled(s) && Tallied(s)
    requires id in s.proposals && (s.proposals[id].projectId, who) in s.stakeholders
    ensures var t := RecordVote(s, id, who, s.stakeholders[(s.proposals[id].projectId, who)], aye);
      FirstVotesTallied(t.stakeholders, t.journal, t.tallies, t.proposals)
  {
    var v := s.stakeholders[(s.proposals[id].projectId, who)];
    var t := RecordVote(s, id, who, v, aye);
    var u := MoveVote(TallyOf(s.tallies, id, v.role), VoteOf(s.votes, id, who), v.stake, aye);
    MoveVoteTotal(s, id, who, aye);
    forall i, r | i in s.proposals
      ensures TallyOf(t.tallies, i, r).ayes + TallyOf(t.tallies, i, r).nays
           == Sum(FirstWeights(t.stakeholders, t.journal, s.proposals[i].projectId, i, r))
    {
      FirstTotalAfter(s.stakeholders, s.journal, s.tallies, u, s.proposals[i].projectId, i, r, id, who, v, aye);
    }
  }

  lemma VoteIsCurrent(votes: VoteBook, j: Journal, id: ProposalId, who: AccountId, v: Stakeholder, aye: bool)
    requires VotesCurrent(votes, j)
    ensures VotesCurrent(votes[(id, who) := aye], Deposit(j, Voted(id, who, v.role, aye, v.stake)))
  {
    var votes1, j1 := votes[(id, who) := aye], Deposit(j, Voted(id, who, v.role, aye, v.stake));
    forall i: ProposalId, a: AccountId ensures VoteOf(votes1, i, a) == LastVote(j1, i, a) {
      assert VoteOf(votes, i, a) == LastVote(j, i, a);
    }
  }

  lemma VoteKeepsTallied(s: State, id: ProposalId, who: AccountId, aye: bool)
    requires Books(s) && Chronicled(s) && Tallied(s)
    requires id in s.proposals && (s.proposals[id].projectId, who) in s.stakeholders
    ensures Tallied(RecordVote(s, id, who, s.stakeholders[(s.proposals[id].projectId, who)], aye))
  {
    VoteKeepsFaith(s, id, who, aye);
    VoteKeepsFirstVotes(s, id, who, aye);
    VoteKeepsRecords(s, id, who, aye);
    var v := s.stakeholders[(s.proposals[id].projectId, who)];
    VoteIsCurrent(s.votes, s.journal, id, who, v, aye);
    hide Books, Chronicled, TalliesFaithful, FirstVotesTallied, VotesRecorded, VotesCurrent, MoveVote;
  }

  // Everything else that happens to registry, proposals or journal

  /** Neither a vote nor a registration nor a slash. */
  predicate Silent(e: Event) { !e.Voted? && !e.StakeholderRegistered? && !e.BuildServiceSlashed? }

  lemma SilentKeeps(j: Journal, e: Event)
    requires Silent(e)
    ensures forall id, a :: FirstVote(Deposit(j, e), id, a) == FirstVote(j, id, a)
    ensures forall p, a :: Registered(Deposit(j, e), p, a) == Registered(j, p, a)
    ensures forall id, a :: LastVote(Deposit(j, e), id, a) == LastVote(j, id, a)
    ensures forall p, id, side :: LostBallots(Deposit(j, e), p, id, side) == LostBallots(j, p, id, side)
    ensures SameSlashes(j, Deposit(j, e), None)
  {
  }

  lemma SilentKeepsVotes(st: Registry, votes: VoteBook, j: Journal, proposals: Proposals, e: Event)
    requires VotesRecorded(st, votes, j, proposals) && VotesCurrent(votes, j) && Silent(e)
    ensures VotesRecorded(st, votes, Deposit(j, e), proposals) && VotesCurrent(votes, Deposit(j, e))
  {
    SilentKeeps(j, e);
  }

  lemma SilentKeepsTally(st: Registry, votes: VoteBook, j: Journal, e: Event, t: RoleTally,
                         p: ProjectId, id: ProposalId, r: Role)
    requires Silent(e)
    ensures TallyFaithful(st, votes, Deposit(j, e), t, p, id, r) == TallyFaithful(st, votes, j, t, p, id, r)
    ensures FirstWeights(st, Deposit(j, e), p, id, r) == FirstWeights(st, j, p, id, r)
  {
    hide Polled;
    SilentKeeps(j, e);
  }

  lemma SilentKeepsTallied(s: State, e: Event)
    requires Tallied(s) && Silent(e)
    ensures Tallied(s.(journal := Deposit(s.journal, e)))
  {
    hide TallyFaithful, FirstWeights, VotesRecorded, VotesCurrent, Silent;
    SilentKeepsVotes(s.stakeholders, s.votes, s.journal, s.proposals, e);
    var j := Deposit(s.journal, e);
    forall id, r | id in s.proposals
      ensures TallyFaithful(s.stakeholders, s.votes, j, TallyOf(s.tallies, id, r), s.proposals[id].projectId, id, r)
      ensures TallyOf(s.tallies, id, r).ayes + TallyOf(s.tallies, id, r).nays
           == Sum(FirstWeights(s.stakeholders, j, s.proposals[id].projectId, id, r))
    {
      SilentKeepsTally(s.stakeholders, s.votes, s.journal, e, TallyOf(s.tallies, id, r),
                       s.proposals[id].projectId, id, r);
    }
  }

  /** Proposals may change in anything but their project. */
  ghost predicate SameBallots(before: Proposals, after: Proposals) {
    && before.Keys == after.Keys
    && forall id :: id in before ==> before[id].projectId == after[id].projectId
  }

  lemma SameBallotsKeepTallied(s: State, proposals: Proposals)
    requires Tallied(s) && SameBallots(s.proposals, proposals)
    ensures Tallied(s.(proposals := proposals))
  {
  }

  lemma {:induction false} NoBallotsLost(j: Journal, p: ProjectId, id: ProposalId, side: bool)
    requires forall a :: LastVote(j, id, a).None?
    ensures LostBallots(j, p, id, side) == 0
  {
    if j.Deposit? {
      forall a ensures LastVote(j.past, id, a).None? {
        assert LastVote(j, id, a).None?;
      }
      NoBallotsLost(j.past, p, id, side);
    }
  }

  lemma UnvotedProposal(st: Registry, votes: VoteBook, j: Journal, proposals: Proposals, id: ProposalId)
    requires VotesRecorded(st, votes, j, proposals) && VotesCurrent(votes, j) && id !in proposals
    ensures forall a: AccountId :: (id, a) !in votes && FirstVote(j, id, a).None? && LastVote(j, id, a).None?
  {
    forall a: AccountId ensures (id, a) !in votes && FirstVote(j, id, a).None? && LastVote(j, id, a).None? {
      assert VoteOf(votes, id, a) == LastVote(j, id, a);
    }
  }

  lemma NobodyVoted(st: Registry, votes: VoteBook, j: Journal, p: ProjectId, id: ProposalId, r: Role)
    requires forall a: AccountId :: (id, a) !in votes && FirstVote(j, id, a).None? && LastVote(j, id, a).None?
    ensures TallyFaithful(st, votes, j, RoleTally(0, 0), p, id, r)
    ensures Sum(FirstWeights(st, j, p, id, r)) == 0
  {
    hide FirstVote, LastVote;
    NoBallotsLost(j, p, id, true);
    NoBallotsLost(j, p, id, false);
    hide LostBallots;
    SumZero(BallotWeights(st, votes, p, id, r, true));
    SumZero(BallotWeights(st, votes, p, id, r, false));
    SumZero(FirstWeights(st, j, p, id, r));
  }

  lemma ProposeKeepsTallied(s: State, id: ProposalId, v: Proposal)
    requires Tallied(s) && id !in s.proposals
    ensures Tallied(s.(proposals := s.proposals[id := v]))
  {
    hide TallyFaithful, FirstWeights, VotesCurrent;
    UnvotedProposal(s.stakeholders, s.votes, s.journal, s.proposals, id);
    forall r ensures TallyFaithful(s.stakeholders, s.votes, s.journal, TallyOf(s.tallies, id, r), v.projectId, id, r)
             ensures TallyOf(s.tallies, id, r).ayes + TallyOf(s.tallies, id, r).nays
                  == Sum(FirstWeights(s.stakeholders, s.journal, v.projectId, id, r))
    {
      assert TallyOf(s.tallies, id, r) == RoleTally(0, 0);
      NobodyVoted(s.stakeholders, s.votes, s.journal, v.projectId, id, r);
    }
  }

  lemma NewcomerPolls(st: Registry, votes: VoteBook, k: (ProjectId, AccountId), v: Stakeholder,
                      p: ProjectId, id: ProposalId, r: Role, aye: bool)
    requires k !in st && k.0 != p
    ensures Polled(st[k := v], votes, p, id, r, aye) == Polled(st, votes, p, id, r, aye)
  {
    assert BallotWeights(st[k := v], votes, p, id, r, aye) == BallotWeights(st, votes, p, id, r, aye)[k := 0];
    SumUpdate(BallotWeights(st, votes, p, id, r, aye), k, 0);
  }

  lemma NewcomerFirstVotes(st: Registry, j: Journal, e: Event, k: (ProjectId, AccountId), v: Stakeholder,
                           p: ProjectId, id: ProposalId, r: Role)
    requires k !in st && k.0 != p && !e.Voted?
    ensures Sum(FirstWeights(st[k := v], Deposit(j, e), p, id, r)) == Sum(FirstWeights(st, j, p, id, r))
  {
    assert FirstWeights(st[k := v], Deposit(j, e), p, id, r) == FirstWeights(st, j, p, id, r)[k := 0];
    SumUpdate(FirstWeights(st, j, p, id, r), k, 0);
  }

  lemma RegisterKeepsCurrent(votes: VoteBook, j: Journal, e: Event)
    requires VotesCurrent(votes, j) && e.StakeholderRegistered?
    ensures VotesCurrent(votes, Deposit(j, e))
  {
    assert forall id, a :: LastVote(Deposit(j, e), id, a) == LastVote(j, id, a);
  }

  lemma NewcomerRecords(st: Registry, votes: VoteBook, j: Journal, proposals: Proposals,
                        p: ProjectId, a: AccountId, v: Stakeholder)
    requires VotesRecorded(st, votes, j, proposals) && forall id :: id in proposals ==> proposals[id].projectId != p
    ensures VotesRecorded(st[(p, a) := v], votes, Deposit(j, StakeholderRegistered(p, a, v.role, v.stake)), proposals)
  {
    var j1 := Deposit(j, StakeholderRegistered(p, a, v.role, v.stake));
    assert forall id, b :: FirstVote(j1, id, b) == FirstVote(j, id, b);
    assert forall q, b :: q != p ==> Registered(j1, q, b) == Registered(j, q, b);
    hide FirstVote, Registered;
  }

  lemma RegisterShape(s: State, p: ProjectId, init: StakeholderInit)
    requires Register(s, p, init).Ok?
    ensures var t := Register(s, p, init).value;
      && (p, init.account) !in s.stakeholders
      && t.stakeholders == s.stakeholders[(p, init.account) := Stakeholder(init.role, init.stake)]
      && t.journal == Deposit(s.journal, StakeholderRegistered(p, init.account, init.role, init.stake))
      && t.votes == s.votes && t.proposals == s.proposals && t.tallies == s.tallies
  {
    hide Hold;
  }

  /** Stakeholders of a project without proposals do not weigh in anywhere. */
  lemma RegisterKeepsTallied(s: State, p: ProjectId, init: StakeholderInit)
    requires Tallied(s) && Register(s, p, init).Ok?
    requires forall id :: id in s.proposals ==> s.proposals[id].projectId != p
    ensures Tallied(Register(s, p, init).value)
  {
    hide Register, Polled, FirstWeights, VotesRecorded, VotesCurrent;
    var t := Register(s, p, init).value;
    var k, v := (p, init.account), Stakeholder(init.role, init.stake);
    RegisterShape(s, p, init);
    RegisterKeepsCurrent(s.votes, s.journal, t.journal.event);
    forall id, r | id in s.proposals
      ensures TallyFaithful(t.stakeholders, t.votes, t.journal, TallyOf(t.tallies, id, r), t.proposals[id].projectId,
                            id, r)
      ensures TallyOf(t.tallies, id, r).ayes + TallyOf(t.tallies, id, r).nays
           == Sum(FirstWeights(t.stakeholders, t.journal, t.proposals[id].projectId, id, r))
    {
      assert TallyFaithful(s.stakeholders, s.votes, s.journal, TallyOf(s.tallies, id, r), s.proposals[id].projectId,
                           id, r);
      NewcomerPolls(s.stakeholders, s.votes, k, v, s.proposals[id].projectId, id, r, true);
      NewcomerPolls(s.stakeholders, s.votes, k, v, s.proposals[id].projectId, id, r, false);
      NewcomerFirstVotes(s.stakeholders, s.journal, t.journal.event, k, v, s.proposals[id].projectId, id, r);
    }
    NewcomerRecords(s.stakeholders, s.votes, s.journal, s.proposals, p, init.account, v);
  }

  /** A slash lowers what is really polled by what it takes, on the side of its owner's last vote. */
  lemma SlashPolls(st: Registry, votes: VoteBook, k: (ProjectId, AccountId), v: Stakeholder, amount: nat,
                   p: ProjectId, id: ProposalId, r: Role, side: bool)
    requires k in st && v.role == st[k].role && v.stake + amount == st[k].stake
    ensures Polled(st[k := v], votes, p, id, r, side)
          + (if k.0 == p && v.role == r && VoteOf(votes, id, k.1) == Some(side) then amount else 0)
         == Polled(st, votes, p, id, r, side)
  {
    var w := BallotWeight(k, v, votes, p, id, r, side);
    assert BallotWeights(st[k := v], votes, p, id, r, side) == BallotWeights(st, votes, p, id, r, side)[k := w];
    SumUpdate(BallotWeights(st, votes, p, id, r, side), k, w);
  }

  /** The slash of one stakeholder, as it is journaled. */
  ghost predicate SlashOf(e: Event, st: Registry, k: (ProjectId, AccountId), v: Stakeholder) {
    && e.BuildServiceSlashed? && e.project == k.0 && e.builder == k.1
    && k in st && v.role == st[k].role == BuildService && v.stake + e.amount == st[k].stake
  }

  /** What a slash takes from behind a tally it adds to the residue. */
  lemma SlashKeepsTally(st: Registry, votes: VoteBook, j: Journal, e: Event, k: (ProjectId, AccountId), v: Stakeholder,
                        t: RoleTally, p: ProjectId, id: ProposalId, r: Role)
    requires SlashOf(e, st, k, v) && VotesCurrent(votes, j) && TallyFaithful(st, votes, j, t, p, id, r)
    ensures TallyFaithful(st[k := v], votes, Deposit(j, e), t, p, id, r)
  {
    SlashPolls(st, votes, k, v, e.amount, p, id, r, true);
    SlashPolls(st, votes, k, v, e.amount, p, id, r, false);
    assert VoteOf(votes, id, k.1) == LastVote(j, id, k.1);
    hide Polled, VotesCurrent, VoteOf;
  }

  lemma SlashKeepsFirstWeights(st: Registry, j: Journal, e: Event, k: (ProjectId, AccountId), v: Stakeholder,
                               p: ProjectId, id: ProposalId, r: Role)
    requires SlashOf(e, st, k, v)
    ensures FirstWeights(st[k := v], Deposit(j, e), p, id, r) == FirstWeights(st, j, p, id, r)
  {
  }

  lemma SlashKeepsVotes(st: Registry, votes: VoteBook, j: Journal, proposals: Proposals, e: Event,
                        k: (ProjectId, AccountId), v: Stakeholder)
    requires SlashOf(e, st, k, v) && VotesRecorded(st, votes, j, proposals) && VotesCurrent(votes, j)
    ensures VotesRecorded(st[k := v], votes, Deposit(j, e), proposals) && VotesCurrent(votes, Deposit(j, e))
  {
    var j1 := Deposit(j, e);
    assert st[k := v].Keys == st.Keys;
    assert forall id, a :: FirstVote(j1, id, a) == FirstVote(j, id, a);
    assert forall p, a :: Registered(j1, p, a) == Registered(j, p, a);
    assert forall id, a :: LastVote(j1, id, a) == LastVote(j, id, a);
  }

  lemma SlashKeepsTallied(s: State, k: (ProjectId, AccountId), v: Stakeholder, e: Event)
    requires Tallied(s) && SlashOf(e, s.stakeholders, k, v)
    ensures Tallied(s.(stakeholders := s.stakeholders[k := v], journal := Deposit(s.journal, e)))
  {
    hide Polled, FirstWeights, VotesRecorded, VotesCurrent, SlashOf;
    var st, j := s.stakeholders[k := v], Deposit(s.journal, e);
    SlashKeepsVotes(s.stakeholders, s.votes, s.journal, s.proposals, e, k, v);
    forall id, r | id in s.proposals
      ensures TallyFaithful(st, s.votes, j, TallyOf(s.tallies, id, r), s.proposals[id].projectId, id, r)
      ensures TallyOf(s.tallies, id, r).ayes + TallyOf(s.tallies, id, r).nays
           == Sum(FirstWeights(st, j, s.proposals[id].projectId, id, r))
    {
      var p, t := s.proposals[id].projectId, TallyOf(s.tallies, id, r);
      assert TallyFaithful(s.stakeholders, s.votes, s.journal, t, p, id, r);
      SlashKeepsTally(s.stakeholders, s.votes, s.journal, e, k, v, t, p, id, r);
      SlashKeepsFirstWeights(s.stakeholders, s.journal, e, k, v, p, id, r);
    }
  }

  /** The real stakes behind ayes and nays together stay within the role's stake. */
  lemma PolledWithinRole(st: Registry, votes: VoteBook, p: ProjectId, id: ProposalId, r: Role)
    ensures Polled(st, votes, p, id, r, true) + Polled(st, votes, p, id, r, false) <= Sum(RoleWeights(st, p, r))
  {
    var ayes, nays := BallotWeights(st, votes, p, id, r, true), BallotWeights(st, votes, p, id, r, false);
    var both := map k | k in st :: ayes[k] + nays[k];
    SumAdd(ayes, nays, both);
    SumMonotone(both, RoleWeights(st, p, r));
  }
}
