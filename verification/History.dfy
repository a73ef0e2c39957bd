/**
 What the journal of deposited events says about the past: who registered which stake, who was
 slashed how often and for how much, and how much weight each first vote carried.
 */
module History {
  import opened Types
  import opened Sums
  import opened Currency
  import opened Protocol
  import opened Slashing
  import opened Accounting

  /** The stake an account registered in a project, if it did. */
  ghost function Registered(j: Journal, p: ProjectId, a: AccountId): Option<nat> {
    match j
    case Empty => None
    case Deposit(past, e) =>
      if e.StakeholderRegistered? && e.project == p && e.account == a then Some(e.stake)
      else Registered(past, p, a)
  }

  /** How often a builder was slashed in a project. */
  ghost function SlashCount(j: Journal, p: ProjectId, a: AccountId): nat {
    match j
    case Empty => 0
    case Deposit(past, e) =>
      SlashCount(past, p, a) + if e.BuildServiceSlashed? && e.project == p && e.builder == a then 1 else 0
  }

  /** Everything ever slashed. */
  ghost function Slashed(j: Journal): nat {
    match j
    case Empty => 0
    case Deposit(past, e) => Slashed(past) + if e.BuildServiceSlashed? then e.amount else 0
  }

  /** The weight of an account's first vote on a proposal, if it voted. */
  ghost function FirstVote(j: Journal, id: ProposalId, a: AccountId): Option<nat> {
    match j
    case Empty => None
    case Deposit(past, e) =>
      var earlier := FirstVote(past, id, a);
      if earlier.Some? then earlier
      else if e.Voted? && e.proposal == id && e.voter == a then Some(e.weight)
      else None
  }

  /** The side of an account's last vote on a proposal, if it voted. */
  ghost function LastVote(j: Journal, id: ProposalId, a: AccountId): Option<bool> {
    match j
    case Empty => None
    case Deposit(past, e) =>
      if e.Voted? && e.proposal == id && e.voter == a then Some(e.aye) else LastVote(past, id, a)
  }

  /** Stake slashed in a project from builders whose last vote on a proposal was on this side at that time. */
  ghost function LostBallots(j: Journal, p: ProjectId, id: ProposalId, side: bool): nat {
    match j
    case Empty => 0
    case Deposit(past, e) =>
      LostBallots(past, p, id, side)
      + if e.BuildServiceSlashed? && e.project == p && LastVote(past, id, e.builder) == Some(side) then e.amount else 0
  }

  /** Stake slashed in a project since the last vote on a proposal. */
  ghost function SlashedSinceVote(j: Journal, p: ProjectId, id: ProposalId): nat {
    match j
    case Empty => 0
    case Deposit(past, e) =>
      if e.Voted? && e.proposal == id then 0
      else SlashedSinceVote(past, p, id) + if e.BuildServiceSlashed? && e.project == p then e.amount else 0
  }

  function OrZero(x: Option<nat>): nat { if x.Some? then x.value else 0 }

  ghost function SigmaOf(projects: Projects, p: ProjectId): Perbill {
    if p in projects then projects[p].slashing.sigmaNeg else 0
  }

  ghost function RegisteredWeights(st: Registry, j: Journal): map<(ProjectId, AccountId), nat> {
    map k | k in st :: OrZero(Registered(j, k.0, k.1))
  }

  ghost function IfRejected(v: Proposal, p: ProjectId, a: AccountId): nat {
    if v.projectId == p && v.attestation.builder == a && v.status.Rejected? then 1 else 0
  }

  ghost function RejectedWeights(proposals: Proposals, p: ProjectId, a: AccountId)
    : map<ProposalId, nat>
  {
    map id | id in proposals :: IfRejected(proposals[id], p, a)
  }

  /** Number of `Rejected` proposals of a project that name this builder. */
  ghost function RejectedCount(proposals: Proposals, p: ProjectId, a: AccountId): nat {
    Sum(RejectedWeights(proposals, p, a))
  }

  /** Every stake is its registered value eroded once per slash. */
  ghost predicate StakesEroded(st: Registry, projects: Projects, j: Journal) {
    forall p, a :: (p, a) in st ==>
      && Registered(j, p, a).Some?
      && st[(p, a)].stake == Erode(SigmaOf(projects, p), Registered(j, p, a).value, SlashCount(j, p, a))
  }

  /** Slashes are counted by rejections. */
  ghost predicate SlashesCounted(proposals: Proposals, j: Journal) {
    forall p, a :: SlashCount(j, p, a) == RejectedCount(proposals, p, a)
  }

  /** Registered stake is what is left plus what was slashed, and neither it nor the issuance overflows. */
  ghost predicate StakeConserved(st: Registry, l: Ledger, j: Journal) {
    && Sum(RegisteredWeights(st, j)) == TotalStake(st) + Slashed(j)
    && l.issuance + Slashed(j) <= 340_282_366_920_938_463_463_374_607_431_768_211_455
  }

  ghost predicate Chronicled(s: State) {
    && StakesEroded(s.stakeholders, s.projects, s.journal)
    && SlashesCounted(s.proposals, s.journal)
    && StakeConserved(s.stakeholders, s.ledger, s.journal)
  }

  /** An event about neither stakes nor slashes changes none of this. */
  predicate Quiet(e: Event) { !e.StakeholderRegistered? && !e.BuildServiceSlashed? }

  lemma QuietKeeps(st: Registry, j: Journal, e: Event)
    requires Quiet(e)
    ensures forall p, a :: Registered(Deposit(j, e), p, a) == Registered(j, p, a)
    ensures forall p, a :: SlashCount(Deposit(j, e), p, a) == SlashCount(j, p, a)
    ensures Slashed(Deposit(j, e)) == Slashed(j)
    ensures RegisteredWeights(st, Deposit(j, e)) == RegisteredWeights(st, j)
  {
  }

  lemma QuietKeepsChronicle(s: State, e: Event)
    requires Chronicled(s) && Quiet(e)
    ensures Chronicled(s.(journal := Deposit(s.journal, e)))
  {
    QuietKeeps(s.stakeholders, s.journal, e);
  }

  lemma UnslashedOutsideProjects(s: State, p: ProjectId, a: AccountId)
    requires SlashesCounted(s.proposals, s.journal)
    requires forall id :: id in s.proposals ==> s.proposals[id].projectId != p
    ensures SlashCount(s.journal, p, a) == 0
  {
    SumZero(RejectedWeights(s.proposals, p, a));
  }

  lemma RegisterKeepsErosion(
    st: Registry, projects: Projects, j: Journal, p: ProjectId, a: AccountId, v: Stakeholder)
    requires StakesEroded(st, projects, j) && SlashCount(j, p, a) == 0
    ensures StakesEroded(st[(p, a) := v], projects, Deposit(j, StakeholderRegistered(p, a, v.role, v.stake)))
  {
    var e := StakeholderRegistered(p, a, v.role, v.stake);
    forall q, b | (q, b) in st[(p, a) := v]
      ensures Registered(Deposit(j, e), q, b).Some?
      ensures st[(p, a) := v][(q, b)].stake
           == Erode(SigmaOf(projects, q), Registered(Deposit(j, e), q, b).value, SlashCount(Deposit(j, e), q, b))
    {
      assert SlashCount(Deposit(j, e), q, b) == SlashCount(j, q, b);
    }
  }

  lemma RegisteredUpdate(j: Journal, p: ProjectId, a: AccountId, v: Stakeholder, k: (ProjectId, AccountId))
    ensures Registered(Deposit(j, StakeholderRegistered(p, a, v.role, v.stake)), k.0, k.1)
         == if k == (p, a) then Some(v.stake) else Registered(j, k.0, k.1)
  {
    assert k == (k.0, k.1);
  }

  lemma RegisterKeepsTotals(st: Registry, l: Ledger, j: Journal, p: ProjectId, a: AccountId, v: Stakeholder)
    requires StakeConserved(st, l, j) && (p, a) !in st
    ensures StakeConserved(st[(p, a) := v], l, Deposit(j, StakeholderRegistered(p, a, v.role, v.stake)))
  {
    var j1 := Deposit(j, StakeholderRegistered(p, a, v.role, v.stake));
    TotalStakeUpdate(st, (p, a), v);
    hide TotalStake, Registered;
    forall k | k in st[(p, a) := v]
      ensures OrZero(Registered(j1, k.0, k.1)) == if k == (p, a) then v.stake else OrZero(Registered(j, k.0, k.1))
    {
      RegisteredUpdate(j, p, a, v, k);
    }
    assert RegisteredWeights(st[(p, a) := v], j1) == RegisteredWeights(st, j)[(p, a) := v.stake];
    SumUpdate(RegisteredWeights(st, j), (p, a), v.stake);
  }

  lemma RegisterKeepsChronicle(s: State, p: ProjectId, init: StakeholderInit)
    requires Chronicled(s) && Register(s, p, init).Ok?
    requires forall id :: id in s.proposals ==> s.proposals[id].projectId != p
    ensures Chronicled(Register(s, p, init).value)
  {
    var t := Register(s, p, init).value;
    var v := Stakeholder(init.role, init.stake);
    UnslashedOutsideProjects(s, p, init.account);
    RegisterKeepsErosion(s.stakeholders, s.projects, s.journal, p, init.account, v);
    RegisterKeepsTotals(s.stakeholders, t.ledger, s.journal, p, init.account, v);
    assert forall q, b :: SlashCount(t.journal, q, b) == SlashCount(s.journal, q, b);
  }

  lemma CreateKeepsChronicle(s: State, p: ProjectId, project: ProjectInfo)
    requires Chronicled(s) && p !in s.projects
    requires forall id :: id in s.proposals ==> s.proposals[id].projectId != p
    ensures Chronicled(s.(projects := s.projects[p := project]))
  {
    forall a ensures SlashCount(s.journal, p, a) == 0 {
      UnslashedOutsideProjects(s, p, a);
    }
  }

  lemma RejectedCountUpdate(proposals: Proposals, id: ProposalId, v: Proposal, p: ProjectId, a: AccountId)
    ensures RejectedCount(proposals[id := v], p, a) + (if id in proposals then IfRejected(proposals[id], p, a) else 0)
         == RejectedCount(proposals, p, a) + IfRejected(v, p, a)
  {
    assert RejectedWeights(proposals[id := v], p, a) == RejectedWeights(proposals, p, a)[id := IfRejected(v, p, a)];
    SumUpdate(RejectedWeights(proposals, p, a), id, IfRejected(v, p, a));
  }

  /** Changing a proposal without rejecting it does not change any count. */
  lemma CountsKept(proposals: Proposals, id: ProposalId, v: Proposal, j: Journal)
    requires SlashesCounted(proposals, j)
    requires id in proposals ==> !proposals[id].status.Rejected?
    requires !v.status.Rejected?
    ensures SlashesCounted(proposals[id := v], j)
  {
    forall p, a ensures SlashCount(j, p, a) == RejectedCount(proposals[id := v], p, a) {
      RejectedCountUpdate(proposals, id, v, p, a);
    }
  }

  lemma SlashKeepsErosion(
    st: Registry, projects: Projects, j: Journal, p: ProjectId, a: AccountId, v: Stakeholder, e: Event)
    requires StakesEroded(st, projects, j) && p in projects && (p, a) in st
    requires e.BuildServiceSlashed? && e.project == p && e.builder == a
    requires v.stake == SatSub(st[(p, a)].stake, MulFloor(projects[p].slashing.sigmaNeg, st[(p, a)].stake))
    ensures StakesEroded(st[(p, a) := v], projects, Deposit(j, e))
  {
    forall q, b | (q, b) in st[(p, a) := v]
      ensures Registered(Deposit(j, e), q, b).Some?
      ensures st[(p, a) := v][(q, b)].stake
           == Erode(SigmaOf(projects, q), Registered(Deposit(j, e), q, b).value, SlashCount(Deposit(j, e), q, b))
    {
      assert Registered(Deposit(j, e), q, b) == Registered(j, q, b);
    }
  }

  lemma SlashKeepsTotals(st: Registry, l: Ledger, l1: Ledger, j: Journal, k: (ProjectId, AccountId), v: Stakeholder,
                         e: Event)
    requires StakeConserved(st, l, j) && k in st && e.BuildServiceSlashed?
    requires v.stake + e.amount == st[k].stake && l1.issuance + e.amount == l.issuance
    ensures StakeConserved(st[k := v], l1, Deposit(j, e))
  {
    TotalStakeUpdate(st, k, v);
    assert RegisteredWeights(st[k := v], Deposit(j, e)) == RegisteredWeights(st, j);
  }

  /** A slash moves the same amount out of the stake, out of the issuance and into the journal. */
  lemma SlashKeepsStakes(s: State, p: ProjectId, builder: AccountId)
    requires Books(s) && (p, builder) in s.stakeholders && p in s.projects
    requires StakesEroded(s.stakeholders, s.projects, s.journal)
    requires StakeConserved(s.stakeholders, s.ledger, s.journal)
    ensures var t := Slash(s, p, builder, s.projects[p].slashing.sigmaNeg);
      StakesEroded(t.stakeholders, t.projects, t.journal) && StakeConserved(t.stakeholders, t.ledger, t.journal)
  {
    var sigma := s.projects[p].slashing.sigmaNeg;
    var t := Slash(s, p, builder, sigma);
    var k := (p, builder);
    SlashExact(s, p, builder, sigma);
    BurnConserves(s.ledger, Stake, builder, MulFloor(sigma, s.stakeholders[k].stake));
    SlashKeepsErosion(s.stakeholders, s.projects, s.journal, p, builder, t.stakeholders[k], t.journal.event);
    SlashKeepsTotals(s.stakeholders, s.ledger, t.ledger, s.journal, k, t.stakeholders[k], t.journal.event);
  }

  /** The slash and the rejection of one proposal are counted together. */
  lemma RejectionCounted(proposals: Proposals, id: ProposalId, j: Journal, e: Event)
    requires SlashesCounted(proposals, j) && id in proposals && !proposals[id].status.Rejected?
    requires e.BuildServiceSlashed? && e.project == proposals[id].projectId
    requires e.builder == proposals[id].attestation.builder
    ensures SlashesCounted(proposals[id := proposals[id].(status := Rejected)], Deposit(j, e))
  {
    var v := proposals[id].(status := Rejected);
    forall p, a ensures SlashCount(Deposit(j, e), p, a) == RejectedCount(proposals[id := v], p, a) {
      RejectedCountUpdate(proposals, id, v, p, a);
    }
  }
}
