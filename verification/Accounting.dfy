/**
 The books: `RoleStake` is the sum of the registered stakes of a role, every account's stake hold is
 the sum of its stakes over all projects, every account's bond hold is the sum of the bonds of its
 live proposals, and free plus held balances are the issuance.
 */
module Accounting {
  import opened Types
  import opened Sums
  import opened Currency
  import opened Protocol

  type Registry = map<(ProjectId, AccountId), Stakeholder>

  // Each sum ranges over all registered stakeholders or all proposals; those it does not concern weigh nothing.

  ghost function StakeIfRole(k: (ProjectId, AccountId), v: Stakeholder, p: ProjectId, r: Role): nat {
    if k.0 == p && v.role == r then v.stake else 0
  }

  ghost function RoleWeights(st: Registry, p: ProjectId, r: Role): map<(ProjectId, AccountId), nat> {
    map k | k in st :: StakeIfRole(k, st[k], p, r)
  }

  ghost function StakeIfOwner(k: (ProjectId, AccountId), v: Stakeholder, a: AccountId): nat {
    if k.1 == a then v.stake else 0
  }

  ghost function AccountWeights(st: Registry, a: AccountId): map<(ProjectId, AccountId), nat> {
    map k | k in st :: StakeIfOwner(k, st[k], a)
  }

  ghost function StakeWeights(st: Registry): map<(ProjectId, AccountId), nat> {
    map k | k in st :: st[k].stake
  }

  ghost function BondIfLive(v: Proposal, a: AccountId): nat {
    if v.proposer == a && Live(v.status) then v.bond else 0
  }

  ghost function BondWeights(proposals: Proposals, a: AccountId): map<ProposalId, nat> {
    map id | id in proposals :: BondIfLive(proposals[id], a)
  }

  /** All the stake registered in any project. */
  ghost function TotalStake(st: Registry): nat { Sum(StakeWeights(st)) }

  ghost predicate RoleStakeExact(st: Registry, roleStake: map<(ProjectId, Role), Balance>) {
    forall p, r :: RoleStakeOf(roleStake, p, r) == Sum(RoleWeights(st, p, r))
  }

  ghost predicate Escrowed(st: Registry, l: Ledger) {
    && (forall a :: Held(l, Stake, a) == Sum(AccountWeights(st, a)))
    && TotalStake(st) == Sum(l.stakeHold)
  }

  ghost predicate Bonded(proposals: Proposals, l: Ledger) {
    forall a :: Held(l, ProposalBond, a) == Sum(BondWeights(proposals, a))
  }

  ghost predicate Books(s: State) {
    && RoleStakeExact(s.stakeholders, s.roleStake)
    && Escrowed(s.stakeholders, s.ledger)
    && Bonded(s.proposals, s.ledger)
    && Conserved(s.ledger)
  }

  // How the sums move when one entry changes

  lemma RoleSumUpdate(st: Registry, k: (ProjectId, AccountId), v: Stakeholder, p: ProjectId, r: Role)
    ensures Sum(RoleWeights(st[k := v], p, r)) + (if k in st then StakeIfRole(k, st[k], p, r) else 0)
         == Sum(RoleWeights(st, p, r)) + StakeIfRole(k, v, p, r)
  {
    assert RoleWeights(st[k := v], p, r) == RoleWeights(st, p, r)[k := StakeIfRole(k, v, p, r)];
    SumUpdate(RoleWeights(st, p, r), k, StakeIfRole(k, v, p, r));
  }

  lemma AccountSumUpdate(st: Registry, k: (ProjectId, AccountId), v: Stakeholder, a: AccountId)
    ensures Sum(AccountWeights(st[k := v], a)) + (if k in st then StakeIfOwner(k, st[k], a) else 0)
         == Sum(AccountWeights(st, a)) + StakeIfOwner(k, v, a)
  {
    assert AccountWeights(st[k := v], a) == AccountWeights(st, a)[k := StakeIfOwner(k, v, a)];
    SumUpdate(AccountWeights(st, a), k, StakeIfOwner(k, v, a));
  }

  lemma TotalStakeUpdate(st: Registry, k: (ProjectId, AccountId), v: Stakeholder)
    ensures TotalStake(st[k := v]) + (if k in st then st[k].stake else 0) == TotalStake(st) + v.stake
  {
    assert StakeWeights(st[k := v]) == StakeWeights(st)[k := v.stake];
    SumUpdate(StakeWeights(st), k, v.stake);
  }

  lemma BondSumUpdate(proposals: Proposals, id: ProposalId, v: Proposal, a: AccountId)
    ensures Sum(BondWeights(proposals[id := v], a)) + (if id in proposals then BondIfLive(proposals[id], a) else 0)
         == Sum(BondWeights(proposals, a)) + BondIfLive(v, a)
  {
    assert BondWeights(proposals[id := v], a) == BondWeights(proposals, a)[id := BondIfLive(v, a)];
    SumUpdate(BondWeights(proposals, a), id, BondIfLive(v, a));
  }

  /** What one role, one account or everyone has staked is within the issuance. */
  lemma RoleWithinTotal(st: Registry, p: ProjectId, r: Role)
    ensures Sum(RoleWeights(st, p, r)) <= TotalStake(st)
  {
    SumMonotone(RoleWeights(st, p, r), StakeWeights(st));
  }

  lemma StakeBacked(s: State, p: ProjectId, a: AccountId)
    requires Books(s) && (p, a) in s.stakeholders
    ensures s.stakeholders[(p, a)].stake <= Held(s.ledger, Stake, a)
    ensures s.stakeholders[(p, a)].stake <= RoleStakeOf(s.roleStake, p, s.stakeholders[(p, a)].role)
  {
    var st := s.stakeholders;
    SumMember(AccountWeights(st, a), (p, a));
    SumMember(RoleWeights(st, p, st[(p, a)].role), (p, a));
  }

  lemma RoleStakeBounded(s: State, p: ProjectId, r: Role)
    requires Books(s)
    ensures RoleStakeOf(s.roleStake, p, r) <= s.ledger.issuance <= U128_MAX
  {
    RoleWithinTotal(s.stakeholders, p, r);
  }

  lemma BondBacked(s: State, id: ProposalId)
    requires Books(s) && id in s.proposals && Live(s.proposals[id].status)
    ensures s.proposals[id].bond <= Held(s.ledger, ProposalBond, s.proposals[id].proposer)
  {
    SumMember(BondWeights(s.proposals, s.proposals[id].proposer), id);
  }

  // The operations that touch the books

  lemma RegisterRoleStake(s: State, p: ProjectId, init: StakeholderInit)
    requires RoleStakeExact(s.stakeholders, s.roleStake) && Register(s, p, init).Ok?
    requires TotalStake(s.stakeholders) + init.stake <= U128_MAX
    ensures var t := Register(s, p, init).value; RoleStakeExact(t.stakeholders, t.roleStake)
  {
    var t := Register(s, p, init).value;
    RoleWithinTotal(s.stakeholders, p, init.role);
    forall q, r ensures RoleStakeOf(t.roleStake, q, r) == Sum(RoleWeights(t.stakeholders, q, r)) {
      RoleSumUpdate(s.stakeholders, (p, init.account), Stakeholder(init.role, init.stake), q, r);
    }
  }

  lemma NewcomerEscrow(st: Registry, l: Ledger, held: Ledger, k: (ProjectId, AccountId), v: Stakeholder)
    requires Escrowed(st, l) && k !in st
    requires held.stakeHold == l.stakeHold[k.1 := Held(l, Stake, k.1) + v.stake]
    ensures Escrowed(st[k := v], held)
  {
    hide AccountWeights, TotalStake;
    forall a ensures Held(held, Stake, a) == Sum(AccountWeights(st[k := v], a)) {
      AccountSumUpdate(st, k, v, a);
    }
    SumUpdate(l.stakeHold, k.1, Held(l, Stake, k.1) + v.stake);
    TotalStakeUpdate(st, k, v);
  }

  lemma RegisterEscrow(s: State, p: ProjectId, init: StakeholderInit)
    requires Escrowed(s.stakeholders, s.ledger) && Register(s, p, init).Ok?
    ensures var t := Register(s, p, init).value; Escrowed(t.stakeholders, t.ledger)
  {
    hide Escrowed;
    NewcomerEscrow(s.stakeholders, s.ledger, Register(s, p, init).value.ledger, (p, init.account),
                   Stakeholder(init.role, init.stake));
  }

  lemma RegisterKeepsBooks(s: State, p: ProjectId, init: StakeholderInit)
    requires Books(s) && Register(s, p, init).Ok?
    ensures Books(Register(s, p, init).value)
    ensures RoleStakeOf(s.roleStake, p, init.role) + init.stake
         <= 340_282_366_920_938_463_463_374_607_431_768_211_455
  {
    var t := Register(s, p, init).value;
    HoldConserves(s.ledger, Stake, init.account, init.stake);
    RegisterEscrow(s, p, init);
    TotalStakeUpdate(s.stakeholders, (p, init.account), Stakeholder(init.role, init.stake));
    RegisterRoleStake(s, p, init);
    RoleWithinTotal(s.stakeholders, p, init.role);
    assert forall a :: Held(t.ledger, ProposalBond, a) == Held(s.ledger, ProposalBond, a);
  }

  lemma ShareAtMostAll(sigma: Perbill, x: nat)
    ensures MulFloor(sigma, x) <= x
  {
    assert sigma * x <= ACCURACY * x;
  }

  /** A slash burns exactly its share of this project's stake. */
  lemma SlashExact(s: State, p: ProjectId, builder: AccountId, sigma: Perbill)
    requires Books(s) && (p, builder) in s.stakeholders
    ensures var stake := s.stakeholders[(p, builder)].stake;
      && MulFloor(sigma, stake) <= stake
      && Burnable(s.ledger, Stake, builder, MulFloor(sigma, stake)) == MulFloor(sigma, stake)
      && Slash(s, p, builder, sigma).stakeholders[(p, builder)].stake == stake - MulFloor(sigma, stake)
  {
    StakeBacked(s, p, builder);
    ShareAtMostAll(sigma, s.stakeholders[(p, builder)].stake);
  }

  lemma SlashKeepsEscrow(s: State, p: ProjectId, builder: AccountId, sigma: Perbill)
    requires Books(s) && (p, builder) in s.stakeholders
    ensures var t := Slash(s, p, builder, sigma); Escrowed(t.stakeholders, t.ledger)
  {
    var t := Slash(s, p, builder, sigma);
    var k := (p, builder);
    var v := t.stakeholders[k];
    SlashExact(s, p, builder, sigma);
    StakeBacked(s, p, builder);
    SumUpdate(s.ledger.stakeHold, builder, Held(t.ledger, Stake, builder));
    TotalStakeUpdate(s.stakeholders, k, v);
    forall a ensures Held(t.ledger, Stake, a) == Sum(AccountWeights(t.stakeholders, a)) {
      AccountSumUpdate(s.stakeholders, k, v, a);
    }
  }

  lemma SlashKeepsBooks(s: State, p: ProjectId, builder: AccountId, sigma: Perbill)
    requires Books(s) && (p, builder) in s.stakeholders
    requires s.stakeholders[(p, builder)].role == BuildService
    ensures Books(Slash(s, p, builder, sigma))
  {
    var t := Slash(s, p, builder, sigma);
    var k, entry := (p, builder), s.stakeholders[(p, builder)];
    var v := t.stakeholders[k];
    SlashExact(s, p, builder, sigma);
    StakeBacked(s, p, builder);
    BurnConserves(s.ledger, Stake, builder, MulFloor(sigma, entry.stake));
    assert t.stakeholders == s.stakeholders[k := v];
    forall q, r ensures RoleStakeOf(t.roleStake, q, r) == Sum(RoleWeights(t.stakeholders, q, r)) {
      RoleSumUpdate(s.stakeholders, k, v, q, r);
    }
    SlashKeepsEscrow(s, p, builder, sigma);
    assert forall a :: Held(t.ledger, ProposalBond, a) == Held(s.ledger, ProposalBond, a);
  }

  /** Ending a live proposal pays its whole bond back. */
  lemma CloseKeepsBooks(s: State, id: ProposalId, status: ProposalStatus)
    requires Books(s) && id in s.proposals && Live(s.proposals[id].status) && !Live(status)
    ensures Books(Close(s, id, status))
    ensures var p := s.proposals[id];
      ValueAt(Close(s, id, status).ledger.free, p.proposer) == ValueAt(s.ledger.free, p.proposer) + p.bond
  {
    var t := Close(s, id, status);
    var proposal := s.proposals[id];
    BondBacked(s, id);
    ReleaseConserves(s.ledger, ProposalBond, proposal.proposer, proposal.bond);
    forall a ensures Held(t.ledger, ProposalBond, a) == Sum(BondWeights(t.proposals, a)) {
      BondSumUpdate(s.proposals, id, proposal.(status := status), a);
    }
    assert forall a :: Held(t.ledger, Stake, a) == Held(s.ledger, Stake, a);
  }

  lemma ProposeKeepsBooks(s: State, who: AccountId, p: ProjectId, version: seq<byte>,
                          attestation: BuildAttestation, cid: Hash32)
    requires Books(s) && p in s.projects && s.nextProposalId !in s.proposals
    requires Hold(s.ledger, ProposalBond, who, s.projects[p].proposalBond).Ok?
    ensures Books(Propose(s, who, p, version, attestation, cid,
                          Hold(s.ledger, ProposalBond, who, s.projects[p].proposalBond).value))
  {
    var l := Hold(s.ledger, ProposalBond, who, s.projects[p].proposalBond).value;
    var t := Propose(s, who, p, version, attestation, cid, l);
    var id := s.nextProposalId;
    HoldConserves(s.ledger, ProposalBond, who, s.projects[p].proposalBond);
    forall a ensures Held(t.ledger, ProposalBond, a) == Sum(BondWeights(t.proposals, a)) {
      BondSumUpdate(s.proposals, id, t.proposals[id], a);
    }
    assert forall a :: Held(t.ledger, Stake, a) == Held(s.ledger, Stake, a);
  }

  /** Moving a proposal between `Voting` and `Approved` leaves its bond where it is. */
  lemma StatusKeepsBonds(s: State, id: ProposalId, status: ProposalStatus)
    requires Bonded(s.proposals, s.ledger)
    requires id in s.proposals && Live(s.proposals[id].status) && Live(status)
    ensures Bonded(SetStatus(s, id, status).proposals, s.ledger)
  {
    forall a ensures Held(s.ledger, ProposalBond, a) == Sum(BondWeights(SetStatus(s, id, status).proposals, a)) {
      BondSumUpdate(s.proposals, id, s.proposals[id].(status := status), a);
    }
  }
}
