/** `project_genesis` keeps the invariant. */
module Genesis {
  import opened Types
  import opened Currency
  import opened Protocol
  import opened Accounting
  import opened History
  import opened Ballots
  import opened Schedule
  import opened Releases
  import opened Invariant

  lemma RegisterKeepsRoots(verify: Verifier, s: State, p: ProjectId, init: StakeholderInit)
    requires Based(verify, s) && p !in s.projects && p < s.nextProjectId && Register(s, p, init).Ok?
    ensures Based(verify, Register(s, p, init).value)
    ensures forall id :: id in s.proposals ==> s.proposals[id].projectId != p
  {
    hide Hold;
    var t := Register(s, p, init).value;
    forall id | id in t.proposals
      ensures ProposalRooted(verify, t.projects, t.stakeholders, t.proposals[id])
      ensures t.proposals[id].projectId != p
    {
      assert ProposalRooted(verify, s.projects, s.stakeholders, s.proposals[id]);
    }
  }

  lemma RegisterKeepsBase(verify: Verifier, s: State, p: ProjectId, init: StakeholderInit)
    requires Based(verify, s) && StatusesFit(s)
    requires p !in s.projects && p < s.nextProjectId && Register(s, p, init).Ok?
    ensures Based(verify, Register(s, p, init).value) && StatusesFit(Register(s, p, init).value)
    ensures forall id :: id in s.proposals ==> s.proposals[id].projectId != p
  {
    hide Based, StatusFits, Hold;
    RegisterKeepsRoots(verify, s, p, init);
    var t := Register(s, p, init).value;
    forall id | id in t.proposals ensures StatusFits(t, id) {
      FitKept(s, t, id);
    }
  }

  lemma RegisterKeepsInv(verify: Verifier, s: State, h: BlockNumber, p: ProjectId, init: StakeholderInit)
    requires Inv(verify, s, h) && p !in s.projects && p < s.nextProjectId && Register(s, p, init).Ok?
    ensures Inv(verify, Register(s, p, init).value, h)
  {
    hide Numbered, Rooted, PoliciesStaked, Countered, RoleStakeExact, Escrowed, Bonded, Conserved;
    hide StakesEroded, SlashesCounted, StakeConserved, TalliesFaithful, FirstVotesTallied, VotesRecorded;
    hide VotesCurrent, TalliesKeyed;
    hide Indexed, BucketsBounded, Timely, LogDense, LogFaithful, LogOrdered, LogComplete;
    RegisterKeepsBase(verify, s, p, init);
    RegisterKeepsBooks(s, p, init);
    RegisterKeepsChronicle(s, p, init);
    RegisterKeepsTallied(s, p, init);
  }

  lemma {:induction false} RegisterAllKeepsInv(
    verify: Verifier, s: State, h: BlockNumber, p: ProjectId, inits: seq<StakeholderInit>)
    requires Inv(verify, s, h) && p !in s.projects && p < s.nextProjectId && RegisterAll(s, p, inits).Ok?
    ensures var t := RegisterAll(s, p, inits).value;
      && Inv(verify, t, h)
      && t == s.(ledger := t.ledger, stakeholders := t.stakeholders, roleStake := t.roleStake, journal := t.journal)
    decreases |inits|
  {
    hide Inv;
    if inits != [] {
      RegisterKeepsInv(verify, s, h, p, inits[0]);
      RegisterAllKeepsInv(verify, Register(s, p, inits[0]).value, h, p, inits[1..]);
    }
  }

  lemma RegisterIgnoresCounter(s: State, n: ProjectId, p: ProjectId, init: StakeholderInit)
    ensures var r, q := Register(s, p, init), Register(s.(nextProjectId := n), p, init);
      q == if r.Ok? then Ok(r.value.(nextProjectId := n)) else r
    ensures Register(s, p, init).Ok? ==> Register(s, p, init).value.nextProjectId == s.nextProjectId
  {
  }

  /** Registration does not look at the project counter. */
  lemma {:induction false} RegisterAllIgnoresCounter(s: State, n: ProjectId, p: ProjectId, inits: seq<StakeholderInit>)
    ensures var r, q := RegisterAll(s, p, inits), RegisterAll(s.(nextProjectId := n), p, inits);
      q == if r.Ok? then Ok(r.value.(nextProjectId := n)) else r
    decreases |inits|
  {
    if inits != [] {
      hide Register;
      RegisterIgnoresCounter(s, n, p, inits[0]);
      if Register(s, p, inits[0]).Ok? {
        RegisterAllIgnoresCounter(Register(s, p, inits[0]).value, n, p, inits[1..]);
      }
    }
  }

  lemma CreateKeepsBase(verify: Verifier, s: State, h: BlockNumber, p: ProjectId, project: ProjectInfo)
    requires Based(verify, s) && Timely(s.proposals, s.projects, h) && StatusesFit(s)
    requires p !in s.projects && p < s.nextProjectId && AllStaked(s.roleStake, p, project.policy.requiredRoles)
    ensures var t := s.(projects := s.projects[p := project]);
      Based(verify, t) && Timely(t.proposals, t.projects, h) && StatusesFit(t)
    ensures forall id :: id in s.proposals ==> s.proposals[id].projectId != p
  {
    var t := s.(projects := s.projects[p := project]);
    forall id | id in t.proposals
      ensures ProposalRooted(verify, t.projects, t.stakeholders, t.proposals[id])
      ensures t.proposals[id].projectId != p
      ensures StatusFits(t, id)
      ensures DelayOf(t.projects, t.proposals[id].projectId) == DelayOf(s.projects, s.proposals[id].projectId)
    {
      assert ProposalRooted(verify, s.projects, s.stakeholders, s.proposals[id]);
      hide StatusFits;
      FitKept(s, t, id);
    }
  }

  lemma CreateKeepsInv(verify: Verifier, s: State, h: BlockNumber, p: ProjectId, project: ProjectInfo)
    requires Inv(verify, s, h) && p !in s.projects && p < s.nextProjectId
    requires AllStaked(s.roleStake, p, project.policy.requiredRoles)
    ensures Inv(verify, s.(projects := s.projects[p := project],
                           journal := Deposit(s.journal, ProjectCreated(p, project.name))), h)
  {
    hide Numbered, Rooted, PoliciesStaked, Countered, RoleStakeExact, Escrowed, Bonded, Conserved;
    hide StakesEroded, SlashesCounted, StakeConserved, TalliesFaithful, FirstVotesTallied, VotesRecorded;
    hide VotesCurrent, TalliesKeyed;
    hide Indexed, BucketsBounded, Timely, LogDense, LogFaithful, LogOrdered, LogComplete;
    var s1 := s.(projects := s.projects[p := project]);
    CreateKeepsBase(verify, s, h, p, project);
    CreateKeepsChronicle(s, p, project);
    QuietKeepsChronicle(s1, ProjectCreated(p, project.name));
    SilentKeepsTallied(s1, ProjectCreated(p, project.name));
    SilentKeeps(s1.journal, ProjectCreated(p, project.name));
    hide StatusFits;
    SameAllStatuses(s1, s1.(journal := Deposit(s.journal, ProjectCreated(p, project.name))));
  }

  lemma FreshProject(verify: Verifier, s: State)
    requires Sound(verify, s) && s.nextProjectId < U32_MAX
    ensures s.nextProjectId !in s.projects
    ensures Sound(verify, s.(nextProjectId := s.nextProjectId + 1))
  {
    hide Rooted, PoliciesStaked, Countered, RoleStakeExact, Escrowed, Bonded, Conserved;
    hide StakesEroded, SlashesCounted, StakeConserved, TalliesFaithful, FirstVotesTallied, VotesRecorded;
    hide VotesCurrent, TalliesKeyed;
    hide Indexed, BucketsBounded, Timely, LogDense, LogFaithful, LogOrdered, LogComplete;
    var t := s.(nextProjectId := s.nextProjectId + 1);
    hide StatusFits;
    SameAllStatuses(s, t);
  }

  lemma GenesisKeepsSound(
    verify: Verifier, s: State, origin: Origin, name: seq<byte>, inits: seq<StakeholderInit>,
    policy: ReleasePolicy, slashing: SlashingParams, bond: Balance)
    requires Sound(verify, s) && s.nextProjectId < U32_MAX
    requires ProjectGenesis(s, origin, name, inits, policy, slashing, bond).Ok?
    ensures Sound(verify, ProjectGenesis(s, origin, name, inits, policy, slashing, bond).value)
  {
    hide Inv, RegisterAll;
    FreshProject(verify, s);
    var p := s.nextProjectId;
    var s0 := s.(nextProjectId := p + 1);
    RegisterAllIgnoresCounter(s, p + 1, p, inits);
    RegisterAllKeepsInv(verify, s0, s.now + 1, p, inits);
    CreateKeepsInv(verify, RegisterAll(s0, p, inits).value, s.now + 1, p, ProjectInfo(name, policy, slashing, bond));
  }
}
