/** Where everyone's tokens are: what an account owns only changes by slashes and by its own transfers. */
module Wealth {
  import opened Types
  import opened Sums
  import opened Currency
  import opened Protocol
  import opened Accounting
  import opened History
  import opened Ballots
  import opened Schedule
  import opened Releases
  import opened Invariant
  import opened Runs
  import opened Evolution

  /** Everything an account owns, free or held. */
  function WealthOf(l: Ledger, a: AccountId): nat {
    ValueAt(l.free, a) + Held(l, Stake, a) + Held(l, ProposalBond, a)
  }

  /** Everything ever slashed from one account, in any project. */
  ghost function SlashedFrom(j: Journal, a: AccountId): nat {
    match j
    case Empty => 0
    case Deposit(past, e) => SlashedFrom(past, a) + if e.BuildServiceSlashed? && e.builder == a then e.amount else 0
  }

  /** An account lost exactly what was slashed from it. */
  ghost predicate OnlySlashed(s: State, t: State, a: AccountId) {
    WealthOf(t.ledger, a) + SlashedFrom(t.journal, a) == WealthOf(s.ledger, a) + SlashedFrom(s.journal, a)
  }

  lemma HoldKeepsWealth(l: Ledger, reason: HoldReason, who: AccountId, amount: nat, a: AccountId)
    requires Hold(l, reason, who, amount).Ok?
    ensures WealthOf(Hold(l, reason, who, amount).value, a) == WealthOf(l, a)
  {
  }

  lemma ReleaseKeepsWealth(l: Ledger, reason: HoldReason, who: AccountId, amount: nat, a: AccountId)
    ensures WealthOf(Release(l, reason, who, amount), a) == WealthOf(l, a)
  {
  }

  lemma BurnTakesWealth(l: Ledger, reason: HoldReason, who: AccountId, amount: nat, a: AccountId)
    ensures WealthOf(BurnHeld(l, reason, who, amount), a) + (if a == who then Burnable(l, reason, who, amount) else 0)
         == WealthOf(l, a)
  {
  }

  /** What a step transfers out of an account's free balance: nothing if the sender cannot afford it. */
  function PaidBy(l: Ledger, step: Step, a: AccountId): nat {
    if step.TransferFree? && step.from == a && a in l.free && step.amount <= l.free[a] then step.amount else 0
  }

  /** What a step transfers to an account. */
  function PaidTo(l: Ledger, step: Step, a: AccountId): nat {
    if step.TransferFree? && step.to == a then PaidBy(l, step, step.from) else 0
  }

  lemma TransferMovesWealth(l: Ledger, step: Step, a: AccountId)
    requires step.TransferFree?
    ensures WealthOf(Transfer(l, step.from, step.to, step.amount), a) + PaidBy(l, step, a)
         == WealthOf(l, a) + PaidTo(l, step, a)
  {
  }

  lemma {:induction false} RegisterAllKeepsWealth(s: State, p: ProjectId, inits: seq<StakeholderInit>, a: AccountId)
    requires RegisterAll(s, p, inits).Ok?
    ensures OnlySlashed(s, RegisterAll(s, p, inits).value, a)
    decreases |inits|
  {
    hide Hold, WealthOf;
    if inits != [] {
      HoldKeepsWealth(s.ledger, Stake, inits[0].account, inits[0].stake, a);
      RegisterAllKeepsWealth(Register(s, p, inits[0]).value, p, inits[1..], a);
    }
  }

  lemma ApproveKeepsWealth(s: State, id: ProposalId, b: BlockNumber, a: AccountId)
    ensures Approve(s, id, b).Ok? ==> OnlySlashed(s, Approve(s, id, b).value, a)
  {
    hide WealthOf, Bucket;
  }

  lemma RevokeKeepsWealth(s: State, id: ProposalId, b: BlockNumber, a: AccountId)
    ensures OnlySlashed(s, Revoke(s, id, b), a)
  {
    hide WealthOf, Bucket, Without;
  }

  lemma ReconsiderKeepsWealth(s: State, id: ProposalId, p: ProjectId, policy: ReleasePolicy, a: AccountId)
    requires Reconsider(s, id, p, policy).Ok?
    ensures OnlySlashed(s, Reconsider(s, id, p, policy).value, a)
  {
    hide MeetsQuorums, WealthOf, Approve, Revoke;
    var status := s.proposals[id].status;
    if status.Voting? {
      ApproveKeepsWealth(s, id, BlockAdd(s.now, policy.enactmentDelay), a);
    } else if status.Approved? {
      RevokeKeepsWealth(s, id, status.enactAt, a);
    }
  }

  lemma DoVoteKeepsWealth(s: State, id: ProposalId, p: ProjectId, policy: ReleasePolicy,
                          who: AccountId, voter: Stakeholder, aye: bool, a: AccountId)
    requires DoVote(s, id, p, policy, who, voter, aye).Ok?
    ensures OnlySlashed(s, DoVote(s, id, p, policy, who, voter, aye).value, a)
  {
    hide Reconsider, MoveVote, WealthOf;
    ReconsiderKeepsWealth(RecordVote(s, id, who, voter, aye), id, p, policy, a);
  }

  lemma SlashTakesWealth(s: State, p: ProjectId, builder: AccountId, sigma: Perbill, a: AccountId)
    requires (p, builder) in s.stakeholders
    ensures OnlySlashed(s, Slash(s, p, builder, sigma), a)
  {
    hide WealthOf, BurnHeld, Burnable, MulFloor;
    BurnTakesWealth(s.ledger, Stake, builder, MulFloor(sigma, s.stakeholders[(p, builder)].stake), a);
  }

  lemma SlashKeepsProposals(s: State, p: ProjectId, builder: AccountId, sigma: Perbill)
    requires (p, builder) in s.stakeholders
    ensures Slash(s, p, builder, sigma).proposals == s.proposals
  {
    hide MulFloor, BurnHeld, Burnable;
  }

  lemma CounterKeepsWealth(s: State, origin: Origin, id: ProposalId, rebuilt: Hash32, a: AccountId)
    requires SubmitCounterAttestation(s, origin, id, rebuilt).Ok?
    ensures OnlySlashed(s, SubmitCounterAttestation(s, origin, id, rebuilt).value, a)
  {
    hide WealthOf, WithoutApproval, Slash, Release;
    var v := s.proposals[id];
    var s1 := Challenge(s, id, origin.who, rebuilt);
    var sigma := s.projects[v.projectId].slashing.sigmaNeg;
    SlashTakesWealth(s1, v.projectId, v.attestation.builder, sigma, a);
    SlashKeepsProposals(s1, v.projectId, v.attestation.builder, sigma);
    ReleaseKeepsWealth(Slash(s1, v.projectId, v.attestation.builder, sigma).ledger, ProposalBond, v.proposer, v.bond,
                       a);
  }

  lemma AppendKeepsWealth(s: State, id: ProposalId, now: BlockNumber, a: AccountId)
    requires id in s.proposals
    ensures OnlySlashed(s, Append(s, id, now), a)
  {
    hide WealthOf, Release;
    ReleaseKeepsWealth(s.ledger, ProposalBond, s.proposals[id].proposer, s.proposals[id].bond, a);
  }

  lemma FallBackKeepsWealth(s: State, id: ProposalId, a: AccountId)
    ensures OnlySlashed(s, FallBack(s, id), a)
  {
    hide WealthOf;
  }

  lemma EnactKeepsWealth(s: State, id: ProposalId, now: BlockNumber, a: AccountId)
    ensures OnlySlashed(s, Enact(s, id, now), a)
  {
    hide MeetsQuorums, WealthOf, Append, FallBack;
    if id in s.proposals {
      AppendKeepsWealth(s, id, now, a);
      assert OnlySlashed(s, FallBack(s, id), a) by { FallBackKeepsWealth(s, id, a); }
    }
  }

  lemma {:induction false} EnactAllKeepsWealth(s: State, ids: seq<ProposalId>, now: BlockNumber, a: AccountId)
    ensures OnlySlashed(s, EnactAll(s, ids, now), a)
    decreases |ids|
  {
    hide Enact, WealthOf;
    if ids != [] {
      EnactKeepsWealth(s, ids[0], now, a);
      EnactAllKeepsWealth(Enact(s, ids[0], now), ids[1..], now, a);
    }
  }

  lemma CallKeepsWealth(verify: Verifier, s: State, origin: Origin, call: Call, a: AccountId)
    requires Apply(verify, s, origin, call).Ok?
    ensures OnlySlashed(s, Apply(verify, s, origin, call).value, a)
  {
    hide WealthOf, RegisterAll, DoVote, Hold, Release, SubmitCounterAttestation;
    match call
    case CallGenesis(_, inits, _, _, _) => RegisterAllKeepsWealth(s, s.nextProjectId, inits, a);
    case CallNewRelease(p, version, attestation, cid, _) =>
      var bond := s.projects[p].proposalBond;
      HoldKeepsWealth(s.ledger, ProposalBond, origin.who, bond, a);
      DoVoteKeepsWealth(Propose(s, origin.who, p, version, attestation, cid,
                                Hold(s.ledger, ProposalBond, origin.who, bond).value),
                        s.nextProposalId, p, s.projects[p].policy, origin.who,
                        s.stakeholders[(p, origin.who)], true, a);
    case CallVote(id, aye) =>
      var p := s.proposals[id].projectId;
      DoVoteKeepsWealth(s, id, p, s.projects[p].policy, origin.who, s.stakeholders[(p, origin.who)], aye, a);
    case CallCounter(id, rebuilt) => CounterKeepsWealth(s, origin, id, rebuilt, a);
    case CallCloseExpired(id) =>
      ReleaseKeepsWealth(s.ledger, ProposalBond, s.proposals[id].proposer, s.proposals[id].bond, a);
  }

  /** One step changes what an account owns by its transfers and by what it is slashed, and by nothing else. */
  lemma StepKeepsWealth(verify: Verifier, s: State, step: Step, a: AccountId)
    ensures var t := After(verify, s, step);
      WealthOf(t.ledger, a) + SlashedFrom(t.journal, a) + PaidBy(s.ledger, step, a)
        == WealthOf(s.ledger, a) + SlashedFrom(s.journal, a) + PaidTo(s.ledger, step, a)
  {
    hide WealthOf, Apply, EnactAll, Transfer;
    match step
    case Dispatch(origin, call) =>
      if Apply(verify, s, origin, call).Ok? {
        CallKeepsWealth(verify, s, origin, call, a);
      }
    case NextBlock =>
      var now := s.now + 1;
      EnactAllKeepsWealth(s.(now := now, pending := s.pending - {now}), Bucket(s.pending, now), now, a);
    case TransferFree(from, to, amount) => TransferMovesWealth(s.ledger, step, a);
  }

  /** Everything an account transfers in a run. */
  function PaidByRun(verify: Verifier, s: State, steps: seq<Step>, a: AccountId): nat
    decreases |steps|
  {
    if steps == [] then 0
    else PaidBy(s.ledger, steps[0], a) + PaidByRun(verify, After(verify, s, steps[0]), steps[1..], a)
  }

  /** Everything transferred to an account in a run. */
  function PaidToRun(verify: Verifier, s: State, steps: seq<Step>, a: AccountId): nat
    decreases |steps|
  {
    if steps == [] then 0
    else PaidTo(s.ledger, steps[0], a) + PaidToRun(verify, After(verify, s, steps[0]), steps[1..], a)
  }

  lemma {:induction false} RunKeepsWealth(verify: Verifier, s: State, steps: seq<Step>, a: AccountId)
    ensures var t := Run(verify, s, steps);
      WealthOf(t.ledger, a) + SlashedFrom(t.journal, a) + PaidByRun(verify, s, steps, a)
        == WealthOf(s.ledger, a) + SlashedFrom(s.journal, a) + PaidToRun(verify, s, steps, a)
    decreases |steps|
  {
    hide After, WealthOf, SlashedFrom, PaidBy, PaidTo;
    if steps != [] {
      StepKeepsWealth(verify, s, steps[0], a);
      RunKeepsWealth(verify, After(verify, s, steps[0]), steps[1..], a);
    }
  }

  /** What an account has staked in all projects and bonded in all live proposals. */
  ghost function Committed(s: State, a: AccountId): nat {
    Sum(AccountWeights(s.stakeholders, a)) + Sum(BondWeights(s.proposals, a))
  }

  /** Both holds of an account are exactly its commitments. */
  lemma CommittedIsHeld(verify: Verifier, s: State, a: AccountId)
    requires Reached(verify, s)
    ensures Held(s.ledger, Stake, a) == Sum(AccountWeights(s.stakeholders, a))
    ensures Held(s.ledger, ProposalBond, a) == Sum(BondWeights(s.proposals, a))
    ensures WealthOf(s.ledger, a) == ValueAt(s.ledger.free, a) + Committed(s, a)
  {
    hide Reached;
    ReachedSound(verify, s);
    hide Based, Chronicled, Tallied, Logged, Scheduled, StatusFits, RoleStakeExact, Conserved;
  }

  /**
   Every bond comes back exactly once and in full, and nothing but a slash takes a stake: over any run, the free
   balance of any account changes by exactly what it has been transferred, has transferred itself, has newly
   committed, has no longer committed or has lost to slashes.
   */
  lemma NothingPaidShort(verify: Verifier, s: State, steps: seq<Step>, a: AccountId)
    requires Reached(verify, s) && AdmissibleRun(verify, s, steps)
    ensures var t := Run(verify, s, steps);
      ValueAt(t.ledger.free, a) + Committed(t, a) + SlashedFrom(t.journal, a) + PaidByRun(verify, s, steps, a)
        == ValueAt(s.ledger.free, a) + Committed(s, a) + SlashedFrom(s.journal, a) + PaidToRun(verify, s, steps, a)
  {
    hide Reached, Sound, Run, AdmissibleRun, Committed, SlashedFrom, PaidByRun, PaidToRun;
    ReachedSound(verify, s);
    var t := Run(verify, s, steps);
    RunKeepsSound(verify, s, steps);
    RunKeepsWealth(verify, s, steps, a);
    CommittedIsHeld(verify, s, a);
    ReachedOnwards(verify, s, steps);
    CommittedIsHeld(verify, t, a);
  }

  lemma IssuanceDrop(s: State, t: State)
    requires Evolves(s, t) && s.journal == Empty
    ensures s.ledger.issuance - t.ledger.issuance == Slashed(t.journal)
  {
    hide RegistryKept, ElectorateFixed, ProposalsKept, LogKept, ProjectsKept, CountersKept;
  }

  lemma BalancesAdd(verify: Verifier, s: State)
    requires Sound(verify, s)
    ensures Sum(s.ledger.free) + Sum(s.ledger.stakeHold) + Sum(s.ledger.bondHold) == s.ledger.issuance
    ensures Sum(RegisteredWeights(s.stakeholders, s.journal)) == TotalStake(s.stakeholders) + Slashed(s.journal)
  {
    hide Based, Tallied, Logged, Scheduled, StatusFits, RoleStakeExact, Escrowed, Bonded, StakesEroded, SlashesCounted;
  }

  /**
   Tokens are conserved: free and held balances add up to the issuance, and over a whole run the issuance
   drops by everything slashed, which is all registered stake minus the stake that is left.
   */
  lemma TokensConserved(verify: Verifier, s0: State, steps: seq<Step>)
    requires Initial(s0) && AdmissibleRun(verify, s0, steps)
    ensures var t := Run(verify, s0, steps);
      && Sum(t.ledger.free) + Sum(t.ledger.stakeHold) + Sum(t.ledger.bondHold) == t.ledger.issuance
      && s0.ledger.issuance - t.ledger.issuance == Slashed(t.journal)
      && Sum(RegisteredWeights(t.stakeholders, t.journal)) - TotalStake(t.stakeholders) == Slashed(t.journal)
  {
    hide Sound, Run, AdmissibleRun;
    InitialSound(verify, s0);
    RunKeepsSound(verify, s0, steps);
    RunEvolves(verify, s0, steps);
    BalancesAdd(verify, Run(verify, s0, steps));
    hide Evolves;
    IssuanceDrop(s0, Run(verify, s0, steps));
  }
}
