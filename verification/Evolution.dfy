/** What never changes back: how any later storage relates to an earlier one. */
module Evolution {
  import opened Types
  import opened Currency
  import opened Protocol
  import opened Accounting
  import opened History
  import opened Releases
  import opened Invariant
  import opened Voting
  import opened Closing
  import opened Enactment
  import opened Runs

  /** Stakeholders stay, in their role; only a Build Service can lose stake. */
  ghost predicate RegistryKept(before: Registry, after: Registry) {
    forall k :: k in before ==>
      && k in after
      && after[k].role == before[k].role
      && after[k].stake <= before[k].stake
      && (before[k].role != BuildService ==> after[k].stake == before[k].stake)
  }

  /** Nobody joins a project that exists already. */
  ghost predicate ElectorateFixed(projects: Projects, before: Registry, after: Registry) {
    forall k :: k in after && k.0 in projects ==> k in before
  }

  /** Proposals stay, with everything but the status; a terminal status stays too. */
  ghost predicate ProposalsKept(before: Proposals, after: Proposals) {
    forall id :: id in before ==>
      && id in after
      && after[id] == before[id].(status := after[id].status)
      && (!Live(before[id].status) ==> after[id].status == before[id].status)
  }

  ghost predicate LogKept(before: Log, after: Log) {
    forall k :: k in before ==> k in after && after[k] == before[k]
  }

  ghost predicate ProjectsKept(before: Projects, after: Projects) {
    forall p :: p in before ==> p in after && after[p] == before[p]
  }

  ghost predicate CountersKept(
    before: map<ProposalId, CounterAttestation>, after: map<ProposalId, CounterAttestation>)
  {
    forall id :: id in before ==> id in after && after[id] == before[id]
  }

  /** `later` is `j` with further events on top. */
  ghost predicate Grown(j: Journal, later: Journal) {
    j == later || (later.Deposit? && Grown(j, later.past))
  }

  lemma GrownByOne(j: Journal, e: Event)
    ensures Grown(j, Deposit(j, e))
  {
    assert Grown(j, j);
  }

  lemma {:induction false} GrownTransitive(a: Journal, b: Journal, c: Journal)
    requires Grown(a, b) && Grown(b, c)
    ensures Grown(a, c)
    decreases c
  {
    if b != c {
      GrownTransitive(a, b, c.past);
    }
  }

  ghost predicate Evolves(s: State, t: State) {
    && s.now <= t.now
    && Grown(s.journal, t.journal)
    && RegistryKept(s.stakeholders, t.stakeholders)
    && ElectorateFixed(s.projects, s.stakeholders, t.stakeholders)
    && ProposalsKept(s.proposals, t.proposals)
    && LogKept(s.releaseLog, t.releaseLog)
    && ProjectsKept(s.projects, t.projects)
    && CountersKept(s.counterAttestations, t.counterAttestations)
    && t.ledger.issuance + Slashed(t.journal) == s.ledger.issuance + Slashed(s.journal)
  }

  lemma EvolvesTransitive(s: State, t: State, u: State)
    requires Evolves(s, t) && Evolves(t, u)
    ensures Evolves(s, u)
  {
    GrownTransitive(s.journal, t.journal, u.journal);
  }

  // project_genesis

  lemma RegisterEvolves(s: State, p: ProjectId, init: StakeholderInit)
    requires p !in s.projects && Register(s, p, init).Ok?
    ensures Evolves(s, Register(s, p, init).value)
    ensures Register(s, p, init).value.projects == s.projects
  {
    GrownByOne(s.journal, StakeholderRegistered(p, init.account, init.role, init.stake));
  }

  lemma EvolvesReflexive(s: State)
    ensures Evolves(s, s)
  {
  }

  lemma {:induction false} RegisterAllEvolves(s: State, p: ProjectId, inits: seq<StakeholderInit>)
    requires p !in s.projects && RegisterAll(s, p, inits).Ok?
    ensures Evolves(s, RegisterAll(s, p, inits).value)
    ensures RegisterAll(s, p, inits).value.projects == s.projects
    decreases |inits|
  {
    if inits == [] {
      EvolvesReflexive(s);
    } else {
      var s1 := Register(s, p, inits[0]).value;
      RegisterEvolves(s, p, inits[0]);
      hide Evolves, Register;
      RegisterAllEvolves(s1, p, inits[1..]);
      EvolvesTransitive(s, s1, RegisterAll(s, p, inits).value);
    }
  }

  lemma GenesisEvolves(s: State, origin: Origin, name: seq<byte>, inits: seq<StakeholderInit>,
                       policy: ReleasePolicy, slashing: SlashingParams, bond: Balance)
    requires s.nextProjectId !in s.projects
    requires ProjectGenesis(s, origin, name, inits, policy, slashing, bond).Ok?
    ensures Evolves(s, ProjectGenesis(s, origin, name, inits, policy, slashing, bond).value)
  {
    hide RegisterAll;
    var s1 := RegisterAll(s, s.nextProjectId, inits).value;
    RegisterAllEvolves(s, s.nextProjectId, inits);
    GrownByOne(s1.journal, ProjectCreated(s.nextProjectId, name));
    GrownTransitive(s.journal, s1.journal, Deposit(s1.journal, ProjectCreated(s.nextProjectId, name)));
  }

  // new_release and vote

  lemma StatusEvolves(s: State, t: State, id: ProposalId)
    requires id in s.proposals && Live(s.proposals[id].status) && id in t.proposals
    requires t.proposals == s.proposals[id := s.proposals[id].(status := t.proposals[id].status)]
    requires t.stakeholders == s.stakeholders && t.releaseLog == s.releaseLog && t.projects == s.projects
    requires t.counterAttestations == s.counterAttestations && t.now == s.now
    requires t.ledger.issuance == s.ledger.issuance
    requires Slashed(t.journal) == Slashed(s.journal) && Grown(s.journal, t.journal)
    ensures Evolves(s, t)
  {
  }

  lemma OnlyStatusEvolves(s: State, t: State, id: ProposalId, status: ProposalStatus)
    requires id in s.proposals && Live(s.proposals[id].status) && OnlyStatus(s, t, id, status)
    ensures Evolves(s, t)
  {
    StatusEvolves(s, t, id);
  }

  lemma ReconsiderEvolves(s: State, id: ProposalId, p: ProjectId, policy: ReleasePolicy)
    requires id in s.proposals && Live(s.proposals[id].status) && Reconsider(s, id, p, policy).Ok?
    ensures Evolves(s, Reconsider(s, id, p, policy).value)
  {
    hide Reconsider, Evolves, OnlyStatus;
    ReconsiderSettles(s, id, p, policy);
    var t := Reconsider(s, id, p, policy).value;
    OnlyStatusEvolves(s, t, id, t.proposals[id].status);
  }

  lemma DoVoteEvolves(s: State, id: ProposalId, p: ProjectId, policy: ReleasePolicy,
                      who: AccountId, voter: Stakeholder, aye: bool)
    requires id in s.proposals && Live(s.proposals[id].status) && DoVote(s, id, p, policy, who, voter, aye).Ok?
    ensures Evolves(s, DoVote(s, id, p, policy, who, voter, aye).value)
  {
    hide Reconsider, MoveVote;
    var s1 := RecordVote(s, id, who, voter, aye);
    GrownByOne(s.journal, s1.journal.event);
    assert Evolves(s, s1);
    ReconsiderEvolves(s1, id, p, policy);
    EvolvesTransitive(s, s1, DoVote(s, id, p, policy, who, voter, aye).value);
  }

  lemma NewReleaseEvolves(verify: Verifier, s: State, origin: Origin, p: ProjectId, version: seq<byte>,
                          attestation: BuildAttestation, cid: Hash32, signature: Signature)
    requires s.nextProposalId !in s.proposals
    requires NewRelease(verify, s, origin, p, version, attestation, cid, signature).Ok?
    ensures Evolves(s, NewRelease(verify, s, origin, p, version, attestation, cid, signature).value)
  {
    hide DoVote;
    var l := Hold(s.ledger, ProposalBond, origin.who, s.projects[p].proposalBond).value;
    var s1 := Propose(s, origin.who, p, version, attestation, cid, l);
    GrownByOne(s.journal, s1.journal.event);
    assert Evolves(s, s1);
    DoVoteEvolves(s1, s.nextProposalId, p, s.projects[p].policy, origin.who, s.stakeholders[(p, origin.who)], true);
    EvolvesTransitive(s, s1, NewRelease(verify, s, origin, p, version, attestation, cid, signature).value);
  }

  // submit_counter_attestation and close_expired

  lemma PunishedEvolves(verify: Verifier, s: State, id: ProposalId)
    requires Books(s) && Challengeable(verify, s, id)
    ensures Evolves(s, Punished(verify, s, id))
  {
    var v := s.proposals[id];
    var sigma := s.projects[v.projectId].slashing.sigmaNeg;
    PunishedShape(verify, s, id);
    GrownByOne(s.journal, Punished(verify, s, id).journal.event);
    BurnConserves(s.ledger, Stake, v.attestation.builder,
                  MulFloor(sigma, s.stakeholders[(v.projectId, v.attestation.builder)].stake));
    hide RoleStakeExact, Escrowed, Bonded, Conserved, Burnable, BurnHeld, SignedBy;
  }

  lemma ReleaseKeepsIssuance(l: Ledger, who: AccountId, amount: nat)
    ensures Release(l, ProposalBond, who, amount).issuance == l.issuance
  {
  }

  lemma CloseEvolves(s: State, id: ProposalId, status: ProposalStatus)
    requires id in s.proposals && Live(s.proposals[id].status)
    ensures Evolves(s, Close(s, id, status))
  {
    hide Release;
    ReleaseKeepsIssuance(s.ledger, s.proposals[id].proposer, s.proposals[id].bond);
    StatusEvolves(s, Close(s, id, status), id);
  }

  lemma RecordCounterEvolves(s: State, id: ProposalId, who: AccountId, attested: Hash32, rebuilt: Hash32)
    requires id !in s.counterAttestations
    ensures Evolves(s, RecordCounter(s, id, who, attested, rebuilt))
  {
  }

  lemma RejectingEvolves(verify: Verifier, s: State, id: ProposalId, who: AccountId, rebuilt: Hash32)
    requires Books(s) && Challengeable(verify, s, id) && id !in s.counterAttestations
    ensures Evolves(s, RecordCounter(Rejecting(verify, s, id), id, who,
                                     s.proposals[id].attestation.outputBinaryHash, rebuilt))
  {
    hide Evolves, RoleStakeExact, Escrowed, Bonded, Conserved, SignedBy, Slash, Release;
    var attested := s.proposals[id].attestation.outputBinaryHash;
    var s1 := Punished(verify, s, id);
    var t := Rejecting(verify, s, id);
    PunishedShape(verify, s, id);
    PunishedEvolves(verify, s, id);
    CloseEvolves(s1, id, Rejected);
    EvolvesTransitive(s, s1, t);
    RecordCounterEvolves(t, id, who, attested, rebuilt);
    EvolvesTransitive(s, t, RecordCounter(t, id, who, attested, rebuilt));
  }

  lemma Uncountered(verify: Verifier, s: State, id: ProposalId)
    requires Sound(verify, s) && id in s.proposals && Live(s.proposals[id].status)
    ensures id !in s.counterAttestations && Books(s)
  {
    hide RoleStakeExact, Escrowed, Bonded, Conserved;
  }

  lemma EvolvesFromChallenge(s: State, s1: State, t: State)
    requires s1 == s.(pending := s1.pending, journal := s1.journal)
    requires s1.journal.Deposit? && s1.journal.past == s.journal && Quiet(s1.journal.event)
    requires Evolves(s1, t)
    ensures Evolves(s, t)
  {
    hide RegistryKept, ElectorateFixed, ProposalsKept, LogKept, ProjectsKept, CountersKept;
    GrownByOne(s.journal, s1.journal.event);
    GrownTransitive(s.journal, s1.journal, t.journal);
  }

  lemma CounterEvolves(verify: Verifier, s: State, origin: Origin, id: ProposalId, rebuilt: Hash32)
    requires Sound(verify, s) && SubmitCounterAttestation(s, origin, id, rebuilt).Ok?
    ensures Evolves(s, SubmitCounterAttestation(s, origin, id, rebuilt).value)
  {
    hide SubmitCounterAttestation, Sound, ProposalRooted, Rejecting, RecordCounter, Challenge, Evolves, Books;
    CounterGuards(s, origin, id, rebuilt);
    RootedAt(verify, s, id);
    CounterIsRejecting(verify, s, origin, id, rebuilt);
    ChallengedFrame(verify, s, id, origin.who, rebuilt);
    Uncountered(verify, s, id);
    var s1 := Challenge(s, id, origin.who, rebuilt);
    RejectingEvolves(verify, s1, id, origin.who, rebuilt);
    EvolvesFromChallenge(s, s1, SubmitCounterAttestation(s, origin, id, rebuilt).value);
  }

  lemma CloseExpiredEvolves(s: State, origin: Origin, id: ProposalId)
    requires CloseExpired(s, origin, id).Ok?
    ensures Evolves(s, CloseExpired(s, origin, id).value)
  {
    hide Release;
    ReleaseKeepsIssuance(s.ledger, s.proposals[id].proposer, s.proposals[id].bond);
    StatusEvolves(s, CloseExpired(s, origin, id).value, id);
  }

  // on_initialize

  lemma AppendEvolves(s: State, id: ProposalId)
    requires id in s.proposals && s.proposals[id].status.Approved? && LogDense(s.releaseCount, s.releaseLog)
    ensures Evolves(s, Append(s, id, s.now))
  {
    hide Release;
    ReleaseKeepsIssuance(s.ledger, s.proposals[id].proposer, s.proposals[id].bond);
    GrownByOne(s.journal, Append(s, id, s.now).journal.event);
    assert (s.proposals[id].projectId, CountOf(s.releaseCount, s.proposals[id].projectId)) !in s.releaseLog;
  }

  lemma EnactEvolves(s: State, id: ProposalId)
    requires LogDense(s.releaseCount, s.releaseLog)
    ensures Evolves(s, Enact(s, id, s.now))
  {
    hide MeetsQuorums, Append, LogDense;
    if id in s.proposals && s.proposals[id].status.Approved? {
      AppendEvolves(s, id);
      StatusEvolves(s, FallBack(s, id), id);
    }
  }

  lemma DenseNow(verify: Verifier, s: State, h: BlockNumber)
    requires Inv(verify, s, h)
    ensures LogDense(s.releaseCount, s.releaseLog)
  {
    hide LogDense;
  }

  lemma {:induction false} EnactAllEvolves(verify: Verifier, s: State, ids: seq<ProposalId>)
    requires Inv(verify, s.(pending := s.pending[s.now := ids]), s.now)
    ensures Evolves(s, EnactAll(s, ids, s.now))
    decreases |ids|
  {
    hide Inv, Enact, LogDense, Evolves;
    if ids != [] {
      var full := s.pending[s.now := ids];
      var s1 := Enact(s, ids[0], s.now);
      DenseNow(verify, s.(pending := full), s.now);
      EnactEvolves(s, ids[0]);
      EnactKeepsInv(verify, s.(pending := full));
      EnactIgnoresPending(s, full, ids[0], s.now);
      assert full[s.now := ids[1..]] == s.pending[s.now := ids[1..]];
      EnactAllEvolves(verify, s1, ids[1..]);
      EvolvesTransitive(s, s1, EnactAll(s, ids, s.now));
    } else {
      EvolvesReflexive(s);
    }
  }

  /** The storage at the start of the block loop, with the bucket already taken. */
  lemma LoopStart(verify: Verifier, s: State)
    requires Sound(verify, s) && s.now + 1 < BLOCK_MAX
    ensures var now := s.now + 1;
      var s1 := s.(now := now, pending := s.pending - {now});
      Inv(verify, s1.(pending := s1.pending[now := Bucket(s.pending, now)]), now)
  {
    hide Inv;
    var now := s.now + 1;
    ReachBlock(verify, s);
    BucketsKeepInv(verify, s.(now := now), now, (s.pending - {now})[now := Bucket(s.pending, now)]);
  }

  lemma NextBlockEvolves(verify: Verifier, s: State)
    requires Sound(verify, s) && s.now + 1 < BLOCK_MAX
    ensures Evolves(s, After(verify, s, NextBlock))
  {
    hide Sound, EnactAll, Inv;
    var now := s.now + 1;
    var s1 := s.(now := now, pending := s.pending - {now});
    LoopStart(verify, s);
    EnactAllEvolves(verify, s1, Bucket(s.pending, now));
    assert Evolves(s, s1);
    EvolvesTransitive(s, s1, After(verify, s, NextBlock));
  }

  lemma FreshIds(verify: Verifier, s: State)
    requires Sound(verify, s)
    ensures s.nextProjectId !in s.projects && s.nextProposalId !in s.proposals
  {
  }

  lemma VoteEvolves(s: State, origin: Origin, id: ProposalId, aye: bool)
    requires Vote(s, origin, id, aye).Ok?
    ensures Evolves(s, Vote(s, origin, id, aye).value)
  {
    hide DoVote, Evolves;
    var p := s.proposals[id].projectId;
    DoVoteEvolves(s, id, p, s.projects[p].policy, origin.who, s.stakeholders[(p, origin.who)], aye);
  }

  lemma CallEvolves(verify: Verifier, s: State, origin: Origin, call: Call)
    requires Sound(verify, s) && Apply(verify, s, origin, call).Ok?
    ensures Evolves(s, Apply(verify, s, origin, call).value)
  {
    hide Sound, Evolves, ProjectGenesis, NewRelease, Vote, SubmitCounterAttestation, CloseExpired;
    FreshIds(verify, s);
    match call
    case CallGenesis(name, inits, policy, slashing, bond) =>
      GenesisEvolves(s, origin, name, inits, policy, slashing, bond);
    case CallNewRelease(p, version, attestation, cid, signature) =>
      NewReleaseEvolves(verify, s, origin, p, version, attestation, cid, signature);
    case CallVote(id, aye) => VoteEvolves(s, origin, id, aye);
    case CallCounter(id, rebuilt) => CounterEvolves(verify, s, origin, id, rebuilt);
    case CallCloseExpired(id) => CloseExpiredEvolves(s, origin, id);
  }

  lemma TransferEvolves(s: State, from: AccountId, to: AccountId, amount: nat)
    ensures Evolves(s, s.(ledger := Transfer(s.ledger, from, to, amount)))
  {
  }

  lemma StepEvolves(verify: Verifier, s: State, step: Step)
    requires Sound(verify, s) && Admissible(s, step)
    ensures Evolves(s, After(verify, s, step))
  {
    hide Sound, Apply, OnInitialize, Evolves;
    EvolvesReflexive(s);
    match step
    case Dispatch(origin, call) =>
      if Apply(verify, s, origin, call).Ok? {
        CallEvolves(verify, s, origin, call);
      }
    case NextBlock => NextBlockEvolves(verify, s);
    case TransferFree(from, to, amount) => TransferEvolves(s, from, to, amount);
  }

  /** Over any run: append-only log, absorbing terminal states, a fixed electorate, one ledger of burns. */
  lemma {:induction false} RunEvolves(verify: Verifier, s: State, steps: seq<Step>)
    requires Sound(verify, s) && AdmissibleRun(verify, s, steps)
    ensures Evolves(s, Run(verify, s, steps))
    decreases |steps|
  {
    hide Sound, After, Admissible, Evolves;
    if steps == [] {
      EvolvesReflexive(s);
    } else {
      var s1 := After(verify, s, steps[0]);
      StepEvolves(verify, s, steps[0]);
      StepKeepsSound(verify, s, steps[0]);
      RunEvolves(verify, s1, steps[1..]);
      EvolvesTransitive(s, s1, Run(verify, s, steps));
    }
  }

  lemma {:induction false} SlashedGrows(j: Journal, later: Journal)
    requires Grown(j, later)
    ensures Slashed(j) <= Slashed(later)
    decreases later
  {
    if j != later {
      SlashedGrows(j, later.past);
    }
  }

  lemma IssuanceShrinks(s: State, t: State)
    requires Evolves(s, t)
    ensures t.ledger.issuance <= s.ledger.issuance
  {
    hide RegistryKept, ElectorateFixed, ProposalsKept, LogKept, ProjectsKept, CountersKept;
    SlashedGrows(s.journal, t.journal);
  }
}
