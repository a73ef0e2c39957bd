/**
 The pallet as it is written: storage items updated in place, loops over stakeholders, roles and due
 proposals, and a storage layer around each call that puts everything back when the call fails.
 */
module Storage {
  import opened Types
  import opened Sums
  import opened Currency
  import opened Protocol
  import opened Invariant
  import opened Enactment
  import opened Runs

  /** A call body that reports `failure` and leaves `after` does what the specification says. */
  predicate Meant(failure: Option<Error>, after: State, specified: Result<State>) {
    match specified
    case Ok(t) => failure == None && after == t
    case Err(e) => failure == Some(e)
  }

  /** The reply of a dispatched call. */
  function ErrorOf(r: Result<State>): Option<Error> {
    match r
    case Ok(_) => None
    case Err(e) => Some(e)
  }

  /** `retain(|x| x != id)`. */
  method Retain(ids: seq<ProposalId>, id: ProposalId) returns (kept: seq<ProposalId>)
    ensures kept == Without(ids, id)
  {
    kept := [];
    for i := 0 to |ids|
      invariant Without(ids, id) == kept + Without(ids[i..], id)
    {
      assert ids[i..][1..] == ids[i + 1..];
      if ids[i] != id {
        kept := kept + [ids[i]];
      }
    }
  }

  method CopyInto(out: array<byte>, start: nat, digest: Hash32)
    requires start + 32 <= out.Length
    modifies out
    ensures out[start..start + 32] == digest
    ensures out[..start] == old(out[..start]) && out[start + 32..] == old(out[start + 32..])
  {
    for i := 0 to 32
      invariant out[start..start + i] == digest[..i]
      invariant out[..start] == old(out[..start]) && out[start + 32..] == old(out[start + 32..])
    {
      out[start + i] := digest[i];
      assert digest[..i + 1] == digest[..i] + [digest[i]];
    }
  }

  /** The 128 bytes that a Build Service signs, copied digest by digest into one buffer. */
  method FillPayload(a: BuildAttestation) returns (out: array<byte>)
    ensures fresh(out) && out[..] == SigningPayload(a)
  {
    out := new byte[128](_ => 0);
    CopyInto(out, 0, a.sourceCommitHash);
    CopyInto(out, 32, a.sourceTreeHash);
    CopyInto(out, 64, a.buildEnvironmentHash);
    CopyInto(out, 96, a.outputBinaryHash);
    assert out[..] == out[..32] + out[32..64] + out[64..96] + out[96..128];
  }

  /** `Propose` keeps nothing of the old ledger. */
  lemma ProposeOverLedger(s: State, who: AccountId, p: ProjectId, version: seq<byte>, attestation: BuildAttestation,
                          cid: Hash32, l: Ledger)
    requires p in s.projects
    ensures Propose(s.(ledger := l), who, p, version, attestation, cid, l) == Propose(s, who, p, version, attestation,
        cid, l)
    ensures Propose(s, who, p, version, attestation, cid, l).projects == s.projects
  {
  }

  /** The writes of an accepted counter-attestation first, and its three events after them. */
  lemma CounterInParts(s: State, id: ProposalId, who: AccountId, rebuilt: Hash32)
    requires id in s.proposals && s.proposals[id].projectId in s.projects
    requires (s.proposals[id].projectId, s.proposals[id].attestation.builder) in s.stakeholders
    ensures var v := s.proposals[id];
      var sigma := s.projects[v.projectId].slashing.sigmaNeg;
      var attested := v.attestation.outputBinaryHash;
      var unscheduled := s.(pending := WithoutApproval(s.pending, id, v.status));
      var slashed := Slash(unscheduled, v.projectId, v.attestation.builder, sigma);
      && id in slashed.proposals && slashed.proposals == s.proposals && slashed.projects == s.projects
      && slashed.journal.Deposit? && slashed.journal.past == s.journal
      && var closed := Close(slashed.(journal := s.journal), id, Rejected);
      && var meant := Slash(Challenge(s, id, who, rebuilt), v.projectId, v.attestation.builder, sigma);
      && id in meant.proposals
      && closed.counterAttestations == s.counterAttestations && closed.journal == s.journal
      && RecordCounter(Close(meant, id, Rejected), id, who, attested, rebuilt)
        == closed.(counterAttestations := s.counterAttestations[id := CounterAttestation(who, attested, rebuilt)],
                   journal := Deposit(Deposit(Deposit(s.journal,
                                                      CounterAttestationAccepted(id, who, attested, rebuilt)),
                                              slashed.journal.event), ProposalRejected(id)))
  {
    hide MulFloor, BurnHeld, Burnable, Release, WithoutApproval;
  }

  lemma StandStill(verify: Verifier, s: State)
    ensures Run(verify, s, Blocks(0)) == s
  {
  }

  lemma InitializeKeepsNow(s: State, block: BlockNumber)
    ensures OnInitialize(s, block).now == s.now
  {
    hide EnactAll;
    EnactAllKeepsNow(s.(pending := s.pending - {block}), Bucket(s.pending, block), block);
  }

  class Pallet {
    /** The signature scheme of the runtime. */
    const verify: Verifier

    var now: BlockNumber
    var nextProjectId: ProjectId
    var nextProposalId: ProposalId
    var projects: Projects
    var stakeholders: map<(ProjectId, AccountId), Stakeholder>
    var roleStake: map<(ProjectId, Role), Balance>
    var proposals: Proposals
    var votes: map<(ProposalId, AccountId), bool>
    var tallies: Tallies
    var releaseCount: map<ProjectId, nat>
    var releaseLog: map<(ProjectId, nat), ReleaseEntry>
    var counterAttestations: map<ProposalId, CounterAttestation>
    var pending: Buckets
    var ledger: Ledger
    var journal: Journal

    /** Everything in storage. */
    function Snapshot(): State
      reads this
    {
      State(now, nextProjectId, nextProposalId, projects, stakeholders, roleStake, proposals, votes, tallies,
            releaseCount, releaseLog, counterAttestations, pending, ledger, journal)
    }

    ghost predicate Valid()
      reads this
    {
      Sound(verify, Snapshot())
    }

    /** An empty pallet over a ledger in which nothing is held. */
    constructor (verify: Verifier, start: BlockNumber, balances: map<AccountId, nat>, issuance: nat)
      requires start < 4_294_967_295 && issuance == Sum(balances) <= 340_282_366_920_938_463_463_374_607_431_768_211_455
      ensures this.verify == verify && Initial(Snapshot()) && Valid()
      ensures now == start && ledger == Ledger(balances, map[], map[], issuance)
    {
      this.verify := verify;
      now, nextProjectId, nextProposalId := start, 0, 0;
      projects, stakeholders, roleStake := map[], map[], map[];
      proposals, votes, tallies := map[], map[], map[];
      releaseCount, releaseLog, counterAttestations, pending := map[], map[], map[], map[];
      ledger, journal := Ledger(balances, map[], map[], issuance), Empty;
      new;
      hide Sound;
      InitialSound(verify, Snapshot());
    }

    /** Put the whole storage back. */
    method Restore(s: State)
      modifies this
      ensures Snapshot() == s
    {
      RestoreCounters(s);
      RestoreVoting(s);
      RestoreReleases(s);
      projects, stakeholders, roleStake := s.projects, s.stakeholders, s.roleStake;
      ledger, journal := s.ledger, s.journal;
    }

    method RestoreCounters(s: State)
      modifies `now, `nextProjectId, `nextProposalId
      ensures now == s.now && nextProjectId == s.nextProjectId && nextProposalId == s.nextProposalId
    {
      now, nextProjectId, nextProposalId := s.now, s.nextProjectId, s.nextProposalId;
    }

    method RestoreVoting(s: State)
      modifies `proposals, `votes, `tallies
      ensures proposals == s.proposals && votes == s.votes && tallies == s.tallies
    {
      proposals, votes, tallies := s.proposals, s.votes, s.tallies;
    }

    method RestoreReleases(s: State)
      modifies `releaseCount, `releaseLog, `counterAttestations, `pending
      ensures releaseCount == s.releaseCount && releaseLog == s.releaseLog
      ensures counterAttestations == s.counterAttestations && pending == s.pending
    {
      releaseCount, releaseLog := s.releaseCount, s.releaseLog;
      counterAttestations, pending := s.counterAttestations, s.pending;
    }

    method DepositEvent(e: Event)
      modifies `journal
      ensures journal == Deposit(old(journal), e)
    {
      journal := Deposit(journal, e);
    }

    // project_genesis

    method TryProjectGenesis(
      origin: Origin, name: seq<byte>, inits: seq<StakeholderInit>, policy: ReleasePolicy,
      slashing: SlashingParams, bond: Balance) returns (failure: Option<Error>)
      modifies this
      ensures Meant(failure, Snapshot(), ProjectGenesis(old(Snapshot()), origin, name, inits, policy, slashing, bond))
    {
      if !origin.Root? {
        return Some(BadOrigin);
      }
      if policy.requiredRoles == [] {
        return Some(NoRequiredRoles);
      }
      var p := nextProjectId;
      failure := RegisterStakeholders(p, inits);
      if failure.Some? {
        return;
      }
      var staked := RolesStaked(p, policy.requiredRoles);
      if !staked {
        return Some(RequiredRoleHasNoStake);
      }
      projects := projects[p := ProjectInfo(name, policy, slashing, bond)];
      nextProjectId := NextId(p);
      DepositEvent(ProjectCreated(p, name));
    }

    /** Escrow the stake of every initial stakeholder, in order, up to the first failure. */
    method RegisterStakeholders(p: ProjectId, inits: seq<StakeholderInit>) returns (failure: Option<Error>)
      modifies this
      ensures Meant(failure, Snapshot(), RegisterAll(old(Snapshot()), p, inits))
      ensures failure.None? ==> nextProjectId == old(nextProjectId)
    {
      for i := 0 to |inits|
        invariant RegisterAll(Snapshot(), p, inits[i..]) == RegisterAll(old(Snapshot()), p, inits)
        invariant nextProjectId == old(nextProjectId)
      {
        failure := RegisterStakeholder(p, inits[i]);
        assert inits[i..][0] == inits[i] && inits[i..][1..] == inits[i + 1..];
        if failure.Some? {
          return;
        }
      }
      failure := None;
    }

    method RegisterStakeholder(p: ProjectId, init: StakeholderInit) returns (failure: Option<Error>)
      modifies `ledger, `stakeholders, `roleStake, `journal
      ensures Meant(failure, Snapshot(), Register(old(Snapshot()), p, init))
    {
      hide Hold;
      if (p, init.account) in stakeholders {
        return Some(DuplicateStakeholder);
      }
      var held := Hold(ledger, Stake, init.account, init.stake);
      if held.Err? {
        return Some(held.error);
      }
      ledger := held.value;
      InsertStakeholder(p, init);
      failure := None;
    }

    method InsertStakeholder(p: ProjectId, init: StakeholderInit)
      modifies `stakeholders, `roleStake, `journal
      ensures Snapshot() == old(Snapshot()).(
                stakeholders := old(stakeholders)[(p, init.account) := Stakeholder(init.role, init.stake)],
                roleStake := old(roleStake)[(p, init.role) := SatAdd(RoleStakeOf(old(roleStake), p, init.role),
                                                                     init.stake)],
                journal := Deposit(old(journal), StakeholderRegistered(p, init.account, init.role, init.stake)))
    {
      stakeholders := stakeholders[(p, init.account) := Stakeholder(init.role, init.stake)];
      roleStake := roleStake[(p, init.role) := SatAdd(RoleStakeOf(roleStake, p, init.role), init.stake)];
      DepositEvent(StakeholderRegistered(p, init.account, init.role, init.stake));
    }

    method RolesStaked(p: ProjectId, required: seq<RoleQuorum>) returns (staked: bool)
      ensures staked <==> AllStaked(roleStake, p, required)
    {
      for i := 0 to |required|
        invariant forall j :: 0 <= j < i ==> RoleStakeOf(roleStake, p, required[j].role) != 0
      {
        if RoleStakeOf(roleStake, p, required[i].role) == 0 {
          assert required[i] in required;
          return false;
        }
      }
      staked := true;
    }

    // Voting

    /** Eq. 1, role by role, up to the first role that misses its quorum. */
    method QuorumsMet(p: ProjectId, required: seq<RoleQuorum>, id: ProposalId) returns (met: bool)
      ensures met <==> MeetsQuorums(roleStake, tallies, required, p, id)
    {
      for i := 0 to |required|
        invariant forall j :: 0 <= j < i ==>
          RoleMeets(TallyOf(tallies, id, required[j].role).ayes, RoleStakeOf(roleStake, p, required[j].role),
                    required[j].quorum)
      {
        var total := RoleStakeOf(roleStake, p, required[i].role);
        var ayes := TallyOf(tallies, id, required[i].role).ayes;
        if total == 0 || SatMul(ayes, ACCURACY) < SatMul(required[i].quorum, total) {
          assert required[i] in required;
          return false;
        }
      }
      met := true;
    }

    method UpdateStatus(id: ProposalId, status: ProposalStatus)
      modifies `proposals
      ensures Snapshot() == SetStatus(old(Snapshot()), id, status)
    {
      if id in proposals {
        proposals := proposals[id := proposals[id].(status := status)];
      }
    }

    method TallyVote(id: ProposalId, who: AccountId, voter: Stakeholder, aye: bool)
      modifies `tallies, `votes, `journal
      ensures Snapshot() == RecordVote(old(Snapshot()), id, who, voter, aye)
    {
      var t := TallyOf(tallies, id, voter.role);
      if (id, who) in votes {
        if votes[(id, who)] {
          t := t.(ayes := SatSub(t.ayes, voter.stake));
        } else {
          t := t.(nays := SatSub(t.nays, voter.stake));
        }
      }
      if aye {
        t := t.(ayes := SatAdd(t.ayes, voter.stake));
      } else {
        t := t.(nays := SatAdd(t.nays, voter.stake));
      }
      tallies := tallies[(id, voter.role) := t];
      votes := votes[(id, who) := aye];
      DepositEvent(Voted(id, who, voter.role, aye, voter.stake));
    }

    method DoVote(id: ProposalId, p: ProjectId, policy: ReleasePolicy, who: AccountId, voter: Stakeholder, aye: bool)
      returns (failure: Option<Error>)
      modifies this
      ensures Meant(failure, Snapshot(), Protocol.DoVote(old(Snapshot()), id, p, policy, who, voter, aye))
    {
      hide RecordVote;
      TallyVote(id, who, voter, aye);
      failure := Reschedule(id, p, policy);
    }

    /** Approve or revoke according to the standing tally. */
    method Reschedule(id: ProposalId, p: ProjectId, policy: ReleasePolicy) returns (failure: Option<Error>)
      modifies this
      ensures Meant(failure, Snapshot(), Reconsider(old(Snapshot()), id, p, policy))
    {
      hide MeetsQuorums;
      var met := QuorumsMet(p, policy.requiredRoles, id);
      if id !in proposals {
        return Some(ProposalNotFound);
      }
      failure := None;
      var status := proposals[id].status;
      if status.Voting? && met {
        var enactAt := BlockAdd(now, policy.enactmentDelay);
        if |Bucket(pending, enactAt)| >= MAX_ENACTMENTS_PER_BLOCK {
          return Some(TooManyEnactments);
        }
        pending := pending[enactAt := Bucket(pending, enactAt) + [id]];
        UpdateStatus(id, Approved(enactAt));
        DepositEvent(ProposalApproved(id, enactAt));
      } else if status.Approved? && !met {
        var kept := Retain(Bucket(pending, status.enactAt), id);
        pending := pending[status.enactAt := kept];
        UpdateStatus(id, Voting);
        DepositEvent(ProposalApprovalRevoked(id));
      }
    }

    // new_release and vote

    method TryNewRelease(
      origin: Origin, p: ProjectId, version: seq<byte>, attestation: BuildAttestation, cid: Hash32,
      signature: Signature)
      returns (failure: Option<Error>)
      modifies this
      ensures Meant(failure, Snapshot(),
                    NewRelease(verify, old(Snapshot()), origin, p, version, attestation, cid, signature))
    {
      hide Protocol.DoVote, SigningPayload, Hold, Propose;
      if !origin.Signed? {
        return Some(BadOrigin);
      }
      var who := origin.who;
      if p !in projects {
        return Some(ProjectNotFound);
      }
      var project := projects[p];
      if (p, who) !in stakeholders {
        return Some(NotStakeholder);
      }
      var proposer := stakeholders[(p, who)];
      if proposer.role != CoreDeveloper {
        return Some(NotCoreDeveloper);
      }
      if (p, attestation.builder) !in stakeholders || stakeholders[(p, attestation.builder)].role != BuildService {
        return Some(NotBuildService);
      }
      var payload := FillPayload(attestation);
      if !verify(signature, payload[..], attestation.builder) {
        return Some(InvalidBuilderSignature);
      }
      var held := Hold(ledger, ProposalBond, who, project.proposalBond);
      if held.Err? {
        return Some(held.error);
      }
      ledger := held.value;
      ProposeOverLedger(old(Snapshot()), who, p, version, attestation, cid, ledger);
      var id := InsertProposal(who, p, version, attestation, cid);
      failure := DoVote(id, p, project.policy, who, proposer, true);
    }

    method InsertProposal(who: AccountId, p: ProjectId, version: seq<byte>, attestation: BuildAttestation, cid: Hash32)
      returns (id: ProposalId)
      requires p in projects
      modifies `nextProposalId, `proposals, `journal
      ensures id == old(nextProposalId)
      ensures Snapshot() == Propose(old(Snapshot()), who, p, version, attestation, cid, ledger)
    {
      var votingEnds := BlockAdd(now, projects[p].policy.votingPeriod);
      id := nextProposalId;
      nextProposalId := NextId(id);
      proposals := proposals[id :=
        Proposal(p, who, version, attestation, cid, projects[p].proposalBond, now, votingEnds, Voting)];
      DepositEvent(ReleaseProposed(id, p, who, votingEnds));
    }

    method TryVote(origin: Origin, id: ProposalId, aye: bool) returns (failure: Option<Error>)
      modifies this
      ensures Meant(failure, Snapshot(), Vote(old(Snapshot()), origin, id, aye))
    {
      hide Protocol.DoVote;
      if !origin.Signed? {
        return Some(BadOrigin);
      }
      if id !in proposals {
        return Some(ProposalNotFound);
      }
      var proposal := proposals[id];
      if !Live(proposal.status) {
        return Some(ProposalNotVoting);
      }
      if now > proposal.votingEnds {
        return Some(VotingPeriodOver);
      }
      var p := proposal.projectId;
      if p !in projects {
        return Some(ProjectNotFound);
      }
      if (p, origin.who) !in stakeholders {
        return Some(NotStakeholder);
      }
      failure := DoVote(id, p, projects[p].policy, origin.who, stakeholders[(p, origin.who)], aye);
    }

    // submit_counter_attestation

    method TrySubmitCounterAttestation(origin: Origin, id: ProposalId, rebuilt: Hash32) returns (failure: Option<Error>)
      modifies this
      ensures Meant(failure, Snapshot(), SubmitCounterAttestation(old(Snapshot()), origin, id, rebuilt))
    {
      hide Challenge, Slash, Close, RecordCounter, WithoutApproval;
      if !origin.Signed? {
        return Some(BadOrigin);
      }
      if id !in proposals {
        return Some(ProposalNotFound);
      }
      var proposal := proposals[id];
      var p := proposal.projectId;
      if p !in projects {
        return Some(ProjectNotFound);
      }
      if (p, origin.who) !in stakeholders {
        return Some(NotStakeholder);
      }
      var builder := proposal.attestation.builder;
      if origin.who == builder {
        return Some(BuilderCannotChallenge);
      }
      if rebuilt == proposal.attestation.outputBinaryHash {
        return Some(NoDiscrepancy);
      }
      if !Live(proposal.status) {
        return Some(ProposalNotChallengeable);
      }
      Unschedule(id);
      if (p, builder) !in stakeholders {
        return Some(NotBuildService);
      }
      RejectProposal(old(Snapshot()), id, origin.who, rebuilt);
      failure := None;
    }

    /** Everything after the proposal is out of its bucket: slash, bond, status, record, and then the events. */
    method RejectProposal(ghost s: State, id: ProposalId, who: AccountId, rebuilt: Hash32)
      requires id in s.proposals && s.proposals[id].projectId in s.projects
      requires (s.proposals[id].projectId, s.proposals[id].attestation.builder) in s.stakeholders
      requires Snapshot() == s.(pending := WithoutApproval(s.pending, id, s.proposals[id].status))
      modifies this
      ensures var v := s.proposals[id];
        Snapshot() == RecordCounter(Close(Slash(Challenge(s, id, who, rebuilt), v.projectId, v.attestation.builder,
                                                s.projects[v.projectId].slashing.sigmaNeg), id, Rejected),
                                    id, who, v.attestation.outputBinaryHash, rebuilt)
    {
      hide Challenge, Slash, Close, RecordCounter, WithoutApproval;
      CounterInParts(s, id, who, rebuilt);
      var proposal := proposals[id];
      var p := proposal.projectId;
      var builder := proposal.attestation.builder;
      var slashed, remaining := SlashBuilder(p, builder, projects[p].slashing.sigmaNeg);
      CloseProposal(id, Rejected);
      var attested := proposal.attestation.outputBinaryHash;
      counterAttestations := counterAttestations[id := CounterAttestation(who, attested, rebuilt)];
      DepositEvent(CounterAttestationAccepted(id, who, attested, rebuilt));
      DepositEvent(BuildServiceSlashed(p, builder, slashed, remaining));
      DepositEvent(ProposalRejected(id));
    }

    /** Take a live proposal out of its bucket. */
    method Unschedule(id: ProposalId)
      requires id in proposals
      modifies `pending
      ensures pending == WithoutApproval(old(pending), id, proposals[id].status)
    {
      var proposal := proposals[id];
      if proposal.status.Approved? {
        var kept := Retain(Bucket(pending, proposal.status.enactAt), id);
        pending := pending[proposal.status.enactAt := kept];
      }
    }

    /** The negligence slash, but for its event, and the amounts the event reports. */
    method SlashBuilder(p: ProjectId, builder: AccountId, sigma: Perbill) returns (slashed: Balance, remaining: Balance)
      requires (p, builder) in stakeholders
      modifies `ledger, `stakeholders, `roleStake
      ensures var specified := Slash(old(Snapshot()), p, builder, sigma);
        && Snapshot() == specified.(journal := journal)
        && specified.journal == Deposit(journal, BuildServiceSlashed(p, builder, slashed, remaining))
    {
      hide MulFloor, BurnHeld, Burnable;
      var entry := stakeholders[(p, builder)];
      var toSlash := MulFloor(sigma, entry.stake);
      slashed := Burnable(ledger, Stake, builder, toSlash);
      ledger := BurnHeld(ledger, Stake, builder, toSlash);
      entry := entry.(stake := SatSub(entry.stake, slashed));
      stakeholders := stakeholders[(p, builder) := entry];
      roleStake := roleStake[(p, BuildService) := SatSub(RoleStakeOf(roleStake, p, BuildService), slashed)];
      remaining := entry.stake;
    }

    /** Return the bond and set a final status. */
    method CloseProposal(id: ProposalId, status: ProposalStatus)
      requires id in proposals
      modifies `ledger, `proposals
      ensures Snapshot() == Close(old(Snapshot()), id, status)
    {
      hide Release;
      var proposal := proposals[id];
      ledger := Release(ledger, ProposalBond, proposal.proposer, proposal.bond);
      proposal := proposal.(status := status);
      proposals := proposals[id := proposal];
    }

    // close_expired

    method TryCloseExpired(origin: Origin, id: ProposalId) returns (failure: Option<Error>)
      modifies this
      ensures Meant(failure, Snapshot(), CloseExpired(old(Snapshot()), origin, id))
    {
      hide Close;
      if !origin.Signed? {
        return Some(BadOrigin);
      }
      if id !in proposals {
        return Some(ProposalNotFound);
      }
      if !proposals[id].status.Voting? {
        return Some(ProposalNotVoting);
      }
      if now <= proposals[id].votingEnds {
        return Some(VotingPeriodNotOver);
      }
      CloseProposal(id, Expired);
      DepositEvent(ProposalExpired(id));
      failure := None;
    }

    // on_initialize

    method EnactProposal(id: ProposalId, block: BlockNumber)
      modifies this
      ensures Snapshot() == Enact(old(Snapshot()), id, block)
    {
      hide MeetsQuorums, Release;
      if id !in proposals || !proposals[id].status.Approved? {
        return;
      }
      var proposal := proposals[id];
      var p := proposal.projectId;
      if p !in projects {
        return;
      }
      var met := QuorumsMet(p, projects[p].policy.requiredRoles, id);
      if !met {
        UpdateStatus(id, Voting);
        DepositEvent(ProposalApprovalRevoked(id));
        return;
      }
      var index := CountOf(releaseCount, p);
      releaseLog := releaseLog[(p, index) := EntryFor(id, proposal, block)];
      releaseCount := releaseCount[p := NextId(index)];
      CloseProposal(id, ProposalStatus.Enacted);
      DepositEvent(ReleaseEnacted(p, id, index));
    }

    /** The hook that the runtime calls at the start of each block; nothing rolls it back. */
    method OnInitialize(block: BlockNumber)
      modifies this
      ensures Snapshot() == Protocol.OnInitialize(old(Snapshot()), block)
    {
      hide Enact;
      var ids := Bucket(pending, block);
      pending := pending - {block};
      for i := 0 to |ids|
        invariant EnactAll(Snapshot(), ids[i..], block) == Protocol.OnInitialize(old(Snapshot()), block)
      {
        assert ids[i..][0] == ids[i] && ids[i..][1..] == ids[i + 1..];
        EnactProposal(ids[i], block);
      }
    }

    // The runtime around the pallet

    /** One call in its storage layer: a failure restores the storage as it was before the call. */
    method Call(origin: Origin, call: Protocol.Call) returns (failure: Option<Error>)
      modifies this
      ensures failure == ErrorOf(Apply(verify, old(Snapshot()), origin, call))
      ensures Snapshot() == After(verify, old(Snapshot()), Dispatch(origin, call))
      ensures failure.Some? ==> Snapshot() == old(Snapshot())
      ensures old(Valid() && Admissible(Snapshot(), Dispatch(origin, call))) ==> Valid()
    {
      hide Sound, ProjectGenesis, NewRelease, Vote, SubmitCounterAttestation, CloseExpired;
      var before := Snapshot();
      match call {
        case CallGenesis(name, inits, policy, slashing, bond) =>
          failure := TryProjectGenesis(origin, name, inits, policy, slashing, bond);
        case CallNewRelease(p, version, attestation, cid, signature) =>
          failure := TryNewRelease(origin, p, version, attestation, cid, signature);
        case CallVote(id, aye) =>
          failure := TryVote(origin, id, aye);
        case CallCounter(id, rebuilt) =>
          failure := TrySubmitCounterAttestation(origin, id, rebuilt);
        case CallCloseExpired(id) =>
          failure := TryCloseExpired(origin, id);
      }
      if failure.Some? {
        Restore(before);
      }
      if old(Valid() && Admissible(Snapshot(), Dispatch(origin, call))) {
        StepKeepsSound(verify, before, Dispatch(origin, call));
      }
    }

    /** Advance to block `n`, initialising every block on the way. */
    method RunToBlock(n: BlockNumber)
      modifies this
      ensures Snapshot() == Run(verify, old(Snapshot()), Blocks(if old(now) < n then n - old(now) else 0))
      ensures old(Valid()) && n < BLOCK_MAX ==> Valid()
    {
      hide Sound, Protocol.OnInitialize, Run;
      ghost var before := Snapshot();
      ghost var k := 0;
      assert Run(verify, before, Blocks(0)) == before by { StandStill(verify, before); }
      while now < n
        invariant now == old(now) + k && (k > 0 ==> now <= n)
        invariant Snapshot() == Run(verify, before, Blocks(k))
        invariant old(Valid()) && n < BLOCK_MAX ==> Valid()
        decreases n - now
      {
        ghost var s := Snapshot();
        var next := now + 1;
        now := next;
        OnInitialize(next);
        InitializeKeepsNow(s.(now := next), next);
        RunOneMore(verify, before, k);
        if old(Valid()) && n < BLOCK_MAX {
          StepKeepsSound(verify, s, NextBlock);
        }
        k := k + 1;
      }
    }
  }
}
