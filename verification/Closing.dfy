/** `submit_counter_attestation` and `close_expired` keep the invariant. */
module Closing {
  import opened Types
  import opened Currency
  import opened Protocol
  import opened Slashing
  import opened Accounting
  import opened History
  import opened Ballots
  import opened Schedule
  import opened Releases
  import opened Invariant

  // submit_counter_attestation

  ghost predicate Challengeable(verify: Verifier, s: State, id: ProposalId) {
    && id in s.proposals && Live(s.proposals[id].status)
    && ProposalRooted(verify, s.projects, s.stakeholders, s.proposals[id])
  }

  /** The slash a counter-attestation against this proposal causes. */
  ghost function Punished(verify: Verifier, s: State, id: ProposalId): State
    requires Challengeable(verify, s, id)
  {
    var v := s.proposals[id];
    Slash(s, v.projectId, v.attestation.builder, s.projects[v.projectId].slashing.sigmaNeg)
  }

  /** The slash together with the rejection of the proposal. */
  ghost function Rejecting(verify: Verifier, s: State, id: ProposalId): State
    requires Challengeable(verify, s, id)
  {
    var s1 := Punished(verify, s, id);
    var v := s.proposals[id];
    s1.(ledger := Release(s1.ledger, ProposalBond, v.proposer, v.bond),
        proposals := s.proposals[id := v.(status := Rejected)])
  }

  /** What the slash changes. */
  lemma PunishedShape(verify: Verifier, s: State, id: ProposalId)
    requires Challengeable(verify, s, id)
    ensures var t := Punished(verify, s, id);
      var v := s.proposals[id];
      var k := (v.projectId, v.attestation.builder);
      && t == s.(ledger := t.ledger, stakeholders := t.stakeholders, roleStake := t.roleStake, journal := t.journal)
      && k in s.stakeholders && k in t.stakeholders
      && t.stakeholders == s.stakeholders[k := t.stakeholders[k]]
      && t.stakeholders[k].role == s.stakeholders[k].role == BuildService
      && t.stakeholders[k].stake <= s.stakeholders[k].stake
      && (forall q, r :: r != BuildService ==> RoleStakeOf(t.roleStake, q, r) == RoleStakeOf(s.roleStake, q, r))
      && t.journal.Deposit? && t.journal.past == s.journal
      && t.journal.event.BuildServiceSlashed?
      && t.journal.event.project == v.projectId && t.journal.event.builder == v.attestation.builder
  {
    hide Burnable, BurnHeld, MulFloor, SignedBy;
  }

  /** With exact books, the slash takes the same amount from the stake and from its role. */
  lemma PunishedExactly(verify: Verifier, s: State, id: ProposalId)
    requires Books(s) && Challengeable(verify, s, id)
    ensures var t := Punished(verify, s, id);
      var v := s.proposals[id];
      var k := (v.projectId, v.attestation.builder);
      k in s.stakeholders && k in t.stakeholders && t.journal.Deposit? && v.projectId in s.projects
      && t.journal.event.BuildServiceSlashed?
      && var share := MulFloor(s.projects[v.projectId].slashing.sigmaNeg, s.stakeholders[k].stake);
      && t.journal.event.amount == share
      && SlashOf(t.journal.event, s.stakeholders, k, t.stakeholders[k])
      && (forall q, r :: RoleStakeOf(t.roleStake, q, r) + (if q == v.projectId && r == BuildService then share else 0)
                      == RoleStakeOf(s.roleStake, q, r))
  {
    hide RoleStakeExact, Escrowed, Bonded, Conserved, SignedBy, MulFloor, BurnHeld;
    var v := s.proposals[id];
    var sigma := s.projects[v.projectId].slashing.sigmaNeg;
    PunishedShape(verify, s, id);
    SlashExact(s, v.projectId, v.attestation.builder, sigma);
    StakeBacked(s, v.projectId, v.attestation.builder);
  }

  lemma ShareBelow(sigma: Perbill, x: nat)
    requires sigma < ACCURACY
    ensures MulFloor(sigma, x) < x || MulFloor(sigma, x) == x == 0
  {
    if x > 0 {
      PartialShare(sigma, x);
    }
  }

  /** A partial slash leaves stake in the role. */
  lemma PunishedStaysStaked(verify: Verifier, s: State, id: ProposalId)
    requires Books(s) && Challengeable(verify, s, id) && PoliciesStaked(s.projects, s.roleStake)
    ensures PoliciesStaked(s.projects, Punished(verify, s, id).roleStake)
  {
    hide Books, SignedBy, MulFloor, Punished, SlashOf;
    var v := s.proposals[id];
    var k := (v.projectId, v.attestation.builder);
    var sigma := s.projects[v.projectId].slashing.sigmaNeg;
    PunishedShape(verify, s, id);
    PunishedExactly(verify, s, id);
    StakeBacked(s, v.projectId, v.attestation.builder);
    if sigma < ACCURACY {
      ShareBelow(sigma, s.stakeholders[k].stake);
    }
  }

  lemma RejectingBooks(verify: Verifier, s: State, id: ProposalId)
    requires Books(s) && Challengeable(verify, s, id)
    ensures Books(Rejecting(verify, s, id))
  {
    hide RoleStakeExact, Escrowed, Bonded, Conserved, SignedBy, Slash, Release;
    var v := s.proposals[id];
    PunishedShape(verify, s, id);
    SlashKeepsBooks(s, v.projectId, v.attestation.builder, s.projects[v.projectId].slashing.sigmaNeg);
    CloseKeepsBooks(Punished(verify, s, id), id, Rejected);
  }

  lemma RejectingChronicle(verify: Verifier, s: State, id: ProposalId)
    requires Books(s) && Chronicled(s) && Challengeable(verify, s, id)
    ensures Chronicled(Rejecting(verify, s, id))
  {
    hide RoleStakeExact, Escrowed, Bonded, Conserved, StakesEroded, SlashesCounted, StakeConserved, SignedBy, Slash;
    hide Release;
    var v := s.proposals[id];
    var s1 := Punished(verify, s, id);
    PunishedShape(verify, s, id);
    SlashKeepsStakes(s, v.projectId, v.attestation.builder);
    SlashKeepsBooks(s, v.projectId, v.attestation.builder, s.projects[v.projectId].slashing.sigmaNeg);
    ReleaseConserves(s1.ledger, ProposalBond, v.proposer, v.bond);
    SameIssuance(s1.stakeholders, s1.ledger, Rejecting(verify, s, id).ledger, s1.journal);
    RejectionCounted(s.proposals, id, s.journal, s1.journal.event);
  }

  lemma RejectingTallied(verify: Verifier, s: State, id: ProposalId)
    requires Books(s) && Tallied(s) && Challengeable(verify, s, id)
    ensures Tallied(Rejecting(verify, s, id))
  {
    hide TalliesFaithful, FirstVotesTallied, VotesRecorded, VotesCurrent, TalliesKeyed, SignedBy, Punished, Release;
    var v := s.proposals[id];
    var k := (v.projectId, v.attestation.builder);
    var t := Rejecting(verify, s, id);
    PunishedShape(verify, s, id);
    hide Books, SlashOf;
    PunishedExactly(verify, s, id);
    SlashKeepsTallied(s, k, t.stakeholders[k], t.journal.event);
    SameBallotsKeepTallied(s.(stakeholders := t.stakeholders, journal := t.journal), t.proposals);
  }

  lemma ChallengeForRejection(s: State, h: BlockNumber, id: ProposalId)
    requires Scheduled(s, h) && id in s.proposals && Live(s.proposals[id].status)
    ensures var pending := WithoutApproval(s.pending, id, s.proposals[id].status);
      Scheduled(s.(pending := pending, proposals := s.proposals[id := s.proposals[id].(status := Rejected)]), h)
  {
    hide Indexed, BucketsBounded, Timely;
    var v := s.proposals[id].(status := Rejected);
    TimelyUpdate(s.proposals, s.projects, h, id, v);
    if s.proposals[id].status.Approved? {
      ScheduleOut(s.pending, s.proposals, id, s.proposals[id].status.enactAt, v);
    } else {
      ScheduleUntouched(s.pending, s.proposals, id, v);
    }
  }

  lemma RejectedFits(s: State, id: ProposalId)
    requires id in s.proposals && s.proposals[id].status.Rejected?
    ensures StatusFits(s, id)
  {
  }

  lemma RejectingStatuses(verify: Verifier, s: State, id: ProposalId)
    requires Books(s) && StatusesFit(s) && Challengeable(verify, s, id)
    ensures StatusesFit(Rejecting(verify, s, id))
  {
    hide Books, Punished, Release, SignedBy, SlashOf, MulFloor, StatusFits;
    var t := Rejecting(verify, s, id);
    PunishedShape(verify, s, id);
    PunishedExactly(verify, s, id);
    forall i | i in t.proposals && i != id ensures StatusFits(t, i) {
      FitKept(s, t, i);
    }
    RejectedFits(t, id);
  }

  /** Lowering a stake and rejecting a live proposal keep registry and proposals well founded. */
  lemma RejectingRoots(verify: Verifier, projects: Projects, st: Registry, st1: Registry,
                       proposals: Proposals, id: ProposalId)
    requires Rooted(verify, projects, st, proposals) && id in proposals
    requires st1.Keys == st.Keys && forall k :: k in st ==> st1[k].role == st[k].role
    ensures Rooted(verify, projects, st1, proposals[id := proposals[id].(status := Rejected)])
  {
    var after := proposals[id := proposals[id].(status := Rejected)];
    forall i | i in after ensures ProposalRooted(verify, projects, st1, after[i]) {
      assert ProposalRooted(verify, projects, st, proposals[i]);
    }
  }

  lemma RejectingCounters(counters: map<ProposalId, CounterAttestation>, proposals: Proposals,
                          st: Registry, st1: Registry, id: ProposalId, c: CounterAttestation)
    requires Countered(counters, proposals, st) && id in proposals && st1.Keys == st.Keys
    requires c.attestedBinaryHash == proposals[id].attestation.outputBinaryHash != c.rebuiltBinaryHash
    requires (proposals[id].projectId, c.challenger) in st && c.challenger != proposals[id].attestation.builder
    ensures Countered(counters[id := c], proposals[id := proposals[id].(status := Rejected)], st1)
  {
  }

  ghost predicate Discrepancy(s: State, id: ProposalId, who: AccountId, rebuilt: Hash32)
    requires id in s.proposals
  {
    && (s.proposals[id].projectId, who) in s.stakeholders
    && who != s.proposals[id].attestation.builder
    && rebuilt != s.proposals[id].attestation.outputBinaryHash
  }

  lemma RejectingBase(verify: Verifier, s: State, id: ProposalId, who: AccountId, rebuilt: Hash32)
    requires Based(verify, s) && Books(s) && Challengeable(verify, s, id) && Discrepancy(s, id, who, rebuilt)
    ensures Based(verify, RecordCounter(Rejecting(verify, s, id), id, who,
                                        s.proposals[id].attestation.outputBinaryHash, rebuilt))
  {
    hide Books, Punished, Release, Rooted, PoliciesStaked, Countered, SignedBy;
    var t := Rejecting(verify, s, id);
    PunishedShape(verify, s, id);
    PunishedStaysStaked(verify, s, id);
    assert t.stakeholders.Keys == s.stakeholders.Keys;
    RejectingRoots(verify, s.projects, s.stakeholders, t.stakeholders, s.proposals, id);
    RejectingCounters(s.counterAttestations, s.proposals, s.stakeholders, t.stakeholders, id,
                      CounterAttestation(who, s.proposals[id].attestation.outputBinaryHash, rebuilt));
  }

  lemma RecordCounterKeeps(s: State, id: ProposalId, who: AccountId, attested: Hash32, rebuilt: Hash32)
    requires Chronicled(s) && Tallied(s)
    ensures var t := RecordCounter(s, id, who, attested, rebuilt); Chronicled(t) && Tallied(t)
  {
    hide StakesEroded, SlashesCounted, StakeConserved, TalliesFaithful, FirstVotesTallied, VotesRecorded;
    hide VotesCurrent, TalliesKeyed;
    QuietKeepsChronicle(s, ProposalRejected(id));
    SilentKeepsTallied(s, ProposalRejected(id));
  }

  lemma RejectingKeepsInv(verify: Verifier, s: State, h: BlockNumber, id: ProposalId, who: AccountId, rebuilt: Hash32)
    requires s.now < BLOCK_MAX && Based(verify, s) && Books(s) && Chronicled(s) && Tallied(s) && Logged(s)
    requires StatusesFit(s)
    requires Challengeable(verify, s, id) && Discrepancy(s, id, who, rebuilt)
    requires Scheduled(s.(proposals := s.proposals[id := s.proposals[id].(status := Rejected)]), h)
    ensures Inv(verify, RecordCounter(Rejecting(verify, s, id), id, who,
                                      s.proposals[id].attestation.outputBinaryHash, rebuilt), h)
  {
    hide Numbered, Rooted, PoliciesStaked, Countered, RoleStakeExact, Escrowed, Bonded, Conserved;
    hide StakesEroded, SlashesCounted, StakeConserved, TalliesFaithful, FirstVotesTallied, VotesRecorded;
    hide VotesCurrent, TalliesKeyed;
    hide Indexed, BucketsBounded, Timely, LogDense, LogFaithful, LogOrdered, LogComplete;
    hide StatusFits, ProposalRooted, Discrepancy, Punished, Release;
    var attested := s.proposals[id].attestation.outputBinaryHash;
    var t := Rejecting(verify, s, id);
    PunishedShape(verify, s, id);
    RejectingBase(verify, s, id, who, rebuilt);
    RejectingBooks(verify, s, id);
    RejectingChronicle(verify, s, id);
    RejectingTallied(verify, s, id);
    RejectingStatuses(verify, s, id);
    RecordCounterKeeps(t, id, who, attested, rebuilt);
    LogUntouched(s, id, s.proposals[id].(status := Rejected));
    SilentKeeps(t.journal, ProposalRejected(id));
    SameAllStatuses(t, RecordCounter(t, id, who, attested, rebuilt));
  }

  /** What an accepted counter-attestation has checked. */
  lemma CounterGuards(s: State, origin: Origin, id: ProposalId, rebuilt: Hash32)
    requires SubmitCounterAttestation(s, origin, id, rebuilt).Ok?
    ensures origin.Signed? && id in s.proposals && Live(s.proposals[id].status)
    ensures Discrepancy(s, id, origin.who, rebuilt)
  {
  }

  /** A challenge touches nothing but the bucket and the journal. */
  lemma ChallengedFrame(verify: Verifier, s: State, id: ProposalId, who: AccountId, rebuilt: Hash32)
    requires Sound(verify, s) && id in s.proposals && Live(s.proposals[id].status)
    ensures var t := Challenge(s, id, who, rebuilt);
      && t == s.(pending := t.pending, journal := t.journal)
      && t.journal.Deposit? && t.journal.past == s.journal && Quiet(t.journal.event)
      && t.now < BLOCK_MAX && Based(verify, t) && Books(t) && Chronicled(t) && Tallied(t) && Logged(t) && StatusesFit(t)
      && Scheduled(t.(proposals := s.proposals[id := s.proposals[id].(status := Rejected)]), s.now + 1)
  {
    hide Numbered, Rooted, PoliciesStaked, Countered, RoleStakeExact, Escrowed, Bonded, Conserved;
    hide StakesEroded, SlashesCounted, StakeConserved, TalliesFaithful, FirstVotesTallied, VotesRecorded;
    hide VotesCurrent, TalliesKeyed;
    hide Indexed, BucketsBounded, Timely, LogDense, LogFaithful, LogOrdered, LogComplete;
    hide StatusFits, Bucket, Without;
    var e := Challenge(s, id, who, rebuilt).journal.event;
    ChallengeForRejection(s, s.now + 1, id);
    QuietKeepsChronicle(s, e);
    SilentKeepsTallied(s, e);
    SilentKeeps(s.journal, e);
    SameAllStatuses(s, Challenge(s, id, who, rebuilt));
  }

  lemma RecordedNow(verify: Verifier, s: State, id: ProposalId, who: AccountId, rebuilt: Hash32)
    requires Challengeable(verify, s, id)
    ensures RecordCounter(Rejecting(verify, s, id), id, who, s.proposals[id].attestation.outputBinaryHash,
                          rebuilt).now == s.now
  {
    hide SignedBy, Release, Burnable, BurnHeld;
  }

  lemma CounterIsRejecting(verify: Verifier, s: State, origin: Origin, id: ProposalId, rebuilt: Hash32)
    requires SubmitCounterAttestation(s, origin, id, rebuilt).Ok?
    requires id in s.proposals && ProposalRooted(verify, s.projects, s.stakeholders, s.proposals[id])
    ensures var s1 := Challenge(s, id, origin.who, rebuilt);
      && Challengeable(verify, s1, id)
      && SubmitCounterAttestation(s, origin, id, rebuilt).value
           == RecordCounter(Rejecting(verify, s1, id), id, origin.who, s.proposals[id].attestation.outputBinaryHash,
                            rebuilt)
  {
    hide Release, SignedBy, WithoutApproval, RecordCounter;
    var s1 := Challenge(s, id, origin.who, rebuilt);
    PunishedShape(verify, s1, id);
    hide Slash;
  }

  lemma CounterKeepsSound(verify: Verifier, s: State, origin: Origin, id: ProposalId, rebuilt: Hash32)
    requires Sound(verify, s) && SubmitCounterAttestation(s, origin, id, rebuilt).Ok?
    ensures Sound(verify, SubmitCounterAttestation(s, origin, id, rebuilt).value)
  {
    hide SubmitCounterAttestation, Inv, ProposalRooted, Based, Books, Chronicled, Tallied, Logged, Scheduled;
    hide StatusesFit;
    hide Challenge, Rejecting, RecordCounter;
    CounterGuards(s, origin, id, rebuilt);
    RootedAt(verify, s, id);
    CounterIsRejecting(verify, s, origin, id, rebuilt);
    ChallengedFrame(verify, s, id, origin.who, rebuilt);
    var s1 := Challenge(s, id, origin.who, rebuilt);
    RejectingKeepsInv(verify, s1, s.now + 1, id, origin.who, rebuilt);
    RecordedNow(verify, s1, id, origin.who, rebuilt);
  }

  // close_expired

  lemma CloseKeepsFrame(verify: Verifier, s: State, h: BlockNumber, id: ProposalId, e: Event)
    requires Frame(verify, s, h) && id in s.proposals && s.proposals[id].status.Voting? && Quiet(e) && Silent(e)
    ensures var t := Close(s, id, Expired); Frame(verify, t.(journal := Deposit(t.journal, e)), h)
  {
    hide Numbered, Rooted, PoliciesStaked, Countered, RoleStakeExact, Escrowed, Bonded, Conserved;
    hide StakesEroded, SlashesCounted, StakeConserved, TalliesFaithful, FirstVotesTallied, VotesRecorded;
    hide VotesCurrent, TalliesKeyed;
    hide Indexed, BucketsBounded, Timely, LogDense, LogFaithful, LogOrdered, LogComplete;
    var v := s.proposals[id].(status := Expired);
    var t := Close(s, id, Expired);
    StatusKeepsBase(verify, s, id, Expired);
    CloseKeepsBooks(s, id, Expired);
    ReleaseConserves(s.ledger, ProposalBond, v.proposer, v.bond);
    SameIssuance(s.stakeholders, s.ledger, t.ledger, s.journal);
    CountsKept(s.proposals, id, v, s.journal);
    QuietKeepsChronicle(t, e);
    SameBallotsKeepTallied(s, t.proposals);
    SilentKeepsTallied(s.(proposals := t.proposals), e);
    ScheduleUntouched(s.pending, s.proposals, id, v);
    TimelyUpdate(s.proposals, s.projects, h, id, v);
    LogUntouched(s, id, v);
  }

  lemma ClosedFits(s: State, id: ProposalId)
    requires id in s.proposals && s.proposals[id].status.Expired?
    ensures StatusFits(s, id)
  {
  }

  lemma CloseExpiredKeepsSound(verify: Verifier, s: State, origin: Origin, id: ProposalId)
    requires Sound(verify, s) && CloseExpired(s, origin, id).Ok?
    ensures Sound(verify, CloseExpired(s, origin, id).value)
  {
    hide Frame, StatusFits;
    var t := CloseExpired(s, origin, id).value;
    CloseKeepsFrame(verify, s, s.now + 1, id, ProposalExpired(id));
    SilentKeeps(s.journal, ProposalExpired(id));
    OtherStatusesKept(s, t, id);
    ClosedFits(t, id);
    AllStatusesFit(t, id);
  }
}
