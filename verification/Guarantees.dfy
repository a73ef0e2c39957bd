/** What the invariant and the evolution of the storage guarantee to those who use the pallet. */
module Guarantees {
  import opened Types
  import opened Sums
  import opened Currency
  import opened Protocol
  import opened Slashing
  import opened Accounting
  import opened History
  import opened Ballots
  import opened Schedule
  import opened Releases
  import opened Invariant
  import opened Closing
  import opened Runs
  import opened Evolution
  import opened BlockLoop
  import opened Liveness
  import opened Electorate

  // The schedule

  lemma ScheduledOnce(s: State, id: ProposalId, b: BlockNumber)
    requires Scheduled(s, s.now + 1)
    ensures id in Bucket(s.pending, b) <==> id in s.proposals && s.proposals[id].status == Approved(b)
    ensures NoRepeats(Bucket(s.pending, b)) && |Bucket(s.pending, b)| <= 32
    ensures forall c: BlockNumber :: id in Bucket(s.pending, b) && id in Bucket(s.pending, c) ==> b == c
    ensures id in Bucket(s.pending, b) ==> (s.now < b <==> 0 < DelayOf(s.projects, s.proposals[id].projectId))
  {
    hide NoRepeats;
  }

  /**
   A proposal is approved for block `b` exactly when it is in the bucket of `b`, once and in no other
   bucket. Buckets hold at most 32 ids. What is scheduled lies in the future exactly in projects that
   have an enactment delay.
   */
  lemma ScheduleAgrees(verify: Verifier, s: State, id: ProposalId, b: BlockNumber)
    requires Reached(verify, s)
    ensures id in Bucket(s.pending, b) <==> id in s.proposals && s.proposals[id].status == Approved(b)
    ensures NoRepeats(Bucket(s.pending, b)) && |Bucket(s.pending, b)| <= 32
    ensures forall c: BlockNumber :: id in Bucket(s.pending, b) && id in Bucket(s.pending, c) ==> b == c
    ensures id in Bucket(s.pending, b) ==> (s.now < b <==> 0 < DelayOf(s.projects, s.proposals[id].projectId))
  {
    hide Reached, Sound, Scheduled;
    ReachedSound(verify, s);
    ScheduleOf(verify, s);
    ScheduledOnce(s, id, b);
  }

  // Tallies

  /**
   For every role and proposal, each side of the tally is the current stake behind its last votes plus the stake
   slashed from voters while their last vote stood on that side; both sides together are the stakes of all voters
   at their first votes. The tally is exactly the current stakes if and only if no voter of the role was slashed
   since its first vote, so always for the roles that cannot be slashed.
   */
  lemma TalliesMeanStakes(verify: Verifier, s: State, id: ProposalId, r: Role)
    requires Reached(verify, s) && id in s.proposals
    ensures var p, t := s.proposals[id].projectId, TallyOf(s.tallies, id, r);
      var ayes := Polled(s.stakeholders, s.votes, p, id, r, true);
      var nays := Polled(s.stakeholders, s.votes, p, id, r, false);
      && t.ayes == ayes + (if r == BuildService then LostBallots(s.journal, p, id, true) else 0)
      && t.nays == nays + (if r == BuildService then LostBallots(s.journal, p, id, false) else 0)
      && t.ayes + t.nays == Sum(FirstWeights(s.stakeholders, s.journal, p, id, r))
      && (t == RoleTally(ayes, nays) <==> NoneSlashedSince(s, id, r))
      && (r != BuildService ==> t == RoleTally(ayes, nays) && t.ayes + t.nays <= RoleStakeOf(s.roleStake, p, r))
  {
    hide Reached, Sound, Polled, FirstWeights, NoneSlashedSince, LostBallots;
    ReachedSound(verify, s);
    TallyCovers(verify, s, id, r);
    TallyExactIffNoneSlashed(verify, s, id, r);
    if r != BuildService {
      TallyExact(verify, s, id, r);
    }
  }

  lemma ChronicleOf(verify: Verifier, s: State)
    requires Sound(verify, s)
    ensures Chronicled(s)
  {
    hide StakesEroded, SlashesCounted, StakeConserved;
  }

  /**
   No addition to or subtraction from a tally saturates, whatever the role and however often votes moved:
   a vote takes its weight from the side of the previous one, if any, and adds it to its own.
   */
  lemma VotesNeverSaturate(verify: Verifier, s: State, id: ProposalId, who: AccountId, aye: bool)
    requires Reached(verify, s) && id in s.proposals && (s.proposals[id].projectId, who) in s.stakeholders
    ensures var v := s.stakeholders[(s.proposals[id].projectId, who)];
      var previous := VoteOf(s.votes, id, who);
      var t := TallyOf(s.tallies, id, v.role);
      var u := MoveVote(t, previous, v.stake, aye);
      && u.ayes + (if previous == Some(true) then v.stake else 0) == t.ayes + (if aye then v.stake else 0)
      && u.nays + (if previous == Some(false) then v.stake else 0) == t.nays + (if aye then 0 else v.stake)
  {
    hide Reached, Sound, Books, Chronicled, Tallied, MoveVote;
    ReachedSound(verify, s);
    BooksAndTallies(verify, s);
    ChronicleOf(verify, s);
    MoveVoteExact(s, id, who, aye);
  }

  // Terminal states

  /** A counter-attestation is on record exactly for the rejected proposals, and reports a different hash. */
  lemma RejectedIffCountered(verify: Verifier, s: State, id: ProposalId)
    requires Reached(verify, s)
    ensures id in s.counterAttestations <==> id in s.proposals && s.proposals[id].status.Rejected?
    ensures id in s.counterAttestations ==>
      && s.counterAttestations[id].attestedBinaryHash == s.proposals[id].attestation.outputBinaryHash
      && s.counterAttestations[id].rebuiltBinaryHash != s.proposals[id].attestation.outputBinaryHash
      && s.counterAttestations[id].challenger != s.proposals[id].attestation.builder
      && (s.proposals[id].projectId, s.counterAttestations[id].challenger) in s.stakeholders
  {
    hide Reached, Numbered, Rooted, PoliciesStaked, Books, Chronicled, Tallied, Logged, Scheduled, StatusFits;
    ReachedSound(verify, s);
  }

  /** A builder has been slashed in a project once for each rejected proposal that names it. */
  lemma SlashesAreRejections(verify: Verifier, s: State, p: ProjectId, a: AccountId)
    requires Reached(verify, s)
    ensures SlashCount(s.journal, p, a) == RejectedCount(s.proposals, p, a)
  {
    hide Reached;
    ReachedSound(verify, s);
    hide Based, Books, Tallied, Logged, Scheduled, StatusFits, StakesEroded, StakeConserved;
  }

  lemma ClosedStatus(s: State, t: State, id: ProposalId)
    requires Evolves(s, t) && id in s.proposals && !Live(s.proposals[id].status)
    ensures id in t.proposals && t.proposals[id] == s.proposals[id]
  {
    hide RegistryKept, ElectorateFixed, LogKept, ProjectsKept, CountersKept;
  }

  lemma LoggedIffEnacted(verify: Verifier, s: State, id: ProposalId)
    requires Sound(verify, s) && id in s.proposals
    ensures InLog(s.releaseLog, s.proposals[id].projectId, id) <==> s.proposals[id].status.Enacted?
  {
    hide Based, Books, Chronicled, Tallied, Scheduled, StatusFits, LogDense, LogOrdered;
    var p := s.proposals[id].projectId;
    if InLog(s.releaseLog, p, id) {
      var i: nat :| (p, i) in s.releaseLog && s.releaseLog[(p, i)].proposalId == id;
      assert EntryFaithful(s.releaseLog[(p, i)], p, s.proposals, s.now);
    }
  }

  /** A closed proposal stays as it is over every run; it is never scheduled, and logged only if it is enacted. */
  lemma ClosedForGood(verify: Verifier, s: State, steps: seq<Step>, id: ProposalId)
    requires Reached(verify, s) && AdmissibleRun(verify, s, steps)
    requires id in s.proposals && !Live(s.proposals[id].status)
    ensures var t := Run(verify, s, steps);
      && id in t.proposals && t.proposals[id] == s.proposals[id]
      && (forall b: BlockNumber :: id !in Bucket(t.pending, b))
      && (InLog(t.releaseLog, s.proposals[id].projectId, id) <==> s.proposals[id].status.Enacted?)
  {
    hide Reached, Sound, Run, AdmissibleRun;
    ReachedSound(verify, s);
    var t := Run(verify, s, steps);
    RunKeepsSound(verify, s, steps);
    RunEvolves(verify, s, steps);
    ClosedStatus(s, t, id);
    hide Evolves;
    ReachedOnwards(verify, s, steps);
    forall b: BlockNumber ensures id !in Bucket(t.pending, b) {
      ScheduleAgrees(verify, t, id, b);
    }
    LoggedIffEnacted(verify, t, id);
  }

  // Slashing

  lemma StakeIsEroded(verify: Verifier, s: State, p: ProjectId, a: AccountId)
    requires Sound(verify, s) && (p, a) in s.stakeholders
    ensures Registered(s.journal, p, a).Some?
    ensures s.stakeholders[(p, a)].stake
         == Erode(SigmaOf(s.projects, p), Registered(s.journal, p, a).value, SlashCount(s.journal, p, a))
  {
    hide Based, Books, Tallied, Logged, Scheduled, StatusFits, SlashesCounted, StakeConserved, Erode, Registered;
    hide SlashCount;
  }

  /**
   After `k` rejections against it, a builder's stake is its registered stake eroded `k` times, within the
   accumulated rounding of the exact share, and not zero unless one slash takes everything.
   */
  lemma StakeAfterRejections(verify: Verifier, s: State, p: ProjectId, a: AccountId)
    requires Reached(verify, s) && (p, a) in s.stakeholders
    ensures Registered(s.journal, p, a).Some?
    ensures var k, sigma := RejectedCount(s.proposals, p, a), SigmaOf(s.projects, p);
      var s0, stake := Registered(s.journal, p, a).value, s.stakeholders[(p, a)].stake;
      && s0 * Pow(ACCURACY - sigma, k) <= stake * Pow(ACCURACY, k)
      && stake * Pow(ACCURACY, k) <= s0 * Pow(ACCURACY - sigma, k) + Rounding(sigma, k)
      && (0 < k ==> stake * Pow(ACCURACY, k) < s0 * Pow(ACCURACY - sigma, k) + Rounding(sigma, k))
      && (sigma < ACCURACY && 0 < s0 ==> 0 < stake)
  {
    hide Reached, Sound, Pow, Rounding, RejectedCount;
    ReachedSound(verify, s);
    var k, sigma := RejectedCount(s.proposals, p, a), SigmaOf(s.projects, p);
    SlashesAreRejections(verify, s, p, a);
    StakeIsEroded(verify, s, p, a);
    var s0 := Registered(s.journal, p, a).value;
    ErosionBounds(sigma, s0, k);
    if sigma < ACCURACY && 0 < s0 {
      ErosionNeverEmpties(sigma, s0, k);
    }
  }

  /** One account's part in the ledger, with its stake hold and bond hold changed. */
  ghost predicate HoldsChanged(l: Ledger, m: Ledger, builder: AccountId, share: nat, proposer: AccountId, bond: nat) {
    && (forall a :: Held(m, Stake, a) + (if a == builder then share else 0) == Held(l, Stake, a))
    && (forall a :: Held(m, ProposalBond, a) + (if a == proposer then bond else 0) == Held(l, ProposalBond, a))
    && (forall a :: ValueAt(m.free, a) == ValueAt(l.free, a) + if a == proposer then bond else 0)
    && m.issuance + share == l.issuance
  }

  ghost predicate RoleStakeChanged(before: map<(ProjectId, Role), Balance>, after: map<(ProjectId, Role), Balance>,
                                   p: ProjectId, share: nat) {
    forall q, r ::
      RoleStakeOf(after, q, r) + (if q == p && r == BuildService then share else 0) == RoleStakeOf(before, q, r)
  }

  lemma BurnChangesHolds(l: Ledger, builder: AccountId, share: nat)
    requires share <= Held(l, Stake, builder) <= l.issuance
    ensures HoldsChanged(l, BurnHeld(l, Stake, builder, share), builder, share, builder, 0)
  {
  }

  lemma ReleaseChangesHolds(l: Ledger, proposer: AccountId, bond: nat)
    requires bond <= Held(l, ProposalBond, proposer)
    ensures HoldsChanged(l, Release(l, ProposalBond, proposer, bond), proposer, 0, proposer, bond)
  {
  }

  lemma HoldsCompose(l: Ledger, m: Ledger, n: Ledger, builder: AccountId, share: nat, proposer: AccountId, bond: nat)
    requires HoldsChanged(l, m, builder, share, builder, 0) && HoldsChanged(m, n, proposer, 0, proposer, bond)
    ensures HoldsChanged(l, n, builder, share, proposer, bond)
  {
  }

  lemma HeldWithinIssuance(s: State, a: AccountId)
    requires Books(s)
    ensures Held(s.ledger, Stake, a) <= s.ledger.issuance
  {
    hide RoleStakeExact, Escrowed, Bonded;
    SumMember(s.ledger.stakeHold, a);
  }

  lemma PunishmentExact(verify: Verifier, s: State, id: ProposalId)
    requires Books(s) && Challengeable(verify, s, id)
    ensures var v := s.proposals[id];
      var k := (v.projectId, v.attestation.builder);
      k in s.stakeholders && v.projectId in s.projects
      && var share := MulFloor(s.projects[v.projectId].slashing.sigmaNeg, s.stakeholders[k].stake);
      var t := Rejecting(verify, s, id);
      && HoldsChanged(s.ledger, t.ledger, v.attestation.builder, share, v.proposer, v.bond)
      && RoleStakeChanged(s.roleStake, t.roleStake, v.projectId, share)
  {
    hide RoleStakeExact, Escrowed, Bonded, Conserved, SignedBy, MulFloor, HoldsChanged, Release, BurnHeld;
    var v := s.proposals[id];
    var sigma := s.projects[v.projectId].slashing.sigmaNeg;
    var builder := v.attestation.builder;
    var share := MulFloor(sigma, s.stakeholders[(v.projectId, builder)].stake);
    var s1 := Punished(verify, s, id);
    PunishedShape(verify, s, id);
    SlashExact(s, v.projectId, builder, sigma);
    StakeBacked(s, v.projectId, builder);
    HeldWithinIssuance(s, builder);
    BurnChangesHolds(s.ledger, builder, share);
    SlashKeepsBooks(s, v.projectId, builder, sigma);
    BondBacked(s1, id);
    ReleaseChangesHolds(s1.ledger, v.proposer, v.bond);
    HoldsCompose(s.ledger, s1.ledger, Rejecting(verify, s, id).ledger, builder, share, v.proposer, v.bond);
  }

  lemma RecordKeepsLedger(s: State, id: ProposalId, who: AccountId, attested: Hash32, rebuilt: Hash32)
    ensures var t := RecordCounter(s, id, who, attested, rebuilt); t.ledger == s.ledger && t.roleStake == s.roleStake
  {
  }

  lemma CounterBurnsShare(verify: Verifier, s: State, origin: Origin, id: ProposalId, rebuilt: Hash32)
    requires Sound(verify, s) && SubmitCounterAttestation(s, origin, id, rebuilt).Ok?
    ensures var t := SubmitCounterAttestation(s, origin, id, rebuilt).value;
      var v := s.proposals[id];
      var k := (v.projectId, v.attestation.builder);
      k in s.stakeholders && v.projectId in s.projects
      && var share := MulFloor(s.projects[v.projectId].slashing.sigmaNeg, s.stakeholders[k].stake);
      && HoldsChanged(s.ledger, t.ledger, v.attestation.builder, share, v.proposer, v.bond)
      && RoleStakeChanged(s.roleStake, t.roleStake, v.projectId, share)
  {
    hide Sound, SubmitCounterAttestation, Rejecting, MulFloor, Books, ProposalRooted, Challenge, RecordCounter;
    hide Based, Chronicled, Tallied, Logged, StatusesFit, Scheduled, HoldsChanged, RoleStakeChanged;
    CounterGuards(s, origin, id, rebuilt);
    RootedAt(verify, s, id);
    CounterIsRejecting(verify, s, origin, id, rebuilt);
    ChallengedFrame(verify, s, id, origin.who, rebuilt);
    var s1 := Challenge(s, id, origin.who, rebuilt);
    PunishmentExact(verify, s1, id);
    RecordKeepsLedger(Rejecting(verify, s1, id), id, origin.who, s.proposals[id].attestation.outputBinaryHash, rebuilt);
  }

  /**
   An accepted counter-attestation burns exactly the whole units of `sigma_neg * stake` of the builder's stake hold,
   out of its project stake, its role's stake and the issuance alike; it pays the proposer's whole bond
   back; and no other hold, balance or role stake changes, in this project or another.
   */
  lemma CounterBurnsExactly(verify: Verifier, s: State, origin: Origin, id: ProposalId, rebuilt: Hash32)
    returns (share: nat)
    requires Reached(verify, s) && Apply(verify, s, origin, CallCounter(id, rebuilt)).Ok?
    ensures var t := After(verify, s, Dispatch(origin, CallCounter(id, rebuilt)));
      var v := s.proposals[id];
      var k := (v.projectId, v.attestation.builder);
      k in s.stakeholders && v.projectId in s.projects
      && share * 1_000_000_000 <= s.projects[v.projectId].slashing.sigmaNeg * s.stakeholders[k].stake
           < (share + 1) * 1_000_000_000
      && HoldsChanged(s.ledger, t.ledger, v.attestation.builder, share, v.proposer, v.bond)
      && RoleStakeChanged(s.roleStake, t.roleStake, v.projectId, share)
  {
    hide Reached, Sound, SubmitCounterAttestation, MulFloor, HoldsChanged, RoleStakeChanged;
    ReachedSound(verify, s);
    CounterGuards(s, origin, id, rebuilt);
    CounterBurnsShare(verify, s, origin, id, rebuilt);
    var v := s.proposals[id];
    var stake := s.stakeholders[(v.projectId, v.attestation.builder)].stake;
    share := MulFloor(s.projects[v.projectId].slashing.sigmaNeg, stake);
    FloorShare(s.projects[v.projectId].slashing.sigmaNeg, stake);
  }

  // The block loop

  /** A project's entries for a bucket, if all its proposals in it are enacted. */
  ghost function OwnEntries(s: State, ids: seq<ProposalId>, p: ProjectId, now: BlockNumber): seq<ReleaseEntry>
    requires AllKnown(s, ids)
  {
    if ids == [] then []
    else
      (if s.proposals[ids[0]].projectId == p then [EntryFor(ids[0], s.proposals[ids[0]], now)] else [])
      + OwnEntries(s, ids[1..], p, now)
  }

  /** A project adds its whole part of the bucket or nothing of it. */
  lemma {:induction false} AllOrNothing(s: State, ids: seq<ProposalId>, p: ProjectId, now: BlockNumber, all: bool)
    requires AllKnown(s, ids) && forall id :: id in ids && s.proposals[id].projectId == p ==> (Meets(s, id) <==> all)
    ensures Additions(s, ids, p, now) == if all then OwnEntries(s, ids, p, now) else []
  {
    hide MeetsQuorums;
    if ids != [] {
      AllOrNothing(s, ids[1..], p, now, all);
    }
  }

  /** A slash cannot empty any required role of the project. */
  ghost predicate LastingProject(s: State, p: ProjectId) {
    && p in s.projects
    && forall rq :: rq in s.projects[p].policy.requiredRoles ==> Lasting(s.projects[p], rq.role)
  }

  lemma LastingStaffs(verify: Verifier, s: State, p: ProjectId)
    requires Sound(verify, s) && LastingProject(s, p)
    ensures AllStaked(s.roleStake, p, RequiredOf(s.projects, p))
  {
    hide Numbered, Rooted, Countered, Books, Chronicled, Tallied, Logged, Scheduled, StatusFits;
  }

  lemma DueMeets(verify: Verifier, s: State, id: ProposalId, b: BlockNumber)
    requires Reached(verify, s) && id in s.proposals && id in Bucket(s.pending, b)
    ensures var p := s.proposals[id].projectId;
      Meets(s, id) <==> AllStaked(s.roleStake, p, RequiredOf(s.projects, p))
  {
    hide Reached, Sound, Meets, Bucket, AllStaked;
    ReachedSound(verify, s);
    ScheduleAgrees(verify, s, id, b);
    ApprovedMeets(verify, s, id);
  }

  lemma {:induction false} OwnEntriesAlike(s: State, t: State, ids: seq<ProposalId>, p: ProjectId, now: BlockNumber)
    requires AllKnown(s, ids) && t.proposals == s.proposals
    ensures AllKnown(t, ids) && OwnEntries(t, ids, p, now) == OwnEntries(s, ids, p, now)
  {
    if ids != [] {
      OwnEntriesAlike(s, t, ids[1..], p, now);
    }
  }

  lemma LogsAlike(s: State, t: State, p: ProjectId)
    requires LogDense(s.releaseCount, s.releaseLog)
    requires t.releaseCount == s.releaseCount && t.releaseLog == s.releaseLog
    ensures LogOf(t, p) == LogOf(s, p)
  {
    hide LogDense;
  }

  /**
   The re-check in `enact` fails for a due proposal if and only if slashes have taken all the stake of a required
   role of its project. Otherwise every due proposal is enacted: the log grows by exactly those, in bucket order.
   In either case the other proposals of the project do not change. A required role can lose all its stake only
   if it is that of Build Services and one slash takes everything.
   */
  lemma DueAreEnacted(verify: Verifier, s: State, p: ProjectId)
    requires Reached(verify, s) && Admissible(s, NextBlock)
    ensures var now := s.now + 1;
      var t := After(verify, s, NextBlock);
      var ids := Bucket(s.pending, now);
      var staffed := AllStaked(s.roleStake, p, RequiredOf(s.projects, p));
      && AllKnown(s, ids)
      && LogDense(s.releaseCount, s.releaseLog) && LogDense(t.releaseCount, t.releaseLog)
      && LogOf(t, p) == LogOf(s, p) + (if staffed then OwnEntries(s, ids, p, now) else [])
      && (forall id :: id in s.proposals && s.proposals[id].projectId == p ==>
           && id in t.proposals
           && t.proposals[id] == s.proposals[id].(status :=
                if id !in ids then s.proposals[id].status
                else if staffed then ProposalStatus.Enacted
                else Voting))
      && (LastingProject(s, p) ==> staffed)
  {
    hide Reached, Sound, After, MeetsQuorums, LogDense, Bucket, AllStaked;
    ReachedSound(verify, s);
    var now := s.now + 1;
    var s1 := s.(now := now, pending := s.pending - {now});
    var t := After(verify, s, NextBlock);
    var ids := Bucket(s.pending, now);
    var staffed := AllStaked(s.roleStake, p, RequiredOf(s.projects, p));
    BlockLoopEffect(verify, s);
    forall id | id in ids && s.proposals[id].projectId == p ensures Meets(s1, id) <==> staffed {
      DueMeets(verify, s, id, now);
    }
    hide Meets;
    AllOrNothing(s1, ids, p, now, staffed);
    OwnEntriesAlike(s, s1, ids, p, now);
    LogsAlike(s, s1, p);
    if LastingProject(s, p) {
      LastingStaffs(verify, s, p);
    }
  }

  // The release log

  lemma SoundLog(verify: Verifier, s: State)
    requires Sound(verify, s)
    ensures Logged(s) && LogDense(s.releaseCount, s.releaseLog)
  {
    hide LogDense, LogFaithful, LogOrdered, LogComplete;
  }

  lemma PrefixKept(s: State, t: State, p: ProjectId)
    requires LogKept(s.releaseLog, t.releaseLog)
    requires LogDense(s.releaseCount, s.releaseLog) && LogDense(t.releaseCount, t.releaseLog)
    ensures LogOf(s, p) <= LogOf(t, p)
  {
    var n := CountOf(s.releaseCount, p);
    if n > 0 {
      assert (p, n - 1) in s.releaseLog;
      assert (p, n - 1) in t.releaseLog;
    }
    forall i: nat | i < n ensures i < |LogOf(t, p)| && LogOf(t, p)[i] == LogOf(s, p)[i] {
      assert (p, i) in s.releaseLog;
    }
  }

  /**
   The Official Release Log only grows: over every run the earlier log of a project is a prefix of the
   later one.
   */
  lemma LogOnlyGrows(verify: Verifier, s: State, steps: seq<Step>, p: ProjectId)
    requires Reached(verify, s) && AdmissibleRun(verify, s, steps)
    ensures var t := Run(verify, s, steps);
      && LogDense(s.releaseCount, s.releaseLog) && LogDense(t.releaseCount, t.releaseLog)
      && LogOf(s, p) <= LogOf(t, p)
  {
    hide Reached, Sound, Run, AdmissibleRun, LogDense;
    ReachedSound(verify, s);
    var t := Run(verify, s, steps);
    RunKeepsSound(verify, s, steps);
    RunEvolves(verify, s, steps);
    SoundLog(verify, s);
    SoundLog(verify, t);
    PrefixKept(s, t, p);
  }

  /**
   A project's log lists each of its enacted proposals exactly once and nothing else, in order of
   enactment; every entry carries that proposal's version, hashes and content address.
   */
  lemma LogListsEnacted(verify: Verifier, s: State, p: ProjectId)
    requires Reached(verify, s)
    ensures LogDense(s.releaseCount, s.releaseLog)
    ensures NoRepeats(LogIds(s, p))
    ensures forall id :: id in LogIds(s, p) <==>
      id in s.proposals && s.proposals[id].projectId == p && s.proposals[id].status.Enacted?
    ensures forall i: nat :: i < |LogOf(s, p)| ==>
      var e := LogOf(s, p)[i];
      && e.proposalId in s.proposals
      && e == EntryFor(e.proposalId, s.proposals[e.proposalId], e.enactedAt)
      && e.enactedAt <= s.now
    ensures forall i: nat, j: nat :: i < j < |LogOf(s, p)| ==> LogOf(s, p)[i].enactedAt <= LogOf(s, p)[j].enactedAt
  {
    hide Reached, Sound, LogComplete;
    ReachedSound(verify, s);
    SoundLog(verify, s);
    LogIdsDistinct(s, p);
    LogIdsEnacted(s, p);
    forall i: nat | i < |LogOf(s, p)| ensures (p, i) in s.releaseLog && LogOf(s, p)[i] == s.releaseLog[(p, i)] {
      assert (p, i) in s.releaseLog;
    }
    hide LogDense;
  }

  /**
   Every released entry goes back to a proposal made by a Core Developer of the project over an
   attestation that one of its Build Services signed.
   */
  lemma ReleasesAreSigned(verify: Verifier, s: State, p: ProjectId, i: nat)
    requires Reached(verify, s) && (p, i) in s.releaseLog
    ensures var e := s.releaseLog[(p, i)];
      e.proposalId in s.proposals
      && var v := s.proposals[e.proposalId];
      && v.projectId == p
      && e.version == v.version && e.attestationCid == v.attestationCid
      && e.outputBinaryHash == v.attestation.outputBinaryHash && e.sourceCommitHash == v.attestation.sourceCommitHash
      && HasRole(s.stakeholders, p, v.proposer, CoreDeveloper)
      && HasRole(s.stakeholders, p, v.attestation.builder, BuildService)
      && SignedBy(verify, v.attestation)
  {
    hide Reached, Sound;
    ReachedSound(verify, s);
    EntryOf(verify, s, p, i);
    RootedAt(verify, s, s.releaseLog[(p, i)].proposalId);
  }

  lemma SamePayload(a: BuildAttestation, b: BuildAttestation)
    requires a == b.(builder := a.builder)
    ensures SigningPayload(a) == SigningPayload(b)
  {
  }

  lemma PayloadLayout(a: BuildAttestation)
    ensures var x := SigningPayload(a);
      && |x| == 128
      && x[0..32] == a.sourceCommitHash && x[32..64] == a.sourceTreeHash
      && x[64..96] == a.buildEnvironmentHash && x[96..128] == a.outputBinaryHash
  {
  }

  /** The signed bytes fix all four digests, and say nothing of who is named as the builder. */
  lemma PayloadFixesDigests(a: BuildAttestation, b: BuildAttestation)
    ensures SigningPayload(a) == SigningPayload(b) <==> a == b.(builder := a.builder)
  {
    PayloadLayout(a);
    PayloadLayout(b);
    hide SigningPayload;
    if a == b.(builder := a.builder) {
      assert SigningPayload(a) == SigningPayload(b) by { SamePayload(a, b); }
    }
  }
}
