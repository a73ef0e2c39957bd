/** What every call accepts and what it writes, in plain numbers and in terms of the storage before it. */
module Outcomes {
  import opened Types
  import opened Sums
  import opened Currency
  import opened Protocol
  import opened Slashing
  import opened Accounting
  import opened History
  import opened Ballots
  import opened Schedule
  import opened Releases
  import opened Invariant
  import opened Voting
  import opened Runs
  import opened Evolution
  import opened Quorum
  import opened Liveness
  import opened Electorate

  // submit_counter_attestation

  lemma BurnKeepsRest(l: Ledger, who: AccountId, amount: nat)
    ensures var m := BurnHeld(l, Stake, who, amount); m.free == l.free && m.bondHold == l.bondHold
  {
  }

  lemma WholeBond(l: Ledger, who: AccountId, bond: nat)
    requires bond <= Held(l, ProposalBond, who)
    ensures Release(l, ProposalBond, who, bond).free == l.free[who := ValueAt(l.free, who) + bond]
  {
  }

  /** The storage an accepted counter-attestation leaves, but for the role stakes and holds. */
  ghost predicate CounterWritten(s: State, t: State, id: ProposalId, who: AccountId, rebuilt: Hash32, share: nat)
    requires id in s.proposals
  {
    var v := s.proposals[id];
    var k := (v.projectId, v.attestation.builder);
    var attested := v.attestation.outputBinaryHash;
    && k in s.stakeholders && share <= s.stakeholders[k].stake
    && t == s.(
         pending := WithoutApproval(s.pending, id, v.status),
         stakeholders := s.stakeholders[k := s.stakeholders[k].(stake := s.stakeholders[k].stake - share)],
         proposals := s.proposals[id := v.(status := Rejected)],
         counterAttestations := s.counterAttestations[id := CounterAttestation(who, attested, rebuilt)],
         journal := Deposit(Deposit(Deposit(s.journal,
           CounterAttestationAccepted(id, who, attested, rebuilt)),
           BuildServiceSlashed(v.projectId, v.attestation.builder, share, s.stakeholders[k].stake - share)),
           ProposalRejected(id)),
         roleStake := t.roleStake, ledger := t.ledger)
    && t.ledger.free == s.ledger.free[v.proposer := ValueAt(s.ledger.free, v.proposer) + v.bond]
  }

  lemma CounterWrites(s: State, origin: Origin, id: ProposalId, rebuilt: Hash32) returns (share: nat)
    requires Books(s) && SubmitCounterAttestation(s, origin, id, rebuilt).Ok?
    ensures origin.Signed? && id in s.proposals && s.proposals[id].projectId in s.projects
    ensures var v := s.proposals[id];
      CounterWritten(s, SubmitCounterAttestation(s, origin, id, rebuilt).value, id, origin.who, rebuilt, share)
      && share * 1_000_000_000
           <= s.projects[v.projectId].slashing.sigmaNeg * s.stakeholders[(v.projectId, v.attestation.builder)].stake
           < (share + 1) * 1_000_000_000
  {
    hide Books, MulFloor, BurnHeld, Release, WithoutApproval;
    var v := s.proposals[id];
    var sigma := s.projects[v.projectId].slashing.sigmaNeg;
    var stake := s.stakeholders[(v.projectId, v.attestation.builder)].stake;
    share := MulFloor(sigma, stake);
    FloorShare(sigma, stake);
    SlashExact(s, v.projectId, v.attestation.builder, sigma);
    var l := BurnHeld(s.ledger, Stake, v.attestation.builder, share);
    BurnKeepsRest(s.ledger, v.attestation.builder, share);
    BondBacked(s, id);
    WholeBond(l, v.proposer, v.bond);
  }

  lemma IssuanceDropsBy(s: State, t: State, id: ProposalId, who: AccountId, rebuilt: Hash32, share: nat)
    requires id in s.proposals && CounterWritten(s, t, id, who, rebuilt, share) && Evolves(s, t)
    ensures t.ledger.issuance + share == s.ledger.issuance
    ensures t.counterAttestations == s.counterAttestations[id :=
      CounterAttestation(who, s.proposals[id].attestation.outputBinaryHash, rebuilt)]
  {
    hide RegistryKept, ElectorateFixed, ProposalsKept, LogKept, ProjectsKept, CountersKept, Grown, WithoutApproval;
    var j2 := t.journal.past;
    assert Slashed(t.journal) == Slashed(j2);
    assert Slashed(j2) == Slashed(j2.past) + share;
    assert Slashed(j2.past) == Slashed(s.journal);
  }

  /**
   Whom and what an accepted counter-attestation records, and what it takes: the record names the caller, the
   attested and the rebuilt hash; the builder's stake and the issuance drop by the whole units of the share; the
   proposal is rejected and its bond paid; nothing else changes.
   */
  lemma CounterOutcome(verify: Verifier, s: State, who: AccountId, id: ProposalId, rebuilt: Hash32)
    returns (share: nat)
    requires Reached(verify, s) && Apply(verify, s, Signed(who), CallCounter(id, rebuilt)).Ok?
    ensures id in s.proposals && s.proposals[id].projectId in s.projects
    ensures var t := After(verify, s, Dispatch(Signed(who), CallCounter(id, rebuilt)));
      var v := s.proposals[id];
      && CounterWritten(s, t, id, who, rebuilt, share)
      && t.counterAttestations
           == s.counterAttestations[id := CounterAttestation(who, v.attestation.outputBinaryHash, rebuilt)]
      && t.ledger.issuance + share == s.ledger.issuance
      && share * 1_000_000_000
           <= s.projects[v.projectId].slashing.sigmaNeg * s.stakeholders[(v.projectId, v.attestation.builder)].stake
           < (share + 1) * 1_000_000_000
  {
    hide Reached, Sound, SubmitCounterAttestation, Books, Tallied, CounterWritten, Evolves;
    ReachedSound(verify, s);
    BooksAndTallies(verify, s);
    share := CounterWrites(s, Signed(who), id, rebuilt);
    var t := After(verify, s, Dispatch(Signed(who), CallCounter(id, rebuilt)));
    StepEvolves(verify, s, Dispatch(Signed(who), CallCounter(id, rebuilt)));
    IssuanceDropsBy(s, t, id, who, rebuilt, share);
  }

  // close_expired

  /** Expiry is accepted exactly after the end of the vote on an open proposal; it pays the bond and closes it. */
  lemma ExpiryOutcome(verify: Verifier, s: State, origin: Origin, id: ProposalId)
    requires Reached(verify, s)
    ensures var r := Apply(verify, s, origin, CallCloseExpired(id));
      && (r.Ok? <==>
            origin.Signed? && id in s.proposals && s.proposals[id].status.Voting? && s.proposals[id].votingEnds < s.now)
      && (r.Ok? ==>
            var t, v := After(verify, s, Dispatch(origin, CallCloseExpired(id))), s.proposals[id];
            && t == s.(proposals := s.proposals[id := v.(status := Expired)],
                       journal := Deposit(s.journal, ProposalExpired(id)), ledger := t.ledger)
            && t.ledger.free == s.ledger.free[v.proposer := ValueAt(s.ledger.free, v.proposer) + v.bond])
  {
    hide Reached, Sound, Books, Tallied, Release;
    ReachedSound(verify, s);
    BooksAndTallies(verify, s);
    if CloseExpired(s, origin, id).Ok? {
      BondBacked(s, id);
      WholeBond(s.ledger, s.proposals[id].proposer, s.proposals[id].bond);
    }
  }

  // vote and new_release

  /** The proposals approved for one block. */
  ghost function ApprovedFor(proposals: Proposals, b: BlockNumber): set<ProposalId> {
    set id | id in proposals && proposals[id].status == Approved(b)
  }

  /** A bucket is as long as there are proposals approved for its block, at most 32. */
  lemma BucketCounts(s: State, b: BlockNumber)
    requires Indexed(s.pending, s.proposals) && BucketsBounded(s.pending)
    ensures |Bucket(s.pending, b)| == |ApprovedFor(s.proposals, b)| <= 32
  {
    assert NoRepeats(Bucket(s.pending, b));
    DistinctAsSet(Bucket(s.pending, b));
    assert Elements(Bucket(s.pending, b)) == ApprovedFor(s.proposals, b);
  }

  /** At every time at most 32 proposals are approved for the same block. */
  lemma AtMostThirtyTwo(verify: Verifier, s: State, b: BlockNumber)
    requires Reached(verify, s)
    ensures |ApprovedFor(s.proposals, b)| == |Bucket(s.pending, b)| <= 32
  {
    hide Reached, Sound, Timely, StatusFits;
    ReachedSound(verify, s);
    ScheduleOf(verify, s);
    hide Indexed, BucketsBounded;
    BucketCounts(s, b);
  }

  /** The vote and the status it leaves are written; tallies, schedule and events follow. */
  ghost predicate BallotWritten(s: State, t: State, id: ProposalId, who: AccountId, aye: bool, status: ProposalStatus)
    requires id in s.proposals
  {
    t == s.(votes := s.votes[(id, who) := aye], proposals := s.proposals[id := s.proposals[id].(status := status)],
            tallies := t.tallies, pending := t.pending, journal := t.journal)
  }

  lemma ApproveOutcome(s: State, id: ProposalId, b: BlockNumber)
    requires id in s.proposals
    ensures Approve(s, id, b).Err? <==> 32 <= |Bucket(s.pending, b)|
    ensures Approve(s, id, b).Err? ==> Approve(s, id, b) == Err(TooManyEnactments)
    ensures Approve(s, id, b).Ok? ==> OnlyStatus(s, Approve(s, id, b).value, id, Approved(b))
  {
    hide OnlyStatus, Bucket;
    if Approve(s, id, b).Ok? {
      ApproveShape(s, id, b);
    }
  }

  lemma ReconsiderOutcome(s: State, id: ProposalId, p: ProjectId, policy: ReleasePolicy)
    requires id in s.proposals && Live(s.proposals[id].status)
    requires Indexed(s.pending, s.proposals) && BucketsBounded(s.pending)
    ensures var due :=
        if s.now + policy.enactmentDelay <= 4_294_967_295 then s.now + policy.enactmentDelay else 4_294_967_295;
      var met := MeetsQuorums(s.roleStake, s.tallies, policy.requiredRoles, p, id);
      var status := s.proposals[id].status;
      var full := status.Voting? && met && |ApprovedFor(s.proposals, due)| == 32;
      var r := Reconsider(s, id, p, policy);
      && (r.Err? <==> full) && (full ==> r == Err(TooManyEnactments))
      && (r.Ok? ==>
            r.value == s.(proposals := s.proposals[id := s.proposals[id].(status :=
                            if !met then Voting else if status.Voting? then Approved(due) else status)],
                          pending := r.value.pending, journal := r.value.journal))
  {
    hide MeetsQuorums, Indexed, BucketsBounded, Bucket, Without, ApprovedFor, Approve, Revoke;
    var due := BlockAdd(s.now, policy.enactmentDelay);
    BucketCounts(s, due);
    ApproveOutcome(s, id, due);
    if s.proposals[id].status.Approved? {
      RevokeShape(s, id, s.proposals[id].status.enactAt);
    }
    assert s.proposals[id := s.proposals[id].(status := s.proposals[id].status)] == s.proposals;
  }

  lemma ScheduleOfFrame(verify: Verifier, s: State, horizon: BlockNumber)
    requires Frame(verify, s, horizon)
    ensures Indexed(s.pending, s.proposals) && BucketsBounded(s.pending)
  {
    hide Books, Tallied, Based, Chronicled, Logged, Indexed, BucketsBounded, Timely;
  }

  lemma VoteLosesNothing(s: State, id: ProposalId, who: AccountId, voter: Stakeholder, aye: bool)
    requires id in s.proposals
    ensures LostAyes(RecordVote(s, id, who, voter, aye), id) == LostAyes(s, id)
  {
    hide MoveVote, TallyOf;
  }

  lemma BallotOutcome(verify: Verifier, s: State, id: ProposalId, who: AccountId, aye: bool)
    requires Frame(verify, s, s.now + 1) && id in s.proposals && Live(s.proposals[id].status)
    requires s.proposals[id].projectId in s.projects && (s.proposals[id].projectId, who) in s.stakeholders
    ensures var p := s.proposals[id].projectId;
      var policy := s.projects[p].policy;
      var due :=
        if s.now + policy.enactmentDelay <= 4_294_967_295 then s.now + policy.enactmentDelay else 4_294_967_295;
      var met := Backed(s.stakeholders, s.votes[(id, who) := aye], LostAyes(s, id), policy.requiredRoles, p, id);
      var status := s.proposals[id].status;
      var full := status.Voting? && met && |ApprovedFor(s.proposals, due)| == 32;
      var r := DoVote(s, id, p, policy, who, s.stakeholders[(p, who)], aye);
      && (r.Err? <==> full) && (full ==> r == Err(TooManyEnactments))
      && (r.Ok? ==>
            BallotWritten(s, r.value, id, who, aye,
                          if !met then Voting else if status.Voting? then Approved(due) else status))
  {
    hide Frame, Books, Tallied, MeetsQuorums, Backed, Reconsider, MoveVote, Indexed, BucketsBounded, LostAyes;
    hide ApprovedFor;
    var p := s.proposals[id].projectId;
    var s1 := RecordVote(s, id, who, s.stakeholders[(p, who)], aye);
    RecordKeepsFrame(verify, s, s.now + 1, id, who, aye);
    BooksOfFrame(verify, s1, s.now + 1);
    ScheduleOfFrame(verify, s1, s.now + 1);
    VerdictFromBooks(s1, id);
    VoteLosesNothing(s, id, who, s.stakeholders[(p, who)], aye);
    ReconsiderOutcome(s1, id, p, s.projects[p].policy);
  }

  /**
   A vote is accepted exactly from a registered stakeholder on a live proposal before the end of the vote, unless it
   newly meets the quorums while 32 proposals are approved for the block the approval would be due. It leaves the
   proposal approved if the quorums are met, for the block `enactmentDelay` blocks on if it was not before.
   */
  lemma VoteOutcome(verify: Verifier, s: State, who: AccountId, id: ProposalId, aye: bool)
    requires Reached(verify, s) && id in s.proposals
    ensures s.proposals[id].projectId in s.projects
    ensures var p, v := s.proposals[id].projectId, s.proposals[id];
      var policy := s.projects[p].policy;
      var due :=
        if s.now + policy.enactmentDelay <= 4_294_967_295 then s.now + policy.enactmentDelay else 4_294_967_295;
      var met := Backed(s.stakeholders, s.votes[(id, who) := aye], LostAyes(s, id), policy.requiredRoles, p, id);
      var open := Live(v.status) && s.now <= v.votingEnds && (p, who) in s.stakeholders;
      var full := v.status.Voting? && met && |ApprovedFor(s.proposals, due)| == 32;
      var r := Apply(verify, s, Signed(who), CallVote(id, aye));
      && (r.Ok? <==> open && !full)
      && (r == Err(TooManyEnactments) <==> open && full)
      && (r.Ok? ==>
            BallotWritten(s, After(verify, s, Dispatch(Signed(who), CallVote(id, aye))), id, who, aye,
                          if !met then Voting else if v.status.Voting? then Approved(due) else v.status))
  {
    hide Reached, Sound, Frame, DoVote, Backed, LostAyes, BallotWritten, ApprovedFor, SignedBy;
    ReachedSound(verify, s);
    FrameOf(verify, s);
    RootedAt(verify, s, id);
    var v := s.proposals[id];
    if Live(v.status) && (v.projectId, who) in s.stakeholders {
      BallotOutcome(verify, s, id, who, aye);
    }
  }

  lemma HoldOutcome(l: Ledger, who: AccountId, amount: nat)
    ensures Hold(l, ProposalBond, who, amount).Ok? <==> amount <= ValueAt(l.free, who)
    ensures Hold(l, ProposalBond, who, amount).Ok? ==>
      Hold(l, ProposalBond, who, amount).value.free == l.free[who := ValueAt(l.free, who) - amount]
    ensures Hold(l, ProposalBond, who, amount).Err? ==>
      Hold(l, ProposalBond, who, amount) == Err(InsufficientBalance)
  {
  }

  /** A developer of the project proposes a build of one of its Build Services, signed by it, and can pay the bond. */
  predicate Proposable(verify: Verifier, s: State, who: AccountId, p: ProjectId, a: BuildAttestation,
                       signature: Signature)
  {
    && p in s.projects
    && (p, who) in s.stakeholders && s.stakeholders[(p, who)].role == CoreDeveloper
    && (p, a.builder) in s.stakeholders && s.stakeholders[(p, a.builder)].role == BuildService
    && verify(signature, a.sourceCommitHash + a.sourceTreeHash + a.buildEnvironmentHash + a.outputBinaryHash, a.builder)
    && s.projects[p].proposalBond <= ValueAt(s.ledger.free, who)
  }

  /** The storage a new release leaves, but for holds, tallies, schedule and events. */
  ghost predicate ReleaseWritten(s: State, t: State, id: ProposalId, v: Proposal) {
    && t == s.(nextProposalId := id + 1, proposals := s.proposals[id := v], votes := s.votes[(id, v.proposer) := true],
               ledger := t.ledger, tallies := t.tallies, pending := t.pending, journal := t.journal)
    && v.bond <= ValueAt(s.ledger.free, v.proposer)
    && t.ledger.free == s.ledger.free[v.proposer := ValueAt(s.ledger.free, v.proposer) - v.bond]
  }

  lemma SignedPayload(verify: Verifier, a: BuildAttestation, signature: Signature)
    requires verify(signature, a.sourceCommitHash + a.sourceTreeHash + a.buildEnvironmentHash + a.outputBinaryHash,
                    a.builder)
    ensures verify(signature, SigningPayload(a), a.builder) && SignedBy(verify, a)
  {
  }

  lemma UnproposableFails(verify: Verifier, s: State, who: AccountId, p: ProjectId, version: seq<byte>,
                          attestation: BuildAttestation, cid: Hash32, signature: Signature)
    requires !Proposable(verify, s, who, p, attestation, signature)
    ensures var r := NewRelease(verify, s, Signed(who), p, version, attestation, cid, signature);
      r.Err? && r != Err(TooManyEnactments)
  {
    hide DoVote, Hold;
    if p in s.projects {
      HoldOutcome(s.ledger, who, s.projects[p].proposalBond);
    }
  }

  lemma ProposedLosesNothing(s: State, t: State, id: ProposalId, p: ProjectId)
    requires Tallied(s) && id !in s.proposals && id in t.proposals && t.proposals[id].projectId == p
    requires t.journal.Deposit? && t.journal.past == s.journal && t.journal.event.ReleaseProposed?
    ensures LostAyes(t, id) == 0
  {
    hide Tallied;
    FreshLosses(s, id, p);
  }

  lemma NotYetApproved(proposals: Proposals, id: ProposalId, v: Proposal, b: BlockNumber)
    requires id !in proposals && v.status.Voting?
    ensures ApprovedFor(proposals[id := v], b) == ApprovedFor(proposals, b)
  {
  }

  /** The storage after the proposal is inserted and before its vote. */
  lemma ProposedFrame(verify: Verifier, s: State, who: AccountId, p: ProjectId, version: seq<byte>,
                      attestation: BuildAttestation, cid: Hash32, signature: Signature) returns (l: Ledger)
    requires Sound(verify, s) && s.nextProposalId < 4_294_967_295
    requires Proposable(verify, s, who, p, attestation, signature)
    ensures var bond := s.projects[p].proposalBond;
      bond <= ValueAt(s.ledger.free, who) && l.free == s.ledger.free[who := ValueAt(s.ledger.free, who) - bond]
    ensures var id := s.nextProposalId;
      var s1 := Propose(s, who, p, version, attestation, cid, l);
      && id !in s.proposals && Frame(verify, s1, s1.now + 1) && LostAyes(s1, id) == 0
      && (forall b :: ApprovedFor(s1.proposals, b) == ApprovedFor(s.proposals, b))
      && NewRelease(verify, s, Signed(who), p, version, attestation, cid, signature)
           == DoVote(s1, id, p, s.projects[p].policy, who, s.stakeholders[(p, who)], true)
  {
    hide Sound, Frame, DoVote, ApprovedFor, Hold, Tallied, Books, LostAyes;
    var id := s.nextProposalId;
    HoldOutcome(s.ledger, who, s.projects[p].proposalBond);
    l := Hold(s.ledger, ProposalBond, who, s.projects[p].proposalBond).value;
    var s1 := Propose(s, who, p, version, attestation, cid, l);
    SignedPayload(verify, attestation, signature);
    ProposeKeepsFrame(verify, s, who, p, version, attestation, cid);
    FreshIds(verify, s);
    BooksAndTallies(verify, s);
    ProposedLosesNothing(s, s1, id, p);
    forall b ensures ApprovedFor(s1.proposals, b) == ApprovedFor(s.proposals, b) {
      NotYetApproved(s.proposals, id, s1.proposals[id], b);
    }
  }

  lemma ReleaseComposed(s: State, s1: State, t: State, id: ProposalId, who: AccountId, status: ProposalStatus,
                        l: Ledger)
    requires s1 == s.(ledger := l, nextProposalId := id + 1, proposals := s1.proposals, journal := s1.journal)
    requires id in s1.proposals && s1.proposals == s.proposals[id := s1.proposals[id]]
    requires s1.proposals[id].proposer == who && BallotWritten(s1, t, id, who, true, status)
    requires s1.proposals[id].bond <= ValueAt(s.ledger.free, who)
    requires l.free == s.ledger.free[who := ValueAt(s.ledger.free, who) - s1.proposals[id].bond]
    ensures ReleaseWritten(s, t, id, s1.proposals[id].(status := status))
  {
  }

  lemma ProposedOutcome(verify: Verifier, s: State, who: AccountId, p: ProjectId, version: seq<byte>,
                        attestation: BuildAttestation, cid: Hash32, signature: Signature)
    requires Sound(verify, s) && s.nextProposalId < 4_294_967_295
    requires Proposable(verify, s, who, p, attestation, signature)
    ensures var policy, id := s.projects[p].policy, s.nextProposalId;
      var ends := if s.now + policy.votingPeriod <= 4_294_967_295 then s.now + policy.votingPeriod else 4_294_967_295;
      var due :=
        if s.now + policy.enactmentDelay <= 4_294_967_295 then s.now + policy.enactmentDelay else 4_294_967_295;
      var met := Backed(s.stakeholders, s.votes[(id, who) := true], 0, policy.requiredRoles, p, id);
      var full := met && |ApprovedFor(s.proposals, due)| == 32;
      var r := NewRelease(verify, s, Signed(who), p, version, attestation, cid, signature);
      && (r.Err? <==> full) && (full ==> r == Err(TooManyEnactments))
      && (r.Ok? ==>
            ReleaseWritten(s, r.value, id,
                           Proposal(p, who, version, attestation, cid, s.projects[p].proposalBond, s.now, ends,
                                    if met then Approved(due) else Voting)))
  {
    hide Sound, Frame, DoVote, Backed, ApprovedFor, Hold, LostAyes, BallotWritten, ReleaseWritten;
    var id := s.nextProposalId;
    var l := ProposedFrame(verify, s, who, p, version, attestation, cid, signature);
    var s1 := Propose(s, who, p, version, attestation, cid, l);
    BallotOutcome(verify, s1, id, who, true);
    var r := NewRelease(verify, s, Signed(who), p, version, attestation, cid, signature);
    if r.Ok? {
      var delay := s.projects[p].policy.enactmentDelay;
      var met := Backed(s.stakeholders, s.votes[(id, who) := true], 0, s.projects[p].policy.requiredRoles, p, id);
      ReleaseComposed(s, s1, r.value, id, who, if met then Approved(BlockAdd(s.now, delay)) else Voting, l);
    }
  }

  /**
   A new release is accepted exactly under these conditions, unless the proposer's own aye meets the quorums while 32
   proposals are approved for the block the approval would be due. Its vote ends `votingPeriod` blocks on, and an
   approval is due `enactmentDelay` blocks on.
   */
  lemma ReleaseOutcome(verify: Verifier, s: State, who: AccountId, p: ProjectId, version: seq<byte>,
                       attestation: BuildAttestation, cid: Hash32, signature: Signature)
    requires Reached(verify, s) && s.nextProposalId < 4_294_967_295
    ensures var step := Dispatch(Signed(who), CallNewRelease(p, version, attestation, cid, signature));
      var proposable := Proposable(verify, s, who, p, attestation, signature);
      var r := Apply(verify, s, Signed(who), step.call);
      && (!proposable ==> r.Err? && r != Err(TooManyEnactments))
      && (proposable ==>
            var policy, id := s.projects[p].policy, s.nextProposalId;
            var ends :=
              if s.now + policy.votingPeriod <= 4_294_967_295 then s.now + policy.votingPeriod else 4_294_967_295;
            var due :=
              if s.now + policy.enactmentDelay <= 4_294_967_295 then s.now + policy.enactmentDelay else 4_294_967_295;
            var met := Backed(s.stakeholders, s.votes[(id, who) := true], 0, policy.requiredRoles, p, id);
            var full := met && |ApprovedFor(s.proposals, due)| == 32;
            && (r.Err? <==> full) && (full ==> r == Err(TooManyEnactments))
            && (r.Ok? ==>
                  ReleaseWritten(s, After(verify, s, step), id,
                                 Proposal(p, who, version, attestation, cid, s.projects[p].proposalBond, s.now, ends,
                                          if met then Approved(due) else Voting))))
  {
    hide Reached, Sound, Backed, ApprovedFor, ReleaseWritten, NewRelease, Proposable;
    ReachedSound(verify, s);
    if Proposable(verify, s, who, p, attestation, signature) {
      ProposedOutcome(verify, s, who, p, version, attestation, cid, signature);
    } else {
      UnproposableFails(verify, s, who, p, version, attestation, cid, signature);
    }
  }

  // project_genesis

  /** Everyone is named once and can pay. */
  predicate Payable(free: map<AccountId, nat>, inits: seq<StakeholderInit>) {
    && (forall i, j :: 0 <= i < j < |inits| ==> inits[i].account != inits[j].account)
    && (forall i :: 0 <= i < |inits| ==> inits[i].stake <= ValueAt(free, inits[i].account))
  }

  predicate Newcomers(st: Registry, p: ProjectId, inits: seq<StakeholderInit>) {
    forall i :: 0 <= i < |inits| ==> (p, inits[i].account) !in st
  }

  /** Somebody brings stake in this role. */
  predicate Brought(inits: seq<StakeholderInit>, r: Role) {
    exists i :: 0 <= i < |inits| && inits[i].role == r && 0 < inits[i].stake
  }

  predicate Named(inits: seq<StakeholderInit>, a: AccountId) {
    exists i :: 0 <= i < |inits| && inits[i].account == a
  }

  lemma RegisterOutcome(s: State, p: ProjectId, init: StakeholderInit)
    ensures Register(s, p, init).Ok?
       <==> (p, init.account) !in s.stakeholders && init.stake <= ValueAt(s.ledger.free, init.account)
    ensures Register(s, p, init).Ok? ==>
      var t := Register(s, p, init).value;
      && init.stake <= ValueAt(s.ledger.free, init.account)
      && t == s.(stakeholders := s.stakeholders[(p, init.account) := Stakeholder(init.role, init.stake)],
                 roleStake := t.roleStake, ledger := t.ledger, journal := t.journal)
      && t.ledger.free == s.ledger.free[init.account := ValueAt(s.ledger.free, init.account) - init.stake]
      && (forall r :: 0 < RoleStakeOf(t.roleStake, p, r) <==>
            0 < RoleStakeOf(s.roleStake, p, r) || (r == init.role && 0 < init.stake))
  {
  }

  /** The first of several newcomers can be registered, and then the others. */
  lemma PayableCons(st: Registry, free: map<AccountId, nat>, p: ProjectId, inits: seq<StakeholderInit>, v: Stakeholder,
                    left: nat)
    requires inits != []
    ensures Newcomers(st, p, inits) && Payable(free, inits)
       <==> && (p, inits[0].account) !in st && inits[0].stake <= ValueAt(free, inits[0].account)
            && Newcomers(st[(p, inits[0].account) := v], p, inits[1..])
            && Payable(free[inits[0].account := left], inits[1..])
  {
    var first, rest := inits[0], inits[1..];
    assert forall i :: 0 <= i < |rest| ==> rest[i] == inits[i + 1];
    assert forall i :: 1 <= i < |inits| ==> inits[i] == rest[i - 1];
    if Newcomers(st[(p, first.account) := v], p, rest) {
      forall i | 0 <= i < |rest| ensures rest[i].account != first.account && (p, rest[i].account) !in st {
        assert (p, rest[i].account) !in st[(p, first.account) := v];
      }
    }
  }

  lemma NobodyPays(s: State, p: ProjectId)
    ensures Newcomers(s.stakeholders, p, []) && Payable(s.ledger.free, [])
  {
  }

  lemma {:induction false} RegisterAllIff(s: State, p: ProjectId, inits: seq<StakeholderInit>)
    ensures RegisterAll(s, p, inits).Ok? <==> Newcomers(s.stakeholders, p, inits) && Payable(s.ledger.free, inits)
    decreases |inits|
  {
    hide Register, Newcomers, Payable;
    if inits == [] {
      NobodyPays(s, p);
    } else {
      RegisterOutcome(s, p, inits[0]);
      if Register(s, p, inits[0]).Ok? {
        var t := Register(s, p, inits[0]).value;
        RegisterAllIff(t, p, inits[1..]);
        PayableCons(s.stakeholders, s.ledger.free, p, inits, Stakeholder(inits[0].role, inits[0].stake),
                    ValueAt(s.ledger.free, inits[0].account) - inits[0].stake);
      } else {
        PayableCons(s.stakeholders, s.ledger.free, p, inits, Stakeholder(inits[0].role, inits[0].stake), 0);
      }
    }
  }

  /** What the registrations leave of people and free balances. */
  ghost predicate Enlisted(s: State, t: State, p: ProjectId, inits: seq<StakeholderInit>) {
    && (forall i :: 0 <= i < |inits| ==>
          && (p, inits[i].account) in t.stakeholders
          && t.stakeholders[(p, inits[i].account)] == Stakeholder(inits[i].role, inits[i].stake)
          && ValueAt(t.ledger.free, inits[i].account) + inits[i].stake == ValueAt(s.ledger.free, inits[i].account))
    && (forall k :: k in t.stakeholders <==> k in s.stakeholders || (k.0 == p && Named(inits, k.1)))
    && (forall k :: k in s.stakeholders ==> t.stakeholders[k] == s.stakeholders[k])
    && (forall a :: !Named(inits, a) ==> ValueAt(t.ledger.free, a) == ValueAt(s.ledger.free, a))
  }

  lemma NamedCons(inits: seq<StakeholderInit>, a: AccountId)
    requires inits != []
    ensures Named(inits, a) <==> inits[0].account == a || Named(inits[1..], a)
  {
    assert inits == [inits[0]] + inits[1..];
    if Named(inits[1..], a) {
      var i :| 0 <= i < |inits[1..]| && inits[1..][i].account == a;
      assert inits[i + 1].account == a;
    }
  }

  lemma EnlistedCons(s: State, s1: State, t: State, p: ProjectId, inits: seq<StakeholderInit>)
    requires inits != [] && (p, inits[0].account) !in s.stakeholders && !Named(inits[1..], inits[0].account)
    requires inits[0].stake <= ValueAt(s.ledger.free, inits[0].account)
    requires s1.stakeholders
          == s.stakeholders[(p, inits[0].account) := Stakeholder(inits[0].role, inits[0].stake)]
    requires s1.ledger.free
          == s.ledger.free[inits[0].account := ValueAt(s.ledger.free, inits[0].account) - inits[0].stake]
    requires Enlisted(s1, t, p, inits[1..])
    ensures Enlisted(s, t, p, inits)
  {
    var first, rest := inits[0], inits[1..];
    forall a ensures Named(inits, a) <==> first.account == a || Named(rest, a) {
      NamedCons(inits, a);
    }
    forall i | 0 <= i < |inits|
      ensures (p, inits[i].account) in t.stakeholders
      ensures t.stakeholders[(p, inits[i].account)] == Stakeholder(inits[i].role, inits[i].stake)
      ensures ValueAt(t.ledger.free, inits[i].account) + inits[i].stake == ValueAt(s.ledger.free, inits[i].account)
    {
      if i == 0 {
        assert (p, first.account) in s1.stakeholders;
      } else {
        assert inits[i] == rest[i - 1];
        assert Named(rest, inits[i].account);
      }
    }
    forall k ensures k in t.stakeholders <==> k in s.stakeholders || (k.0 == p && Named(inits, k.1)) {
      assert k == (k.0, k.1);
    }
  }

  lemma PayableDistinct(free: map<AccountId, nat>, inits: seq<StakeholderInit>)
    requires inits != [] && Payable(free, inits)
    ensures !Named(inits[1..], inits[0].account)
  {
    assert forall i :: 0 <= i < |inits| - 1 ==> inits[1..][i] == inits[i + 1];
  }

  lemma BroughtCons(inits: seq<StakeholderInit>, r: Role)
    requires inits != []
    ensures Brought(inits, r) <==> (r == inits[0].role && 0 < inits[0].stake) || Brought(inits[1..], r)
  {
    assert inits == [inits[0]] + inits[1..];
    if Brought(inits[1..], r) {
      var i :| 0 <= i < |inits[1..]| && inits[1..][i].role == r && 0 < inits[1..][i].stake;
      assert inits[i + 1] == inits[1..][i];
    }
  }

  lemma NobodyEnlists(s: State, p: ProjectId)
    ensures Enlisted(s, s, p, []) && forall r :: !Brought([], r)
  {
  }

  lemma {:induction false} RegisterAllWrites(s: State, p: ProjectId, inits: seq<StakeholderInit>)
    requires RegisterAll(s, p, inits).Ok?
    ensures var t := RegisterAll(s, p, inits).value;
      && t == s.(stakeholders := t.stakeholders, roleStake := t.roleStake, ledger := t.ledger, journal := t.journal)
      && Enlisted(s, t, p, inits)
      && (forall r :: 0 < RoleStakeOf(t.roleStake, p, r) <==> 0 < RoleStakeOf(s.roleStake, p, r) || Brought(inits, r))
    decreases |inits|
  {
    if inits == [] {
      NobodyEnlists(s, p);
    } else {
      hide Register, Newcomers, Payable, Enlisted, Brought, Named;
      RegisterAllIff(s, p, inits);
      PayableDistinct(s.ledger.free, inits);
      RegisterOutcome(s, p, inits[0]);
      var s1 := Register(s, p, inits[0]).value;
      RegisterAllWrites(s1, p, inits[1..]);
      EnlistedCons(s, s1, RegisterAll(s, p, inits).value, p, inits);
      forall r ensures Brought(inits, r) <==> (r == inits[0].role && 0 < inits[0].stake) || Brought(inits[1..], r) {
        BroughtCons(inits, r);
      }
    }
  }

  /** Nobody has a stake in the next project. */
  lemma NextProjectIsEmpty(verify: Verifier, s: State, r: Role)
    requires Sound(verify, s)
    ensures forall a :: (s.nextProjectId, a) !in s.stakeholders
    ensures RoleStakeOf(s.roleStake, s.nextProjectId, r) == 0
  {
    hide Rooted, PoliciesStaked, Countered, Escrowed, Bonded, Conserved, Chronicled, Tallied, Logged, Scheduled;
    hide StatusFits;
    SumZero(RoleWeights(s.stakeholders, s.nextProjectId, r));
  }

  lemma IdsInRange(verify: Verifier, s: State)
    requires Sound(verify, s)
    ensures s.nextProjectId <= 4_294_967_295 && s.nextProposalId <= 4_294_967_295
  {
  }

  lemma EnlistedFields(s: State, t: State, p: ProjectId, inits: seq<StakeholderInit>, u: State)
    requires Enlisted(s, t, p, inits)
    ensures u.stakeholders == t.stakeholders && u.ledger == t.ledger ==> Enlisted(s, u, p, inits)
  {
  }

  /**
   Genesis is accepted exactly from the root, for at least one required role, if everyone is named once and can pay
   and somebody brings stake in every required role. It registers exactly those people with those stakes, takes the
   stakes from their free balances, and stores the project as given.
   */
  lemma GenesisOutcome(verify: Verifier, s: State, origin: Origin, name: seq<byte>, inits: seq<StakeholderInit>,
                       policy: ReleasePolicy, slashing: SlashingParams, bond: Balance)
    requires Reached(verify, s)
    ensures var step := Dispatch(origin, CallGenesis(name, inits, policy, slashing, bond));
      var r := Apply(verify, s, origin, step.call);
      && (r.Ok? <==>
            && origin.Root? && policy.requiredRoles != [] && Payable(s.ledger.free, inits)
            && forall rq :: rq in policy.requiredRoles ==> Brought(inits, rq.role))
      && (r.Ok? ==>
            var t, p := After(verify, s, step), s.nextProjectId;
            && Enlisted(s, t, p, inits)
            && t == s.(projects := s.projects[p := ProjectInfo(name, policy, slashing, bond)],
                       nextProjectId := if p < 4_294_967_295 then p + 1 else 4_294_967_295,
                       stakeholders := t.stakeholders, roleStake := t.roleStake, ledger := t.ledger,
                       journal := t.journal))
  {
    hide Reached, Sound, RegisterAll, Payable, Brought, Enlisted;
    ReachedSound(verify, s);
    var p := s.nextProjectId;
    assert p <= 4_294_967_295 by { IdsInRange(verify, s); }
    forall r ensures RoleStakeOf(s.roleStake, p, r) == 0 {
      NextProjectIsEmpty(verify, s, r);
    }
    NextProjectIsEmpty(verify, s, BuildService);
    RegisterAllIff(s, p, inits);
    if RegisterAll(s, p, inits).Ok? {
      RegisterAllWrites(s, p, inits);
      EnlistedFields(s, RegisterAll(s, p, inits).value, p, inits,
                     Commit(s, ProjectGenesis(s, origin, name, inits, policy, slashing, bond)));
    }
  }

  /** The counter of proposals goes up by one until it reaches the end of its 32 bits, and stays there. */
  lemma ProposalsCounted(verify: Verifier, s: State, origin: Origin, p: ProjectId, version: seq<byte>,
                         attestation: BuildAttestation, cid: Hash32, signature: Signature)
    requires s.nextProposalId <= 4_294_967_295
    requires NewRelease(verify, s, origin, p, version, attestation, cid, signature).Ok?
    ensures NewRelease(verify, s, origin, p, version, attestation, cid, signature).value.nextProposalId
         == if s.nextProposalId < 4_294_967_295 then s.nextProposalId + 1 else 4_294_967_295
  {
    hide Reconsider, MoveVote, Hold;
    var l := Hold(s.ledger, ProposalBond, origin.who, s.projects[p].proposalBond).value;
    var s1 := Propose(s, origin.who, p, version, attestation, cid, l);
    var s2 := RecordVote(s1, s.nextProposalId, origin.who, s.stakeholders[(p, origin.who)], true);
    ReconsiderSettles(s2, s.nextProposalId, p, s.projects[p].policy);
  }
}
