/**
 The pallet refines the simple machine: over every run, call by call and block by block, both give the
 same replies and reach related storages. The role stakes, tallies, buckets, log indices and holds of
 the pallet are only caches.
 */
module Refinement {
  import opened Types
  import opened Sums
  import opened Currency
  import opened Protocol
  import opened Accounting
  import opened History
  import opened Ballots
  import opened Schedule
  import opened Releases
  import opened Invariant
  import opened Genesis
  import opened Voting
  import opened Enactment
  import opened Runs
  import opened Evolution
  import opened Quorum
  import opened Liveness
  import opened Electorate
  import opened BlockLoop
  import opened Outcomes
  import opened SimpleMachine

  /** The same counters, projects, people, proposals, votes, counter-attestations, free balances and events. */
  ghost predicate SameFields(s: State, a: Simple) {
    && a.now == s.now && a.nextProjectId == s.nextProjectId && a.nextProposalId == s.nextProposalId
    && a.projects == s.projects && a.stakeholders == s.stakeholders
    && a.proposals == s.proposals && a.votes == s.votes
    && a.counters == s.counterAttestations
    && a.balances == s.ledger.free && a.events == s.journal
  }

  /** Every bucket lists the approvals for its block in the order in which they were given. */
  ghost predicate Queued(
    pending: Buckets, approvals: seq<ProposalId>, proposals: Proposals)
  {
    && (forall id :: id in approvals ==> id in proposals && proposals[id].status.Approved?)
    && (forall b: BlockNumber :: Bucket(pending, b) == Due(approvals, proposals, b))
  }

  ghost predicate SameLogs(releaseCount: map<ProjectId, nat>, log: Log, logs: Logs) {
    && (forall p :: |LogIn(logs, p)| == CountOf(releaseCount, p))
    && (forall p: ProjectId, i: nat :: i < |LogIn(logs, p)| ==> (p, i) in log && LogIn(logs, p)[i] == log[(p, i)])
  }

  /** What the journal says was slashed from behind the ayes of each proposal. */
  ghost predicate SameLosses(journal: Journal, proposals: Proposals, lost: map<ProposalId, nat>) {
    && (forall id :: id in lost ==> id in proposals)
    && (forall id :: id in proposals ==> ValueAt(lost, id) == LostBallots(journal, proposals[id].projectId, id, true))
  }

  ghost predicate Related(s: State, a: Simple) {
    && SameFields(s, a)
    && Queued(s.pending, a.approvals, a.proposals)
    && SameLogs(s.releaseCount, s.releaseLog, a.logs)
    && SameLosses(s.journal, s.proposals, a.lost)
  }

  /** Related outcomes: the same error, or related storages. */
  ghost predicate Agree(r: Result<State>, q: Result<Simple>) {
    match r
    case Err(e) => q == Err(e)
    case Ok(t) => q.Ok? && Related(t, q.value)
  }

  lemma FieldsOf(s: State, a: Simple)
    requires Related(s, a)
    ensures SameFields(s, a)
  {
  }

  // The queue of approvals

  lemma {:induction false} DueElsewhere(approvals: seq<ProposalId>, proposals: Proposals,
                                        id: ProposalId, v: Proposal, b: BlockNumber)
    requires id !in approvals
    ensures Due(approvals, proposals[id := v], b) == Due(approvals, proposals, b)
  {
    if approvals != [] {
      DueElsewhere(approvals[1..], proposals, id, v, b);
    }
  }

  lemma {:induction false} DueAppend(approvals: seq<ProposalId>, proposals: Proposals, id: ProposalId, b: BlockNumber)
    ensures Due(approvals + [id], proposals, b)
         == Due(approvals, proposals, b) + if DueAt(proposals, id, b) then [id] else []
  {
    if approvals == [] {
      assert [] + [id] == [id] && [id][1..] == [];
    } else {
      assert (approvals + [id])[1..] == approvals[1..] + [id];
      DueAppend(approvals[1..], proposals, id, b);
    }
  }

  lemma DueCons(x: ProposalId, rest: seq<ProposalId>, proposals: Proposals, b: BlockNumber)
    ensures Due([x] + rest, proposals, b)
         == if DueAt(proposals, x, b) then [x] + Due(rest, proposals, b) else Due(rest, proposals, b)
  {
    assert ([x] + rest)[1..] == rest;
  }

  lemma WithoutCons(x: ProposalId, rest: seq<ProposalId>, id: ProposalId)
    ensures Without([x] + rest, id) == if x == id then Without(rest, id) else [x] + Without(rest, id)
  {
    assert ([x] + rest)[1..] == rest;
  }

  lemma {:induction false} DueWithout(approvals: seq<ProposalId>, proposals: Proposals,
                                      id: ProposalId, v: Proposal, b: BlockNumber)
    ensures Due(Without(approvals, id), proposals[id := v], b) == Without(Due(approvals, proposals, b), id)
  {
    if approvals != [] {
      DueWithout(approvals[1..], proposals, id, v, b);
      DueCons(approvals[0], approvals[1..], proposals, b);
      WithoutCons(approvals[0], Due(approvals[1..], proposals, b), id);
      DueCons(approvals[0], Without(approvals[1..], id), proposals[id := v], b);
      assert approvals == [approvals[0]] + approvals[1..];
    }
  }

  lemma {:induction false} DueMembers(approvals: seq<ProposalId>, proposals: Proposals, b: BlockNumber, id: ProposalId)
    ensures id in Due(approvals, proposals, b) <==> id in approvals && DueAt(proposals, id, b)
    ensures id in NotDue(approvals, proposals, b) <==> id in approvals && !DueAt(proposals, id, b)
  {
    if approvals != [] {
      DueMembers(approvals[1..], proposals, b, id);
      assert id in approvals <==> id == approvals[0] || id in approvals[1..];
    }
  }

  lemma {:induction false} DueAfterBlock(approvals: seq<ProposalId>, proposals: Proposals, b: BlockNumber,
                                         c: BlockNumber)
    ensures Due(NotDue(approvals, proposals, b), proposals, c) == if c == b then [] else Due(approvals, proposals, c)
  {
    if approvals != [] {
      DueAfterBlock(approvals[1..], proposals, b, c);
      DueCons(approvals[0], approvals[1..], proposals, c);
      DueCons(approvals[0], NotDue(approvals[1..], proposals, b), proposals, c);
      assert approvals == [approvals[0]] + approvals[1..];
      assert [] + NotDue(approvals[1..], proposals, b) == NotDue(approvals[1..], proposals, b);
    }
  }

  lemma QueueIn(pending: Buckets, approvals: seq<ProposalId>, proposals: Proposals,
                id: ProposalId, b: BlockNumber)
    requires Queued(pending, approvals, proposals) && id in proposals && !proposals[id].status.Approved?
    ensures Queued(pending[b := Bucket(pending, b) + [id]], approvals + [id], WithStatus(proposals, id, Approved(b)))
  {
    var updated, changed := pending[b := Bucket(pending, b) + [id]], WithStatus(proposals, id, Approved(b));
    forall c: BlockNumber ensures Bucket(updated, c) == Due(approvals + [id], changed, c) {
      DueElsewhere(approvals, proposals, id, changed[id], c);
      DueAppend(approvals, changed, id, c);
      assert Bucket(pending, c) == Due(approvals, proposals, c);
      assert c != b ==> Due(approvals, proposals, c) + [] == Due(approvals, proposals, c);
    }
  }

  lemma SameBucket(pending: Buckets, approvals: seq<ProposalId>, proposals: Proposals, b: BlockNumber)
    requires Queued(pending, approvals, proposals)
    ensures Bucket(pending, b) == Due(approvals, proposals, b)
  {
  }

  lemma BucketOut(pending: Buckets, approvals: seq<ProposalId>, proposals: Proposals, id: ProposalId, b: BlockNumber)
    requires Queued(pending, approvals, proposals) && id in proposals
    ensures Bucket(WithoutApproval(pending, id, proposals[id].status), b) == Without(Bucket(pending, b), id)
  {
    hide Queued, Due, Without;
    if proposals[id].status != Approved(b) {
      SameBucket(pending, approvals, proposals, b);
      DueMembers(approvals, proposals, b, id);
      WithoutAbsent(Bucket(pending, b), id);
    }
  }

  lemma StillApproved(approvals: seq<ProposalId>, proposals: Proposals, id: ProposalId, v: Proposal)
    requires forall i :: i in approvals ==> i in proposals && proposals[i].status.Approved?
    ensures forall i :: i in Without(approvals, id) ==>
      i in proposals[id := v] && proposals[id := v][i].status.Approved?
  {
    WithoutRemoves(approvals, id);
  }

  lemma QueueOut(pending: Buckets, approvals: seq<ProposalId>, proposals: Proposals,
                 id: ProposalId, status: ProposalStatus)
    requires Queued(pending, approvals, proposals) && id in proposals
    ensures Queued(WithoutApproval(pending, id, proposals[id].status), Without(approvals, id),
                   WithStatus(proposals, id, status))
  {
    var v := proposals[id].(status := status);
    StillApproved(approvals, proposals, id, v);
    var updated := WithoutApproval(pending, id, proposals[id].status);
    forall b: BlockNumber ensures Bucket(updated, b) == Due(Without(approvals, id), proposals[id := v], b) {
      SameBucket(pending, approvals, proposals, b);
      BucketOut(pending, approvals, proposals, id, b);
      DueWithout(approvals, proposals, id, v, b);
    }
  }

  lemma QueueUntouched(pending: Buckets, approvals: seq<ProposalId>, proposals: Proposals,
                       id: ProposalId, v: Proposal)
    requires Queued(pending, approvals, proposals)
    requires id in proposals ==> !proposals[id].status.Approved?
    ensures Queued(pending, approvals, proposals[id := v])
  {
    forall c: BlockNumber ensures Bucket(pending, c) == Due(approvals, proposals[id := v], c) {
      DueElsewhere(approvals, proposals, id, v, c);
      assert Bucket(pending, c) == Due(approvals, proposals, c);
    }
  }

  // The losses

  /** Nothing was slashed between two journals. */
  ghost predicate NothingLost(before: Journal, after: Journal) {
    forall p: ProjectId, id: ProposalId :: LostBallots(after, p, id, true) == LostBallots(before, p, id, true)
  }

  lemma OnlySlashesLose(j: Journal, e: Event)
    requires !e.BuildServiceSlashed?
    ensures NothingLost(j, Deposit(j, e))
  {
  }

  lemma LossesKept(before: Journal, after: Journal, proposals: Proposals, lost: map<ProposalId, nat>)
    requires SameLosses(before, proposals, lost) && NothingLost(before, after)
    ensures SameLosses(after, proposals, lost)
  {
    hide LostBallots;
  }

  lemma LossesStand(before: Journal, after: Journal, proposals: Proposals, id: ProposalId, v: Proposal,
                    lost: map<ProposalId, nat>)
    requires SameLosses(before, proposals, lost) && NothingLost(before, after)
    requires if id in proposals then v.projectId == proposals[id].projectId
             else LostBallots(before, v.projectId, id, true) == 0
    ensures SameLosses(after, proposals[id := v], lost)
  {
    hide LostBallots;
  }

  // project_genesis

  ghost predicate SamePeople(s: State, a: Simple) {
    a.stakeholders == s.stakeholders && a.balances == s.ledger.free && a.events == s.journal
  }

  lemma EnrolAgrees(s: State, a: Simple, p: ProjectId, init: StakeholderInit)
    requires SamePeople(s, a)
    ensures var r, q := Register(s, p, init), Enrol(a, p, init);
      match r
      case Err(e) => q == Err(e)
      case Ok(t) =>
        && q.Ok? && SamePeople(t, q.value)
        && t == s.(ledger := t.ledger, stakeholders := t.stakeholders, roleStake := t.roleStake, journal := t.journal)
        && NothingLost(s.journal, t.journal)
        && q.value == a.(stakeholders := q.value.stakeholders, balances := q.value.balances, events := q.value.events)
  {
  }

  lemma {:induction false} EnrolAllAgrees(s: State, a: Simple, p: ProjectId, inits: seq<StakeholderInit>)
    requires SamePeople(s, a)
    ensures var r, q := RegisterAll(s, p, inits), EnrolAll(a, p, inits);
      match r
      case Err(e) => q == Err(e)
      case Ok(t) =>
        && q.Ok? && SamePeople(t, q.value)
        && t == s.(ledger := t.ledger, stakeholders := t.stakeholders, roleStake := t.roleStake, journal := t.journal)
        && NothingLost(s.journal, t.journal)
        && q.value == a.(stakeholders := q.value.stakeholders, balances := q.value.balances, events := q.value.events)
    decreases |inits|
  {
    hide Register, Enrol;
    if inits != [] {
      EnrolAgrees(s, a, p, inits[0]);
      if Register(s, p, inits[0]).Ok? {
        EnrolAllAgrees(Register(s, p, inits[0]).value, Enrol(a, p, inits[0]).value, p, inits[1..]);
      }
    }
  }

  /** The cached role stakes of a new project are its real ones. */
  lemma RegisteredRoles(verify: Verifier, s: State, inits: seq<StakeholderInit>)
    requires Sound(verify, s) && s.nextProjectId < U32_MAX && RegisterAll(s, s.nextProjectId, inits).Ok?
    ensures var t := RegisterAll(s, s.nextProjectId, inits).value; RoleStakeExact(t.stakeholders, t.roleStake)
  {
    hide RegisterAll, Frame, StatusesFit, RoleStakeExact, Tallied;
    var p := s.nextProjectId;
    FreshProject(verify, s);
    RegisterAllIgnoresCounter(s, p + 1, p, inits);
    RegisterAllKeepsInv(verify, s.(nextProjectId := p + 1), s.now + 1, p, inits);
    BooksOfFrame(verify, RegisterAll(s.(nextProjectId := p + 1), p, inits).value, s.now + 1);
  }

  lemma GenesisAgrees(
    verify: Verifier, s: State, a: Simple, origin: Origin, name: seq<byte>, inits: seq<StakeholderInit>,
    policy: ReleasePolicy, slashing: SlashingParams, bond: Balance)
    requires Sound(verify, s) && Related(s, a) && s.nextProjectId < U32_MAX
    ensures Agree(ProjectGenesis(s, origin, name, inits, policy, slashing, bond),
                  Found(a, origin, name, inits, policy, slashing, bond))
  {
    hide Sound, RegisterAll, EnrolAll, Queued, SameLogs, SameLosses, NothingLost, RoleWeights;
    var p := s.nextProjectId;
    EnrolAllAgrees(s, a, p, inits);
    if RegisterAll(s, p, inits).Ok? {
      RegisteredRoles(verify, s, inits);
      var t, b := RegisterAll(s, p, inits).value, EnrolAll(a, p, inits).value;
      OnlySlashesLose(t.journal, ProjectCreated(p, name));
      LossesKept(s.journal, t.journal, s.proposals, a.lost);
      LossesKept(t.journal, Deposit(t.journal, ProjectCreated(p, name)), s.proposals, a.lost);
      assert forall rq :: rq in policy.requiredRoles ==>
        RoleStakeOf(t.roleStake, p, rq.role) == Sum(RoleWeights(b.stakeholders, p, rq.role));
    }
  }

  // vote and new_release

  lemma ApprovalAgrees(s: State, a: Simple, id: ProposalId, b: BlockNumber)
    requires Related(s, a) && id in s.proposals && !s.proposals[id].status.Approved?
    ensures Approve(s, id, b).Err? <==> |Due(a.approvals, a.proposals, b)| >= 32
    ensures Approve(s, id, b).Err? ==> Approve(s, id, b) == Err(TooManyEnactments)
    ensures Approve(s, id, b).Ok? ==>
      Related(Approve(s, id, b).value,
              Emit(a.(proposals := WithStatus(a.proposals, id, Approved(b)), approvals := a.approvals + [id]),
                   ProposalApproved(id, b)))
  {
    hide Queued, SameLogs, SameLosses, NothingLost, Bucket, Due;
    SameBucket(s.pending, a.approvals, a.proposals, b);
    QueueIn(s.pending, a.approvals, a.proposals, id, b);
    OnlySlashesLose(s.journal, ProposalApproved(id, b));
    LossesStand(s.journal, Deposit(s.journal, ProposalApproved(id, b)), s.proposals, id,
                s.proposals[id].(status := Approved(b)), a.lost);
  }

  lemma RevocationAgrees(s: State, a: Simple, id: ProposalId, b: BlockNumber)
    requires Related(s, a) && id in s.proposals && s.proposals[id].status == Approved(b)
    ensures Related(Revoke(s, id, b),
                    Emit(a.(proposals := WithStatus(a.proposals, id, Voting), approvals := Without(a.approvals, id)),
                         ProposalApprovalRevoked(id)))
  {
    hide Queued, SameLogs, SameLosses, NothingLost, Bucket, Without;
    QueueOut(s.pending, a.approvals, a.proposals, id, Voting);
    OnlySlashesLose(s.journal, ProposalApprovalRevoked(id));
    LossesStand(s.journal, Deposit(s.journal, ProposalApprovalRevoked(id)), s.proposals, id,
                s.proposals[id].(status := Voting), a.lost);
  }

  /** A vote recorded, before its effect on the status. */
  ghost function Balloted(a: Simple, id: ProposalId, who: AccountId, voter: Stakeholder, aye: bool): Simple {
    Emit(a.(votes := a.votes[(id, who) := aye]), Voted(id, who, voter.role, aye, voter.stake))
  }

  lemma DecisionAgrees(s: State, a: Simple, a1: Simple, id: ProposalId, policy: ReleasePolicy, who: AccountId,
                       aye: bool)
    requires id in a.proposals && (a.proposals[id].projectId, who) in a.stakeholders
    requires Related(s, a1) && a1 == Balloted(a, id, who, a.stakeholders[(a.proposals[id].projectId, who)], aye)
    requires id in s.proposals && s.proposals[id].projectId in s.projects
    requires policy == s.projects[s.proposals[id].projectId].policy
    requires Meets(s, id) <==> BackedIn(s, id)
    ensures Agree(Reconsider(s, id, s.proposals[id].projectId, policy), Ballot(a, id, policy, who, aye))
  {
    hide MeetsQuorums, Backed, Queued, SameLogs, Approve, Revoke, LostBallots;
    var status := s.proposals[id].status;
    assert LostAyes(s, id) == ValueAt(a.lost, id);
    hide SameLosses;
    if status.Voting? {
      ApprovalAgrees(s, a1, id, Later(s.now, policy.enactmentDelay));
    } else if status.Approved? {
      RevocationAgrees(s, a1, id, status.enactAt);
    }
  }

  lemma RecordAgrees(s: State, a: Simple, id: ProposalId, who: AccountId, voter: Stakeholder, aye: bool)
    requires Related(s, a) && id in s.proposals
    ensures Related(RecordVote(s, id, who, voter, aye), Balloted(a, id, who, voter, aye))
  {
    hide Queued, SameLogs, SameLosses, NothingLost, MoveVote;
    var e := Voted(id, who, voter.role, aye, voter.stake);
    OnlySlashesLose(s.journal, e);
    LossesKept(s.journal, Deposit(s.journal, e), s.proposals, a.lost);
  }

  /** The vote recomputed from scratch and the vote through the tally decide alike. */
  lemma BallotAgrees(verify: Verifier, s: State, a: Simple, id: ProposalId, who: AccountId, aye: bool)
    requires Frame(verify, s, s.now + 1) && Related(s, a)
    requires id in s.proposals && s.proposals[id].projectId in s.projects
    requires (s.proposals[id].projectId, who) in s.stakeholders
    ensures var p := s.proposals[id].projectId;
      Agree(DoVote(s, id, p, s.projects[p].policy, who, s.stakeholders[(p, who)], aye),
            Ballot(a, id, s.projects[p].policy, who, aye))
  {
    hide Frame, Books, Tallied, Meets, BackedIn, Agree, Ballot, Reconsider, MoveVote, Related;
    var p := s.proposals[id].projectId;
    var voter := s.stakeholders[(p, who)];
    var s1 := RecordVote(s, id, who, voter, aye);
    RecordKeepsFrame(verify, s, s.now + 1, id, who, aye);
    BooksOfFrame(verify, s1, s.now + 1);
    VerdictFromBooks(s1, id);
    RecordAgrees(s, a, id, who, voter, aye);
    FieldsOf(s, a);
    DecisionAgrees(s1, a, Balloted(a, id, who, voter, aye), id, s.projects[p].policy, who, aye);
  }

  lemma VoteAgrees(verify: Verifier, s: State, a: Simple, origin: Origin, id: ProposalId, aye: bool)
    requires Sound(verify, s) && Related(s, a)
    ensures Agree(Vote(s, origin, id, aye), CastVote(a, origin, id, aye))
  {
    hide Sound, Frame, DoVote, Ballot, Queued, SameLogs, SameLosses;
    FrameOf(verify, s);
    if origin.Signed? && id in s.proposals && s.proposals[id].projectId in s.projects
       && (s.proposals[id].projectId, origin.who) in s.stakeholders {
      BallotAgrees(verify, s, a, id, origin.who, aye);
    }
  }

  lemma HoldAgrees(s: State, a: Simple, reason: HoldReason, who: AccountId, amount: nat)
    requires SameFields(s, a)
    ensures match Hold(s.ledger, reason, who, amount)
      case Err(e) => Take(a.balances, who, amount) == Err(e)
      case Ok(l) => Take(a.balances, who, amount) == Ok(l.free) && l.issuance == s.ledger.issuance
  {
  }

  lemma ProposalAgrees(
    verify: Verifier, s: State, a: Simple, who: AccountId, p: ProjectId, version: seq<byte>,
    attestation: BuildAttestation, cid: Hash32, l: Ledger)
    requires Sound(verify, s) && Related(s, a) && p in s.projects && s.nextProposalId < U32_MAX
    ensures s.nextProposalId !in s.proposals
    ensures var t := Propose(s, who, p, version, attestation, cid, l);
      var id := s.nextProposalId;
      id in t.proposals
      && Related(t, Emit(a.(balances := l.free, nextProposalId := id + 1,
                            proposals := a.proposals[id := t.proposals[id]]),
                         ReleaseProposed(id, p, who, t.proposals[id].votingEnds)))
  {
    hide Sound, Queued, SameLogs, SameLosses, NothingLost, Tallied, Books;
    FreshIds(verify, s);
    var id := s.nextProposalId;
    var t := Propose(s, who, p, version, attestation, cid, l);
    QueueUntouched(s.pending, a.approvals, a.proposals, id, t.proposals[id]);
    BooksAndTallies(verify, s);
    FreshLosses(s, id, p);
    OnlySlashesLose(s.journal, t.journal.event);
    LossesStand(s.journal, t.journal, s.proposals, id, t.proposals[id], a.lost);
  }

  lemma NewReleaseAgrees(
    verify: Verifier, s: State, a: Simple, origin: Origin, p: ProjectId, version: seq<byte>,
    attestation: BuildAttestation, cid: Hash32, signature: Signature)
    requires Sound(verify, s) && Related(s, a) && s.nextProposalId < U32_MAX
    ensures Agree(NewRelease(verify, s, origin, p, version, attestation, cid, signature),
                  ProposeRelease(verify, a, origin, p, version, attestation, cid, signature))
  {
    hide Sound, Frame, DoVote, Ballot, Hold, Take, Related;
    FieldsOf(s, a);
    if origin.Signed? && p in s.projects {
      var bond := s.projects[p].proposalBond;
      HoldAgrees(s, a, ProposalBond, origin.who, bond);
      if HasRole(s.stakeholders, p, origin.who, CoreDeveloper)
         && HasRole(s.stakeholders, p, attestation.builder, BuildService)
         && verify(signature, SigningPayload(attestation), attestation.builder)
         && Hold(s.ledger, ProposalBond, origin.who, bond).Ok? {
        ProposeKeepsFrame(verify, s, origin.who, p, version, attestation, cid);
        var l := Hold(s.ledger, ProposalBond, origin.who, bond).value;
        var id := s.nextProposalId;
        var s1 := Propose(s, origin.who, p, version, attestation, cid, l);
        var a1 := Emit(a.(balances := l.free, nextProposalId := id + 1,
                          proposals := a.proposals[id := s1.proposals[id]]),
                       ReleaseProposed(id, p, origin.who, s1.proposals[id].votingEnds));
        ProposalAgrees(verify, s, a, origin.who, p, version, attestation, cid, l);
        BallotAgrees(verify, s1, a1, id, origin.who, true);
      }
    }
  }

  // submit_counter_attestation and close_expired

  /** The best-effort release pays the whole bond. */
  lemma BondPaid(s: State, id: ProposalId)
    requires Books(s) && id in s.proposals && Live(s.proposals[id].status)
    ensures var v := s.proposals[id];
      Release(s.ledger, ProposalBond, v.proposer, v.bond).free == Pay(s.ledger.free, v.proposer, v.bond)
  {
    BondBacked(s, id);
  }

  /** What the slash of a builder adds to the losses: its share, behind every aye of the builder in the project. */
  ghost predicate LossesAdded(before: Journal, after: Journal, p: ProjectId, builder: AccountId, share: nat) {
    forall q: ProjectId, id: ProposalId ::
      LostBallots(after, q, id, true)
        == LostBallots(before, q, id, true)
         + if q == p && LastVote(before, id, builder) == Some(true) then share else 0
  }

  lemma RejectionLosses(j: Journal, e: Event, slash: Event, f: Event)
    requires !e.BuildServiceSlashed? && !e.Voted? && slash.BuildServiceSlashed? && !f.BuildServiceSlashed?
    ensures LossesAdded(j, Deposit(Deposit(Deposit(j, e), slash), f), slash.project, slash.builder, slash.amount)
  {
    var j1 := Deposit(j, e);
    var j2 := Deposit(j1, slash);
    forall q: ProjectId, id: ProposalId
      ensures LostBallots(Deposit(j2, f), q, id, true)
           == LostBallots(j, q, id, true)
            + if q == slash.project && LastVote(j, id, slash.builder) == Some(true) then slash.amount else 0
    {
      assert LastVote(j1, id, slash.builder) == LastVote(j, id, slash.builder);
      assert LostBallots(j1, q, id, true) == LostBallots(j, q, id, true);
      assert LostBallots(Deposit(j2, f), q, id, true) == LostBallots(j2, q, id, true);
    }
  }

  /** Everything the pallet's rejection checks, the simple machine checks. */
  lemma RejectGuards(s: State, a: Simple, origin: Origin, id: ProposalId, rebuilt: Hash32)
    requires SameFields(s, a)
    ensures SubmitCounterAttestation(s, origin, id, rebuilt).Ok? <==> Reject(a, origin, id, rebuilt).Ok?
    ensures SubmitCounterAttestation(s, origin, id, rebuilt).Err? ==>
      Reject(a, origin, id, rebuilt) == Err(SubmitCounterAttestation(s, origin, id, rebuilt).error)
  {
    hide Challenge, Slash, Close, RecordCounter, Share, Without;
  }

  lemma LossesAgree(before: Journal, after: Journal, proposals: Proposals, votes: VoteBook,
                    lost: map<ProposalId, nat>, id: ProposalId, builder: AccountId, share: nat)
    requires SameLosses(before, proposals, lost) && VotesCurrent(votes, before) && id in proposals
    requires LossesAdded(before, after, proposals[id].projectId, builder, share)
    ensures SameLosses(after, WithStatus(proposals, id, Rejected),
                       WithLosses(lost, proposals, votes, proposals[id].projectId, builder, share))
  {
    hide LostBallots, LastVote;
    var p := proposals[id].projectId;
    var losses := WithLosses(lost, proposals, votes, p, builder, share);
    forall i | i in proposals ensures ValueAt(losses, i) == LostBallots(after, proposals[i].projectId, i, true) {
      assert VoteOf(votes, i, builder) == LastVote(before, i, builder);
      assert ValueAt(lost, i) == LostBallots(before, proposals[i].projectId, i, true);
    }
  }

  lemma VotesAreCurrent(s: State)
    requires Tallied(s)
    ensures VotesCurrent(s.votes, s.journal)
  {
    hide TalliesFaithful, FirstVotesTallied, VotesRecorded, VotesCurrent, TalliesKeyed;
  }

  lemma RejectionAgrees(verify: Verifier, s: State, a: Simple, origin: Origin, id: ProposalId, rebuilt: Hash32)
    requires Sound(verify, s) && Related(s, a)
    requires SubmitCounterAttestation(s, origin, id, rebuilt).Ok? && Reject(a, origin, id, rebuilt).Ok?
    ensures Related(SubmitCounterAttestation(s, origin, id, rebuilt).value, Reject(a, origin, id, rebuilt).value)
  {
    hide Sound, SubmitCounterAttestation, Queued, SameLogs, WithoutApproval, Without, WithLosses, Share;
    hide SameLosses, LossesAdded, Books, Tallied, VotesCurrent;
    BooksAndTallies(verify, s);
    VotesAreCurrent(s);
    var share := CounterWrites(s, origin, id, rebuilt);
    var v := s.proposals[id];
    var entry := s.stakeholders[(v.projectId, v.attestation.builder)];
    OneShare(s.projects[v.projectId].slashing.sigmaNeg, entry.stake, share,
             Share(s.projects[v.projectId].slashing.sigmaNeg, entry.stake));
    QueueOut(s.pending, a.approvals, a.proposals, id, Rejected);
    RejectionLosses(s.journal,
                    CounterAttestationAccepted(id, origin.who, v.attestation.outputBinaryHash, rebuilt),
                    BuildServiceSlashed(v.projectId, v.attestation.builder, share, entry.stake - share),
                    ProposalRejected(id));
    LossesAgree(s.journal, SubmitCounterAttestation(s, origin, id, rebuilt).value.journal, s.proposals, s.votes, a.lost,
                id, v.attestation.builder, share);
  }

  lemma RejectAgrees(verify: Verifier, s: State, a: Simple, origin: Origin, id: ProposalId, rebuilt: Hash32)
    requires Sound(verify, s) && Related(s, a)
    ensures Agree(SubmitCounterAttestation(s, origin, id, rebuilt), Reject(a, origin, id, rebuilt))
  {
    hide Sound, SubmitCounterAttestation, Reject, Related;
    FieldsOf(s, a);
    RejectGuards(s, a, origin, id, rebuilt);
    if SubmitCounterAttestation(s, origin, id, rebuilt).Ok? {
      RejectionAgrees(verify, s, a, origin, id, rebuilt);
    }
  }

  lemma ExpireAgrees(verify: Verifier, s: State, a: Simple, origin: Origin, id: ProposalId)
    requires Sound(verify, s) && Related(s, a)
    ensures Agree(CloseExpired(s, origin, id), Expire(a, origin, id))
  {
    hide Sound, Queued, SameLogs, SameLosses, NothingLost, Release, Books, Tallied, Pay;
    if CloseExpired(s, origin, id).Ok? {
      OnlySlashesLose(s.journal, ProposalExpired(id));
      LossesStand(s.journal, Deposit(s.journal, ProposalExpired(id)), s.proposals, id,
                  s.proposals[id].(status := Expired), a.lost);
      BooksAndTallies(verify, s);
      BondPaid(s, id);
      QueueUntouched(s.pending, a.approvals, a.proposals, id, a.proposals[id].(status := Expired));
    }
  }

  // on_initialize

  /** Related up to the schedule. */
  ghost predicate LoopRelated(s: State, a: Simple) {
    && SameFields(s, a)
    && SameLogs(s.releaseCount, s.releaseLog, a.logs)
    && SameLosses(s.journal, s.proposals, a.lost)
  }

  lemma LogLength(releaseCount: map<ProjectId, nat>, log: Log, logs: Logs, p: ProjectId)
    requires SameLogs(releaseCount, log, logs)
    ensures |LogIn(logs, p)| == CountOf(releaseCount, p)
  {
  }

  lemma LogsGrow(releaseCount: map<ProjectId, nat>, log: Log, logs: Logs, p: ProjectId, e: ReleaseEntry)
    requires SameLogs(releaseCount, log, logs)
    ensures var n := CountOf(releaseCount, p);
      SameLogs(releaseCount[p := n + 1], log[(p, n) := e], logs[p := LogIn(logs, p) + [e]])
  {
    var n := CountOf(releaseCount, p);
    var log1, logs1 := log[(p, n) := e], logs[p := LogIn(logs, p) + [e]];
    var count1 := releaseCount[p := n + 1];
    forall q ensures |LogIn(logs1, q)| == CountOf(count1, q) {
      assert |LogIn(logs, q)| == CountOf(releaseCount, q);
    }
    forall q: ProjectId, i: nat | i < |LogIn(logs1, q)| ensures (q, i) in log1 && LogIn(logs1, q)[i] == log1[(q, i)] {
      if (q, i) != (p, n) {
        assert i < |LogIn(logs, q)|;
      }
    }
  }

  lemma AppendAgrees(s: State, a: Simple, id: ProposalId)
    requires LoopRelated(s, a) && Books(s) && id in s.proposals && Live(s.proposals[id].status)
    requires CountOf(s.releaseCount, s.proposals[id].projectId) < U32_MAX
    ensures LoopRelated(Append(s, id, s.now), Publish(a, id))
  {
    hide Books, SameLogs, SameLosses, NothingLost, Release, Pay;
    var p := s.proposals[id].projectId;
    BondPaid(s, id);
    LogLength(s.releaseCount, s.releaseLog, a.logs, p);
    LogsGrow(s.releaseCount, s.releaseLog, a.logs, p, EntryFor(id, s.proposals[id], s.now));
    var e := ReleaseEnacted(p, id, CountOf(s.releaseCount, p));
    OnlySlashesLose(s.journal, e);
    LossesStand(s.journal, Deposit(s.journal, e), s.proposals, id,
                s.proposals[id].(status := ProposalStatus.Enacted), a.lost);
  }

  lemma FallBackAgrees(s: State, a: Simple, id: ProposalId)
    requires LoopRelated(s, a) && id in s.proposals
    ensures LoopRelated(FallBack(s, id), Emit(a.(proposals := WithStatus(a.proposals, id, Voting)),
                                              ProposalApprovalRevoked(id)))
  {
    hide SameLogs, SameLosses, NothingLost;
    OnlySlashesLose(s.journal, ProposalApprovalRevoked(id));
    LossesStand(s.journal, Deposit(s.journal, ProposalApprovalRevoked(id)), s.proposals, id,
                s.proposals[id].(status := Voting), a.lost);
  }

  /** Whatever the policy, a due proposal still meets its quorums unless a required role has no stake left. */
  lemma LoopReady(verify: Verifier, s: State, ids: seq<ProposalId>)
    requires Inv(verify, s.(pending := s.pending[s.now := ids]), s.now) && ids != []
    ensures var id := ids[0];
      && id in s.proposals && s.proposals[id].projectId in s.projects && s.proposals[id].status.Approved?
      && (Meets(s, id) <==> Staffed(s, id))
      && CountOf(s.releaseCount, s.proposals[id].projectId) < U32_MAX
      && Books(s)
  {
    hide PoliciesStaked, Countered, RoleStakeExact, Escrowed, Bonded, Conserved, Chronicled, Tallied, Meets;
    hide Scheduled, LogDense, LogFaithful, LogOrdered, LogComplete, NoRepeats, MetAtVote, Staffed;
    var full := s.(pending := s.pending[s.now := ids]);
    FirstDue(verify, s, ids);
    assert ids[0] in ids;
    NumberedBounds(verify, s, ids[0]);
    LogIndexFits(s, ids[0]);
    assert StatusFits(full, ids[0]);
    StillMet(full, ids[0]);
    SameMeets(s, full, ids[0]);
  }

  lemma MannedIsStaffed(s: State, a: Simple, id: ProposalId)
    requires SameFields(s, a) && Books(s) && id in s.proposals
    ensures Staffed(s, id) <==> Manned(a, s.proposals[id].projectId)
  {
    hide Books, RoleWeights, RoleStakeOf;
    var p := s.proposals[id].projectId;
    forall rq | rq in RequiredOf(s.projects, p)
      ensures RoleStakeOf(s.roleStake, p, rq.role) == Sum(RoleWeights(a.stakeholders, p, rq.role))
    {
      RoleStakeReal(s, p, rq.role);
    }
  }

  lemma EnactDecides(s: State, id: ProposalId)
    requires id in s.proposals && s.proposals[id].projectId in s.projects && s.proposals[id].status.Approved?
    ensures Enact(s, id, s.now) == if Meets(s, id) then Append(s, id, s.now) else FallBack(s, id)
  {
    hide MeetsQuorums, Append, FallBack;
  }

  /** One turn of the block loop settles one proposal. */
  lemma TurnAgrees(verify: Verifier, s: State, a: Simple, ids: seq<ProposalId>)
    requires Inv(verify, s.(pending := s.pending[s.now := ids]), s.now) && ids != []
    requires LoopRelated(s, a)
    ensures LoopRelated(Enact(s, ids[0], s.now), Settle(a, ids[0]))
  {
    hide Inv, Enact, Publish, SameLogs, SameLosses, Books, Meets, Staffed, Manned, Append, FallBack;
    var id := ids[0];
    LoopReady(verify, s, ids);
    MannedIsStaffed(s, a, id);
    EnactDecides(s, id);
    if Meets(s, id) {
      AppendAgrees(s, a, id);
    } else {
      FallBackAgrees(s, a, id);
    }
  }

  lemma {:induction false} LoopAgrees(verify: Verifier, s: State, a: Simple, ids: seq<ProposalId>)
    requires Inv(verify, s.(pending := s.pending[s.now := ids]), s.now)
    requires LoopRelated(s, a)
    ensures LoopRelated(EnactAll(s, ids, s.now), SettleAll(a, ids))
    decreases |ids|
  {
    hide Inv, Enact, Settle, LoopRelated;
    if ids != [] {
      TurnAgrees(verify, s, a, ids);
      var s1 := Enact(s, ids[0], s.now);
      EnactKeepsInv(verify, s.(pending := s.pending[s.now := ids]));
      EnactIgnoresPending(s, s.pending[s.now := ids], ids[0], s.now);
      assert s.pending[s.now := ids][s.now := ids[1..]] == s.pending[s.now := ids[1..]];
      LoopAgrees(verify, s1, Settle(a, ids[0]), ids[1..]);
    }
  }

  lemma PublishShape(a: Simple, id: ProposalId)
    requires id in a.proposals
    ensures Publish(a, id).approvals == a.approvals
    ensures Publish(a, id).proposals == WithStatus(a.proposals, id, ProposalStatus.Enacted)
  {
    hide Pay, LogIn, WithStatus;
  }

  lemma SettleShape(a: Simple, id: ProposalId)
    ensures Settle(a, id).approvals == a.approvals && Settle(a, id).proposals.Keys == a.proposals.Keys
    ensures forall i :: i in a.proposals && i != id ==> Settle(a, id).proposals[i] == a.proposals[i]
  {
    hide Manned, Publish;
    if id in a.proposals {
      PublishShape(a, id);
    }
  }

  lemma {:induction false} SettleAllShape(a: Simple, ids: seq<ProposalId>)
    ensures SettleAll(a, ids).approvals == a.approvals && SettleAll(a, ids).proposals.Keys == a.proposals.Keys
    ensures forall id :: id in a.proposals && id !in ids ==> SettleAll(a, ids).proposals[id] == a.proposals[id]
    decreases |ids|
  {
    hide Settle;
    if ids != [] {
      SettleShape(a, ids[0]);
      SettleAllShape(Settle(a, ids[0]), ids[1..]);
      assert forall id :: id in ids <==> id == ids[0] || id in ids[1..];
    }
  }

  lemma {:induction false} DueAlike(approvals: seq<ProposalId>, one: Proposals, two: Proposals, b: BlockNumber)
    requires forall id :: id in approvals ==> id in one && id in two && one[id] == two[id]
    ensures Due(approvals, one, b) == Due(approvals, two, b)
  {
    if approvals != [] {
      DueAlike(approvals[1..], one, two, b);
    }
  }

  /** What the block leaves of the queue is what it leaves of the schedule. */
  lemma QueueAfterBlock(pending: Buckets, approvals: seq<ProposalId>,
                        before: Proposals, after: Proposals, b: BlockNumber)
    requires Queued(pending, approvals, before) && after.Keys == before.Keys
    requires forall id :: id in before && id !in Due(approvals, before, b) ==> after[id] == before[id]
    ensures Queued(pending - {b}, NotDue(approvals, before, b), after)
  {
    var rest := NotDue(approvals, before, b);
    forall id | id in rest ensures id in approvals && id in before && after[id] == before[id] {
      DueMembers(approvals, before, b, id);
    }
    forall c: BlockNumber ensures Bucket(pending - {b}, c) == Due(rest, after, c) {
      DueAlike(rest, before, after, c);
      DueAfterBlock(approvals, before, b, c);
      SameBucket(pending, approvals, before, c);
    }
  }

  lemma BlockAgrees(verify: Verifier, s: State, a: Simple)
    requires Sound(verify, s) && Related(s, a) && s.now + 1 < BLOCK_MAX
    ensures Related(After(verify, s, NextBlock), Tick(a))
  {
    hide Sound, Inv, EnactAll, SettleAll, Queued, SameLogs, SameLosses;
    var now := s.now + 1;
    var ids := Bucket(s.pending, now);
    var s1 := s.(now := now, pending := s.pending - {now});
    var a1 := a.(now := now, approvals := NotDue(a.approvals, a.proposals, now));
    SameBucket(s.pending, a.approvals, a.proposals, now);
    LoopStart(verify, s);
    LoopAgrees(verify, s1, a1, ids);
    EnactAllKeepsInv(verify, s1, ids);
    SettleAllShape(a1, ids);
    QueueAfterBlock(s.pending, a.approvals, a.proposals, SettleAll(a1, ids).proposals, now);
  }

  // Steps and runs

  lemma CallAgrees(verify: Verifier, s: State, a: Simple, origin: Origin, call: Call)
    requires Sound(verify, s) && Related(s, a)
    requires Admissible(s, Dispatch(origin, call))
    ensures Agree(Apply(verify, s, origin, call), Do(verify, a, origin, call))
  {
    hide Sound, Related, Agree;
    hide ProjectGenesis, NewRelease, Vote, SubmitCounterAttestation, CloseExpired;
    hide Found, ProposeRelease, CastVote, Reject, Expire;
    match call
    case CallGenesis(name, inits, policy, slashing, bond) =>
      GenesisAgrees(verify, s, a, origin, name, inits, policy, slashing, bond);
    case CallNewRelease(p, version, attestation, cid, signature) =>
      NewReleaseAgrees(verify, s, a, origin, p, version, attestation, cid, signature);
    case CallVote(id, aye) => VoteAgrees(verify, s, a, origin, id, aye);
    case CallCounter(id, rebuilt) => RejectAgrees(verify, s, a, origin, id, rebuilt);
    case CallCloseExpired(id) => ExpireAgrees(verify, s, a, origin, id);
  }

  /** What a caller sees of a step of the pallet. */
  ghost function PalletReply(verify: Verifier, s: State, step: Step): Option<Error> {
    if step.Dispatch? then
      var r := Apply(verify, s, step.origin, step.call);
      if r.Err? then Some(r.error) else None
    else None
  }

  ghost function PalletReplies(verify: Verifier, s: State, steps: seq<Step>): seq<Option<Error>>
    decreases |steps|
  {
    if steps == [] then []
    else [PalletReply(verify, s, steps[0])] + PalletReplies(verify, After(verify, s, steps[0]), steps[1..])
  }

  /** Every step of the pallet is a step of the simple machine, with the same reply. */
  lemma StepRefines(verify: Verifier, s: State, a: Simple, step: Step)
    requires Sound(verify, s) && Related(s, a) && Admissible(s, step)
    ensures Related(After(verify, s, step), Next(verify, a, step))
    ensures PalletReply(verify, s, step) == Reply(verify, a, step)
  {
    hide Sound, Queued, SameLogs, SameLosses, Apply, Do, OnInitialize, Tick;
    match step
    case Dispatch(origin, call) => CallAgrees(verify, s, a, origin, call);
    case NextBlock => BlockAgrees(verify, s, a);
    case TransferFree(from, to, amount) =>
  }

  lemma {:induction false} RunRefinesFrom(verify: Verifier, s: State, a: Simple, steps: seq<Step>)
    requires Sound(verify, s) && Related(s, a) && AdmissibleRun(verify, s, steps)
    ensures Related(Run(verify, s, steps), SimpleRun(verify, a, steps))
    ensures PalletReplies(verify, s, steps) == Replies(verify, a, steps)
    decreases |steps|
  {
    hide Sound, Related, After, Next, Admissible, Evolves, PalletReply, Reply;
    if steps != [] {
      var s1 := After(verify, s, steps[0]);
      StepRefines(verify, s, a, steps[0]);
      StepKeepsSound(verify, s, steps[0]);
      RunRefinesFrom(verify, s1, Next(verify, a, steps[0]), steps[1..]);
    }
  }

  lemma StartsRelated(s: State)
    requires Initial(s)
    ensures Related(s, Blank(s.now, s.ledger.free))
  {
  }

  /**
   Every run of the pallet from its first block is a run of the simple machine: the same replies to the
   same calls, and in the end the same projects, stakeholders, proposals, votes, logs and balances, whatever
   the policies and the issuance.
   */
  lemma PalletRefinesSimpleMachine(verify: Verifier, s0: State, steps: seq<Step>)
    requires Initial(s0) && AdmissibleRun(verify, s0, steps)
    ensures Related(Run(verify, s0, steps), SimpleRun(verify, Blank(s0.now, s0.ledger.free), steps))
    ensures PalletReplies(verify, s0, steps) == Replies(verify, Blank(s0.now, s0.ledger.free), steps)
  {
    hide Sound, Related, Initial;
    InitialSound(verify, s0);
    StartsRelated(s0);
    RunRefinesFrom(verify, s0, Blank(s0.now, s0.ledger.free), steps);
  }
}
