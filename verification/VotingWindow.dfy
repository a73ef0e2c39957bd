/** How long a vote can still change an approval, and what can undo one afterwards. */
module VotingWindow {
  import opened Types
  import opened Protocol
  import opened Schedule
  import opened Invariant
  import opened Enactment
  import opened Runs
  import opened Evolution
  import opened Liveness

  /**
   As long as this proposal stands as it does in `s`, no stakeholder of its project is turned away because the
   voting period is over.
   */
  ghost predicate OpenWhileApproved(verify: Verifier, s: State, id: ProposalId)
    requires id in s.proposals
  {
    forall steps: seq<Step>, who: AccountId, aye: bool ::
      var t := Run(verify, s, steps);
      (&& AdmissibleRun(verify, s, steps)
       && id in t.proposals && t.proposals[id] == s.proposals[id]
       && (s.proposals[id].projectId, who) in t.stakeholders)
      ==> Vote(t, Signed(who), id, aye) != Err(VotingPeriodOver)
  }

  lemma NextBlockIsNext(verify: Verifier, s: State)
    ensures After(verify, s, NextBlock).now == s.now + 1
  {
    hide EnactAll;
    var now := s.now + 1;
    EnactAllKeepsNow(s.(now := now, pending := s.pending - {now}), Bucket(s.pending, now), now);
  }

  lemma {:induction false} BlocksKeepApproved(verify: Verifier, s: State, id: ProposalId, n: nat)
    requires Sound(verify, s) && id in s.proposals && s.proposals[id].status.Approved?
    requires s.now + n < s.proposals[id].status.enactAt <= BLOCK_MAX
    ensures AdmissibleRun(verify, s, Blocks(n))
    ensures var t := Run(verify, s, Blocks(n));
      && t.now == s.now + n
      && id in t.proposals && t.proposals[id] == s.proposals[id]
    decreases n
  {
    hide Sound, EnactedAt, Staffed;
    if n > 0 {
      var s1 := After(verify, s, NextBlock);
      StepKeepsSound(verify, s, NextBlock);
      NextBlockOnApproved(verify, s, id);
      NextBlockIsNext(verify, s);
      hide After;
      BlocksKeepApproved(verify, s1, id, n - 1);
      assert Blocks(n)[1..] == Blocks(n - 1);
    }
  }

  /** A proposal that is still approved is not enacted yet, so its block is still to come. */
  lemma StillBefore(verify: Verifier, s: State, t: State, id: ProposalId)
    requires Sound(verify, s) && Sound(verify, t) && Evolves(s, t)
    requires id in s.proposals && s.proposals[id].status.Approved? && 0 < DelayOf(s.projects, s.proposals[id].projectId)
    requires id in t.proposals && t.proposals[id] == s.proposals[id]
    ensures t.now < s.proposals[id].status.enactAt
  {
    hide Sound, Evolves;
    SameDelay(verify, s, t, id);
    NothingOverdue(verify, t, id);
  }

  lemma DoVoteIsOpen(s: State, who: AccountId, id: ProposalId, aye: bool)
    requires id in s.proposals && s.proposals[id].projectId in s.projects
    requires (s.proposals[id].projectId, who) in s.stakeholders
    ensures var p := s.proposals[id].projectId;
      DoVote(s, id, p, s.projects[p].policy, who, s.stakeholders[(p, who)], aye) != Err(VotingPeriodOver)
  {
    hide MeetsQuorums, Revoke, MoveVote;
  }

  lemma InTime(s: State, who: AccountId, id: ProposalId, aye: bool)
    requires id in s.proposals && s.now <= s.proposals[id].votingEnds
    ensures Vote(s, Signed(who), id, aye) != Err(VotingPeriodOver)
  {
    hide DoVote;
    if Vote(s, Signed(who), id, aye) == Err(VotingPeriodOver) {
      DoVoteIsOpen(s, who, id, aye);
    }
  }

  lemma DueInRange(verify: Verifier, s: State, id: ProposalId)
    requires Sound(verify, s) && id in s.proposals && s.proposals[id].status.Approved?
    ensures s.proposals[id].status.enactAt <= BLOCK_MAX
  {
    hide Sound;
    NothingOverdue(verify, s, id);
  }

  lemma ProposerRegistered(verify: Verifier, s: State, id: ProposalId)
    requires Sound(verify, s) && id in s.proposals
    ensures (s.proposals[id].projectId, s.proposals[id].proposer) in s.stakeholders
  {
    hide Sound;
    RootedAt(verify, s, id);
  }

  /** Empty blocks up to the end of the vote turn the proposer itself away while the approval still stands. */
  lemma ClosedEarly(verify: Verifier, s: State, id: ProposalId, b: BlockNumber)
    requires Sound(verify, s) && id in s.proposals && s.proposals[id].status == Approved(b)
    requires 0 < DelayOf(s.projects, s.proposals[id].projectId) && s.proposals[id].votingEnds + 1 < b
    ensures !OpenWhileApproved(verify, s, id)
  {
    hide Sound, Run, AdmissibleRun;
    NothingOverdue(verify, s, id);
    DueInRange(verify, s, id);
    var v := s.proposals[id];
    var n := if s.now <= v.votingEnds then v.votingEnds + 1 - s.now else 0;
    BlocksKeepApproved(verify, s, id, n);
    var t := Run(verify, s, Blocks(n));
    RunKeepsSound(verify, s, Blocks(n));
    ProposerRegistered(verify, t, id);
    assert Vote(t, Signed(v.proposer), id, true) == Err(VotingPeriodOver);
  }

  /**
   Votes on an approved proposal stay open until its enactment if and only if it is due no later than one block
   after the end of the vote.
   */
  lemma OpenUntilEnactmentIff(verify: Verifier, s: State, id: ProposalId, b: BlockNumber)
    requires Reached(verify, s) && id in s.proposals && s.proposals[id].status == Approved(b)
    requires 0 < DelayOf(s.projects, s.proposals[id].projectId)
    ensures OpenWhileApproved(verify, s, id) <==> b <= s.proposals[id].votingEnds + 1
  {
    hide Reached, Sound, Run, AdmissibleRun, Vote;
    ReachedSound(verify, s);
    if b <= s.proposals[id].votingEnds + 1 {
      forall steps: seq<Step>, who: AccountId, aye: bool |
        var t := Run(verify, s, steps);
        && AdmissibleRun(verify, s, steps)
        && id in t.proposals && t.proposals[id] == s.proposals[id]
        && (s.proposals[id].projectId, who) in t.stakeholders
        ensures Vote(Run(verify, s, steps), Signed(who), id, aye) != Err(VotingPeriodOver)
      {
        RunKeepsSound(verify, s, steps);
        RunEvolves(verify, s, steps);
        StillBefore(verify, s, Run(verify, s, steps), id);
        InTime(Run(verify, s, steps), who, id, aye);
      }
    } else {
      ClosedEarly(verify, s, id, b);
    }
  }

  // After the vote

  predicate Counters(verify: Verifier, s: State, step: Step, id: ProposalId) {
    && step.Dispatch? && step.call.CallCounter? && step.call.proposal == id
    && Apply(verify, s, step.origin, step.call).Ok?
  }

  /** No counter-attestation against this proposal is accepted in this run. */
  predicate Unchallenged(verify: Verifier, s: State, steps: seq<Step>, id: ProposalId)
    decreases |steps|
  {
    steps == []
    || (!Counters(verify, s, steps[0], id) && Unchallenged(verify, After(verify, s, steps[0]), steps[1..], id))
  }

  lemma Onwards(s: State, t: State)
    requires Evolves(s, t)
    ensures s.now <= t.now
  {
  }

  lemma LateVotesFail(verify: Verifier, s: State, step: Step, id: ProposalId)
    requires id in s.proposals && s.proposals[id].votingEnds < s.now && !Counters(verify, s, step, id)
    ensures !Undoes(verify, s, step, id)
  {
    hide DoVote, SubmitCounterAttestation;
  }

  lemma {:induction false} LateIsUndisturbed(verify: Verifier, s: State, steps: seq<Step>, id: ProposalId)
    requires Sound(verify, s) && AdmissibleRun(verify, s, steps) && Unchallenged(verify, s, steps, id)
    requires id in s.proposals && s.proposals[id].votingEnds < s.now
    ensures Undisturbed(verify, s, steps, id)
    decreases |steps|
  {
    hide Sound, After, Admissible, Evolves, Undoes, Counters;
    if steps != [] {
      LateVotesFail(verify, s, steps[0], id);
      StepKeepsSound(verify, s, steps[0]);
      StepEvolves(verify, s, steps[0]);
      StaysThere(s, After(verify, s, steps[0]), id);
      Onwards(s, After(verify, s, steps[0]));
      LateIsUndisturbed(verify, After(verify, s, steps[0]), steps[1..], id);
    }
  }

  /**
   Once the voting period is over, only an accepted counter-attestation can undo an approval whose required roles
   keep some stake: otherwise it stands until its block and is enacted exactly then.
   */
  lemma OnlyCounterUndoes(verify: Verifier, s: State, steps: seq<Step>, id: ProposalId, b: BlockNumber)
    requires Reached(verify, s) && AdmissibleRun(verify, s, steps)
    requires id in s.proposals && s.proposals[id].status == Approved(b) && s.proposals[id].votingEnds < s.now
    requires 0 < DelayOf(s.projects, s.proposals[id].projectId)
    requires Unchallenged(verify, s, steps, id)
    ensures var t := Run(verify, s, steps);
      && id in t.proposals
      && (LastingRoles(s, id) ==> Staffed(t, id))
      && (Staffed(t, id) && t.now < b ==> t.proposals[id] == s.proposals[id])
      && (Staffed(t, id) && b <= t.now ==> EnactedAt(t, id, b))
  {
    hide Reached, Sound, Run, AdmissibleRun, Unchallenged, Undisturbed, Staffed, EnactedAt, LastingRoles;
    ReachedSound(verify, s);
    LateIsUndisturbed(verify, s, steps, id);
    EnactedWhenDue(verify, s, steps, id, b);
  }

  // Who may challenge

  /**
   A counter-attestation is accepted exactly from a registered stakeholder other than the builder, with or without
   stake, against a live proposal and with a different hash.
   */
  lemma ChallengeAcceptedIff(verify: Verifier, s: State, origin: Origin, id: ProposalId, rebuilt: Hash32)
    requires Reached(verify, s)
    ensures SubmitCounterAttestation(s, origin, id, rebuilt).Ok? <==>
      && origin.Signed? && id in s.proposals && Live(s.proposals[id].status)
      && (s.proposals[id].projectId, origin.who) in s.stakeholders
      && origin.who != s.proposals[id].attestation.builder
      && rebuilt != s.proposals[id].attestation.outputBinaryHash
  {
    hide Reached, Sound, SignedBy, Challenge, Slash, Close, RecordCounter;
    ReachedSound(verify, s);
    if id in s.proposals {
      RootedAt(verify, s, id);
    }
  }
}
