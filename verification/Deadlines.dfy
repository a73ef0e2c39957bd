/** When a vote ends and when an approval is due, counted from the blocks in which they came about. */
module Deadlines {
  import opened Types
  import opened Protocol
  import opened Accounting
  import opened Ballots
  import opened Schedule
  import opened Invariant
  import opened Runs
  import opened Evolution
  import opened Quorum
  import opened Liveness
  import opened Electorate
  import opened BlockLoop
  import opened Outcomes

  /** This step approves the proposal, or makes it as an approved one. */
  ghost predicate Approves(s: State, t: State, id: ProposalId) {
    && id in t.proposals && t.proposals[id].status.Approved?
    && (id in s.proposals ==> s.proposals[id].status != t.proposals[id].status)
  }

  /** The proposal is due the enactment delay of its project after the block of `s`. */
  ghost predicate DueLater(s: State, v: Proposal) {
    && v.projectId in s.projects && v.status.Approved?
    && var delay := s.projects[v.projectId].policy.enactmentDelay;
       v.status.enactAt == if s.now + delay <= 4_294_967_295 then s.now + delay else 4_294_967_295
  }

  /** The proposal was made in the block of `s`, and its vote ends the voting period of its project later. */
  ghost predicate MadeNow(s: State, v: Proposal) {
    && v.projectId in s.projects && v.submittedAt == s.now
    && var period := s.projects[v.projectId].policy.votingPeriod;
       v.votingEnds == if s.now + period <= 4_294_967_295 then s.now + period else 4_294_967_295
  }

  lemma ReleaseDeadlines(verify: Verifier, s: State, who: AccountId, call: Call, id: ProposalId)
    requires Reached(verify, s) && Admissible(s, Dispatch(Signed(who), call)) && call.CallNewRelease?
    requires Apply(verify, s, Signed(who), call).Ok?
    ensures var t := After(verify, s, Dispatch(Signed(who), call));
      && (Approves(s, t, id) ==> DueLater(s, t.proposals[id]))
      && (id in t.proposals && id !in s.proposals ==> MadeNow(s, t.proposals[id]))
  {
    hide Reached, Apply, Backed, ApprovedFor;
    ReleaseOutcome(verify, s, who, call.project, call.version, call.attestation, call.cid, call.signature);
  }

  lemma VoteDeadlines(verify: Verifier, s: State, who: AccountId, i: ProposalId, aye: bool, id: ProposalId)
    requires Reached(verify, s) && Apply(verify, s, Signed(who), CallVote(i, aye)).Ok?
    ensures var t := After(verify, s, Dispatch(Signed(who), CallVote(i, aye)));
      t.proposals.Keys == s.proposals.Keys && (Approves(s, t, id) ==> DueLater(s, t.proposals[id]))
  {
    assert i in s.proposals;
    hide Reached, Apply, Backed, ApprovedFor, LostAyes;
    VoteOutcome(verify, s, who, i, aye);
  }

  lemma OtherCallsApproveNothing(verify: Verifier, s: State, origin: Origin, call: Call, id: ProposalId)
    requires Reached(verify, s) && Apply(verify, s, origin, call).Ok? && !call.CallVote? && !call.CallNewRelease?
    ensures var t := After(verify, s, Dispatch(origin, call));
      t.proposals.Keys == s.proposals.Keys && !Approves(s, t, id)
  {
    hide Reached, Sound, SubmitCounterAttestation, CloseExpired, Books, Tallied, WithoutApproval, Enlisted;
    match call
    case CallGenesis(name, inits, policy, slashing, bond) =>
      GenesisOutcome(verify, s, origin, name, inits, policy, slashing, bond);
    case CallCounter(i, rebuilt) =>
      ReachedSound(verify, s);
      BooksAndTallies(verify, s);
      var share := CounterWrites(s, origin, i, rebuilt);
    case CallCloseExpired(i) => ExpiryOutcome(verify, s, origin, i);
  }

  lemma BlocksApproveNothing(verify: Verifier, s: State, id: ProposalId)
    requires Reached(verify, s) && Admissible(s, NextBlock)
    ensures var t := After(verify, s, NextBlock); t.proposals.Keys == s.proposals.Keys && !Approves(s, t, id)
  {
    hide Reached, Sound, After, LogsExtended, Bucket, Meets;
    ReachedSound(verify, s);
    BlockLoopEffect(verify, s);
  }

  lemma FailedCall(verify: Verifier, s: State, origin: Origin, call: Call, id: ProposalId)
    requires Apply(verify, s, origin, call).Err?
    ensures After(verify, s, Dispatch(origin, call)) == s
  {
  }

  lemma SignedOnly(verify: Verifier, s: State, origin: Origin, call: Call)
    requires Apply(verify, s, origin, call).Ok? && (call.CallVote? || call.CallNewRelease?)
    ensures origin.Signed?
  {
  }

  /**
   Whatever step approves a proposal, the approval is due exactly the enactment delay later; whatever step makes a
   proposal, its vote ends exactly the voting period later, both at the latest in block 4294967295.
   */
  lemma DeadlinesCount(verify: Verifier, s: State, step: Step, id: ProposalId)
    requires Reached(verify, s) && Admissible(s, step)
    ensures var t := After(verify, s, step);
      && (Approves(s, t, id) ==> DueLater(s, t.proposals[id]))
      && (id in t.proposals && id !in s.proposals ==> MadeNow(s, t.proposals[id]))
  {
    hide Reached, Apply, OnInitialize, DueLater, MadeNow;
    match step
    case Dispatch(origin, call) =>
      if Apply(verify, s, origin, call).Ok? {
        if call.CallNewRelease? {
          SignedOnly(verify, s, origin, call);
          ReleaseDeadlines(verify, s, origin.who, call, id);
        } else if call.CallVote? {
          SignedOnly(verify, s, origin, call);
          VoteDeadlines(verify, s, origin.who, call.proposal, call.aye, id);
        } else {
          OtherCallsApproveNothing(verify, s, origin, call, id);
        }
      }
    case NextBlock => BlocksApproveNothing(verify, s, id);
    case TransferFree(from, to, amount) =>
  }

  // Over runs

  /** Where the stored blocks of a proposal lie. */
  ghost predicate OnTime(s: State, id: ProposalId)
    requires id in s.proposals
  {
    var v := s.proposals[id];
    && v.projectId in s.projects && v.submittedAt <= s.now
    && var policy := s.projects[v.projectId].policy;
    && v.votingEnds == (if v.submittedAt + policy.votingPeriod <= 4_294_967_295
                        then v.submittedAt + policy.votingPeriod else 4_294_967_295)
    && (v.status.Approved? && v.status.enactAt < 4_294_967_295 ==>
          v.submittedAt + policy.enactmentDelay <= v.status.enactAt <= v.votingEnds + policy.enactmentDelay)
  }

  ghost predicate AllOnTime(s: State) { forall id :: id in s.proposals ==> OnTime(s, id) }

  lemma StepOnTime(verify: Verifier, s: State, step: Step, id: ProposalId)
    requires Reached(verify, s) && Admissible(s, step) && AllOnTime(s)
    requires id in After(verify, s, step).proposals
    ensures OnTime(After(verify, s, step), id)
  {
    hide Reached, Sound, After, Grown, RegistryKept, ElectorateFixed, LogKept, CountersKept;
    var t := After(verify, s, step);
    ReachedSound(verify, s);
    StepKeepsSound(verify, s, step);
    StepEvolves(verify, s, step);
    DeadlinesCount(verify, s, step, id);
    if t.proposals[id].status.Approved? {
      NothingOverdue(verify, t, id);
    }
  }

  lemma StepAllOnTime(verify: Verifier, s: State, step: Step)
    requires Reached(verify, s) && Admissible(s, step) && AllOnTime(s)
    ensures AllOnTime(After(verify, s, step))
  {
    hide Reached, After, Admissible, OnTime;
    forall id | id in After(verify, s, step).proposals ensures OnTime(After(verify, s, step), id) {
      StepOnTime(verify, s, step, id);
    }
  }

  lemma StepReached(verify: Verifier, s: State, step: Step)
    requires Reached(verify, s) && Admissible(s, step)
    ensures Reached(verify, After(verify, s, step))
  {
    hide Reached, After, Admissible;
    var t := After(verify, s, step);
    assert [step][1..] == [];
    assert AdmissibleRun(verify, t, []) && Run(verify, t, []) == t;
    assert AdmissibleRun(verify, s, [step]) && Run(verify, s, [step]) == t;
    ReachedOnwards(verify, s, [step]);
  }

  lemma {:induction false} RunOnTime(verify: Verifier, s: State, steps: seq<Step>)
    requires Reached(verify, s) && AdmissibleRun(verify, s, steps) && AllOnTime(s)
    ensures AllOnTime(Run(verify, s, steps))
    decreases |steps|
  {
    hide Reached, After, Admissible, OnTime, AllOnTime;
    if steps != [] {
      var s1 := After(verify, s, steps[0]);
      StepAllOnTime(verify, s, steps[0]);
      StepReached(verify, s, steps[0]);
      RunOnTime(verify, s1, steps[1..]);
    }
  }

  lemma StartReached(verify: Verifier, s0: State)
    requires Initial(s0)
    ensures Reached(verify, s0)
  {
    hide Initial;
    assert AdmissibleRun(verify, s0, []) && s0 == Run(verify, s0, []);
  }

  /**
   In every reached storage a vote ends the voting period of its project after the proposal was made, and an approval
   is due at the earliest the enactment delay after that and at the latest the enactment delay after the vote.
   */
  lemma EveryDeadline(verify: Verifier, s: State, id: ProposalId)
    requires Reached(verify, s) && id in s.proposals
    ensures OnTime(s, id)
  {
    hide Sound, Run, AdmissibleRun, OnTime;
    var s0: State, steps: seq<Step> :|
      Initial(s0) && AdmissibleRun(verify, s0, steps) && s == Run(verify, s0, steps);
    assert Reached(verify, s0) by { StartReached(verify, s0); }
    RunOnTime(verify, s0, steps);
  }
}
