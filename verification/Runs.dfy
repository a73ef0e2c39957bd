/** Whole runs of the chain: the invariant holds after every step, and the journal only grows. */
module Runs {
  import opened Types
  import opened Currency
  import opened Protocol
  import opened Accounting
  import opened History
  import opened Invariant
  import opened Genesis
  import opened Voting
  import opened Closing
  import opened Enactment

  /** Counters and block numbers, which are 32 bits wide, still have room for this step. */
  predicate Admissible(s: State, step: Step) {
    match step
    case Dispatch(_, CallGenesis(_, _, _, _, _)) => s.nextProjectId < 4_294_967_295
    case Dispatch(_, CallNewRelease(_, _, _, _, _)) => s.nextProposalId < 4_294_967_295
    case Dispatch(_, _) => true
    case NextBlock => s.now + 1 < 4_294_967_295
    case TransferFree(_, _, _) => true
  }

  predicate AdmissibleRun(verify: Verifier, s: State, steps: seq<Step>)
    decreases |steps|
  {
    steps == [] || (Admissible(s, steps[0]) && AdmissibleRun(verify, After(verify, s, steps[0]), steps[1..]))
  }

  /** The pallet before its first call, over any ledger in which nothing is held yet. */
  ghost predicate Initial(s: State) {
    && s.now < 4_294_967_295
    && s.nextProjectId == 0 && s.nextProposalId == 0
    && s.projects == map[] && s.stakeholders == map[] && s.roleStake == map[]
    && s.proposals == map[] && s.votes == map[] && s.tallies == map[]
    && s.releaseCount == map[] && s.releaseLog == map[] && s.counterAttestations == map[]
    && s.pending == map[] && s.journal == Empty
    && s.ledger.stakeHold == map[] && s.ledger.bondHold == map[] && Conserved(s.ledger)
  }

  lemma InitialSound(verify: Verifier, s: State)
    requires Initial(s)
    ensures Sound(verify, s)
  {
    assert forall p, r :: RoleWeights(s.stakeholders, p, r) == map[];
    assert forall a :: AccountWeights(s.stakeholders, a) == map[];
    assert forall a :: BondWeights(s.proposals, a) == map[];
    assert forall p, a :: RejectedWeights(s.proposals, p, a) == map[];
    assert StakeWeights(s.stakeholders) == map[] && RegisteredWeights(s.stakeholders, s.journal) == map[];
  }

  lemma CallKeepsSound(verify: Verifier, s: State, origin: Origin, call: Call)
    requires Sound(verify, s) && Admissible(s, Dispatch(origin, call)) && Apply(verify, s, origin, call).Ok?
    ensures Sound(verify, Apply(verify, s, origin, call).value)
  {
    hide Sound, ProjectGenesis, NewRelease, Vote, SubmitCounterAttestation, CloseExpired;
    match call
    case CallGenesis(name, inits, policy, slashing, bond) =>
      GenesisKeepsSound(verify, s, origin, name, inits, policy, slashing, bond);
    case CallNewRelease(p, version, attestation, cid, signature) =>
      NewReleaseKeepsSound(verify, s, origin, p, version, attestation, cid, signature);
    case CallVote(id, aye) => VoteKeepsSound(verify, s, origin, id, aye);
    case CallCounter(id, rebuilt) => CounterKeepsSound(verify, s, origin, id, rebuilt);
    case CallCloseExpired(id) => CloseExpiredKeepsSound(verify, s, origin, id);
  }

  lemma StepKeepsSound(verify: Verifier, s: State, step: Step)
    requires Sound(verify, s) && Admissible(s, step)
    ensures Sound(verify, After(verify, s, step))
  {
    hide Sound, Apply, OnInitialize;
    match step
    case Dispatch(origin, call) =>
      if Apply(verify, s, origin, call).Ok? {
        CallKeepsSound(verify, s, origin, call);
      }
    case NextBlock => OnInitializeKeepsSound(verify, s);
    case TransferFree(from, to, amount) => TransferKeepsSound(verify, s, from, to, amount);
  }

  /** Every state of every run satisfies the invariant. */
  lemma {:induction false} RunKeepsSound(verify: Verifier, s: State, steps: seq<Step>)
    requires Sound(verify, s) && AdmissibleRun(verify, s, steps)
    ensures Sound(verify, Run(verify, s, steps))
    decreases |steps|
  {
    hide Sound, After, Admissible;
    if steps != [] {
      StepKeepsSound(verify, s, steps[0]);
      RunKeepsSound(verify, After(verify, s, steps[0]), steps[1..]);
    }
  }

  lemma Reachable(verify: Verifier, s0: State, steps: seq<Step>)
    requires Initial(s0) && AdmissibleRun(verify, s0, steps)
    ensures Sound(verify, Run(verify, s0, steps))
  {
    hide Sound;
    InitialSound(verify, s0);
    RunKeepsSound(verify, s0, steps);
  }

  /** A storage that some run from the empty pallet leaves. */
  ghost predicate Reached(verify: Verifier, s: State) {
    exists s0: State, steps: seq<Step> ::
      Initial(s0) && AdmissibleRun(verify, s0, steps) && s == Run(verify, s0, steps)
  }

  lemma ReachedSound(verify: Verifier, s: State)
    requires Reached(verify, s)
    ensures Sound(verify, s)
  {
    hide Sound, Initial, Run, AdmissibleRun;
    var s0: State, steps: seq<Step> :|
      Initial(s0) && AdmissibleRun(verify, s0, steps) && s == Run(verify, s0, steps);
    Reachable(verify, s0, steps);
  }

  lemma {:induction false} RunAppend(verify: Verifier, s: State, first: seq<Step>, second: seq<Step>)
    ensures Run(verify, s, first + second) == Run(verify, Run(verify, s, first), second)
    ensures AdmissibleRun(verify, s, first + second)
       <==> AdmissibleRun(verify, s, first) && AdmissibleRun(verify, Run(verify, s, first), second)
    decreases |first|
  {
    hide After, Admissible;
    if first == [] {
      assert first + second == second;
    } else {
      assert (first + second)[1..] == first[1..] + second;
      RunAppend(verify, After(verify, s, first[0]), first[1..], second);
    }
  }

  /** What is reached from a reached storage is reached. */
  lemma ReachedOnwards(verify: Verifier, s: State, steps: seq<Step>)
    requires Reached(verify, s) && AdmissibleRun(verify, s, steps)
    ensures Reached(verify, Run(verify, s, steps))
  {
    hide Sound, Initial, Run, AdmissibleRun;
    var s0: State, first: seq<Step> :|
      Initial(s0) && AdmissibleRun(verify, s0, first) && s == Run(verify, s0, first);
    RunAppend(verify, s0, first, steps);
  }

  /** `n` blocks and nothing else. */
  function Blocks(n: nat): seq<Step> { if n == 0 then [] else [NextBlock] + Blocks(n - 1) }

  lemma {:induction false} RunOneMore(verify: Verifier, s: State, n: nat)
    ensures Run(verify, s, Blocks(n + 1)) == After(verify, Run(verify, s, Blocks(n)), NextBlock)
    decreases n
  {
    hide After;
    var s1 := After(verify, s, NextBlock);
    assert ([NextBlock] + Blocks(n))[1..] == Blocks(n);
    assert Run(verify, s, Blocks(n + 1)) == Run(verify, s1, Blocks(n));
    if n > 0 {
      RunOneMore(verify, s1, n - 1);
      assert ([NextBlock] + Blocks(n - 1))[1..] == Blocks(n - 1);
      assert Run(verify, s, Blocks(n)) == Run(verify, s1, Blocks(n - 1));
    } else {
      assert Run(verify, s, Blocks(0)) == s;
    }
  }
}
