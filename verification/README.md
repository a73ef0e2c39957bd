# VeriGov pallet

A model of the VeriGov release-governance pallet (`pallets/verigov/src/lib.rs`) and proofs about it.
The pallet registers projects with escrowed stakes, takes signed and bonded release proposals, tallies
stake-weighted votes that may be changed, schedules accepted proposals, appends them to an append-only
release log when their block comes, closes the ones that expire, and burns a Build Service's stake when
a rebuild contradicts its attestation.

## What is here

- `Types`, `Currency`, `Protocol`: the vocabulary, the small ledger the pallet relies on, and every call
  and hook as a function from one storage to the next. A failed call is an `Err`, which keeps the old
  storage. `Step`, `After` and `Run` are whole runs of the chain: calls by anyone, new blocks, and
  transfers of free balance made outside the pallet.
- `Storage`: class `Pallet`, with the storage items as fields and the bodies of the calls as they are
  written, loops and partial writes included. Each method is proved to leave the storage its function in
  `Protocol` gives; `Call` is the storage layer that undoes the writes of a failed call.
- `Sums`, `Accounting`, `Slashing`, `History`, `Ballots`, `Schedule`, `Releases`: the parts of the
  invariant. Sums over finite maps say what each cached number stands for; the journal of events says
  what happened before.
- `Invariant`, `Genesis`, `Voting`, `Closing`, `Enactment`, `Runs`: the invariant `Sound`, and the proof
  that every step of every run keeps it.
- `Evolution`, `BlockLoop`, `Liveness`, `VotingWindow`: what never changes back, what one block does, when
  an approved proposal is released and when it never is, how long votes and challenges can still undo it.
- `Quorum`, `Electorate`, `Verdicts`: Eq. 1 in exact arithmetic, against the pallet's saturating test, its
  tallies and the status of a proposal.
- `Outcomes`, `Deadlines`: for every call, exactly when it is accepted and what it writes, in plain numbers;
  when votes end and approvals are due.
- `SimpleMachine`, `Refinement`: a machine without role stakes, tallies, buckets, log indices and holds, with
  arithmetic of its own, and the proof that the pallet behaves like it for every policy, call by call and over
  whole runs, with the same replies and the same events. It
  recomputes Eq. 1 after each vote, with exactly the two departures the pallet makes: stake slashed from
  behind an aye goes on counting for it, and ayes whose multiple leaves 128 bits are enough for any quorum.
- `Wealth`, `Guarantees`: what follows for the people involved. `Witnesses`: runs from the empty pallet that
  show what can happen.

Most results speak of every storage that is `Reached` from an empty pallet by some run, or of every run
from it; the lemmas that build them speak of storages that satisfy the invariant `Sound`, which every
reached storage does. Neither assumes anything about the policy of a project; where a statement needs
the required roles to exclude Build Services, it says so with `Unslashable` or `BuildFree`, and where it
needs that a slash takes less than everything or hits no required role, with `LastingRoles` or
`LastingProject`. Runs are `Admissible`: the 32-bit counters of projects and
proposals have room for the next id, and block numbers stay below their maximum. Signature checking is
an arbitrary predicate.

## What the proofs found

- **A project without an enactment delay never releases anything.** Its approvals go into the bucket of
  the current block, which has been taken already (`Witnesses.ZeroDelayApproval`). Whatever the policy,
  such proposals stay `Approved`, cannot expire, and keep their bond held
  (`Liveness.ZeroDelayNeverReleases`, `Liveness.ZeroDelayStuck`). For every other delay the schedule lies
  in the future, and only then (`Guarantees.ScheduleAgrees`).
- **Acceptance is not always Eq. 1**, as the repository's `README.md`, line 306, says it is. If Build
  Services are a required role, a slash makes two things stale. The tally: a proposal can be released
  although the stakes behind it no longer satisfy Eq. 1 (`Witnesses.StaleRelease`); a side of a tally is
  too large by exactly what was slashed from voters standing on it (`Guarantees.TalliesMeanStakes`), so an
  accepted proposal satisfies Eq. 1 if nothing was slashed from behind its ayes
  (`Verdicts.AcceptedSatisfyEqOne`). And the status: nothing reconsiders a proposal when a slash lowers its quorum, so one that satisfies Eq. 1
  can stay `Voting` and be dropped by `close_expired`, even if none of its voters was slashed
  (`Witnesses.StaleVoting`). The status is the verdict at the last vote; it is right if no slash in the
  project followed, and wrong in that one direction only as long as every required role has stake
  (`Verdicts.StatusIsLastVerdict`, `Verdicts.ApprovedIffEqOneAtVote`, `Verdicts.ExpiryNeverDropsEqOne`). Eq. 1 is never overlooked by the
  quorum check itself (`Verdicts.EqOneIsMet`).
- **The fall-back in `enact` happens if and only if a required role has lost all its stake**
  (`Guarantees.DueAreEnacted`, `Witnesses.EmptiedRoleFallsBack`).
- **Votes do not stay open until enactment**, as the comment on `vote` (lib.rs, lines 558-560) and the
  repository's `README.md`, lines 307-309, say they do: the code closes them at `voting_ends`
  (`Witnesses.ClosedWindow`). They stay open exactly if the proposal is due at most one block later
  (`VotingWindow.OpenUntilEnactmentIff`); otherwise only an accepted counter-attestation can still undo
  the approval (`VotingWindow.OnlyCounterUndoes`).
- **Challengers need no stake**, although the repository's `README.md`, line 318, calls them staked
  (`VotingWindow.ChallengeAcceptedIff`, `Witnesses.UnstakedChallenger`).
- **The quorum test is exact up to a saturation point**, slightly above `u128::MAX`, and accepts too
  much beyond it (`Quorum.ExactUpToSaturation`): in a project whose stakes come close to that many units, an
  aye of about one part in a billion releases a proposal (`Witnesses.SaturatedRelease`).

## Model

| member | source | states |
|---|---|---|
| Refinement.PalletRefinesSimpleMachine | pallets/verigov/src/lib.rs:417-833 | Every run of the pallet from its first block is a run of the simple machine, which recomputes Eq. 1 from votes and stakeholders (counting for an aye what was slashed from behind it, and taking ayes for enough if 10^9 times as many reach 2^128 - 1), takes at most 32 approvals per block, counts deadlines in blocks up to 4294967295, and at each block enacts all proposals approved for it, or sends them back to the vote if a required role has no stake left: same replies, same events in the same order, same projects, proposals, votes, counter-attestations, stakes, logs, losses and free balances. Every policy, delay and issuance. |
| Refinement.StepRefines | pallets/verigov/src/lib.rs:417-833 | For every policy, one step of the pallet is one step of the simple machine with the same error, if any, and the same events; related storages stay related. |
| Refinement.BallotAgrees | pallets/verigov/src/lib.rs:698-754 | For every policy, voting through tallies and buckets decides as recomputing Eq. 1 with the recorded losses does, approves for the same block in the same order, and fails alike for a block with 32 approvals. |
| Refinement.LoopAgrees | pallets/verigov/src/lib.rs:783-830 | For every policy, the enactment loop settles every due proposal in order: it publishes it and pays its whole bond, or sends it back to the vote exactly if a required role has no stake left. |
| Refinement.RejectAgrees | pallets/verigov/src/lib.rs:588-662 | A counter-attestation succeeds and fails alike in both machines: the same record of challenger and hashes, the same three events; the stake drops by the whole units of the share, which are recorded as lost behind every aye of the builder in the project; the bond is paid in full. |
| Refinement.GenesisAgrees | pallets/verigov/src/lib.rs:442-489 | Genesis registers the same stakeholders or fails with the same error; the cached role stakes tested for zero are the real sums. |
| Refinement.ExpireAgrees | pallets/verigov/src/lib.rs:675-693 | Expiry succeeds and fails alike and pays the whole bond. |
| Refinement.QueueAfterBlock | pallets/verigov/src/lib.rs:420-428 | Taking one bucket leaves every other bucket the list of approvals for its block, in order of approval. |
| Outcomes.GenesisOutcome | pallets/verigov/src/lib.rs:442-489 | Genesis is accepted exactly from the root, for at least one required role, if everyone is named once and can pay and somebody brings stake in every required role; it registers exactly those people with those stakes, takes the stakes from their free balances, and stores the project as given. |
| Outcomes.ReleaseOutcome | pallets/verigov/src/lib.rs:497-556 | A new release is accepted exactly from a developer who can pay the bond, over a build of a Build Service of the project that signed the four digests, unless its own aye meets the quorums while 32 proposals are approved for the block it would be due; it stores the proposal field by field, with the vote ending at the present block plus the voting period and an approval due at the present block plus the delay, both capped at 4294967295. |
| Outcomes.ProposalsCounted | pallets/verigov/src/lib.rs:524-525 | In any storage, an accepted new release raises the proposal counter by one, or leaves it at 4294967295. |
| Outcomes.VoteOutcome | pallets/verigov/src/lib.rs:564-581 | A vote is accepted exactly from a stakeholder on a live proposal until the end of the vote, unless it newly meets the quorums while exactly 32 proposals are approved for the block it would be due (then, and only then, `TooManyEnactments`); it records the vote and leaves the proposal approved exactly if the quorums are met, newly for the present block plus the delay, capped at 4294967295. |
| Outcomes.CounterOutcome | pallets/verigov/src/lib.rs:588-662 | An accepted counter-attestation adds the record of its caller, the attested and the rebuilt hash and no other, rejects the proposal, lowers the stake and the issuance by the same d with d * 10^9 <= sigma_neg * stake < (d + 1) * 10^9, pays the bond, and deposits the three events. |
| Outcomes.ExpiryOutcome | pallets/verigov/src/lib.rs:675-693 | Expiry is accepted exactly for an open proposal after the end of its vote; it pays the whole bond and changes nothing else but the status. |
| Outcomes.AtMostThirtyTwo | pallets/verigov/src/lib.rs:56-58 | In every reachable state a bucket is as long as there are proposals approved for its block, at most 32. |
| Deadlines.DeadlinesCount | pallets/verigov/src/lib.rs:522-540 | Whatever step makes a proposal, its vote ends the voting period later; whatever step approves one, it is due the enactment delay later; both capped at block 4294967295. |
| Deadlines.EveryDeadline | pallets/verigov/src/lib.rs:522-540 | In every reachable state every vote ends the voting period after the proposal was made, and every approval is due between the delay after that and the delay after the end of the vote. |
| Runs.RunKeepsSound | pallets/verigov/src/lib.rs:417-833 | Every state of every run satisfies the whole invariant, whatever the policies. |
| Runs.StepKeepsSound | pallets/verigov/src/lib.rs:417-833 | Every call, successful or not, every block and every outside transfer keeps the invariant. |
| Runs.Reachable | pallets/verigov/src/lib.rs:237-330 | The empty pallet satisfies the invariant, hence all that is reachable from it does. |
| Genesis.GenesisKeepsSound | pallets/verigov/src/lib.rs:442-489 | A successful genesis keeps the invariant. |
| Voting.NewReleaseKeepsSound | pallets/verigov/src/lib.rs:497-556 | A new proposal with its implicit aye keeps the invariant. |
| Voting.VoteKeepsSound | pallets/verigov/src/lib.rs:564-581 | An accepted vote keeps the invariant. |
| Voting.ReconsiderSettles | pallets/verigov/src/lib.rs:730-752 | After a vote the proposal is approved exactly when the quorums are met, whatever it was before. |
| Closing.CounterKeepsSound | pallets/verigov/src/lib.rs:588-662 | An accepted counter-attestation keeps the invariant. |
| Closing.CloseExpiredKeepsSound | pallets/verigov/src/lib.rs:675-693 | Closing an expired proposal keeps the invariant. |
| Enactment.OnInitializeKeepsSound | pallets/verigov/src/lib.rs:420-428 | The block hook keeps the invariant, although nothing would roll it back. |
| Evolution.RunEvolves | pallets/verigov/src/lib.rs:417-833 | Over any run: logs and counter-attestations only grow, closed proposals and registered projects never change, nobody joins or leaves a project or changes role, only Build Services lose stake, and issuance plus everything slashed is constant. |
| BlockLoop.BlockLoopEffect | pallets/verigov/src/lib.rs:420-428 | A block decides exactly the ids in its bucket, each once and in bucket order, extends each log by its own ids that meet their quorums, and leaves all other proposals, votes, tallies, stakes and buckets alone. |
| BlockLoop.LoopDecides | pallets/verigov/src/lib.rs:783-830 | The same for any bucket, by induction over it. |
| Guarantees.DueAreEnacted | pallets/verigov/src/lib.rs:788-821 | For every policy: the re-check in `enact` fails for a due proposal if and only if slashes have taken all the stake of a required role; otherwise all due proposals of the project are enacted and logged in bucket order. Other proposals do not change. A required role can be emptied only if Build Services are required and one slash takes everything. |
| Guarantees.ScheduleAgrees | pallets/verigov/src/lib.rs:733-752 | A proposal is approved for a block exactly when its id is in that block's bucket, once, in no other bucket; at most 32 per bucket; in the future exactly when the project has an enactment delay. |
| Guarantees.TalliesMeanStakes | pallets/verigov/src/lib.rs:707-721 | For every role, each side of a tally is the current stake behind its last votes plus exactly what was slashed from voters while their last vote stood on that side; both sides together are the stakes at the first votes; the tally is exactly the current stakes if and only if no voter of the role was slashed since its first vote, hence always for the other three roles, where it stays within the role stake. |
| Guarantees.VotesNeverSaturate | pallets/verigov/src/lib.rs:707-720 | In every reachable state no saturating operation on a tally saturates: a vote moves exactly its weight between the sides. |
| Verdicts.StatusIsLastVerdict | pallets/verigov/src/lib.rs:619-633 | For every policy: a status is the verdict at the last vote. If nothing was slashed in the project since (or no Build Service is required), a live proposal is approved exactly when it meets its quorums. After a slash an approval still means that they are met while every required role has stake; only a proposal left to the vote can be wrong. |
| Verdicts.StakeAtVoteStands | pallets/verigov/src/lib.rs:619-633 | What the previous row takes a role to have had at the last vote is what it had: an accepted vote sets it to the role stake, and no counter-attestation changes it. |
| Verdicts.EqOneIsMet | pallets/verigov/src/lib.rs:765-780 | For every policy and issuance, Eq. 1 of the real stakes implies the quorum check. |
| Verdicts.VerdictUnlessSlashed | pallets/verigov/src/lib.rs:765-780 | For every policy, the quorum check is Eq. 1 of the real stakes if no Build Service is required or nothing was slashed from behind the ayes, and issuance times 10^9 is within 128 bits. |
| Verdicts.ApprovedIffEqOne | pallets/verigov/src/lib.rs:733-752 | A live proposal is approved exactly when the real stakes satisfy Eq. 1, if no slash in the project followed the last vote and nothing was slashed from behind the ayes (or no Build Service is required), and issuance times 10^9 is within 128 bits. |
| Verdicts.ApprovedIffEqOneAtVote | pallets/verigov/src/lib.rs:733-752 | For every policy, a live proposal whose required roles have stake is approved exactly when Eq. 1 held of the stakes at the last vote, that is, with the stakes slashed since put back on both sides, if issuance and slashes together times 10^9 are within 128 bits. |
| Verdicts.AcceptedSatisfyEqOne | pallets/verigov/src/lib.rs:733-752 | For every policy, an approved or enacted proposal whose required roles have stake satisfies Eq. 1 of the real stakes if no Build Service is required or nothing was slashed from behind its ayes, and issuance times 10^9 is within 128 bits. |
| Verdicts.UnslashedVotersIntact | pallets/verigov/src/lib.rs:619-633 | Nothing was slashed from behind the ayes if no Build Service that voted was slashed since its first vote. |
| Verdicts.ExpiryNeverDropsEqOne | pallets/verigov/src/lib.rs:675-693 | What `close_expired` drops satisfies neither the quorums nor Eq. 1, if no slash in the project followed the last vote on it or no Build Service is required. |
| Verdicts.UnanimityApproves | pallets/verigov/src/lib.rs:475-480 | For every policy: if all stakeholders of the required roles last voted aye, a live proposal is approved, unless slashes have taken all the stake of a required role; they cannot unless Build Services are required and one slash takes everything. |
| Verdicts.ReleasedSatisfyEqOneForever | pallets/verigov/src/lib.rs:783-830 | In every later state every log entry satisfies its quorums at the stakes of the last vote. It satisfies Eq. 1 of the real stakes as long as the required roles have stake and nothing was slashed from behind its ayes, which is always so if no Build Service is required, and issuance times 10^9 is within 128 bits; and for every policy it satisfies Eq. 1 with the stakes slashed since put back, if issuance and slashes together times 10^9 are within 128 bits. |
| Electorate.HistoryIndependent | pallets/verigov/src/lib.rs:698-754 | Two runs that end with the same last votes on a proposal leave the same tallies of the three unslashable roles; if no Build Service is required also the same verdict and, while live, the same approval, however many flips and revocations came between. |
| Guarantees.ClosedForGood | pallets/verigov/src/lib.rs:566-570 | Enacted, rejected and expired proposals stay so over every run, are never scheduled, and are in the log exactly if enacted. |
| Guarantees.RejectedIffCountered | pallets/verigov/src/lib.rs:645-652 | Exactly the rejected proposals have a counter-attestation; its hash differs from the attested one and its author is a stakeholder of the project other than the builder. |
| Guarantees.SlashesAreRejections | pallets/verigov/src/lib.rs:619-644 | A builder was slashed in a project once for each rejected proposal naming it. |
| Guarantees.StakeAfterRejections | pallets/verigov/src/lib.rs:619-630 | After k rejections the stake is at least the exact share and less than that share plus the accumulated rounding (equal for k = 0), and is never zero for a share below one. |
| Guarantees.CounterBurnsExactly | pallets/verigov/src/lib.rs:619-644 | A slash burns exactly d units, where d * 10^9 <= sigma_neg * stake < (d + 1) * 10^9, out of hold, role stake and issuance, pays the proposer's whole bond, and touches no other hold, balance or role stake of any project. |
| Guarantees.LogOnlyGrows | pallets/verigov/src/lib.rs:796-809 | Earlier logs are prefixes of later ones over every run. |
| Guarantees.LogListsEnacted | pallets/verigov/src/lib.rs:796-821 | A log lists each enacted proposal of its project exactly once and nothing else, gapless and in order of enactment, with that proposal's data. |
| Guarantees.ReleasesAreSigned | pallets/verigov/src/lib.rs:507-518 | Every released entry goes back to a Core Developer's proposal over an attestation signed by a Build Service of the project, with its hashes, version and content address. |
| Guarantees.PayloadFixesDigests | pallets/verigov/src/lib.rs:155-162 | Two attestations have the same signed bytes exactly when they agree in all four digests; the builder is not covered. |
| Guarantees.PayloadLayout | pallets/verigov/src/lib.rs:155-162 | The four digests stand at bytes 0, 32, 64 and 96 of 128. |
| Wealth.NothingPaidShort | pallets/verigov/src/lib.rs:811-817 | Over any run, any account's free balance changes by exactly what it is transferred, transfers itself, newly commits, no longer commits, or loses to slashes: every bond comes back once and in full, the ignored result of `enact` included. |
| Wealth.TokensConserved | pallets/verigov/src/lib.rs:622-641 | Free and held balances are the issuance; over any run its drop is the sum of all slashes and the registered stake minus the stake left. |
| Wealth.CommittedIsHeld | pallets/verigov/src/lib.rs:455-473 | An account's stake hold is the sum of its stakes over all projects and its bond hold the sum of the bonds of its live proposals. |
| Wealth.StepKeepsWealth | pallets/verigov/src/lib.rs:417-833 | For every account, a step changes what it owns, free and held, by exactly what the step transfers to it, transfers from it, and slashes from it. |
| Accounting.RegisterKeepsBooks | pallets/verigov/src/lib.rs:455-473 | Registration keeps role stakes, escrow, bonds and issuance exact, and the role stake does not saturate. |
| Accounting.SlashKeepsBooks | pallets/verigov/src/lib.rs:619-633 | So does a slash. |
| Accounting.SlashExact | pallets/verigov/src/lib.rs:621-629 | The best-effort burn takes the whole share, and the subtraction does not saturate. |
| Accounting.StakeBacked | pallets/verigov/src/lib.rs:621-633 | Every registered stake is within its owner's hold and within its role's stake. |
| Accounting.CloseKeepsBooks | pallets/verigov/src/lib.rs:636-644 | Ending a live proposal keeps the books and pays its proposer the whole bond. |
| Accounting.ProposeKeepsBooks | pallets/verigov/src/lib.rs:520-540 | Holding a bond for a new proposal keeps the books. |
| Currency.BurnConserves | pallets/verigov/src/lib.rs:622-628 | A burn takes out of the issuance what it takes out of the hold, and conserves tokens. |
| Currency.BurnTakes | pallets/verigov/src/lib.rs:622-628 | A best-effort burn takes what is asked for, or else all that is held, out of that hold of that account, and touches no other hold or free balance. |
| Currency.ReleaseConserves | pallets/verigov/src/lib.rs:636-641 | A best-effort release conserves tokens. |
| Currency.ReleaseMoves | pallets/verigov/src/lib.rs:636-641 | A best-effort release moves what is asked for, or else all that is held, from that hold to the free balance of the account, and touches no other. |
| Slashing.ErosionBounds | pallets/verigov/src/lib.rs:621-629 | Bounds of k floored slashes: s0(A-s)^k <= x A^k <= s0(A-s)^k + sum of (A-s)^i A^(k-i) over i < k, the second strict for k > 0. |
| Slashing.FloorShare | pallets/verigov/src/lib.rs:621 | A share is the largest whole d with d * 10^9 <= sigma * stake. |
| Slashing.ErosionNeverEmpties | pallets/verigov/src/lib.rs:621-629 | A share below one never takes the last token, however often it is taken. |
| History.RejectionCounted | pallets/verigov/src/lib.rs:619-644 | One rejection goes with one slash of the named builder. |
| History.SlashKeepsStakes | pallets/verigov/src/lib.rs:619-630 | A slash erodes the stake once more and moves the same amount out of stake, issuance and into the record of slashes. |
| Ballots.VoteKeepsTallied | pallets/verigov/src/lib.rs:707-721 | A vote or re-vote keeps every side of every tally equal to the real stakes behind it and what was slashed from behind it, both sides equal to the first votes, and the stored votes equal to the last ones. |
| Ballots.SlashKeepsTallied | pallets/verigov/src/lib.rs:629-633 | A slash keeps them so: what it takes from behind a side it adds to what was slashed from behind it. |
| Ballots.PolledWithinRole | pallets/verigov/src/lib.rs:770-779 | Ayes and nays of a role together are within the role's stake. |
| Quorum.FractionPasses | pallets/verigov/src/lib.rs:770-779 | Eq. 1 implies the saturating test, for all inputs. |
| Quorum.PassesOnlyFraction | pallets/verigov/src/lib.rs:770-779 | The test implies Eq. 1 when quorum times total fits 128 bits. |
| Quorum.ExactUpToSaturation | pallets/verigov/src/lib.rs:770-779 | The test is right for every tally if and only if quorum times total is at most 340282366920938463463374607432 * 10^9, the first multiple of 10^9 that is not below 2^128 - 1. |
| Quorum.TestIsPasses | pallets/verigov/src/lib.rs:770-779 | For all inputs, the saturating test holds exactly if the role has stake and quorum times total is at most 10^9 times the ayes, or the latter is at least 340282366920938463463374607431768211455. |
| Quorum.TestIsEqOne | pallets/verigov/src/lib.rs:770-779 | If 10^9 times the role stake is at most 340282366920938463463374607431768211455, the test is exactly Eq. 1. |
| Quorum.BackedWithoutLoss | pallets/verigov/src/lib.rs:765-780 | What the simple machine decides by is Eq. 1 for every required role, if nothing was lost from behind the ayes and quorum times role stake fits 128 bits. |
| Quorum.MonotoneInAyes | pallets/verigov/src/lib.rs:770-779 | More ayes never lose a quorum. |
| Quorum.UnanimousMeets | pallets/verigov/src/lib.rs:770-779 | Unanimity meets every quorum of a role with stake. |
| Schedule.ScheduleIn | pallets/verigov/src/lib.rs:735-741 | Pushing an approved id keeps buckets and statuses in agreement. |
| Schedule.ScheduleOut | pallets/verigov/src/lib.rs:743-749 | So does taking it out of its bucket. |
| Schedule.WithoutRemoves | pallets/verigov/src/lib.rs:745-747 | `retain` drops exactly that id and keeps the others without repeats. |
| Schedule.WithoutConcat | pallets/verigov/src/lib.rs:745-747 | What `retain` keeps, it keeps in order: it distributes over concatenation. |
| Releases.LogIndexFits | pallets/verigov/src/lib.rs:796-809 | A log index never saturates while proposal ids do not: logs have fewer entries than there are ids. |
| Releases.AppendKeepsLogged | pallets/verigov/src/lib.rs:796-821 | Enactment keeps the log dense, ordered, faithful and complete. |
| Liveness.EnactedWhenDue | pallets/verigov/src/lib.rs:420-428 | For every policy with an enactment delay: if no vote revokes the approval and no counter-attestation on the proposal is accepted, an approval for a block stands before it and is enacted exactly then, unless slashes have emptied a required role; they cannot unless Build Services are required and one slash takes everything. |
| Liveness.NothingLingers | pallets/verigov/src/lib.rs:675-693 | For any policy with a delay, from the block `voting_ends` plus delay on no proposal is approved, and any that is live can be closed by anyone. |
| Liveness.ZeroDelayNeverReleases | pallets/verigov/src/lib.rs:736-739 | A project with delay zero has an empty log in every reachable state. |
| Liveness.ZeroDelayStuck | pallets/verigov/src/lib.rs:736-739 | For every policy with delay zero, an approved proposal stays exactly as it is in every run without a vote that revokes it or an accepted counter-attestation on it. |
| VotingWindow.OpenUntilEnactmentIff | pallets/verigov/src/lib.rs:571-572 | With an enactment delay, stakeholders can vote on an approved proposal until its enactment if and only if it is due at most one block after the end of the vote. |
| VotingWindow.OnlyCounterUndoes | pallets/verigov/src/lib.rs:571-572 | Once the voting period is over, only an accepted counter-attestation undoes an approval whose required roles keep some stake; otherwise it stands until its block and is enacted exactly then. |
| VotingWindow.ChallengeAcceptedIff | pallets/verigov/src/lib.rs:594-618 | A counter-attestation is accepted exactly from a registered stakeholder other than the builder, with or without stake, against a live proposal and with a different hash; the late `NotBuildService` error cannot happen. |
| Witnesses.StaleRelease | pallets/verigov/src/lib.rs:619-633 | An admissible run from the empty pallet after which a release is enacted although 30 of 70 support a 60 percent quorum of Build Services. |
| Witnesses.StaleVoting | pallets/verigov/src/lib.rs:619-633 | An admissible run after which `close_expired` drops a proposal that satisfies Eq. 1 with 50 of 75, although no Build Service that voted on it was slashed. |
| Witnesses.EmptiedRoleFallsBack | pallets/verigov/src/lib.rs:788-795 | An admissible run in which a slash of everything makes a due proposal fall back to the vote. |
| Witnesses.SaturatedRelease | pallets/verigov/src/lib.rs:770-779 | An admissible run, without any counter-attestation, after which a release is enacted although 340282366920938463463374607432 of more than 3 * 10^38 units, about one part in a billion, support a 60 percent quorum. |
| Witnesses.NamingSchemeFits | pallets/verigov/src/mock.rs:55-64 | The signatures the witness runs take exist under a scheme like that of the repository's tests, in which no signature verifies for two signers. |
| Witnesses.ZeroDelayApproval | pallets/verigov/src/lib.rs:736-739 | An admissible run after which a proposal is approved for the block under way. |
| Witnesses.ClosedWindow | pallets/verigov/src/lib.rs:571-572 | An admissible run after which a proposal is still approved and its proposer is refused a vote because the voting period is over. |
| Witnesses.UnstakedChallenger | pallets/verigov/src/lib.rs:599-603 | An admissible run after which the counter-attestation of a stakeholder without stake is accepted. |
| Storage.Pallet.constructor | pallets/verigov/src/lib.rs:237-330 | An empty pallet satisfies the invariant. |
| Storage.Pallet.TryProjectGenesis | pallets/verigov/src/lib.rs:442-489 | The body with its two loops, writing as it goes, leaves the specified storage or the specified error. |
| Storage.Pallet.RegisterStakeholders | pallets/verigov/src/lib.rs:455-473 | The loop over initial stakeholders, stopping at the first failure. |
| Storage.Pallet.RolesStaked | pallets/verigov/src/lib.rs:475-480 | The loop over required roles finds exactly whether all have stake. |
| Storage.Pallet.TryNewRelease | pallets/verigov/src/lib.rs:497-556 | Checks in the source's order, then bond, proposal and implicit vote. |
| Storage.Pallet.TryVote | pallets/verigov/src/lib.rs:564-581 | Checks in the source's order, then the vote. |
| Storage.Pallet.TrySubmitCounterAttestation | pallets/verigov/src/lib.rs:588-662 | Checks, unscheduling, slash, bond, record and events in the source's order; the late error leaves writes for the storage layer to undo. |
| Storage.Pallet.TryCloseExpired | pallets/verigov/src/lib.rs:675-693 | Checks in the source's order, then bond and status. |
| Storage.Pallet.Reschedule | pallets/verigov/src/lib.rs:730-754 | Approval, revocation and the full block, updating bucket, status and events. |
| Storage.Pallet.QuorumsMet | pallets/verigov/src/lib.rs:765-780 | The loop over required roles with its early exit decides whether all quorums are met. |
| Storage.Pallet.EnactProposal | pallets/verigov/src/lib.rs:783-830 | Enactment in place, with its early returns and its fall back to voting. |
| Storage.Pallet.OnInitialize | pallets/verigov/src/lib.rs:420-428 | The loop over the taken bucket leaves the specified storage. |
| Storage.Pallet.Call | pallets/verigov/src/lib.rs:430-694 | One call in its storage layer: the specified reply and storage, the old storage on failure, and the invariant kept. |
| Storage.Pallet.RunToBlock | pallets/verigov/src/mock.rs:100-106 | The driver loop initialises each block on the way exactly once and keeps the invariant. |
| Storage.Retain | pallets/verigov/src/lib.rs:745-747 | The loop behind `retain` keeps exactly the other ids, in order. |
| Storage.FillPayload | pallets/verigov/src/lib.rs:155-162 | The buffer filled slice by slice is the concatenation of the four digests. |

## Left out

- Node, runtime wiring, off-chain tools, build scripts: around the pallet, not part of its logic.
- Signature schemes, hashing and encodings: signature checking is an arbitrary predicate and digests are opaque 32-byte values.
- Event fields other than those the proofs use, and weights: events carry ids, accounts, roles, weights and amounts; versions and content addresses are not repeated in them.
- Length limits of names, versions, stakeholder lists and required roles: the runtime enforces them when it decodes a call; only the limit of 32 enactments per block is part of the logic.
- Existential deposit, other holds, locks and account reference counts of the balances library: a hold fails just when the free balance is too small.
- The hold operations of the library can fail on overflow of a balance; issuance within 128 bits rules that out.
- Creating tokens outside the pallet: the issuance changes only by slashes; outside the pallet only free balances move.
- Runtime upgrades and direct storage writes.
- Saturation of the 32-bit id counters at their maximum is modelled in `Protocol`, but runs that reach it are not admissible: the next project or proposal would replace the last one.
- Paper features the pallet does not implement: dispute track, malice slash, meta-governance, emergency track, rewards.
- The balances library is not part of the repository: hold, release and burn follow their documented best-effort behaviour, a failed hold is always `InsufficientBalance`, and release and burn themselves do not fail.
- Storage entries are values that the calls read, change and write back, as in the source; there is no aliasing between them to model.
