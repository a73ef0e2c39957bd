/**
 The vocabulary of the VeriGov pallet: identifiers, roles, policies, proposals, errors and the
 journal of deposited events, together with the saturating arithmetic its storage uses.
 */
module Types {

  type AccountId = nat
  type ProjectId = nat
  type ProposalId = nat
  type BlockNumber = nat
  type Balance = nat

  newtype byte = b: int | 0 <= b < 256

  /** A 32-byte digest. */
  type Hash32 = h: seq<byte> | |h| == 32 witness seq(32, _ => 0 as byte)

  datatype Signature = Signature(raw: seq<byte>)

  /** The signature scheme is a parameter of the model: any predicate will do. */
  type Verifier = (Signature, seq<byte>, AccountId) -> bool

  const U32_MAX: nat := 0xFFFF_FFFF
  const U128_MAX: nat := 0xFFFF_FFFF_FFFF_FFFF_FFFF_FFFF_FFFF_FFFF

  /** The last block number: the runtime's block numbers are 32 bits wide. */
  const BLOCK_MAX: nat := U32_MAX

  /** Number of parts a `Perbill` divides one into. */
  const ACCURACY: nat := 1_000_000_000

  const MAX_ENACTMENTS_PER_BLOCK: nat := 32

  /** Parts per billion; at most one. */
  type Perbill = parts: nat | parts <= ACCURACY

  datatype Option<+T> = None | Some(value: T)

  datatype Error =
    | BadOrigin
    | InsufficientBalance
    | ProjectNotFound
    | ProposalNotFound
    | NotStakeholder
    | NotCoreDeveloper
    | NotBuildService
    | DuplicateStakeholder
    | NoRequiredRoles
    | RequiredRoleHasNoStake
    | InvalidBuilderSignature
    | ProposalNotVoting
    | VotingPeriodOver
    | VotingPeriodNotOver
    | ProposalNotChallengeable
    | NoDiscrepancy
    | BuilderCannotChallenge
    | TooManyEnactments

  datatype Result<+T> = Ok(value: T) | Err(error: Error)

  datatype Origin = Root | Signed(who: AccountId) | Unsigned

  datatype Role = CoreDeveloper | SecurityAuditor | CommunityTrustee | BuildService

  datatype RoleQuorum = RoleQuorum(role: Role, quorum: Perbill)

  datatype ReleasePolicy = ReleasePolicy(
    requiredRoles: seq<RoleQuorum>,
    votingPeriod: BlockNumber,
    enactmentDelay: BlockNumber)

  datatype SlashingParams = SlashingParams(sigmaNeg: Perbill, sigmaMal: Perbill, deltaMax: BlockNumber)

  datatype StakeholderInit = StakeholderInit(account: AccountId, role: Role, stake: Balance)

  datatype Stakeholder = Stakeholder(role: Role, stake: Balance)

  datatype ProjectInfo = ProjectInfo(
    name: seq<byte>,
    policy: ReleasePolicy,
    slashing: SlashingParams,
    proposalBond: Balance)

  datatype BuildAttestation = BuildAttestation(
    sourceCommitHash: Hash32,
    sourceTreeHash: Hash32,
    buildEnvironmentHash: Hash32,
    outputBinaryHash: Hash32,
    builder: AccountId)

  datatype ProposalStatus =
    | Voting
    | Approved(enactAt: BlockNumber)
    | Enacted
    | Rejected
    | Expired

  datatype Proposal = Proposal(
    projectId: ProjectId,
    proposer: AccountId,
    version: seq<byte>,
    attestation: BuildAttestation,
    attestationCid: Hash32,
    bond: Balance,
    submittedAt: BlockNumber,
    votingEnds: BlockNumber,
    status: ProposalStatus)

  datatype RoleTally = RoleTally(ayes: Balance, nays: Balance)

  datatype ReleaseEntry = ReleaseEntry(
    proposalId: ProposalId,
    version: seq<byte>,
    sourceCommitHash: Hash32,
    outputBinaryHash: Hash32,
    attestationCid: Hash32,
    enactedAt: BlockNumber)

  datatype CounterAttestation = CounterAttestation(
    challenger: AccountId,
    attestedBinaryHash: Hash32,
    rebuiltBinaryHash: Hash32)

  datatype Event =
    | ProjectCreated(project: ProjectId, name: seq<byte>)
    | StakeholderRegistered(project: ProjectId, account: AccountId, role: Role, stake: Balance)
    | ReleaseProposed(proposal: ProposalId, project: ProjectId, proposer: AccountId, votingEnds: BlockNumber)
    | Voted(proposal: ProposalId, voter: AccountId, role: Role, aye: bool, weight: Balance)
    | ProposalApproved(proposal: ProposalId, enactAt: BlockNumber)
    | ProposalApprovalRevoked(proposal: ProposalId)
    | ReleaseEnacted(project: ProjectId, proposal: ProposalId, index: nat)
    | CounterAttestationAccepted(proposal: ProposalId, challenger: AccountId, attested: Hash32, rebuilt: Hash32)
    | BuildServiceSlashed(project: ProjectId, builder: AccountId, amount: Balance, remainingStake: Balance)
    | ProposalRejected(proposal: ProposalId)
    | ProposalExpired(proposal: ProposalId)

  /** Every event ever deposited, newest outermost. */
  datatype Journal = Empty | Deposit(past: Journal, event: Event)

  function SatAdd(a: nat, b: nat): nat { if a + b <= U128_MAX then a + b else U128_MAX }

  function SatSub(a: nat, b: nat): nat { if b <= a then a - b else 0 }

  function SatMul(a: nat, b: nat): nat { if a * b <= U128_MAX then a * b else U128_MAX }

  /** Saturating increment of a 32-bit counter. */
  function NextId(n: nat): nat { if n < U32_MAX then n + 1 else U32_MAX }

  /** Saturating addition of block numbers. */
  function BlockAdd(a: BlockNumber, b: BlockNumber): BlockNumber { if a + b <= BLOCK_MAX then a + b else BLOCK_MAX }

  function Min(a: nat, b: nat): nat { if a <= b then a else b }

  /** `Perbill::mul_floor`. */
  function MulFloor(parts: Perbill, x: nat): nat { parts * x / ACCURACY }

  /** A proposal that still holds its bond. */
  predicate Live(status: ProposalStatus) { status.Voting? || status.Approved? }
}
