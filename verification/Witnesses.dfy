/**
 Runs from the empty pallet that show what can happen. All of them found one project with a Core Developer and
 two Build Services, and one required role with a quorum of sixty percent.
 */
module Witnesses {
  import opened Types
  import opened Sums
  import opened Currency
  import opened Protocol
  import opened Accounting
  import opened History
  import opened Ballots
  import opened Schedule
  import opened Quorum
  import opened BlockLoop
  import opened Electorate
  import opened VotingWindow
  import opened Invariant
  import opened Enactment
  import opened Runs

  const DEV: AccountId := 1
  const BIG: AccountId := 2
  const SMALL: AccountId := 3
  const SIXTY_PERCENT: Perbill := 600_000_000
  const HALF: Perbill := 500_000_000

  /** Free balance that every account keeps on top of its stake. */
  const SPARE: nat := 1000

  /** As many ayes as the pallet's 128-bit test ever asks for. */
  const ENOUGH: nat := 340_282_366_920_938_463_463_374_607_432

  /** What varies between the runs: the required role, the periods, the share of a slash, and the stakes. */
  datatype Setup = Setup(
    role: Role, period: BlockNumber, delay: BlockNumber, sigma: Perbill, dev: nat, big: nat, small: nat)
  {
    ghost predicate Fits() {
      && period < 1000 && delay < 1000 && 0 < StakeOf(role)
      && dev + big + small + 3 * SPARE <= 340_282_366_920_938_463_463_374_607_431_768_211_455
    }

    /** The aye of the bigger service is enough for the test of the pallet. */
    predicate Suffices() { RoleMeets(big, big + small, SIXTY_PERCENT) }

    function StakeOf(r: Role): nat {
      match r
      case CoreDeveloper => dev
      case BuildService => big + small
      case _ => 0
    }

    function Policy(): ReleasePolicy { ReleasePolicy([RoleQuorum(role, SIXTY_PERCENT)], period, delay) }

    function Slashing(): SlashingParams { SlashingParams(sigma, sigma, 0) }

    function Inits(): seq<StakeholderInit> {
      [StakeholderInit(DEV, CoreDeveloper, dev), StakeholderInit(BIG, BuildService, big),
       StakeholderInit(SMALL, BuildService, small)]
    }

    function Start(): State {
      State(1, 0, 0, map[], map[], map[], map[], map[], map[], map[], map[], map[], map[],
            Ledger(map[DEV := dev + SPARE, BIG := big + SPARE, SMALL := small + SPARE], map[], map[],
                   dev + big + small + 3 * SPARE), Empty)
    }

    function Genesis(): Step { Dispatch(Root, CallGenesis([], Inits(), Policy(), Slashing(), 0)) }
  }

  function Attestation(hash: Hash32, builder: AccountId): BuildAttestation {
    BuildAttestation(hash, hash, hash, hash, builder)
  }

  function Proposing(hash: Hash32, builder: AccountId, signature: Signature): Step {
    Dispatch(Signed(DEV), CallNewRelease(0, [], Attestation(hash, builder), hash, signature))
  }

  function Release(c: Setup, hash: Hash32, builder: AccountId, status: ProposalStatus): Proposal {
    Proposal(0, DEV, [], Attestation(hash, builder), hash, 0, 1, 1 + c.period, status)
  }

  /** One project, founded as set up; the Build Services have these stakes now. */
  ghost predicate Staked(s: State, c: Setup, big: nat, small: nat) {
    && s.nextProjectId == 1
    && s.projects == map[0 := ProjectInfo([], c.Policy(), c.Slashing(), 0)]
    && s.stakeholders == map[(0, DEV) := Stakeholder(CoreDeveloper, c.dev), (0, BIG) := Stakeholder(BuildService, big),
                             (0, SMALL) := Stakeholder(BuildService, small)]
    && RoleStakeOf(s.roleStake, 0, BuildService) == big + small
    && RoleStakeOf(s.roleStake, 0, CoreDeveloper) == c.dev
    && Held(s.ledger, Stake, BIG) == big && Held(s.ledger, Stake, SMALL) == small
  }

  ghost predicate Unheard(s: State, i: ProposalId) {
    && i == s.nextProposalId && i !in s.proposals
    && TallyOf(s.tallies, i, BuildService) == RoleTally(0, 0) && TallyOf(s.tallies, i, CoreDeveloper) == RoleTally(0, 0)
    && (forall a :: (i, a) !in s.votes)
  }

  lemma SumOfThree<K(!new)>(a: K, b: K, d: K, x: nat, y: nat, z: nat)
    requires a != b && b != d && a != d
    ensures Sum(map[a := x, b := y, d := z]) == x + y + z
  {
    SumUpdate(map[], a, x);
    SumUpdate(map[a := x], b, y);
    SumUpdate(map[a := x, b := y], d, z);
    assert map[a := x][b := y][d := z] == map[a := x, b := y, d := z];
  }

  lemma StartIsInitial(c: Setup)
    requires c.Fits()
    ensures Initial(c.Start())
  {
    SumOfThree(DEV, BIG, SMALL, c.dev + SPARE, c.big + SPARE, c.small + SPARE);
  }

  // Single steps

  lemma NothingVoted()
    ensures FirstVote(Empty, 0, BIG) == None
  {
  }

  /** An event that is not a vote of the bigger service does not change its first vote. */
  lemma NotBig(j: Journal)
    requires j.Deposit? && !(j.event.Voted? && j.event.voter == BIG)
    ensures FirstVote(j, 0, BIG) == FirstVote(j.past, 0, BIG)
  {
  }

  lemma RegisterThree(s: State, p: ProjectId, a: StakeholderInit, b: StakeholderInit, d: StakeholderInit)
    requires Register(s, p, a).Ok? && Register(Register(s, p, a).value, p, b).Ok?
    ensures RegisterAll(s, p, [a, b, d]) == Register(Register(Register(s, p, a).value, p, b).value, p, d)
  {
    hide Register;
    var s2 := Register(Register(s, p, a).value, p, b).value;
    assert [a, b, d][1..] == [b, d] && [b, d][1..] == [d] && [d][1..] == [];
    if Register(s2, p, d).Ok? {
      assert RegisterAll(Register(s2, p, d).value, p, []) == Register(s2, p, d);
    }
    assert RegisterAll(s2, p, [d]) == Register(s2, p, d);
    assert RegisterAll(Register(s, p, a).value, p, [b, d]) == Register(s2, p, d);
  }

  /** Everyone can pay its stake, and no saturation gets in the way of the sums. */
  lemma Enrolled(c: Setup)
    requires c.Fits()
    ensures RegisterAll(c.Start(), 0, c.Inits()).Ok?
    ensures var t := RegisterAll(c.Start(), 0, c.Inits()).value;
      && t == c.Start().(ledger := t.ledger, stakeholders := t.stakeholders, roleStake := t.roleStake,
                         journal := t.journal)
      && t.stakeholders == map[(0, DEV) := Stakeholder(CoreDeveloper, c.dev),
                               (0, BIG) := Stakeholder(BuildService, c.big),
                               (0, SMALL) := Stakeholder(BuildService, c.small)]
      && t.roleStake == map[(0, CoreDeveloper) := c.dev, (0, BuildService) := c.big + c.small]
      && t.ledger.stakeHold == map[DEV := c.dev, BIG := c.big, SMALL := c.small]
      && FirstVote(t.journal, 0, BIG) == None
  {
    hide FirstVote, RegisterAll;
    var inits := c.Inits();
    var s1 := Register(c.Start(), 0, inits[0]).value;
    var s2 := Register(s1, 0, inits[1]).value;
    var s3 := Register(s2, 0, inits[2]).value;
    RegisterThree(c.Start(), 0, inits[0], inits[1], inits[2]);
    NotBig(s3.journal);
    NotBig(s2.journal);
    NotBig(s1.journal);
    assert FirstVote(Empty, 0, BIG) == None by { NothingVoted(); }
  }

  lemma Founded(verify: Verifier, c: Setup)
    requires c.Fits()
    ensures var s := After(verify, c.Start(), c.Genesis());
      && Staked(s, c, c.big, c.small) && s.now == 1 && Unheard(s, 0)
      && s.proposals == map[] && s.votes == map[] && s.tallies == map[] && s.pending == map[]
      && FirstVote(s.journal, 0, BIG) == None
  {
    hide FirstVote, RegisterAll;
    Enrolled(c);
    NotBig(After(verify, c.Start(), c.Genesis()).journal);
  }

  /** The storage after a new release, but for its tally of developers and its status. */
  ghost predicate ProposedIn(s: State, t: State, c: Setup, big: nat, small: nat, i: ProposalId, v: Proposal) {
    && Staked(t, c, big, small) && t.now == 1 && t.nextProposalId == i + 1
    && t.proposals == s.proposals[i := v]
    && t.votes == s.votes[(i, DEV) := true]
    && (forall j :: TallyOf(t.tallies, j, BuildService) == TallyOf(s.tallies, j, BuildService))
    && (forall j :: j != i ==> TallyOf(t.tallies, j, CoreDeveloper) == TallyOf(s.tallies, j, CoreDeveloper))
    && FirstVote(t.journal, 0, BIG) == FirstVote(s.journal, 0, BIG)
  }

  /** A new release with the aye of its proposer, before its effect on the status. */
  function Recorded(s: State, c: Setup, i: ProposalId, hash: Hash32, builder: AccountId): State {
    if 0 in s.projects then
      var l := s.ledger;
      var held := l.(bondHold := l.bondHold[DEV := ValueAt(l.bondHold, DEV)],
                     free := l.free[DEV := ValueAt(l.free, DEV)]);
      RecordVote(Propose(s, DEV, 0, [], Attestation(hash, builder), hash, held), i, DEV,
                 Stakeholder(CoreDeveloper, c.dev), true)
    else s
  }

  lemma RecordedIn(s: State, c: Setup, big: nat, small: nat, i: ProposalId, hash: Hash32, builder: AccountId)
    requires Staked(s, c, big, small) && s.now == 1 && Unheard(s, i) && i < 10 && c.Fits()
    ensures var t := Recorded(s, c, i, hash, builder);
      && ProposedIn(s, t, c, big, small, i, Release(c, hash, builder, Voting)) && t.pending == s.pending
      && TallyOf(t.tallies, i, CoreDeveloper) == RoleTally(c.dev, 0)
  {
    hide FirstVote;
    var j := Recorded(s, c, i, hash, builder).journal;
    NotBig(j);
    NotBig(j.past);
  }

  lemma ProposingRecords(verify: Verifier, s: State, c: Setup, big: nat, small: nat, i: ProposalId,
                         hash: Hash32, builder: AccountId, signature: Signature)
    requires verify(signature, SigningPayload(Attestation(hash, builder)), builder)
    requires Staked(s, c, big, small) && Unheard(s, i) && builder in {BIG, SMALL}
    ensures Apply(verify, s, Signed(DEV), Proposing(hash, builder, signature).call)
         == Reconsider(Recorded(s, c, i, hash, builder), i, 0, c.Policy())
  {
    hide SigningPayload, Propose, RecordVote, Reconsider;
  }

  lemma Untallied(s: State, i: ProposalId)
    requires Unheard(s, i)
    ensures TallyOf(s.tallies, i, BuildService) == RoleTally(0, 0)
  {
  }

  lemma NotMet(s: State, i: ProposalId, total: nat)
    requires RoleStakeOf(s.roleStake, 0, BuildService) == total && 0 < total
    requires TallyOf(s.tallies, i, BuildService) == RoleTally(0, 0)
    ensures !MeetsQuorums(s.roleStake, s.tallies, [RoleQuorum(BuildService, SIXTY_PERCENT)], 0, i)
  {
    assert RoleQuorum(BuildService, SIXTY_PERCENT) in [RoleQuorum(BuildService, SIXTY_PERCENT)];
  }

  /** A new release stays open if Build Services are required. */
  lemma ProposedToServices(verify: Verifier, s: State, c: Setup, big: nat, small: nat, i: ProposalId,
                           hash: Hash32, builder: AccountId, signature: Signature)
    requires verify(signature, SigningPayload(Attestation(hash, builder)), builder)
    requires Staked(s, c, big, small) && s.now == 1 && Unheard(s, i) && i < 10
    requires c.Fits() && c.role == BuildService && 0 < big + small && builder in {BIG, SMALL}
    ensures var t := After(verify, s, Proposing(hash, builder, signature));
      ProposedIn(s, t, c, big, small, i, Release(c, hash, builder, Voting)) && t.pending == s.pending
  {
    hide SigningPayload, Recorded, Apply, Unheard, FirstVote;
    ProposingRecords(verify, s, c, big, small, i, hash, builder, signature);
    RecordedIn(s, c, big, small, i, hash, builder);
    var t := Recorded(s, c, i, hash, builder);
    assert TallyOf(t.tallies, i, BuildService) == RoleTally(0, 0) by { Untallied(s, i); }
    NotMet(t, i, big + small);
    hide MeetsQuorums, Approve;
  }

  /** A new release is approved at once if its proposer is all of the required role. */
  lemma ProposedToDeveloper(verify: Verifier, s: State, c: Setup, hash: Hash32, signature: Signature)
    requires verify(signature, SigningPayload(Attestation(hash, BIG)), BIG)
    requires Staked(s, c, c.big, c.small) && s.now == 1 && Unheard(s, 0) && s.pending == map[]
    requires c.Fits() && c.role == CoreDeveloper
    ensures var t := After(verify, s, Proposing(hash, BIG, signature));
      && ProposedIn(s, t, c, c.big, c.small, 0, Release(c, hash, BIG, Approved(1 + c.delay)))
      && Bucket(t.pending, 1 + c.delay) == [0]
  {
    hide SigningPayload, Recorded, Apply, Unheard, FirstVote;
    ProposingRecords(verify, s, c, c.big, c.small, 0, hash, BIG, signature);
    RecordedIn(s, c, c.big, c.small, 0, hash, BIG);
    var t := Recorded(s, c, 0, hash, BIG);
    UnanimousMeets(c.dev, SIXTY_PERCENT);
    assert MeetsQuorums(t.roleStake, t.tallies, [RoleQuorum(CoreDeveloper, SIXTY_PERCENT)], 0, 0);
    hide MeetsQuorums;
    NotBig(Approve(t, 0, 1 + c.delay).value.journal);
  }

  /** The verdict on proposal 0 when Build Services are the required role. */
  lemma ServicesVerdict(s: State, total: nat, ayes: nat)
    requires RoleStakeOf(s.roleStake, 0, BuildService) == total
    requires TallyOf(s.tallies, 0, BuildService) == RoleTally(ayes, 0)
    ensures MeetsQuorums(s.roleStake, s.tallies, [RoleQuorum(BuildService, SIXTY_PERCENT)], 0, 0)
       <==> RoleMeets(ayes, total, SIXTY_PERCENT)
  {
    hide RoleMeets;
    var rq := RoleQuorum(BuildService, SIXTY_PERCENT);
    assert rq in [rq];
  }

  /** The aye of the bigger service on proposal 0, before its effect on the status. */
  function Aye(s: State, big: nat): State { RecordVote(s, 0, BIG, Stakeholder(BuildService, big), true) }

  lemma AyeRecorded(s: State, c: Setup, hash: Hash32)
    requires Staked(s, c, c.big, c.small) && s.now == 1 && c.Fits()
    requires s.proposals == map[0 := Release(c, hash, SMALL, Voting)] && s.pending == map[]
    requires s.votes == map[(0, DEV) := true] && TallyOf(s.tallies, 0, BuildService) == RoleTally(0, 0)
    requires FirstVote(s.journal, 0, BIG) == None
    ensures Vote(s, Signed(BIG), 0, true) == Reconsider(Aye(s, c.big), 0, 0, c.Policy())
    ensures var t := Aye(s, c.big);
      && Staked(t, c, c.big, c.small) && t.now == 1 && t.nextProposalId == s.nextProposalId
      && t.proposals == s.proposals && t.pending == map[]
      && t.votes == map[(0, DEV) := true, (0, BIG) := true]
      && TallyOf(t.tallies, 0, BuildService) == RoleTally(c.big, 0)
      && (forall j :: j != 0 ==> TallyOf(t.tallies, j, BuildService) == TallyOf(s.tallies, j, BuildService))
      && (forall j :: TallyOf(t.tallies, j, CoreDeveloper) == TallyOf(s.tallies, j, CoreDeveloper))
      && FirstVote(t.journal, 0, BIG) == Some(c.big)
  {
    hide Reconsider;
  }

  /** The aye of the bigger service approves if it is enough, and otherwise leaves the proposal open. */
  lemma BigVotesAye(verify: Verifier, s: State, c: Setup, hash: Hash32)
    requires Staked(s, c, c.big, c.small) && s.now == 1 && c.Fits()
    requires c.role == BuildService && 0 < c.delay
    requires s.proposals == map[0 := Release(c, hash, SMALL, Voting)] && s.pending == map[]
    requires s.votes == map[(0, DEV) := true] && TallyOf(s.tallies, 0, BuildService) == RoleTally(0, 0)
    requires FirstVote(s.journal, 0, BIG) == None
    ensures var t := After(verify, s, Dispatch(Signed(BIG), CallVote(0, true)));
      var enough := c.Suffices();
      && Staked(t, c, c.big, c.small) && t.now == 1 && t.nextProposalId == s.nextProposalId
      && t.proposals == map[0 := Release(c, hash, SMALL, if enough then Approved(1 + c.delay) else Voting)]
      && t.votes == map[(0, DEV) := true, (0, BIG) := true]
      && Bucket(t.pending, 1 + c.delay) == (if enough then [0] else []) && (!enough ==> t.pending == map[])
      && TallyOf(t.tallies, 0, BuildService) == RoleTally(c.big, 0)
      && (forall j :: j != 0 ==> TallyOf(t.tallies, j, BuildService) == TallyOf(s.tallies, j, BuildService))
      && (forall j :: TallyOf(t.tallies, j, CoreDeveloper) == TallyOf(s.tallies, j, CoreDeveloper))
      && FirstVote(t.journal, 0, BIG) == Some(c.big)
  {
    hide Vote, Aye, MeetsQuorums, RoleMeets, FirstVote;
    AyeRecorded(s, c, hash);
    var t := Aye(s, c.big);
    ServicesVerdict(t, c.big + c.small, c.big);
    if c.Suffices() {
      NotBig(Approve(t, 0, 1 + c.delay).value.journal);
    }
  }

  lemma StakedPeople(s: State, c: Setup, big: nat, small: nat)
    requires Staked(s, c, big, small)
    ensures 0 in s.projects && s.projects[0].slashing.sigmaNeg == c.sigma
    ensures (0, DEV) in s.stakeholders && (0, BIG) in s.stakeholders && (0, SMALL) in s.stakeholders
  {
  }

  lemma ChallengeKeeps(s: State, c: Setup, big: nat, small: nat, rebuilt: Hash32)
    requires Staked(s, c, big, small) && 1 in s.proposals && s.proposals[1].status.Voting?
    ensures var t := Challenge(s, 1, DEV, rebuilt);
      && Staked(t, c, big, small) && t == s.(journal := t.journal)
      && FirstVote(t.journal, 0, BIG) == FirstVote(s.journal, 0, BIG)
  {
    hide FirstVote;
    NotBig(Challenge(s, 1, DEV, rebuilt).journal);
  }

  lemma SlashHits(s: State, c: Setup, big: nat, small: nat, builder: AccountId)
    requires Staked(s, c, big, small) && builder in {BIG, SMALL} && (0, builder) in s.stakeholders
    requires MulFloor(c.sigma, big) <= big && MulFloor(c.sigma, small) <= small
    ensures var t := Slash(s, 0, builder, c.sigma);
      && Staked(t, c, if builder == BIG then big - MulFloor(c.sigma, big) else big,
                if builder == SMALL then small - MulFloor(c.sigma, small) else small)
      && t == s.(ledger := t.ledger, stakeholders := t.stakeholders, roleStake := t.roleStake, journal := t.journal)
      && FirstVote(t.journal, 0, BIG) == FirstVote(s.journal, 0, BIG)
  {
    hide MulFloor, FirstVote;
    NotBig(Slash(s, 0, builder, c.sigma).journal);
  }

  lemma CloseKeeps(s: State, c: Setup, big: nat, small: nat, hash: Hash32, rebuilt: Hash32)
    requires Staked(s, c, big, small) && 0 in s.proposals && 1 in s.proposals
    ensures var t := RecordCounter(Close(s, 1, Rejected), 1, DEV, hash, rebuilt);
      && Staked(t, c, big, small)
      && t == s.(ledger := t.ledger, proposals := t.proposals, counterAttestations := t.counterAttestations,
                 journal := t.journal)
      && 0 in t.proposals && t.proposals[0] == s.proposals[0]
      && FirstVote(t.journal, 0, BIG) == FirstVote(s.journal, 0, BIG)
  {
    hide FirstVote;
    NotBig(RecordCounter(Close(s, 1, Rejected), 1, DEV, hash, rebuilt).journal);
  }

  /** The developer, with or without stake, has the builder of proposal 1 slashed. */
  lemma DeveloperChallenges(verify: Verifier, s: State, c: Setup, big: nat, small: nat, hash: Hash32, rebuilt: Hash32,
                            builder: AccountId)
    requires rebuilt != hash && builder in {BIG, SMALL} && c.Fits()
    requires Staked(s, c, big, small) && 0 in s.proposals && 1 in s.proposals
    requires s.proposals[1] == Release(c, hash, builder, Voting)
    requires MulFloor(c.sigma, big) <= big && MulFloor(c.sigma, small) <= small
    ensures Apply(verify, s, Signed(DEV), CallCounter(1, rebuilt)).Ok?
    ensures var t := After(verify, s, Dispatch(Signed(DEV), CallCounter(1, rebuilt)));
      && Staked(t, c, if builder == BIG then big - MulFloor(c.sigma, big) else big,
                if builder == SMALL then small - MulFloor(c.sigma, small) else small)
      && t.now == s.now && t.nextProposalId == s.nextProposalId
      && 0 in t.proposals && t.proposals[0] == s.proposals[0]
      && t.votes == s.votes && t.pending == s.pending && t.tallies == s.tallies
      && FirstVote(t.journal, 0, BIG) == FirstVote(s.journal, 0, BIG)
  {
    hide MulFloor, FirstVote, Staked, Challenge, Slash, Close, RecordCounter;
    assert (0, DEV) in s.stakeholders && (0, builder) in s.stakeholders && 0 in s.projects by {
      StakedPeople(s, c, big, small);
    }
    assert s.projects[0].slashing.sigmaNeg == c.sigma by { StakedPeople(s, c, big, small); }
    var s1 := Challenge(s, 1, DEV, rebuilt);
    ChallengeKeeps(s, c, big, small, rebuilt);
    SlashHits(s1, c, big, small, builder);
    var s2 := Slash(s1, 0, builder, c.sigma);
    CloseKeeps(s2, c, if builder == BIG then big - MulFloor(c.sigma, big) else big,
               if builder == SMALL then small - MulFloor(c.sigma, small) else small, hash, rebuilt);
  }

  lemma QuietBlock(verify: Verifier, s: State)
    requires Bucket(s.pending, s.now + 1) == []
    ensures var t := After(verify, s, NextBlock); t == s.(now := s.now + 1, pending := t.pending)
    ensures s.pending == map[] ==> After(verify, s, NextBlock).pending == map[]
  {
  }

  lemma DueVerdict(s: State, c: Setup, big: nat, small: nat, hash: Hash32, ayes: nat)
    requires Staked(s, c, big, small) && c.role == BuildService
    requires 0 in s.proposals && s.proposals[0] == Release(c, hash, SMALL, Approved(2))
    requires TallyOf(s.tallies, 0, BuildService) == RoleTally(ayes, 0)
    ensures Meets(s, 0) <==> RoleMeets(ayes, big + small, SIXTY_PERCENT)
    ensures 0 in s.projects
  {
    ServicesVerdict(s, big + small, ayes);
    hide MeetsQuorums, RoleMeets;
  }

  /** The block in which proposal 0 is due. */
  lemma DueBlock(verify: Verifier, s: State, c: Setup, big: nat, small: nat, hash: Hash32, ayes: nat)
    requires Staked(s, c, big, small) && s.now == 1 && Bucket(s.pending, 2) == [0]
    requires 0 in s.proposals && s.proposals[0] == Release(c, hash, SMALL, Approved(2)) && c.role == BuildService
    requires TallyOf(s.tallies, 0, BuildService) == RoleTally(ayes, 0)
    ensures var t := After(verify, s, NextBlock);
      var met := RoleMeets(ayes, big + small, SIXTY_PERCENT);
      && 0 in t.proposals && t.proposals[0] == Release(c, hash, SMALL, if met then ProposalStatus.Enacted else Voting)
      && t.projects == s.projects && t.stakeholders == s.stakeholders && t.votes == s.votes
  {
    hide Enact, Meets, RoleMeets;
    var s1 := s.(now := 2, pending := s.pending - {2});
    DueVerdict(s1, c, big, small, hash, ayes);
    EnactShape(s1, 0);
    EnactFrame(s1, 0);
    assert [0][1..] == [];
    assert EnactAll(s1, [0], 2) == Enact(s1, 0, 2);
  }

  // Scripts

  lemma Play(verify: Verifier, s: State, xs: seq<Step>, step: Step)
    requires AdmissibleRun(verify, s, xs) && Admissible(Run(verify, s, xs), step)
    ensures Run(verify, s, xs + [step]) == After(verify, Run(verify, s, xs), step)
    ensures AdmissibleRun(verify, s, xs + [step])
  {
    hide After, Admissible;
    var t := Run(verify, s, xs);
    RunAppend(verify, s, xs, [step]);
    assert [step][1..] == [];
    assert Run(verify, After(verify, t, step), []) == After(verify, t, step);
    assert AdmissibleRun(verify, After(verify, t, step), []);
  }

  function Opening(c: Setup, hash: Hash32, builder: AccountId, signature: Signature): seq<Step> {
    [] + [c.Genesis()] + [Proposing(hash, builder, signature)]
  }

  /** A proposal over a build of the smaller service, and the aye of the bigger one. */
  function Hearing(c: Setup, hash: Hash32, signature: Signature): seq<Step> {
    Opening(c, hash, SMALL, signature) + [Dispatch(Signed(BIG), CallVote(0, true))]
  }

  /** After that, a second proposal, and the slash of its builder. */
  function Contest(c: Setup, hash: Hash32, accused: AccountId, rebuilt: Hash32, first: Signature, second: Signature)
    : seq<Step>
  {
    Hearing(c, hash, first) + [Proposing(hash, accused, second)] + [Dispatch(Signed(DEV), CallCounter(1, rebuilt))]
  }

  /** What the contest leaves of the stakes and of proposal 0. */
  ghost predicate Contested(s: State, c: Setup, big: nat, small: nat, hash: Hash32) {
    && Staked(s, c, big, small) && s.now == 1
    && 0 in s.proposals && s.proposals[0] == Release(c, hash, SMALL, if c.Suffices() then Approved(2) else Voting)
    && s.votes == map[(0, DEV) := true, (0, BIG) := true, (1, DEV) := true]
    && Bucket(s.pending, 2) == (if c.Suffices() then [0] else []) && (!c.Suffices() ==> s.pending == map[])
    && TallyOf(s.tallies, 0, BuildService) == RoleTally(c.big, 0)
    && FirstVote(s.journal, 0, BIG) == Some(c.big)
  }

  lemma OpeningRuns(verify: Verifier, c: Setup, hash: Hash32, builder: AccountId, signature: Signature)
    requires c.Fits()
    ensures Initial(c.Start())
    ensures AdmissibleRun(verify, c.Start(), [] + [c.Genesis()])
    ensures var s := After(verify, c.Start(), c.Genesis());
      && Run(verify, c.Start(), [] + [c.Genesis()]) == s
      && Staked(s, c, c.big, c.small) && s.now == 1 && Unheard(s, 0)
      && s.proposals == map[] && s.votes == map[] && s.pending == map[]
      && (forall j, r :: TallyOf(s.tallies, j, r) == RoleTally(0, 0))
      && FirstVote(s.journal, 0, BIG) == None
    ensures AdmissibleRun(verify, c.Start(), Opening(c, hash, builder, signature))
    ensures Run(verify, c.Start(), Opening(c, hash, builder, signature))
         == After(verify, After(verify, c.Start(), c.Genesis()), Proposing(hash, builder, signature))
  {
    StartIsInitial(c);
    Founded(verify, c);
    hide After, Initial, Staked;
    assert Run(verify, c.Start(), []) == c.Start();
    Play(verify, c.Start(), [], c.Genesis());
    Play(verify, c.Start(), [] + [c.Genesis()], Proposing(hash, builder, signature));
  }

  /** After the aye of the bigger service on proposal 0. */
  ghost predicate Voiced(s: State, c: Setup, hash: Hash32) {
    && Staked(s, c, c.big, c.small) && s.now == 1 && Unheard(s, 1)
    && s.proposals == map[0 := Release(c, hash, SMALL, if c.Suffices() then Approved(2) else Voting)]
    && s.votes == map[(0, DEV) := true, (0, BIG) := true]
    && Bucket(s.pending, 2) == (if c.Suffices() then [0] else []) && (!c.Suffices() ==> s.pending == map[])
    && TallyOf(s.tallies, 0, BuildService) == RoleTally(c.big, 0)
    && FirstVote(s.journal, 0, BIG) == Some(c.big)
  }

  lemma VoicedRuns(verify: Verifier, c: Setup, hash: Hash32, signature: Signature)
    requires verify(signature, SigningPayload(Attestation(hash, SMALL)), SMALL)
    requires c.Fits() && c.role == BuildService && c.delay == 1
    ensures var steps := Hearing(c, hash, signature);
      Initial(c.Start()) && AdmissibleRun(verify, c.Start(), steps) && Voiced(Run(verify, c.Start(), steps), c, hash)
  {
    hide After, Initial, SigningPayload, Staked, Run, AdmissibleRun, Bucket, FirstVote, Opening, RoleMeets;
    var aye := Dispatch(Signed(BIG), CallVote(0, true));
    OpeningRuns(verify, c, hash, SMALL, signature);
    var s1 := After(verify, c.Start(), c.Genesis());
    ProposedToServices(verify, s1, c, c.big, c.small, 0, hash, SMALL, signature);
    var s2 := After(verify, s1, Proposing(hash, SMALL, signature));
    assert s2.proposals == map[0 := Release(c, hash, SMALL, Voting)] && s2.votes == map[(0, DEV) := true];
    Play(verify, c.Start(), Opening(c, hash, SMALL, signature), aye);
    BigVotesAye(verify, s2, c, hash);
  }

  /** After the second proposal. */
  ghost predicate Accusing(s: State, c: Setup, hash: Hash32, accused: AccountId) {
    && Staked(s, c, c.big, c.small) && s.now == 1
    && 0 in s.proposals && s.proposals[0] == Release(c, hash, SMALL, if c.Suffices() then Approved(2) else Voting)
    && 1 in s.proposals && s.proposals[1] == Release(c, hash, accused, Voting)
    && s.votes == map[(0, DEV) := true, (0, BIG) := true, (1, DEV) := true]
    && Bucket(s.pending, 2) == (if c.Suffices() then [0] else []) && (!c.Suffices() ==> s.pending == map[])
    && TallyOf(s.tallies, 0, BuildService) == RoleTally(c.big, 0)
    && FirstVote(s.journal, 0, BIG) == Some(c.big)
  }

  lemma SecondProposal(verify: Verifier, s: State, c: Setup, hash: Hash32, accused: AccountId, signature: Signature)
    requires verify(signature, SigningPayload(Attestation(hash, accused)), accused)
    requires Voiced(s, c, hash) && c.Fits() && c.role == BuildService && accused in {BIG, SMALL}
    ensures Accusing(After(verify, s, Proposing(hash, accused, signature)), c, hash, accused)
  {
    hide After, SigningPayload, TallyOf, Bucket, FirstVote, Unheard, RoleMeets, Staked;
    assert 0 < c.big + c.small;
    ProposedToServices(verify, s, c, c.big, c.small, 1, hash, accused, signature);
  }

  lemma ContestEnds(verify: Verifier, s: State, c: Setup, hash: Hash32, accused: AccountId, rebuilt: Hash32,
                    signature: Signature)
    requires verify(signature, SigningPayload(Attestation(hash, accused)), accused)
    requires Voiced(s, c, hash) && c.Fits() && c.role == BuildService && accused in {BIG, SMALL} && rebuilt != hash
    requires MulFloor(c.sigma, c.big) <= c.big && MulFloor(c.sigma, c.small) <= c.small
    ensures var t := After(verify, s, Proposing(hash, accused, signature));
      && t.nextProjectId == 1
      && Contested(After(verify, t, Dispatch(Signed(DEV), CallCounter(1, rebuilt))), c,
                   if accused == BIG then c.big - MulFloor(c.sigma, c.big) else c.big,
                   if accused == SMALL then c.small - MulFloor(c.sigma, c.small) else c.small, hash)
  {
    hide After, MulFloor, SigningPayload, TallyOf, Bucket, FirstVote, Voiced, RoleMeets;
    var t := After(verify, s, Proposing(hash, accused, signature));
    SecondProposal(verify, s, c, hash, accused, signature);
    assert t.nextProjectId == 1;
    hide Staked;
    DeveloperChallenges(verify, t, c, c.big, c.small, hash, rebuilt, accused);
  }

  lemma ContestRuns(verify: Verifier, c: Setup, hash: Hash32, accused: AccountId, rebuilt: Hash32, first: Signature,
                    second: Signature)
    requires verify(first, SigningPayload(Attestation(hash, SMALL)), SMALL)
    requires verify(second, SigningPayload(Attestation(hash, accused)), accused)
    requires c.Fits() && c.role == BuildService && c.delay == 1 && accused in {BIG, SMALL} && rebuilt != hash
    requires MulFloor(c.sigma, c.big) <= c.big && MulFloor(c.sigma, c.small) <= c.small
    ensures var steps := Contest(c, hash, accused, rebuilt, first, second);
      && Initial(c.Start()) && AdmissibleRun(verify, c.Start(), steps)
      && Contested(Run(verify, c.Start(), steps), c,
                   if accused == BIG then c.big - MulFloor(c.sigma, c.big) else c.big,
                   if accused == SMALL then c.small - MulFloor(c.sigma, c.small) else c.small, hash)
  {
    var xs := Hearing(c, hash, first);
    VoicedRuns(verify, c, hash, first);
    var s := Run(verify, c.Start(), xs);
    assert s.nextProposalId == 1;
    ContestEnds(verify, s, c, hash, accused, rebuilt, second);
    hide After, Initial, MulFloor, SigningPayload, Voiced, Contested, Run, AdmissibleRun, Hearing;
    Play(verify, c.Start(), xs, Proposing(hash, accused, second));
    Play(verify, c.Start(), xs + [Proposing(hash, accused, second)], Dispatch(Signed(DEV), CallCounter(1, rebuilt)));
  }

  // What can happen

  lemma HalfOf(x: nat)
    requires x == 60 || x == 50
    ensures MulFloor(HALF, x) == x / 2 && MulFloor(HALF, x) <= x && MulFloor(HALF, 40) == 20 && MulFloor(HALF, 50) == 25
  {
  }

  lemma ContestPolled(st: Registry, votes: VoteBook, c: Setup, big: nat, small: nat)
    requires st == map[(0, DEV) := Stakeholder(CoreDeveloper, c.dev), (0, BIG) := Stakeholder(BuildService, big),
                       (0, SMALL) := Stakeholder(BuildService, small)]
    requires VoteOf(votes, 0, BIG) == Some(true) && VoteOf(votes, 0, SMALL) == None
    ensures Polled(st, votes, 0, 0, BuildService, true) == big
    ensures Sum(RoleWeights(st, 0, BuildService)) == big + small
  {
    assert BallotWeights(st, votes, 0, 0, BuildService, true) == map[(0, DEV) := 0, (0, BIG) := big, (0, SMALL) := 0];
    assert RoleWeights(st, 0, BuildService) == map[(0, DEV) := 0, (0, BIG) := big, (0, SMALL) := small];
    hide BallotWeights, RoleWeights;
    SumOfThree<(ProjectId, AccountId)>((0, DEV), (0, BIG), (0, SMALL), 0, big, 0);
    SumOfThree<(ProjectId, AccountId)>((0, DEV), (0, BIG), (0, SMALL), 0, big, small);
  }

  /** Eq. 1 for proposal 0, whose only voter in the required role is the bigger service. */
  lemma EqOneOfContest(s: State, c: Setup, big: nat, small: nat)
    requires c.role == BuildService && 0 in s.proposals && s.proposals[0].projectId == 0
    requires s.projects == map[0 := ProjectInfo([], c.Policy(), c.Slashing(), 0)]
    requires s.stakeholders == map[(0, DEV) := Stakeholder(CoreDeveloper, c.dev),
                                   (0, BIG) := Stakeholder(BuildService, big),
                                   (0, SMALL) := Stakeholder(BuildService, small)]
    requires VoteOf(s.votes, 0, BIG) == Some(true) && VoteOf(s.votes, 0, SMALL) == None
    ensures EqOneHolds(s, 0) <==> Fraction(big, big + small, SIXTY_PERCENT)
  {
    var rq := RoleQuorum(BuildService, SIXTY_PERCENT);
    assert RequiredOf(s.projects, 0) == [rq] && rq in [rq];
    ContestPolled(s.stakeholders, s.votes, c, big, small);
    hide Polled, RoleWeights, Fraction;
    assert EqOneFor(s.stakeholders, s.votes, 0, 0, rq) <==> Fraction(big, big + small, SIXTY_PERCENT);
    hide EqOneFor;
  }

  /** No signature verifies for two signers. */
  ghost predicate OneSigner(verify: Verifier) {
    forall signature, message, a, b ::
      verify(signature, message, a) && verify(signature, message, b) ==> a == b
  }

  /** The runs below exist under a scheme in which a signature names its signer and carries the signed bytes. */
  lemma NamingSchemeFits(hash: Hash32) returns (verify: Verifier, first: Signature, second: Signature)
    ensures OneSigner(verify)
    ensures verify(first, SigningPayload(Attestation(hash, SMALL)), SMALL)
    ensures verify(second, SigningPayload(Attestation(hash, BIG)), BIG)
  {
    verify := (signature: Signature, message: seq<byte>, signer: AccountId) =>
      signer < 256 && signature.raw == [signer as byte] + message;
    first := Signature([SMALL as byte] + SigningPayload(Attestation(hash, SMALL)));
    second := Signature([BIG as byte] + SigningPayload(Attestation(hash, BIG)));
    hide SigningPayload;
    forall signature, message, a, b | verify(signature, message, a) && verify(signature, message, b) ensures a == b {
      assert signature.raw[0] == a as byte == b as byte;
    }
  }

  /**
   A stale tally: approved by 60 of 100, proposal 0 is released although its voter has lost half of its stake
   since, and now holds 30 of 70.
   */
  lemma StaleRelease(verify: Verifier, hash: Hash32, rebuilt: Hash32, first: Signature, second: Signature)
    requires verify(first, SigningPayload(Attestation(hash, SMALL)), SMALL)
    requires verify(second, SigningPayload(Attestation(hash, BIG)), BIG) && rebuilt != hash
    ensures var c := Setup(BuildService, 100, 1, HALF, 0, 60, 40);
      var steps := Contest(c, hash, BIG, rebuilt, first, second) + [NextBlock];
      var t := Run(verify, c.Start(), steps);
      && Initial(c.Start()) && AdmissibleRun(verify, c.Start(), steps)
      && 0 in t.proposals && t.proposals[0].status.Enacted? && !EqOneHolds(t, 0)
  {
    hide After, Initial, EqOneHolds, SigningPayload, Run, AdmissibleRun, TallyOf, Bucket, FirstVote, Contest, MulFloor;
    var c := Setup(BuildService, 100, 1, HALF, 0, 60, 40);
    HalfOf(60);
    var xs := Contest(c, hash, BIG, rebuilt, first, second);
    var s := Run(verify, c.Start(), xs);
    ContestRuns(verify, c, hash, BIG, rebuilt, first, second);
    Play(verify, c.Start(), xs, NextBlock);
    DueBlock(verify, s, c, 30, 40, hash, 60);
    EqOneOfContest(After(verify, s, NextBlock), c, 30, 40);
  }

  /** The same with a slash of everything and no other service: the due proposal falls back to the vote. */
  lemma EmptiedRoleFallsBack(verify: Verifier, hash: Hash32, rebuilt: Hash32, first: Signature, second: Signature)
    requires verify(first, SigningPayload(Attestation(hash, SMALL)), SMALL)
    requires verify(second, SigningPayload(Attestation(hash, BIG)), BIG) && rebuilt != hash
    ensures var c := Setup(BuildService, 100, 1, ACCURACY, 0, 60, 0);
      var steps := Contest(c, hash, BIG, rebuilt, first, second);
      var s, t := Run(verify, c.Start(), steps), Run(verify, c.Start(), steps + [NextBlock]);
      && Initial(c.Start()) && AdmissibleRun(verify, c.Start(), steps + [NextBlock])
      && 0 in s.proposals && s.proposals[0].status == Approved(t.now)
      && 0 in t.proposals && t.proposals[0].status.Voting?
  {
    hide After, Initial, SigningPayload, Run, AdmissibleRun, TallyOf, Bucket, FirstVote, Contest;
    var c := Setup(BuildService, 100, 1, ACCURACY, 0, 60, 0);
    assert MulFloor(ACCURACY, 60) == 60 && MulFloor(ACCURACY, 0) == 0;
    hide MulFloor;
    var xs := Contest(c, hash, BIG, rebuilt, first, second);
    var s := Run(verify, c.Start(), xs);
    ContestRuns(verify, c, hash, BIG, rebuilt, first, second);
    Play(verify, c.Start(), xs, NextBlock);
    DueBlock(verify, s, c, 0, 0, hash, 60);
    NextBlockIsNext(verify, s);
  }

  lemma SaturatedSetup(c: Setup)
    requires c.role == BuildService && c.dev == 0 && c.big == ENOUGH
    requires c.small == 300_000_000_000_000_000_000_000_000_000_000_000_000
    ensures 0 < c.big + c.small && c.Suffices() && !Fraction(c.big, c.big + c.small, SIXTY_PERCENT)
  {
  }

  /**
   A saturated test: close to the end of the balance range, an aye of about one part in a billion of the stake is
   enough for any quorum, so proposal 0 is released although Eq. 1 fails by a wide margin.
   */
  lemma SaturatedRelease(verify: Verifier, hash: Hash32, signature: Signature)
    requires verify(signature, SigningPayload(Attestation(hash, SMALL)), SMALL)
    ensures var c := Setup(BuildService, 100, 1, HALF, 0, ENOUGH, 300_000_000_000_000_000_000_000_000_000_000_000_000);
      var steps := Hearing(c, hash, signature) + [NextBlock];
      var t := Run(verify, c.Start(), steps);
      && Initial(c.Start()) && AdmissibleRun(verify, c.Start(), steps)
      && 0 in t.proposals && t.proposals[0].status.Enacted? && !EqOneHolds(t, 0)
  {
    hide After, Initial, EqOneHolds, SigningPayload, Run, AdmissibleRun, TallyOf, Bucket, FirstVote, Hearing, RoleMeets;
    var c := Setup(BuildService, 100, 1, HALF, 0, ENOUGH, 300_000_000_000_000_000_000_000_000_000_000_000_000);
    SaturatedSetup(c);
    hide Fraction;
    var xs := Hearing(c, hash, signature);
    var s := Run(verify, c.Start(), xs);
    VoicedRuns(verify, c, hash, signature);
    Play(verify, c.Start(), xs, NextBlock);
    DueBlock(verify, s, c, c.big, c.small, hash, c.big);
    EqOneOfContest(After(verify, s, NextBlock), c, c.big, c.small);
  }

  lemma VoterUnslashed(s: State, c: Setup, big: nat, small: nat)
    requires 0 in s.proposals && s.proposals[0].projectId == 0
    requires s.stakeholders == map[(0, DEV) := Stakeholder(CoreDeveloper, c.dev),
                                   (0, BIG) := Stakeholder(BuildService, big),
                                   (0, SMALL) := Stakeholder(BuildService, small)]
    requires s.votes == map[(0, DEV) := true, (0, BIG) := true, (1, DEV) := true]
    requires FirstVote(s.journal, 0, BIG) == Some(big)
    ensures NoneSlashedSince(s, 0, BuildService)
  {
  }

  /**
   A stale status: 50 of 100 leave proposal 0 to the vote; the service that did not vote loses half of its stake;
   now 50 of 75 satisfy Eq. 1, no voter was slashed, and `close_expired` drops the proposal all the same.
   */
  lemma StaleVoting(verify: Verifier, hash: Hash32, rebuilt: Hash32, first: Signature, second: Signature)
    requires verify(first, SigningPayload(Attestation(hash, SMALL)), SMALL)
    requires verify(second, SigningPayload(Attestation(hash, SMALL)), SMALL) && rebuilt != hash
    ensures var c := Setup(BuildService, 1, 1, HALF, 0, 50, 50);
      var steps := Contest(c, hash, SMALL, rebuilt, first, second) + [NextBlock] + [NextBlock];
      var t := Run(verify, c.Start(), steps);
      && Initial(c.Start()) && AdmissibleRun(verify, c.Start(), steps)
      && 0 in t.proposals && EqOneHolds(t, 0) && NoneSlashedSince(t, 0, BuildService)
      && CloseExpired(t, Signed(DEV), 0).Ok?
  {
    hide After, Initial, EqOneHolds, SigningPayload, Run, AdmissibleRun, TallyOf, FirstVote, Contest, MulFloor;
    var c := Setup(BuildService, 1, 1, HALF, 0, 50, 50);
    HalfOf(50);
    var xs := Contest(c, hash, SMALL, rebuilt, first, second);
    var s := Run(verify, c.Start(), xs);
    ContestRuns(verify, c, hash, SMALL, rebuilt, first, second);
    Play(verify, c.Start(), xs, NextBlock);
    QuietBlock(verify, s);
    var s1 := After(verify, s, NextBlock);
    Play(verify, c.Start(), xs + [NextBlock], NextBlock);
    QuietBlock(verify, s1);
    var t := After(verify, s1, NextBlock);
    EqOneOfContest(t, c, 50, 25);
    VoterUnslashed(t, c, 50, 25);
    hide Bucket;
  }

  lemma RunIsReached(verify: Verifier, s0: State, steps: seq<Step>)
    requires Initial(s0) && AdmissibleRun(verify, s0, steps)
    ensures Reached(verify, Run(verify, s0, steps))
  {
  }

  /** A challenger without any stake is accepted. */
  lemma UnstakedChallenger(verify: Verifier, hash: Hash32, rebuilt: Hash32, signature: Signature)
    requires verify(signature, SigningPayload(Attestation(hash, BIG)), BIG) && rebuilt != hash
    ensures var c := Setup(BuildService, 100, 1, HALF, 0, 60, 40);
      var steps := Opening(c, hash, BIG, signature);
      var t := Run(verify, c.Start(), steps);
      && Initial(c.Start()) && AdmissibleRun(verify, c.Start(), steps)
      && (0, DEV) in t.stakeholders && t.stakeholders[(0, DEV)].stake == 0
      && SubmitCounterAttestation(t, Signed(DEV), 0, rebuilt).Ok?
  {
    hide After, Initial, SigningPayload, Run, AdmissibleRun, Opening, SubmitCounterAttestation, Reached;
    var c := Setup(BuildService, 100, 1, HALF, 0, 60, 40);
    var t := Run(verify, c.Start(), Opening(c, hash, BIG, signature));
    OpeningRuns(verify, c, hash, BIG, signature);
    ProposedToServices(verify, After(verify, c.Start(), c.Genesis()), c, 60, 40, 0, hash, BIG, signature);
    assert Reached(verify, t) by { RunIsReached(verify, c.Start(), Opening(c, hash, BIG, signature)); }
    ChallengeAcceptedIff(verify, t, Signed(DEV), 0, rebuilt);
  }

  /** With a delay of zero, a proposal is approved for the block that is already under way. */
  lemma ZeroDelayApproval(verify: Verifier, hash: Hash32, signature: Signature)
    requires verify(signature, SigningPayload(Attestation(hash, BIG)), BIG)
    ensures var c := Setup(CoreDeveloper, 100, 0, HALF, 1, 1, 0);
      var steps := Opening(c, hash, BIG, signature);
      var t := Run(verify, c.Start(), steps);
      && Initial(c.Start()) && AdmissibleRun(verify, c.Start(), steps)
      && 0 in t.proposals && t.proposals[0].status == Approved(t.now)
      && DelayOf(t.projects, t.proposals[0].projectId) == 0
  {
    hide After, Initial, SigningPayload, Run, AdmissibleRun, Opening;
    var c := Setup(CoreDeveloper, 100, 0, HALF, 1, 1, 0);
    OpeningRuns(verify, c, hash, BIG, signature);
    ProposedToDeveloper(verify, After(verify, c.Start(), c.Genesis()), c, hash, signature);
  }

  /**
   A closed vote on an open approval: approved at block 1 for block 6 with a voting period of one block, proposal 0
   is still approved at block 3, and its own proposer is told that the voting period is over.
   */
  lemma ClosedWindow(verify: Verifier, hash: Hash32, signature: Signature)
    requires verify(signature, SigningPayload(Attestation(hash, BIG)), BIG)
    ensures var c := Setup(CoreDeveloper, 1, 5, HALF, 1, 1, 0);
      var steps := Opening(c, hash, BIG, signature) + Blocks(2);
      var t := Run(verify, c.Start(), steps);
      && Initial(c.Start()) && AdmissibleRun(verify, c.Start(), steps)
      && 0 in t.proposals && t.proposals[0].status == Approved(6) && t.proposals[0].votingEnds < t.now < 6
      && (t.proposals[0].projectId, DEV) in t.stakeholders
      && Vote(t, Signed(DEV), 0, false) == Err(VotingPeriodOver)
  {
    hide After, Initial, SigningPayload, Run, AdmissibleRun, Opening, Sound, DoVote;
    var c := Setup(CoreDeveloper, 1, 5, HALF, 1, 1, 0);
    var xs := Opening(c, hash, BIG, signature);
    var s := Run(verify, c.Start(), xs);
    OpeningRuns(verify, c, hash, BIG, signature);
    ProposedToDeveloper(verify, After(verify, c.Start(), c.Genesis()), c, hash, signature);
    Reachable(verify, c.Start(), xs);
    BlocksKeepApproved(verify, s, 0, 2);
    RunAppend(verify, c.Start(), xs, Blocks(2));
    RunKeepsSound(verify, s, Blocks(2));
    ProposerRegistered(verify, Run(verify, s, Blocks(2)), 0);
  }
}
