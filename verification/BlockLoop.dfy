/** What `on_initialize` does: every due proposal is decided once, in the order of its bucket. */
module BlockLoop {
  import opened Types
  import opened Currency
  import opened Protocol
  import opened Accounting
  import opened History
  import opened Schedule
  import opened Ballots
  import opened Releases
  import opened Invariant
  import opened Enactment
  import opened Runs
  import opened Evolution

  /** A project's Official Release Log, oldest entry first. */
  ghost function LogOf(s: State, p: ProjectId): (log: seq<ReleaseEntry>)
    requires LogDense(s.releaseCount, s.releaseLog)
  {
    seq(CountOf(s.releaseCount, p),
        i requires 0 <= i < CountOf(s.releaseCount, p) => assert (p, i) in s.releaseLog; s.releaseLog[(p, i)])
  }

  ghost predicate AllKnown(s: State, ids: seq<ProposalId>) { forall id :: id in ids ==> id in s.proposals }

  /** The entries a project gains from a bucket: its proposals in it that meet their quorums, in order. */
  ghost function Additions(s: State, ids: seq<ProposalId>, p: ProjectId, now: BlockNumber): seq<ReleaseEntry>
    requires AllKnown(s, ids)
  {
    if ids == [] then []
    else
      var id := ids[0];
      (if s.proposals[id].projectId == p && Meets(s, id) then [EntryFor(id, s.proposals[id], now)] else [])
      + Additions(s, ids[1..], p, now)
  }

  ghost function Decided(s: State, id: ProposalId): Proposal
    requires id in s.proposals
  {
    s.proposals[id].(status := if Meets(s, id) then ProposalStatus.Enacted else Voting)
  }

  ghost predicate ProposalsDecided(s: State, t: State, ids: seq<ProposalId>) {
    && t.proposals.Keys == s.proposals.Keys
    && forall id :: id in s.proposals ==> t.proposals[id] == if id in ids then Decided(s, id) else s.proposals[id]
  }

  /** What the block loop leaves alone. */
  ghost predicate LoopFrame(s: State, t: State) {
    t == s.(proposals := t.proposals, releaseCount := t.releaseCount, releaseLog := t.releaseLog,
            ledger := t.ledger, journal := t.journal)
  }

  ghost predicate LogsExtended(s: State, t: State, ids: seq<ProposalId>, now: BlockNumber)
    requires AllKnown(s, ids)
  {
    && LogDense(s.releaseCount, s.releaseLog) && LogDense(t.releaseCount, t.releaseLog)
    && forall p :: LogOf(t, p) == LogOf(s, p) + Additions(s, ids, p, now)
  }

  ghost predicate LoopEffect(s: State, t: State, ids: seq<ProposalId>, now: BlockNumber) {
    && AllKnown(s, ids)
    && LoopFrame(s, t)
    && ProposalsDecided(s, t, ids)
    && LogsExtended(s, t, ids, now)
  }

  // One proposal

  lemma AppendExtendsLogs(s: State, id: ProposalId, p: ProjectId)
    requires id in s.proposals && LogDense(s.releaseCount, s.releaseLog)
    requires CountOf(s.releaseCount, s.proposals[id].projectId) < U32_MAX
    ensures var t := Append(s, id, s.now);
      && LogDense(t.releaseCount, t.releaseLog)
      && LogOf(t, p) == LogOf(s, p)
           + if s.proposals[id].projectId == p then [EntryFor(id, s.proposals[id], s.now)] else []
  {
    hide Release;
    var q := s.proposals[id].projectId;
    var n := CountOf(s.releaseCount, q);
    var t := Append(s, id, s.now);
    AppendKeepsDense(s.releaseCount, s.releaseLog, q, EntryFor(id, s.proposals[id], s.now));
    assert CountOf(t.releaseCount, p) == CountOf(s.releaseCount, p) + if q == p then 1 else 0;
    forall i: nat | i < CountOf(s.releaseCount, p) ensures LogOf(t, p)[i] == LogOf(s, p)[i] {
      assert (p, i) in s.releaseLog;
    }
  }

  lemma EnactFrame(s: State, id: ProposalId)
    requires id in s.proposals && s.proposals[id].projectId in s.projects && s.proposals[id].status.Approved?
    ensures LoopFrame(s, Enact(s, id, s.now))
  {
    hide MeetsQuorums, Release;
  }

  lemma FallBackLogs(s: State, id: ProposalId, p: ProjectId)
    requires id in s.proposals && LogDense(s.releaseCount, s.releaseLog)
    ensures var t := FallBack(s, id); LogDense(t.releaseCount, t.releaseLog) && LogOf(t, p) == LogOf(s, p)
  {
    hide LogDense;
    assert FallBack(s, id).releaseCount == s.releaseCount && FallBack(s, id).releaseLog == s.releaseLog;
  }

  lemma EnactExtendsLogs(verify: Verifier, s: State, id: ProposalId, p: ProjectId)
    requires Based(verify, s) && Logged(s)
    requires id in s.proposals && s.proposals[id].projectId in s.projects && s.proposals[id].status.Approved?
    ensures var t := Enact(s, id, s.now);
      && LogDense(t.releaseCount, t.releaseLog)
      && LogOf(t, p) == LogOf(s, p) + Additions(s, [id], p, s.now)
  {
    hide LogFaithful, LogOrdered, LogComplete, LogDense, Numbered, Rooted, PoliciesStaked, Countered;
    hide MeetsQuorums, Append, FallBack;
    NumberedBounds(verify, s, id);
    LogIndexFits(s, id);
    AppendExtendsLogs(s, id, p);
    FallBackLogs(s, id, p);
    assert Additions(s, [id], p, s.now)
        == if s.proposals[id].projectId == p && Meets(s, id) then [EntryFor(id, s.proposals[id], s.now)] else [];
  }

  /** Verdicts do not change inside the loop. */
  lemma {:induction false} AdditionsStable(s: State, t: State, ids: seq<ProposalId>, p: ProjectId, now: BlockNumber)
    requires AllKnown(s, ids) && AllKnown(t, ids)
    requires t.projects == s.projects && t.roleStake == s.roleStake && t.tallies == s.tallies
    requires forall id :: id in ids ==> t.proposals[id] == s.proposals[id]
    ensures Additions(t, ids, p, now) == Additions(s, ids, p, now)
  {
    hide MeetsQuorums;
    if ids != [] {
      AdditionsStable(s, t, ids[1..], p, now);
    }
  }

  // The whole bucket

  lemma FirstDue(verify: Verifier, s: State, ids: seq<ProposalId>)
    requires Inv(verify, s.(pending := s.pending[s.now := ids]), s.now) && ids != []
    ensures NoRepeats(ids)
    ensures AllKnown(s, ids) && forall id :: id in ids ==> s.proposals[id].status == Approved(s.now)
    ensures s.proposals[ids[0]].projectId in s.projects
    ensures Based(verify, s) && Logged(s)
  {
    hide PoliciesStaked, Countered, RoleStakeExact, Escrowed, Bonded, Conserved;
    hide StakesEroded, SlashesCounted, StakeConserved, TalliesFaithful, FirstVotesTallied, VotesRecorded;
    hide VotesCurrent, TalliesKeyed;
    hide Timely, LogDense, LogFaithful, LogOrdered, LogComplete, StatusFits;
    var full := s.pending[s.now := ids];
    assert Bucket(full, s.now) == ids;
    assert ids[0] in Bucket(full, s.now);
    NumberedBounds(verify, s.(pending := full), ids[0]);
  }

  lemma AdditionsSplit(s: State, ids: seq<ProposalId>, p: ProjectId, now: BlockNumber)
    requires ids != [] && AllKnown(s, ids)
    ensures Additions(s, [ids[0]], p, now) + Additions(s, ids[1..], p, now) == Additions(s, ids, p, now)
  {
    hide Meets;
    assert [ids[0]][1..] == [];
  }

  lemma LogsCompose(s: State, s1: State, t: State, ids: seq<ProposalId>, now: BlockNumber)
    requires ids != [] && AllKnown(s, ids) && AllKnown(s1, ids[1..]) && LogsExtended(s1, t, ids[1..], now)
    requires LogDense(s.releaseCount, s.releaseLog)
    requires forall p :: LogOf(s1, p) == LogOf(s, p) + Additions(s, [ids[0]], p, now)
    requires forall p :: Additions(s1, ids[1..], p, now) == Additions(s, ids[1..], p, now)
    ensures LogsExtended(s, t, ids, now)
  {
    hide LogDense, Additions, LogOf;
    forall p ensures LogOf(t, p) == LogOf(s, p) + Additions(s, ids, p, now) {
      AdditionsSplit(s, ids, p, now);
      var l, a, b := LogOf(s, p), Additions(s, [ids[0]], p, now), Additions(s, ids[1..], p, now);
      assert (l + a) + b == l + (a + b);
    }
  }

  lemma DecisionsCompose(s: State, s1: State, t: State, ids: seq<ProposalId>)
    requires ids != [] && NoRepeats(ids) && ids[0] in s.proposals
    requires s1.proposals == s.proposals[ids[0] := Decided(s, ids[0])]
    requires s1.projects == s.projects && s1.roleStake == s.roleStake && s1.tallies == s.tallies
    requires ProposalsDecided(s1, t, ids[1..])
    ensures ProposalsDecided(s, t, ids)
  {
    hide MeetsQuorums;
    assert ids == [ids[0]] + ids[1..];
    NoRepeatsCons(ids[0], ids[1..]);
    assert forall id :: id in s.proposals ==> (Meets(s1, id) <==> Meets(s, id));
    assert forall id :: id in ids <==> id == ids[0] || id in ids[1..];
  }

  lemma LoopIdle(verify: Verifier, s: State)
    requires Inv(verify, s.(pending := s.pending[s.now := []]), s.now)
    ensures LoopEffect(s, s, [], s.now)
  {
    hide Inv, LogDense, MeetsQuorums;
    DenseNow(verify, s.(pending := s.pending[s.now := []]), s.now);
    assert forall p :: LogOf(s, p) + [] == LogOf(s, p);
  }

  ghost predicate TurnEffect(s: State, s1: State, ids: seq<ProposalId>) {
    && ids != [] && NoRepeats(ids) && AllKnown(s, ids) && AllKnown(s1, ids[1..])
    && LoopFrame(s, s1)
    && s1.proposals == s.proposals[ids[0] := Decided(s, ids[0])]
    && LogDense(s.releaseCount, s.releaseLog) && LogDense(s1.releaseCount, s1.releaseLog)
    && (forall p :: LogOf(s1, p) == LogOf(s, p) + Additions(s, [ids[0]], p, s.now))
  }

  lemma LoopTurn(verify: Verifier, s: State, ids: seq<ProposalId>)
    requires Inv(verify, s.(pending := s.pending[s.now := ids]), s.now) && ids != []
    ensures TurnEffect(s, Enact(s, ids[0], s.now), ids)
    ensures var s1 := Enact(s, ids[0], s.now);
      s1.now == s.now && Inv(verify, s1.(pending := s1.pending[s.now := ids[1..]]), s.now)
  {
    hide Inv, Enact, Based, Logged, MeetsQuorums, LogDense;
    var full := s.pending[s.now := ids];
    var s1 := Enact(s, ids[0], s.now);
    FirstDue(verify, s, ids);
    EnactKeepsInv(verify, s.(pending := full));
    EnactIgnoresPending(s, full, ids[0], s.now);
    assert full[s.now := ids[1..]] == s.pending[s.now := ids[1..]];
    EnactFrame(s, ids[0]);
    EnactShape(s, ids[0]);
    assert forall id :: id in ids[1..] ==> id in ids;
    assert s1.proposals == s.proposals[ids[0] := Decided(s, ids[0])];
    DenseNow(verify, s.(pending := full), s.now);
    EnactExtendsLogs(verify, s, ids[0], s.proposals[ids[0]].projectId);
    forall p ensures LogOf(s1, p) == LogOf(s, p) + Additions(s, [ids[0]], p, s.now) {
      EnactExtendsLogs(verify, s, ids[0], p);
    }
  }

  lemma LoopCompose(s: State, s1: State, t: State, ids: seq<ProposalId>)
    requires TurnEffect(s, s1, ids) && LoopEffect(s1, t, ids[1..], s.now)
    ensures LoopEffect(s, t, ids, s.now)
  {
    hide LogDense, MeetsQuorums, ProposalsDecided;
    NoRepeatsCons(ids[0], ids[1..]);
    assert ids == [ids[0]] + ids[1..];
    forall p ensures Additions(s1, ids[1..], p, s.now) == Additions(s, ids[1..], p, s.now) {
      AdditionsStable(s, s1, ids[1..], p, s.now);
    }
    LogsCompose(s, s1, t, ids, s.now);
    DecisionsCompose(s, s1, t, ids);
  }

  lemma {:induction false} LoopDecides(verify: Verifier, s: State, ids: seq<ProposalId>)
    requires Inv(verify, s.(pending := s.pending[s.now := ids]), s.now)
    ensures LoopEffect(s, EnactAll(s, ids, s.now), ids, s.now)
    decreases |ids|
  {
    if ids == [] {
      LoopIdle(verify, s);
    } else {
      LoopTurn(verify, s, ids);
      var s1 := Enact(s, ids[0], s.now);
      LoopDecides(verify, s1, ids[1..]);
      LoopCompose(s, s1, EnactAll(s, ids, s.now), ids);
    }
  }

  /**
   `on_initialize` decides exactly the proposals in the bucket of the new block: those that meet their
   quorums are enacted and appended to their project's log in bucket order, the others go back to the
   vote. The bucket is emptied; every other bucket, vote, tally, stake and proposal stays.
   */
  lemma BlockLoopEffect(verify: Verifier, s: State)
    requires Sound(verify, s) && Admissible(s, NextBlock)
    ensures var now := s.now + 1;
      var s1 := s.(now := now, pending := s.pending - {now});
      LoopEffect(s1, After(verify, s, NextBlock), Bucket(s.pending, now), now)
  {
    hide Sound, EnactAll, Inv, LoopEffect;
    var now := s.now + 1;
    LoopStart(verify, s);
    LoopDecides(verify, s.(now := now, pending := s.pending - {now}), Bucket(s.pending, now));
  }
}
