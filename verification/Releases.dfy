/** The Official Release Log: dense indices, faithful entries, one for every enacted proposal. */
module Releases {
  import opened Types
  import opened Protocol
  import opened Schedule

  type Log = map<(ProjectId, nat), ReleaseEntry>

  ghost predicate LogDense(releaseCount: map<ProjectId, nat>, log: Log) {
    forall p: ProjectId, i: nat :: (p, i) in log <==> i < CountOf(releaseCount, p)
  }

  /** An entry copies an enacted proposal of the project, at a block that has been reached. */
  ghost predicate EntryFaithful(e: ReleaseEntry, p: ProjectId, proposals: Proposals, now: BlockNumber) {
    && e.proposalId in proposals
    && proposals[e.proposalId].projectId == p
    && proposals[e.proposalId].status.Enacted?
    && e == EntryFor(e.proposalId, proposals[e.proposalId], e.enactedAt)
    && e.enactedAt <= now
  }

  ghost predicate LogFaithful(log: Log, proposals: Proposals, now: BlockNumber) {
    forall p: ProjectId, i: nat :: (p, i) in log ==> EntryFaithful(log[(p, i)], p, proposals, now)
  }

  /** Entries come in order of enactment and never twice for the same proposal. */
  ghost predicate LogOrdered(log: Log) {
    forall p: ProjectId, i: nat, j: nat :: (p, i) in log && (p, j) in log && i < j ==>
      && log[(p, i)].enactedAt <= log[(p, j)].enactedAt
      && log[(p, i)].proposalId != log[(p, j)].proposalId
  }

  ghost predicate InLog(log: Log, p: ProjectId, id: ProposalId) {
    exists i: nat :: (p, i) in log && log[(p, i)].proposalId == id
  }

  ghost predicate LogComplete(log: Log, proposals: Proposals) {
    forall id :: id in proposals && proposals[id].status.Enacted? ==> InLog(log, proposals[id].projectId, id)
  }

  ghost predicate Logged(s: State) {
    && LogDense(s.releaseCount, s.releaseLog)
    && LogFaithful(s.releaseLog, s.proposals, s.now)
    && LogOrdered(s.releaseLog)
    && LogComplete(s.releaseLog, s.proposals)
  }

  /** The proposals in a project's log, oldest first. */
  ghost function LogIds(s: State, p: ProjectId): (ids: seq<ProposalId>)
    requires LogDense(s.releaseCount, s.releaseLog)
  {
    seq(CountOf(s.releaseCount, p),
        i requires 0 <= i < CountOf(s.releaseCount, p) =>
          assert (p, i) in s.releaseLog;
          s.releaseLog[(p, i)].proposalId)
  }

  // Counting

  ghost function Elements(ids: seq<nat>): set<nat> { set x | x in ids }

  lemma {:induction false} DistinctAsSet(ids: seq<nat>)
    requires NoRepeats(ids)
    ensures |Elements(ids)| == |ids|
  {
    if ids != [] {
      assert ids == [ids[0]] + ids[1..];
      NoRepeatsCons(ids[0], ids[1..]);
      DistinctAsSet(ids[1..]);
      assert Elements(ids) == {ids[0]} + Elements(ids[1..]);
    }
  }

  ghost function Below(n: nat): (s: set<nat>)
    ensures |s| == n
    ensures forall x: nat :: x in s <==> x < n
  {
    if n == 0 then {} else Below(n - 1) + {n - 1}
  }

  lemma {:induction false} SubsetSize(a: set<nat>, b: set<nat>)
    requires a <= b
    ensures |a| <= |b|
    decreases |a|
  {
    if a != {} {
      var x :| x in a;
      SubsetSize(a - {x}, b - {x});
    }
  }

  /** At most `n` different ids are smaller than `n`. */
  lemma Pigeonhole(ids: seq<nat>, n: nat)
    requires NoRepeats(ids) && forall x :: x in ids ==> x < n
    ensures |ids| <= n
  {
    DistinctAsSet(ids);
    SubsetSize(Elements(ids), Below(n));
  }

  lemma FaithfulAt(s: State, p: ProjectId, i: nat)
    requires LogFaithful(s.releaseLog, s.proposals, s.now) && (p, i) in s.releaseLog
    ensures EntryFaithful(s.releaseLog[(p, i)], p, s.proposals, s.now)
  {
  }

  lemma LoggedIsEnacted(s: State, p: ProjectId, id: ProposalId)
    requires LogDense(s.releaseCount, s.releaseLog) && LogFaithful(s.releaseLog, s.proposals, s.now)
    requires id in LogIds(s, p)
    ensures id in s.proposals && s.proposals[id].projectId == p && s.proposals[id].status.Enacted?
  {
    hide LogFaithful, EntryFor;
    var i: nat :| i < |LogIds(s, p)| && LogIds(s, p)[i] == id;
    assert (p, i) in s.releaseLog;
    assert EntryFaithful(s.releaseLog[(p, i)], p, s.proposals, s.now) by { FaithfulAt(s, p, i); }
  }

  lemma EnactedIsLogged(s: State, p: ProjectId, id: ProposalId)
    requires LogDense(s.releaseCount, s.releaseLog) && LogComplete(s.releaseLog, s.proposals)
    requires id in s.proposals && s.proposals[id].projectId == p && s.proposals[id].status.Enacted?
    ensures id in LogIds(s, p)
  {
    assert InLog(s.releaseLog, p, id);
    hide LogComplete;
    var i: nat :| (p, i) in s.releaseLog && s.releaseLog[(p, i)].proposalId == id;
    assert LogIds(s, p)[i] == id;
  }

  lemma LogIdsDistinct(s: State, p: ProjectId)
    requires LogDense(s.releaseCount, s.releaseLog) && LogOrdered(s.releaseLog)
    ensures NoRepeats(LogIds(s, p))
  {
    var ids := LogIds(s, p);
    forall i: nat, j: nat | i < j < |ids| ensures ids[i] != ids[j] {
      assert (p, i) in s.releaseLog && (p, j) in s.releaseLog;
    }
  }

  /** The project's log lists exactly its enacted proposals. */
  lemma LogIdsEnacted(s: State, p: ProjectId)
    requires Logged(s)
    ensures forall id :: id in LogIds(s, p) <==>
      id in s.proposals && s.proposals[id].projectId == p && s.proposals[id].status.Enacted?
  {
    hide LogFaithful, LogOrdered, LogComplete, LogIds;
    forall id | id in LogIds(s, p)
      ensures id in s.proposals && s.proposals[id].projectId == p && s.proposals[id].status.Enacted?
    {
      LoggedIsEnacted(s, p, id);
    }
    forall id | id in s.proposals && s.proposals[id].projectId == p && s.proposals[id].status.Enacted?
      ensures id in LogIds(s, p)
    {
      EnactedIsLogged(s, p, id);
    }
  }

  lemma FewerThan(ids: seq<nat>, other: nat, n: nat)
    requires NoRepeats(ids) && other !in ids && other < n && forall x :: x in ids ==> x < n
    ensures |ids| < n
  {
    NoRepeatsCons(other, ids);
    Pigeonhole([other] + ids, n);
  }

  /** The log index never saturates while proposal ids do not: there are fewer entries than ids. */
  lemma LogIndexFits(s: State, id: ProposalId)
    requires Logged(s) && id in s.proposals && !s.proposals[id].status.Enacted?
    requires s.nextProposalId <= U32_MAX && forall i :: i in s.proposals ==> i < s.nextProposalId
    ensures CountOf(s.releaseCount, s.proposals[id].projectId) < s.nextProposalId
  {
    var p := s.proposals[id].projectId;
    hide LogFaithful, LogComplete;
    LogIdsDistinct(s, p);
    LogIdsEnacted(s, p);
    hide LogDense, LogOrdered, NoRepeats;
    assert |LogIds(s, p)| == CountOf(s.releaseCount, p);
    hide LogIds;
    FewerThan(LogIds(s, p), id, s.nextProposalId);
  }

  // Changes

  /** A change to a proposal that is neither enacted nor being enacted leaves the log as it is. */
  lemma LogUntouched(s: State, id: ProposalId, v: Proposal)
    requires Logged(s) && !v.status.Enacted?
    requires id in s.proposals ==> !s.proposals[id].status.Enacted?
    ensures Logged(s.(proposals := s.proposals[id := v]))
  {
    var t := s.(proposals := s.proposals[id := v]);
    forall p: ProjectId, i: nat | (p, i) in t.releaseLog
      ensures EntryFaithful(t.releaseLog[(p, i)], p, t.proposals, t.now)
    {
      assert EntryFaithful(s.releaseLog[(p, i)], p, s.proposals, s.now);
    }
  }

  lemma AppendKeepsDense(releaseCount: map<ProjectId, nat>, log: Log, p: ProjectId, e: ReleaseEntry)
    requires LogDense(releaseCount, log)
    ensures var n := CountOf(releaseCount, p); LogDense(releaseCount[p := n + 1], log[(p, n) := e])
  {
    var n := CountOf(releaseCount, p);
    var count1, log1 := releaseCount[p := n + 1], log[(p, n) := e];
    forall q: ProjectId, i: nat ensures (q, i) in log1 <==> i < CountOf(count1, q) {
      assert (q, i) in log <==> i < CountOf(releaseCount, q);
    }
  }

  lemma AppendKeepsFaithful(log: Log, proposals: Proposals, now: BlockNumber, id: ProposalId, n: nat)
    requires LogFaithful(log, proposals, now) && id in proposals && proposals[id].status.Approved?
    ensures var v := proposals[id].(status := ProposalStatus.Enacted);
      LogFaithful(log[(proposals[id].projectId, n) := EntryFor(id, proposals[id], now)], proposals[id := v], now)
  {
    var v := proposals[id].(status := ProposalStatus.Enacted);
    var log1 := log[(proposals[id].projectId, n) := EntryFor(id, proposals[id], now)];
    forall p: ProjectId, i: nat | (p, i) in log1
      ensures EntryFaithful(log1[(p, i)], p, proposals[id := v], now)
    {
      if (p, i) != (proposals[id].projectId, n) {
        assert EntryFaithful(log[(p, i)], p, proposals, now);
      }
    }
  }

  lemma AppendKeepsOrder(s: State, id: ProposalId)
    requires Logged(s) && id in s.proposals && s.proposals[id].status.Approved?
    ensures var p := s.proposals[id].projectId;
      LogOrdered(s.releaseLog[(p, CountOf(s.releaseCount, p)) := EntryFor(id, s.proposals[id], s.now)])
  {
    var p := s.proposals[id].projectId;
    var n := CountOf(s.releaseCount, p);
    var log1 := s.releaseLog[(p, n) := EntryFor(id, s.proposals[id], s.now)];
    forall q: ProjectId, i: nat, j: nat | (q, i) in log1 && (q, j) in log1 && i < j
      ensures log1[(q, i)].enactedAt <= log1[(q, j)].enactedAt
      ensures log1[(q, i)].proposalId != log1[(q, j)].proposalId
    {
      if q == p && j >= n {
        assert (p, i) in s.releaseLog && (p, j) !in s.releaseLog;
        assert EntryFaithful(s.releaseLog[(p, i)], p, s.proposals, s.now);
      } else {
        assert (q, i) in s.releaseLog && (q, j) in s.releaseLog;
      }
    }
  }

  lemma AppendKeepsComplete(log: Log, proposals: Proposals, id: ProposalId, n: nat, e: ReleaseEntry)
    requires LogComplete(log, proposals) && id in proposals && e.proposalId == id
    requires (proposals[id].projectId, n) !in log
    ensures var v := proposals[id].(status := ProposalStatus.Enacted);
      LogComplete(log[(proposals[id].projectId, n) := e], proposals[id := v])
  {
    var v := proposals[id].(status := ProposalStatus.Enacted);
    var log1 := log[(proposals[id].projectId, n) := e];
    var after := proposals[id := v];
    forall i | i in after && after[i].status.Enacted? ensures InLog(log1, after[i].projectId, i) {
      if i == id {
        assert (v.projectId, n) in log1;
      } else {
        assert InLog(log, proposals[i].projectId, i);
        var k: nat :| (proposals[i].projectId, k) in log && log[(proposals[i].projectId, k)].proposalId == i;
        assert (proposals[i].projectId, k) in log1;
      }
    }
  }

  lemma AppendKeepsLogged(s: State, id: ProposalId)
    requires Logged(s) && id in s.proposals && s.proposals[id].status.Approved?
    requires CountOf(s.releaseCount, s.proposals[id].projectId) < U32_MAX
    ensures Logged(Append(s, id, s.now))
  {
    var p := s.proposals[id].projectId;
    var n := CountOf(s.releaseCount, p);
    var e := EntryFor(id, s.proposals[id], s.now);
    assert (p, n) !in s.releaseLog;
    AppendKeepsDense(s.releaseCount, s.releaseLog, p, e);
    AppendKeepsFaithful(s.releaseLog, s.proposals, s.now, id, n);
    AppendKeepsOrder(s, id);
    AppendKeepsComplete(s.releaseLog, s.proposals, id, n, e);
  }
}
