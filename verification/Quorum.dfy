/** Eq. 1 as exact arithmetic, against the saturating 128-bit test of the pallet. */
module Quorum {
  import opened Types
  import opened Sums
  import opened Protocol
  import opened Accounting
  import opened Ballots

  /** `ayes / total >= quorum`, with the quorum in parts of a billion, without rounding or overflow. */
  ghost predicate Fraction(ayes: nat, total: nat, quorum: Perbill) {
    0 < total && quorum * total <= ayes * 1_000_000_000
  }

  /** Eq. 1 recomputed from the registry and the votes, in exact arithmetic. */
  ghost predicate EqOneFor(st: Registry, votes: VoteBook, p: ProjectId, id: ProposalId, rq: RoleQuorum) {
    Fraction(Polled(st, votes, p, id, rq.role, true), Sum(RoleWeights(st, p, rq.role)), rq.quorum)
  }

  ghost predicate EqOne(st: Registry, votes: VoteBook, required: seq<RoleQuorum>, p: ProjectId, id: ProposalId) {
    forall rq :: rq in required ==> EqOneFor(st, votes, p, id, rq)
  }

  /** Eq. 1, or ayes so many that a billion times as many no longer lie below the largest 128-bit number. */
  ghost predicate Passes(ayes: nat, total: nat, quorum: Perbill) {
    Fraction(ayes, total, quorum)
    || (0 < total && 340_282_366_920_938_463_463_374_607_431_768_211_455 <= ayes * 1_000_000_000)
  }

  /** Every quorum passes, if the ayes of Build Services also count the stake lost from behind them. */
  ghost predicate Backed(
    st: Registry, votes: VoteBook, lost: nat, required: seq<RoleQuorum>, p: ProjectId, id: ProposalId)
  {
    forall rq :: rq in required ==>
      Passes(Polled(st, votes, p, id, rq.role, true) + (if rq.role == BuildService then lost else 0),
             Sum(RoleWeights(st, p, rq.role)), rq.quorum)
  }

  /** The 128-bit test, for all inputs, in exact arithmetic. */
  lemma TestIsPasses(ayes: nat, total: nat, quorum: Perbill)
    ensures RoleMeets(ayes, total, quorum) <==> Passes(ayes, total, quorum)
    ensures RoleMeets(ayes, total, quorum) <==>
      && 0 < total
      && (|| quorum * total <= ayes * 1_000_000_000
          || 340_282_366_920_938_463_463_374_607_431_768_211_455 <= ayes * 1_000_000_000)
  {
  }

  lemma PassesInRange(ayes: nat, total: nat, quorum: Perbill)
    requires quorum * total <= 340_282_366_920_938_463_463_374_607_431_768_211_455
    ensures Passes(ayes, total, quorum) <==> Fraction(ayes, total, quorum)
  {
  }

  /** Without losses and within 128 bits, that is Eq. 1. */
  lemma BackedWithoutLoss(st: Registry, votes: VoteBook, required: seq<RoleQuorum>, p: ProjectId, id: ProposalId)
    requires forall rq :: rq in required ==>
      rq.quorum * Sum(RoleWeights(st, p, rq.role)) <= 340_282_366_920_938_463_463_374_607_431_768_211_455
    ensures Backed(st, votes, 0, required, p, id) <==> EqOne(st, votes, required, p, id)
  {
    hide Fraction, Passes, Polled, RoleWeights;
    forall rq | rq in required
      ensures EqOneFor(st, votes, p, id, rq)
         <==> Passes(Polled(st, votes, p, id, rq.role, true), Sum(RoleWeights(st, p, rq.role)), rq.quorum)
    {
      PassesInRange(Polled(st, votes, p, id, rq.role, true), Sum(RoleWeights(st, p, rq.role)), rq.quorum);
    }
  }

  /** Meeting Eq. 1 is always recognised. */
  lemma FractionPasses(ayes: nat, total: nat, quorum: Perbill)
    requires Fraction(ayes, total, quorum)
    ensures RoleMeets(ayes, total, quorum)
  {
  }

  /** The test accepts nothing else as long as `quorum * total` does not overflow. */
  lemma PassesOnlyFraction(ayes: nat, total: nat, quorum: Perbill)
    requires quorum * total <= 340_282_366_920_938_463_463_374_607_431_768_211_455
    requires RoleMeets(ayes, total, quorum)
    ensures Fraction(ayes, total, quorum)
  {
  }

  /** As long as a billion times the role stake fits 128 bits, the test is exactly Eq. 1. */
  lemma TestIsEqOne(ayes: nat, total: nat, quorum: Perbill)
    requires total * 1_000_000_000 <= 340_282_366_920_938_463_463_374_607_431_768_211_455
    ensures RoleMeets(ayes, total, quorum) <==> 0 < total && quorum * total <= ayes * 1_000_000_000
  {
    var q: nat := quorum;
    assert q * total <= 1_000_000_000 * total;
  }

  /** Ayes are counted in multiples of a billion, so a little more than 128 bits still counts right. */
  lemma SaturatedAyes(ayes: nat, need: nat)
    requires need <= 340_282_366_920_938_463_463_374_607_432_000_000_000
    requires need <= ayes * 1_000_000_000 || 340_282_366_920_938_463_463_374_607_431_768_211_455 <= ayes * 1_000_000_000
    ensures need <= ayes * 1_000_000_000
  {
  }

  /**
   Exactly how far the test is right for every tally: up to the first multiple of a billion that is not below the
   largest 128-bit number.
   */
  lemma ExactUpToSaturation(total: nat, quorum: Perbill)
    requires 0 < total
    ensures (forall ayes :: RoleMeets(ayes, total, quorum) ==> Fraction(ayes, total, quorum))
       <==> quorum * total <= 340_282_366_920_938_463_463_374_607_432_000_000_000
  {
    var need := quorum * total;
    var ayes: nat := 340_282_366_920_938_463_463_374_607_432;
    if need > 340_282_366_920_938_463_463_374_607_432_000_000_000 {
      assert RoleMeets(ayes, total, quorum) && !Fraction(ayes, total, quorum);
    } else {
      forall a: nat | RoleMeets(a, total, quorum) ensures Fraction(a, total, quorum) {
        TestIsPasses(a, total, quorum);
        SaturatedAyes(a, need);
      }
    }
  }

  /** More ayes never lose a quorum. */
  lemma MonotoneInAyes(fewer: nat, more: nat, total: nat, quorum: Perbill)
    requires fewer <= more && RoleMeets(fewer, total, quorum)
    ensures RoleMeets(more, total, quorum)
  {
    assert fewer * ACCURACY <= more * ACCURACY;
  }

  /** Everyone's aye meets any quorum. */
  lemma UnanimousMeets(total: nat, quorum: Perbill)
    requires 0 < total
    ensures RoleMeets(total, total, quorum)
  {
    var q: nat := quorum;
    assert q * total <= ACCURACY * total;
    FractionPasses(total, total, quorum);
  }
}
