/**
 The part of the `VGOV` token the pallet relies on: free balances, one hold per reason and account,
 and the total issuance. Releases and burns are "best effort": they act on the smaller of the amount
 asked for and the amount held.
 */
module Currency {
  import opened Types
  import opened Sums

  datatype HoldReason = Stake | ProposalBond

  datatype Ledger = Ledger(
    free: map<AccountId, nat>,
    stakeHold: map<AccountId, nat>,
    bondHold: map<AccountId, nat>,
    issuance: nat)

  function Held(l: Ledger, reason: HoldReason, who: AccountId): nat {
    match reason
    case Stake => ValueAt(l.stakeHold, who)
    case ProposalBond => ValueAt(l.bondHold, who)
  }

  function WithHeld(l: Ledger, reason: HoldReason, who: AccountId, amount: nat): Ledger {
    match reason
    case Stake => l.(stakeHold := l.stakeHold[who := amount])
    case ProposalBond => l.(bondHold := l.bondHold[who := amount])
  }

  function Hold(l: Ledger, reason: HoldReason, who: AccountId, amount: nat): Result<Ledger> {
    var free := ValueAt(l.free, who);
    if free < amount then Err(InsufficientBalance)
    else
      Ok(WithHeld(l, reason, who, Held(l, reason, who) + amount).(free := l.free[who := free - amount]))
  }

  function Release(l: Ledger, reason: HoldReason, who: AccountId, amount: nat): Ledger {
    var held := Held(l, reason, who);
    var released := Min(amount, held);
    WithHeld(l, reason, who, held - released).(free := l.free[who := ValueAt(l.free, who) + released])
  }

  /** The amount a best-effort burn really burns. */
  function Burnable(l: Ledger, reason: HoldReason, who: AccountId, amount: nat): nat {
    Min(amount, Held(l, reason, who))
  }

  function BurnHeld(l: Ledger, reason: HoldReason, who: AccountId, amount: nat): Ledger {
    var burned := Burnable(l, reason, who, amount);
    WithHeld(l, reason, who, Held(l, reason, who) - burned).(issuance := SatSub(l.issuance, burned))
  }

  /** A transfer of free balance, made by anyone for any reason outside the pallet. */
  function Transfer(l: Ledger, from: AccountId, to: AccountId, amount: nat): Ledger {
    if from !in l.free || l.free[from] < amount then l
    else
      var debited := l.free[from := l.free[from] - amount];
      l.(free := debited[to := ValueAt(debited, to) + amount])
  }

  /** Free and held balances together are the issuance, which fits the balance type. */
  ghost predicate Conserved(l: Ledger) {
    && Sum(l.free) + Sum(l.stakeHold) + Sum(l.bondHold) == l.issuance
    && l.issuance <= 340_282_366_920_938_463_463_374_607_431_768_211_455
  }

  lemma HoldConserves(l: Ledger, reason: HoldReason, who: AccountId, amount: nat)
    requires Conserved(l) && Hold(l, reason, who, amount).Ok?
    ensures Conserved(Hold(l, reason, who, amount).value)
    ensures Hold(l, reason, who, amount).value.issuance == l.issuance
  {
    SumUpdate(l.free, who, ValueAt(l.free, who) - amount);
    SumUpdate(if reason.Stake? then l.stakeHold else l.bondHold, who, Held(l, reason, who) + amount);
  }

  /** A release moves what is asked for, or else all that is held, to the free balance of the same account. */
  lemma ReleaseMoves(l: Ledger, reason: HoldReason, who: AccountId, amount: nat, a: AccountId)
    ensures var m, moved := Release(l, reason, who, amount),
                            if amount <= Held(l, reason, who) then amount else Held(l, reason, who);
      && ValueAt(m.free, a) == ValueAt(l.free, a) + (if a == who then moved else 0)
      && Held(m, reason, a) + (if a == who then moved else 0) == Held(l, reason, a)
      && (forall r :: r != reason ==> Held(m, r, a) == Held(l, r, a))
  {
  }

  /** A burn takes what is asked for, or else all that is held, out of the hold of the account and nothing else. */
  lemma BurnTakes(l: Ledger, reason: HoldReason, who: AccountId, amount: nat, a: AccountId)
    ensures var m, burned := BurnHeld(l, reason, who, amount),
                             if amount <= Held(l, reason, who) then amount else Held(l, reason, who);
      && Burnable(l, reason, who, amount) == burned && m.free == l.free
      && Held(m, reason, a) + (if a == who then burned else 0) == Held(l, reason, a)
      && (forall r :: r != reason ==> Held(m, r, a) == Held(l, r, a))
  {
  }

  lemma ReleaseConserves(l: Ledger, reason: HoldReason, who: AccountId, amount: nat)
    requires Conserved(l)
    ensures Conserved(Release(l, reason, who, amount))
    ensures Release(l, reason, who, amount).issuance == l.issuance
  {
    var released := Min(amount, Held(l, reason, who));
    SumUpdate(l.free, who, ValueAt(l.free, who) + released);
    SumUpdate(if reason.Stake? then l.stakeHold else l.bondHold, who, Held(l, reason, who) - released);
  }

  /** A burn takes exactly what it burns out of the issuance. */
  lemma BurnConserves(l: Ledger, reason: HoldReason, who: AccountId, amount: nat)
    requires Conserved(l)
    ensures Conserved(BurnHeld(l, reason, who, amount))
    ensures BurnHeld(l, reason, who, amount).issuance + Burnable(l, reason, who, amount) == l.issuance
  {
    var hold := if reason.Stake? then l.stakeHold else l.bondHold;
    SumUpdate(hold, who, Held(l, reason, who) - Burnable(l, reason, who, amount));
    SumMember(hold, who);
  }

  lemma TransferConserves(l: Ledger, from: AccountId, to: AccountId, amount: nat)
    requires Conserved(l)
    ensures Conserved(Transfer(l, from, to, amount))
  {
    if amount <= ValueAt(l.free, from) && from in l.free {
      var debited := l.free[from := l.free[from] - amount];
      SumUpdate(l.free, from, l.free[from] - amount);
      SumUpdate(debited, to, ValueAt(debited, to) + amount);
    }
  }
}
