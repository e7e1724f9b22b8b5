/** The wallet transfer route over a store of balances keyed by user id.
    The handler loads both wallets, checks the source, changes the two
    loaded copies and saves them one after the other. */
module WalletTransfer {
  import opened Common

  const InsufficientFunds := Failure(400, "Insufficient funds")

  /** How the request ends: success, the 400 reply, or an exception thrown
      before anything is saved (a missing destination wallet). */
  datatype Outcome = Transferred | Refused(failure: Failure) | Threw

  datatype Step = Step(outcome: Outcome, balances: map<string, int>)

  /** The handler as written: `from` and `to` are separate copies loaded
      before either is changed, so saving `to` overwrites what saving `from`
      wrote when both name the same wallet. */
  function TransferStepAsWritten(balances: map<string, int>, from: string, to: string, amount: int): (r: Step)
    ensures from !in balances || balances[from] < amount ==> r == Step(Refused(InsufficientFunds), balances)
    ensures from in balances && balances[from] >= amount && to !in balances ==> r == Step(Threw, balances)
    ensures r.outcome.Transferred? ==> r.balances.Keys == balances.Keys
  {
    if from !in balances || balances[from] < amount then Step(Refused(InsufficientFunds), balances)
    else if to !in balances then Step(Threw, balances)
    else
      var fromBalance := balances[from] - amount;
      var toBalance := balances[to] + amount;
      Step(Transferred, balances[from := fromBalance][to := toBalance])
  }

  /** Moving funds to one's own wallet adds the amount to it. */
  lemma SelfTransferMints()
    ensures TransferStepAsWritten(map["u" := 100], "u", "u", 30).balances == map["u" := 130]
  {
  }

  /** The transfer as intended: the credit is applied to the store after the
      debit, so a wallet paying itself ends where it started. */
  function TransferStep(balances: map<string, int>, from: string, to: string, amount: int): (r: Step)
    ensures from !in balances || balances[from] < amount ==> r == Step(Refused(InsufficientFunds), balances)
    ensures from in balances && balances[from] >= amount && to !in balances ==> r == Step(Threw, balances)
    ensures r.outcome.Transferred? ==> r.balances.Keys == balances.Keys
  {
    if from !in balances || balances[from] < amount then Step(Refused(InsufficientFunds), balances)
    else if to !in balances then Step(Threw, balances)
    else
      var debited := balances[from := balances[from] - amount];
      Step(Transferred, debited[to := debited[to] + amount])
  }

  /** A transfer conserves money: the two wallets' total is unchanged, no
      other wallet moves, a self-transfer changes nothing, and a balance
      exactly equal to the amount may be sent and leaves 0. */
  lemma TransferConserves(balances: map<string, int>, from: string, to: string, amount: int)
    requires from in balances && to in balances && balances[from] >= amount
    ensures var r := TransferStep(balances, from, to, amount);
            && r.outcome == Transferred
            && r.balances[from] + r.balances[to] == balances[from] + balances[to]
            && (from != to ==> r.balances[from] == balances[from] - amount && r.balances[to] == balances[to] + amount)
            && (from == to ==> r.balances == balances)
            && (forall k :: k in balances && k != from && k != to ==> r.balances[k] == balances[k])
  {
  }

  /** The written handler agrees with the intended one whenever the two
      wallets differ. */
  lemma AsWrittenAgreesForDistinctWallets(balances: map<string, int>, from: string, to: string, amount: int)
    requires from != to
    ensures TransferStepAsWritten(balances, from, to, amount) == TransferStep(balances, from, to, amount)
  {
  }

  /** The wallet collection the route reads and saves. */
  class Wallets {
    var balances: map<string, int>

    constructor (initial: map<string, int>)
      ensures balances == initial
    {
      balances := initial;
    }

    /** The handler's steps: both loads, the check, the two in-memory
        updates, then the two saves in order. */
    method TransferAsWritten(from: string, to: string, amount: int) returns (outcome: Outcome)
      modifies this
      ensures Step(outcome, balances) == TransferStepAsWritten(old(balances), from, to, amount)
    {
      var fromWallet := if from in balances then Some(balances[from]) else None;
      var toWallet := if to in balances then Some(balances[to]) else None;
      if fromWallet.None? || fromWallet.value < amount {
        return Refused(InsufficientFunds);
      }
      if toWallet.None? {
        return Threw;
      }
      var fromBalance := fromWallet.value - amount;
      var toBalance := toWallet.value + amount;
      balances := balances[from := fromBalance];
      balances := balances[to := toBalance];
      outcome := Transferred;
    }

    /** The corrected handler: the destination is credited on the store
        as it stands after the debit has been saved. */
    method Transfer(from: string, to: string, amount: int) returns (outcome: Outcome)
      modifies this
      ensures Step(outcome, balances) == TransferStep(old(balances), from, to, amount)
    {
      if from !in balances || balances[from] < amount {
        return Refused(InsufficientFunds);
      }
      if to !in balances {
        return Threw;
      }
      balances := balances[from := balances[from] - amount];
      balances := balances[to := balances[to] + amount];
      outcome := Transferred;
    }
  }
}
