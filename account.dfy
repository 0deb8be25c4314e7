/** `Account`: a mutable balance cell with a validity check. */
module Accounts {

  class Account {
    /** The current balance; `double` in the source, an exact real here. */
    var balance: real

    /** The balance is stored as given: a negative amount is NOT clamped here. */
    constructor (initialAmount: real)
      ensures balance == initialAmount
      ensures RepOk() <==> initialAmount >= 0.0
    {
      balance := initialAmount;
    }

    /** The representation invariant `balance >= 0`. */
    predicate RepOk()
      reads this
    {
      balance >= 0.0
    }

    method GetBalance() returns (r: real)
      ensures r == balance
      ensures RepOk() ==> r >= 0.0
    {
      r := balance;
    }

    /**
     * Overwrites the balance. The source documents `newBalance >= 0` as the
     * caller's duty and does not check it; the invariant holds afterwards
     * exactly when the caller kept that duty.
     */
    method SetBalance(newBalance: real)
      modifies this
      ensures balance == newBalance
      ensures RepOk() <==> newBalance >= 0.0
    {
      balance := newBalance;
    }
  }
}
