/**
 * `Customer`: a user who owns an account and its tier cache, with the three
 * balance-changing operations deposit, withdraw and purchase.
 */
module Customers {
  import opened Wrappers
  import JavaInt
  import opened Accounts
  import opened CustomerLevels
  import opened Users

  /** The exceptions the operations throw. */
  datatype Exception =
    | IllegalArgumentException(message: string)
    | IllegalStateException(message: string)

  /** How an operation ended: normally, or by throwing. */
  datatype Outcome = Normal | Thrown(exception: Exception)

  const AMOUNT_NOT_POSITIVE: string := "Amount must be positive"
  const INSUFFICIENT_FUNDS: string := "Insufficient funds"

  /**
   * The process-wide `customerCount` of the source, passed to each new
   * customer instead of being a static field. `issued` counts the customers
   * numbered so far; the Java `int` wraps after 2^31 - 1.
   */
  class CustomerCounter {
    var count: int
    ghost var issued: nat

    ghost predicate Valid()
      reads this
    {
      count == JavaInt.Wrap(issued)
    }

    constructor ()
      ensures Valid() && issued == 0 && count == 0
    {
      count := 0;
      issued := 0;
    }
  }

  /**
   * The `k`-th customer numbered by a counter (counting from 0) gets number
   * `Wrap(k)`: numbers start at 0, rise by one in creation order while they
   * fit in an `int`, and never repeat among 2^32 consecutive customers.
   */
  lemma CustomerNumbers(i: nat, j: nat)
    requires i < j
    ensures j < JavaInt.TWO_31 ==> JavaInt.Wrap(i) == i && JavaInt.Wrap(j) == j
    ensures j < i + JavaInt.TWO_32 ==> JavaInt.Wrap(i) != JavaInt.Wrap(j)
  {
    if j < JavaInt.TWO_31 {
      JavaInt.WrapIdentity(i);
      JavaInt.WrapIdentity(j);
    }
    if j < i + JavaInt.TWO_32 {
      JavaInt.WrapInjective(i, j);
    }
  }

  class Customer {
    const user: AbstractUser
    const account: Account
    const customerLevel: CustomerLevel
    const customerNumber: int

    /** The tier cache watches this customer's own account. */
    ghost predicate Wired()
    {
      customerLevel.account == account
    }

    /**
     * The representation invariant, plus the freshness of the tier cache: the
     * cached level and fee are those of the current balance. Each successful
     * balance change calls `getLevel` right after `setBalance`, and no other
     * path changes the balance.
     */
    ghost predicate Valid()
      reads account, customerLevel
    {
      Wired() && account.balance >= 0.0 && customerLevel.Fresh()
    }

    /**
     * A negative initial amount is clamped to 0, the tier is computed from
     * the clamped balance, and the customer takes the counter's current value.
     */
    constructor (username: string, password: string, initialAmount: real, counter: CustomerCounter)
      requires counter.Valid()
      modifies counter
      ensures Valid()
      ensures account.balance == if initialAmount >= 0.0 then initialAmount else 0.0
      ensures customerLevel.level == Some(LevelFor(account.balance))
      ensures customerLevel.fee == FeeFor(account.balance)
      ensures customerNumber == old(counter.count) == JavaInt.Wrap(old(counter.issued))
      ensures counter.Valid() && counter.issued == old(counter.issued) + 1
      ensures counter.count == JavaInt.Increment(old(counter.count))
      ensures user.username == username && user.password == password && !user.isLoggedin
      ensures fresh(user) && fresh(account) && fresh(customerLevel)
    {
      user := new AbstractUser(username, password);
      var a := new Account(initialAmount);
      if !a.RepOk() {
        a.SetBalance(0.0);
      }
      account := a;
      customerLevel := new CustomerLevel(a);
      customerNumber := counter.count;
      JavaInt.IncrementWrap(counter.issued);
      counter.count := JavaInt.Increment(counter.count);
      counter.issued := counter.issued + 1;
    }

    /** A negative amount throws and changes nothing; otherwise, zero included, it is added. */
    method Deposit(amount: real) returns (outcome: Outcome)
      requires Valid()
      modifies account, customerLevel
      ensures Valid()
      ensures amount < 0.0 ==> outcome == Thrown(IllegalArgumentException(AMOUNT_NOT_POSITIVE))
      ensures amount < 0.0 ==> account.balance == old(account.balance)
      ensures amount >= 0.0 ==> outcome == Normal && account.balance == old(account.balance) + amount
    {
      if amount < 0.0 {
        return Thrown(IllegalArgumentException(AMOUNT_NOT_POSITIVE));
      }
      var b := account.GetBalance();
      account.SetBalance(b + amount);
      // The record written to the customer's file includes the level, whose
      // lookup refreshes the cache; the file write itself is not modelled.
      var _ := customerLevel.GetLevel();
      outcome := Normal;
    }

    /**
     * A non-positive amount, or one larger than the balance, throws and
     * changes nothing; otherwise exactly the amount is taken off. No tier fee
     * is charged.
     */
    method Withdraw(amount: real) returns (outcome: Outcome)
      requires Valid()
      modifies account, customerLevel
      ensures Valid()
      ensures amount <= 0.0 ==> outcome == Thrown(IllegalArgumentException(AMOUNT_NOT_POSITIVE))
      ensures amount > 0.0 && old(account.balance) - amount < 0.0 ==>
                outcome == Thrown(IllegalStateException(INSUFFICIENT_FUNDS))
      ensures outcome.Thrown? ==> account.balance == old(account.balance)
      ensures amount > 0.0 && old(account.balance) - amount >= 0.0 ==>
                outcome == Normal && account.balance == old(account.balance) - amount
    {
      var b := account.GetBalance();
      if amount <= 0.0 {
        outcome := Thrown(IllegalArgumentException(AMOUNT_NOT_POSITIVE));
      } else if b - amount < 0.0 {
        outcome := Thrown(IllegalStateException(INSUFFICIENT_FUNDS));
      } else {
        account.SetBalance(b - amount);
        var _ := customerLevel.GetLevel();
        outcome := Normal;
      }
    }

    /**
     * Like a withdrawal, but the cached tier fee is charged on top of the
     * amount. Because the cache is fresh before the call, the fee charged is
     * the fee of the balance before the purchase.
     */
    method Purchase(amount: real) returns (outcome: Outcome)
      requires Valid()
      modifies account, customerLevel
      ensures Valid()
      ensures amount <= 0.0 ==> outcome == Thrown(IllegalArgumentException(AMOUNT_NOT_POSITIVE))
      ensures amount > 0.0 && old(account.balance) - amount - FeeFor(old(account.balance)) < 0.0 ==>
                outcome == Thrown(IllegalStateException(INSUFFICIENT_FUNDS))
      ensures outcome.Thrown? ==> account.balance == old(account.balance)
      ensures amount > 0.0 && old(account.balance) - amount - FeeFor(old(account.balance)) >= 0.0 ==>
                outcome == Normal &&
                account.balance == old(account.balance) - amount - FeeFor(old(account.balance))
    {
      var b := account.GetBalance();
      var f := customerLevel.GetFee();
      if amount <= 0.0 {
        outcome := Thrown(IllegalArgumentException(AMOUNT_NOT_POSITIVE));
      } else if b - amount - f < 0.0 {
        outcome := Thrown(IllegalStateException(INSUFFICIENT_FUNDS));
      } else {
        var b' := account.GetBalance();
        var f' := customerLevel.GetFee();
        account.SetBalance(b' - amount - f');
        var _ := customerLevel.GetLevel();
        outcome := Normal;
      }
    }

    /** The tier of the current balance; the refresh it performs changes nothing. */
    method GetCustomerLevel() returns (r: string)
      requires Valid()
      modifies customerLevel
      ensures Valid()
      ensures r == LevelFor(account.balance)
      ensures customerLevel.level == old(customerLevel.level) && customerLevel.fee == old(customerLevel.fee)
    {
      r := customerLevel.GetLevel();
    }

    method GetBalance() returns (r: real)
      ensures r == account.balance
      ensures Valid() ==> r >= 0.0
    {
      r := account.GetBalance();
    }

    method GetCustomerNumber() returns (r: int)
      ensures r == customerNumber
    {
      r := customerNumber;
    }

    method GetPassword() returns (r: string)
      ensures r == user.password
    {
      r := user.password;
    }

    method Logout()
      modifies user
      ensures !user.isLoggedin
    {
      user.Logout();
    }

    /**
     * The account is valid and the cached fee non-negative; only when both
     * hold is the level looked up, which refreshes the cache.
     */
    method RepOk() returns (r: bool)
      requires Wired()
      modifies customerLevel
      ensures r <==> old(account.balance) >= 0.0 && old(customerLevel.fee) >= 0.0
      ensures account.balance == old(account.balance)
      ensures r ==> customerLevel.Fresh()
      ensures !r ==> customerLevel.level == old(customerLevel.level) && customerLevel.fee == old(customerLevel.fee)
      ensures old(Valid()) ==> r && Valid()
    {
      r := account.RepOk();
      if r {
        var f := customerLevel.GetFee();
        r := f >= 0.0;
        if r {
          var _ := customerLevel.GetLevel();
        }
      }
    }
  }

  /** Depositing 100 on a balance of 500 gives 600, still Silver with fee 20. */
  method DepositExample(counter: CustomerCounter)
    requires counter.Valid()
    modifies counter
  {
    var c := new Customer("alice", "pw", 500.0, counter);
    var o := c.Deposit(100.0);
    assert o == Normal && c.account.balance == 600.0;
    assert c.customerLevel.level == Some("Silver") && c.customerLevel.fee == 20.0;
  }

  /** A failing withdrawal or deposit leaves the balance untouched. */
  method FailureExample(counter: CustomerCounter)
    requires counter.Valid()
    modifies counter
  {
    var c := new Customer("bob", "pw", 50.0, counter);
    var o := c.Withdraw(100.0);
    assert o == Thrown(IllegalStateException(INSUFFICIENT_FUNDS)) && c.account.balance == 50.0;
    o := c.Deposit(-1.0);
    assert o == Thrown(IllegalArgumentException(AMOUNT_NOT_POSITIVE)) && c.account.balance == 50.0;
  }

  /** A negative initial amount becomes 0; numbers follow creation order. */
  method ConstructionExample()
  {
    var counter := new CustomerCounter();
    var c0 := new Customer("carol", "pw", -50.0, counter);
    var c1 := new Customer("dave", "pw", 25000.0, counter);
    assert c0.account.balance == 0.0 && c0.customerNumber == 0;
    assert c1.customerLevel.level == Some("Platinum") && c1.customerNumber == 1;
  }

  /** A Gold purchase pays the Gold fee and drops the customer to Silver. */
  method PurchaseExample(counter: CustomerCounter)
    requires counter.Valid()
    modifies counter
  {
    var c := new Customer("erin", "pw", 10010.0, counter);
    assert c.customerLevel.fee == 10.0;
    var o := c.Purchase(100.0);
    assert o == Normal && c.account.balance == 9900.0;
    assert c.customerLevel.level == Some("Silver") && c.customerLevel.fee == 20.0;
  }
}
