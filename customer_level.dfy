/**
 * `CustomerLevel`: resolves the tier of an account from its balance and
 * caches the tier name and fee in two fields.
 */
module CustomerLevels {
  import opened Wrappers
  import opened Accounts

  const SILVER_LIMIT: real := 10000.0
  const GOLD_LIMIT: real := 20000.0

  /** The tier name the threshold ladder assigns to a balance. */
  function LevelFor(balance: real): string
  {
    if balance < SILVER_LIMIT then "Silver"
    else if balance < GOLD_LIMIT then "Gold"
    else "Platinum"
  }

  /** The fee the threshold ladder assigns to a balance. */
  function FeeFor(balance: real): real
  {
    if balance < SILVER_LIMIT then 20.0
    else if balance < GOLD_LIMIT then 10.0
    else 0.0
  }

  /** The three tiers and their fees, with both boundaries belonging to the higher tier. */
  lemma Table(balance: real)
    ensures balance < 10000.0 ==> LevelFor(balance) == "Silver" && FeeFor(balance) == 20.0
    ensures 10000.0 <= balance < 20000.0 ==> LevelFor(balance) == "Gold" && FeeFor(balance) == 10.0
    ensures 20000.0 <= balance ==> LevelFor(balance) == "Platinum" && FeeFor(balance) == 0.0
    ensures FeeFor(balance) >= 0.0
  {
  }

  /** A larger balance never lands in a tier with a larger fee. */
  lemma FeeNonIncreasing(lo: real, hi: real)
    requires lo <= hi
    ensures FeeFor(hi) <= FeeFor(lo)
  {
  }

  class CustomerLevel {
    /** The cached tier name; `None` stands for Java's initial `null`. */
    var level: Option<string>
    /** The cached fee. */
    var fee: real
    /** The account whose balance decides the tier; shared with its owner. */
    const account: Account

    /** The cache agrees with the account's current balance. */
    ghost predicate Fresh()
      reads this, account
    {
      level == Some(LevelFor(account.balance)) && fee == FeeFor(account.balance)
    }

    /** Stores the account and fills the cache from its balance. */
    constructor (account: Account)
      ensures this.account == account
      ensures Fresh()
      ensures level.Some? && fee >= 0.0
    {
      this.account := account;
      level := None;
      fee := 0.0;
      new;
      DetermineLevelAndFee();
    }

    /**
     * Recomputes the cache. The last branch carries its own guard, as in the
     * source; proving `Fresh()` shows that one of the three branches always fires.
     */
    method DetermineLevelAndFee()
      modifies this
      ensures Fresh()
    {
      var b := account.GetBalance();
      if b < SILVER_LIMIT {
        level := Some("Silver");
        fee := 20.0;
      } else if b >= SILVER_LIMIT && b < GOLD_LIMIT {
        level := Some("Gold");
        fee := 10.0;
      } else if b >= GOLD_LIMIT {
        level := Some("Platinum");
        fee := 0.0;
      }
    }

    /** Refreshes the cache first, so the level is always that of the current balance. */
    method GetLevel() returns (r: string)
      modifies this
      ensures Fresh()
      ensures level == Some(r)
      ensures r == LevelFor(account.balance)
      ensures old(Fresh()) ==> level == old(level) && fee == old(fee)
    {
      DetermineLevelAndFee();
      r := level.value;
    }

    /** Reads the cache without refreshing it. */
    method GetFee() returns (r: real)
      ensures r == fee
      ensures Fresh() ==> r == FeeFor(account.balance) && r >= 0.0
    {
      r := fee;
    }

    /** The account is valid, a level is set and the fee is non-negative. */
    method RepOk() returns (r: bool)
      ensures r <==> account.RepOk() && level.Some? && fee >= 0.0
      ensures Fresh() ==> (r <==> account.balance >= 0.0)
    {
      r := account.RepOk() && level.Some? && fee >= 0.0;
    }
  }

  /** Two calls of `GetLevel` with no balance change between them agree. */
  method GetLevelTwice(cl: CustomerLevel) returns (first: string, second: string)
    modifies cl
    ensures first == second == LevelFor(cl.account.balance)
    ensures cl.Fresh()
  {
    first := cl.GetLevel();
    var feeAfterFirst := cl.fee;
    second := cl.GetLevel();
    assert cl.fee == feeAfterFirst;
  }
}
