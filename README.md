# Banking app domain model in Dafny

A Dafny model of the domain core of a small desktop banking application
(package `coe528.bankingapp`): the bank `Account`, the tier cache
`CustomerLevel` (Silver / Gold / Platinum with fees 20 / 10 / 0), the
`Customer` with its `deposit`, `withdraw` and `purchase` operations, the
`Manager`'s in-memory list of customers and the login flag of
`AbstractUser`, plus the unused `CustomerLevelState` class hierarchy.

Layout, one module per source file:

| file | module | source |
|---|---|---|
| `account.dfy` | `Accounts` | `customer/Account.java` |
| `customer_level.dfy` | `CustomerLevels` | `customer/CustomerLevel.java` |
| `level_states.dfy` | `LevelStates` | `customer/CustomerLevelState.java` and its three subclasses |
| `abstract_user.dfy` | `Users` | `templates/AbstractUser.java` |
| `customer.dfy` | `Customers` | `customer/Customer.java` |
| `manager.dfy` | `Managers` | `manager/Manager.java` |
| `wrappers.dfy`, `java_int.dfy` | `Wrappers`, `JavaInt` | helpers: `Option` for Java `null`, 32-bit `int` wrap-around |

Modelling decisions:

- `double` amounts are exact `real`s; every comparison is kept as written.
- Objects the source updates in place are classes: `Account.balance`,
  `CustomerLevel.level`/`fee`, `AbstractUser.isLoggedin`,
  `Manager.customers` (a `seq` field the methods reassign). The
  `Account` is shared between a `Customer` and its `CustomerLevel`, as in
  the source; `Customer.Wired()` states that aliasing.
- Subclassing of `AbstractUser` by `Customer` and `Manager` is modelled by
  composition (`const user: AbstractUser`). The credentials are `const`
  because only the constructor assigns them, so no operation can change them.
- The static `customerCount` is a `CustomerCounter` object passed to the
  `Customer` constructor; its increment wraps like a Java `int`.
- Exceptions are returned as an `Outcome` (`Normal` or `Thrown(e)`), with the
  source's exception classes and messages.
- `CustomerLevel.level` is an `Option<string>`; `None` is the `null` the
  field holds before the constructor's first `determineLevelAndFee`.
- `Customer.Valid()` is the representation invariant (balance >= 0) plus the
  freshness of the tier cache. The constructor builds the cache from the
  clamped balance; each successful `deposit`, `withdraw` and `purchase` calls
  `getLevel()` right after `setBalance`; and no other path changes the
  balance. So the cached level and fee are always those of the current
  balance, and `purchase` always charges the current tier's fee. Every
  constructor and method of `Customer` establishes or keeps it.
- The `CustomerLevelState` hierarchy is a closed datatype with one variant
  per subclass, each carrying the base class's `fee` and `level` fields;
  `GetFee` and `GetLevel` read those fields of an immutable value.
- `Customers` ends with a few small client methods (`DepositExample`,
  `FailureExample`, `ConstructionExample`, `PurchaseExample`) whose
  assertions are proved from the methods' contracts alone.

Points of the code the model keeps as written:

- `Account` stores a negative opening balance as given; only `Customer`'s
  constructor clamps it (`customer/Customer.java` lines 46-48).
- `CustomerLevel` caches the level and fee; `getFee` reads the cache and
  only `getLevel` refreshes it. `Customer.Valid()` proves the cache is never
  stale when a `Customer` operation starts.
- `Manager` accepts a second customer whose username is already present,
  so lookups and removals are stated for lists with duplicates (first match
  only).
- `withdraw`'s doc comment mentions the tier fee, but the code charges none;
  only `purchase` charges it.
- `deposit`'s message says "Amount must be positive", but a deposit of 0 is
  accepted; `withdraw` and `purchase` reject 0.

## Model

| member | source | states |
|---|---|---|
| `Accounts.Account.constructor` | src/main/java/coe528/bankingapp/customer/Account.java:23-25 | The balance is the initial amount unchanged, even when negative; the invariant holds iff it is >= 0. |
| `Accounts.Account.GetBalance` | src/main/java/coe528/bankingapp/customer/Account.java:33-35 | Returns the stored balance, non-negative when the invariant holds, and changes nothing. |
| `Accounts.Account.SetBalance` | src/main/java/coe528/bankingapp/customer/Account.java:41-47 | The balance becomes exactly the argument with no check; `repOk` holds afterwards iff the argument is >= 0. |
| `Accounts.Account.RepOk` | src/main/java/coe528/bankingapp/customer/Account.java:55-57 | True iff the balance is >= 0; reads the account and changes nothing. |
| `CustomerLevels.Table` | src/main/java/coe528/bankingapp/customer/CustomerLevel.java:43-54 | Balance < 10000 gives Silver/20, [10000, 20000) gives Gold/10, >= 20000 gives Platinum/0; the fee is never negative. |
| `CustomerLevels.FeeNonIncreasing` | src/main/java/coe528/bankingapp/customer/CustomerLevel.java:43-54 | A larger balance never has a larger fee. |
| `CustomerLevels.CustomerLevel.constructor` | src/main/java/coe528/bankingapp/customer/CustomerLevel.java:32-35 | Keeps the given account and leaves the cache fresh for its balance: a level is set and the fee is >= 0. |
| `CustomerLevels.CustomerLevel.DetermineLevelAndFee` | src/main/java/coe528/bankingapp/customer/CustomerLevel.java:43-54 | One of the three guarded branches always fires, so the cache equals the table entry of the current balance. |
| `CustomerLevels.CustomerLevel.GetLevel` | src/main/java/coe528/bankingapp/customer/CustomerLevel.java:63-66 | Recomputes first: returns the level of the current balance and leaves the fee consistent with it; on a fresh cache nothing changes. |
| `CustomerLevels.CustomerLevel.GetFee` | src/main/java/coe528/bankingapp/customer/CustomerLevel.java:74-76 | Returns the cached fee without recomputing; on a fresh cache that is the current balance's fee. |
| `CustomerLevels.CustomerLevel.RepOk` | src/main/java/coe528/bankingapp/customer/CustomerLevel.java:95-97 | True iff the balance is >= 0, a level is set and the fee is >= 0; on a fresh cache, iff the balance is >= 0. |
| `CustomerLevels.GetLevelTwice` | src/main/java/coe528/bankingapp/customer/CustomerLevel.java:43-66 | Two `getLevel` calls with no balance change return the same level and leave the same fee. |
| `LevelStates.NewSilverLevelState` | src/main/java/coe528/bankingapp/customer/SilverLevelState.java:14-17 | Builds the Silver state, which satisfies its `repOk`; its level and fee are those the ladder gives every balance < 10000. |
| `LevelStates.NewGoldLevelState` | src/main/java/coe528/bankingapp/customer/GoldLevelState.java:14-17 | Builds the Gold state, which satisfies its `repOk`; its level and fee are those of every balance in [10000, 20000). |
| `LevelStates.NewPlatinumLevelState` | src/main/java/coe528/bankingapp/customer/PlatinumLevelState.java:14-17 | Builds the Platinum state, which satisfies its `repOk`; its level and fee are those of every balance >= 20000. |
| `LevelStates.CustomerLevelState.GetFee` | src/main/java/coe528/bankingapp/customer/SilverLevelState.java:26-28 | Returns the stored fee of the state (the same in `GoldLevelState` and `PlatinumLevelState`); a datatype value cannot change it. |
| `LevelStates.CustomerLevelState.GetLevel` | src/main/java/coe528/bankingapp/customer/SilverLevelState.java:37-39 | Returns the stored level name of the state (the same in the other two subclasses); a datatype value cannot change it. |
| `LevelStates.CustomerLevelState.BaseRepOk` | src/main/java/coe528/bankingapp/customer/CustomerLevelState.java:51-53 | The base invariant: fee >= 0 (a level is never null in the model). |
| `LevelStates.CustomerLevelState.RepOk` | src/main/java/coe528/bankingapp/customer/SilverLevelState.java:59-61 | The base invariant and the variant's own level name ("Silver", "Gold" or "Platinum" as in each subclass's `repOk`), so it implies the base invariant by definition. |
| `LevelStates.StatesAgreeWithLadder` | src/main/java/coe528/bankingapp/customer/CustomerLevel.java:44-52 | For every balance exactly one of the three states has its level name, and that state carries its fee. |
| `Users.AbstractUser.constructor` | src/main/java/coe528/bankingapp/templates/AbstractUser.java:19-33 | Stores the credentials; a new user is logged out. |
| `Users.AbstractUser.Login` | src/main/java/coe528/bankingapp/templates/AbstractUser.java:44-51 | Matching credentials log in; a mismatch leaves the flag as it was, so a logged-in user stays logged in. |
| `Users.AbstractUser.Logout` | src/main/java/coe528/bankingapp/templates/AbstractUser.java:58-61 | Logged out afterwards, from either state. |
| `Users.AbstractUser.IsLoggedIn` | src/main/java/coe528/bankingapp/templates/AbstractUser.java:68-70 | Returns the login flag and changes nothing. |
| `Users.AbstractUser.GetUsername` | src/main/java/coe528/bankingapp/templates/AbstractUser.java:77-79 | Returns the stored username and changes nothing. |
| `JavaInt.IncrementWrap` | src/main/java/coe528/bankingapp/customer/Customer.java:51 | `customerCount++` on the wrapped count gives the wrapped next count. |
| `Customers.CustomerNumbers` | src/main/java/coe528/bankingapp/customer/Customer.java:28-51 | The k-th customer gets number k while numbers fit in an `int`, and numbers never repeat among 2^32 consecutive customers. |
| `Customers.CustomerCounter.constructor` | src/main/java/coe528/bankingapp/customer/Customer.java:30 | The counter starts at 0 with nothing issued. |
| `Customers.Customer.constructor` | src/main/java/coe528/bankingapp/customer/Customer.java:43-53 | Balance is the initial amount if >= 0, else 0; the tier comes from that balance; the number is the counter's prior value and the counter is incremented; the invariant holds. |
| `Customers.Customer.Deposit` | src/main/java/coe528/bankingapp/customer/Customer.java:64-73 | A negative amount throws `IllegalArgumentException` and changes nothing; otherwise (0 included) the balance grows by the amount; the invariant and a fresh cache are kept. |
| `Customers.Customer.Withdraw` | src/main/java/coe528/bankingapp/customer/Customer.java:85-102 | Throws if the amount is <= 0, or "Insufficient funds" if balance - amount < 0, changing nothing; otherwise exactly the amount is taken off, with no fee. |
| `Customers.Customer.Purchase` | src/main/java/coe528/bankingapp/customer/Customer.java:114-131 | Throws if the amount is <= 0 or balance - amount - fee < 0, changing nothing; otherwise the balance drops by amount + the fee of the balance before the call. |
| `Customers.Customer.GetCustomerLevel` | src/main/java/coe528/bankingapp/customer/Customer.java:137-139 | Returns the level of the current balance; the refresh leaves the cache as it was. |
| `Customers.Customer.GetBalance` | src/main/java/coe528/bankingapp/customer/Customer.java:146-148 | Returns the account balance, which is >= 0 under the invariant. |
| `Customers.Customer.GetCustomerNumber` | src/main/java/coe528/bankingapp/customer/Customer.java:155-157 | Returns the number assigned at construction. |
| `Customers.Customer.GetPassword` | src/main/java/coe528/bankingapp/customer/Customer.java:171-173 | Returns the stored password. |
| `Customers.Customer.Logout` | src/main/java/coe528/bankingapp/customer/Customer.java:162-164 | Delegates to the user: logged out afterwards. |
| `Customers.Customer.RepOk` | src/main/java/coe528/bankingapp/customer/Customer.java:182-184 | True iff the balance and the cached fee are >= 0; only then is the level looked up, refreshing the cache; under the invariant it is true and keeps it. |
| `Managers.FirstMatch` | src/main/java/coe528/bankingapp/manager/Manager.java:103-110 | The index of the first customer with the username, with none before it; `None` iff no customer has it. |
| `Managers.RemoveObjectAtFirstMatch` | src/main/java/coe528/bankingapp/manager/Manager.java:87-91 | `List.remove(Object)` on the first username match removes exactly that position. |
| `Managers.AddThenFind` | src/main/java/coe528/bankingapp/manager/Manager.java:68-110 | After appending a customer whose username no earlier entry has, looking it up returns that customer. |
| `Managers.AddKeepsFind` | src/main/java/coe528/bankingapp/manager/Manager.java:68-110 | Appending keeps the result of looking up a username already present. |
| `Managers.MatchCountAppend` | src/main/java/coe528/bankingapp/manager/Manager.java:86-91 | Counting customers with a username distributes over concatenation. |
| `Managers.MatchCountZero` | src/main/java/coe528/bankingapp/manager/Manager.java:103-110 | No customer has the username iff the first-match search finds none. |
| `Managers.RemoveCount` | src/main/java/coe528/bankingapp/manager/Manager.java:86-92 | With a match, removal takes out exactly one customer, one with that username; with none, the list is unchanged. |
| `Managers.RemoveThenFind` | src/main/java/coe528/bankingapp/manager/Manager.java:86-110 | After removal the username is not found iff at most one customer had it beforehand. |
| `Managers.RemoveKeepsOthers` | src/main/java/coe528/bankingapp/manager/Manager.java:86-91 | Removal keeps all other customers in their relative order. |
| `Managers.Manager.constructor` | src/main/java/coe528/bankingapp/manager/Manager.java:38-41 | A new manager has an empty customer list and is logged out. |
| `Managers.Manager.AddCustomer` | src/main/java/coe528/bankingapp/manager/Manager.java:68-75 | Appends the customer at the end with no duplicate check; the level lookup for its record leaves its cache unchanged. |
| `Managers.Manager.RemoveCustomer` | src/main/java/coe528/bankingapp/manager/Manager.java:86-94 | The list becomes the old list with its first customer of that username removed, unchanged if there is none. |
| `Managers.Manager.GetCustomer` | src/main/java/coe528/bankingapp/manager/Manager.java:103-110 | Returns the first customer with the username, or `None` (Java `null`) iff there is none; changes nothing. |

## Left out

- File I/O: every `FileManager.writeToFile` and `deleteFile` call in
  `Customer` and `Manager`, and the record text they write; no operation's
  result depends on them.
- The `Manager` constructor's loading of saved customer files and its
  parsing of balances with `Double.parseDouble` (file I/O and a library
  float parser); a new `Manager` starts with an empty list.
- `Manager.repOk`: the list is a `seq` value that cannot be null, so the
  check is always true and is not modelled as a member.
- All `toString` methods: they format `double`s through the Java library.
- Floating-point rounding, NaN and infinities of `double`: amounts are
  exact reals, so exactly one tier branch always fires.
- `null` strings: usernames, passwords and level names are never null in the
  model, so the `level != null` conjuncts of the `CustomerLevelState`
  invariants are always true.
- The `Scanner` field and the console messages of `AbstractUser`, the unused
  `role` field, and the interface `User` (no behaviour of its own).
- The GUI controllers and `App`: event wiring and text-field parsing.
- Concurrency: the source is single-threaded.
