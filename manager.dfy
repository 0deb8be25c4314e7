/**
 * `Manager`: a user who keeps the in-memory list of customers, with append,
 * remove-first-match and find-first-match by username. There is no check
 * against adding a second customer with a username already present.
 */
module Managers {
  import opened Wrappers
  import opened Users
  import opened Customers

  /** The index of the first customer with username `u`, if any. */
  function FirstMatch(cs: seq<Customer>, u: string): (r: Option<nat>)
    ensures r.Some? ==> r.value < |cs| && cs[r.value].user.username == u
    ensures r.Some? ==> forall j :: 0 <= j < r.value ==> cs[j].user.username != u
    ensures r.None? <==> forall j :: 0 <= j < |cs| ==> cs[j].user.username != u
  {
    if cs == [] then None
    else if cs[0].user.username == u then Some(0)
    else match FirstMatch(cs[1..], u)
      case None => None
      case Some(k) => Some(k + 1)
  }

  /** The first customer with username `u`, or `None` for Java's `null`. */
  function Find(cs: seq<Customer>, u: string): Option<Customer>
  {
    match FirstMatch(cs, u)
    case None => None
    case Some(i) => Some(cs[i])
  }

  /** The list with its first customer named `u` taken out, if there is one. */
  function RemoveFirstMatch(cs: seq<Customer>, u: string): seq<Customer>
  {
    match FirstMatch(cs, u)
    case None => cs
    case Some(i) => cs[..i] + cs[i + 1..]
  }

  /** How many customers in the list are named `u`. */
  function MatchCount(cs: seq<Customer>, u: string): nat
  {
    if cs == [] then 0
    else (if cs[0].user.username == u then 1 else 0) + MatchCount(cs[1..], u)
  }

  /** `List.remove(Object)`: drop the first element that is the same object as `x`. */
  function RemoveObject(cs: seq<Customer>, x: Customer): seq<Customer>
  {
    if cs == [] then []
    else if cs[0] == x then cs[1..]
    else [cs[0]] + RemoveObject(cs[1..], x)
  }

  /**
   * Removing the object found by the first username match removes exactly
   * that position: an earlier copy of the same object would have matched first.
   */
  lemma {:induction false} RemoveObjectAtFirstMatch(cs: seq<Customer>, u: string, i: nat)
    requires FirstMatch(cs, u) == Some(i)
    ensures RemoveObject(cs, cs[i]) == cs[..i] + cs[i + 1..]
  {
    if i > 0 {
      assert cs[0] != cs[i];
      assert FirstMatch(cs[1..], u) == Some(i - 1);
      RemoveObjectAtFirstMatch(cs[1..], u, i - 1);
      assert cs[1..][..i - 1] == cs[1..i];
      assert cs[1..][i - 1 + 1..] == cs[i + 1..];
      assert [cs[0]] + cs[1..i] == cs[..i];
    }
  }

  /** A customer appended under a fresh username is what a lookup returns. */
  lemma AddThenFind(cs: seq<Customer>, c: Customer)
    requires FirstMatch(cs, c.user.username).None?
    ensures Find(cs + [c], c.user.username) == Some(c)
  {
    var cs' := cs + [c];
    assert cs'[|cs|] == c;
  }

  /** Appending keeps the lookup of a name already present. */
  lemma AddKeepsFind(cs: seq<Customer>, c: Customer, u: string)
    requires FirstMatch(cs, u).Some?
    ensures Find(cs + [c], u) == Find(cs, u)
  {
    var i := FirstMatch(cs, u).value;
    var cs' := cs + [c];
    assert cs'[i] == cs[i];
  }

  /** The count of matches splits over a concatenation. */
  lemma {:induction false} MatchCountAppend(a: seq<Customer>, b: seq<Customer>, u: string)
    ensures MatchCount(a + b, u) == MatchCount(a, u) + MatchCount(b, u)
  {
    if a == [] {
      assert a + b == b;
    } else {
      assert (a + b)[1..] == a[1..] + b;
      MatchCountAppend(a[1..], b, u);
    }
  }

  /** A list with no customer named `u` counts zero such customers, and back. */
  lemma {:induction false} MatchCountZero(cs: seq<Customer>, u: string)
    ensures MatchCount(cs, u) == 0 <==> FirstMatch(cs, u).None?
  {
    if cs != [] {
      MatchCountZero(cs[1..], u);
    }
  }

  /** Removal takes out exactly one customer named `u` when there is one, and no other. */
  lemma RemoveCount(cs: seq<Customer>, u: string)
    ensures FirstMatch(cs, u).Some? ==> MatchCount(RemoveFirstMatch(cs, u), u) == MatchCount(cs, u) - 1
    ensures FirstMatch(cs, u).Some? ==> |RemoveFirstMatch(cs, u)| == |cs| - 1
    ensures FirstMatch(cs, u).None? ==> RemoveFirstMatch(cs, u) == cs
  {
    match FirstMatch(cs, u)
    case None =>
    case Some(i) =>
      assert cs == cs[..i] + [cs[i]] + cs[i + 1..];
      MatchCountAppend(cs[..i] + [cs[i]], cs[i + 1..], u);
      MatchCountAppend(cs[..i], [cs[i]], u);
      MatchCountAppend(cs[..i], cs[i + 1..], u);
      assert MatchCount([cs[i]], u) == 1 by {
        assert [cs[i]][1..] == [];
      }
  }

  /** After removal, `u` can no longer be found iff at most one customer was named `u`. */
  lemma RemoveThenFind(cs: seq<Customer>, u: string)
    ensures Find(RemoveFirstMatch(cs, u), u).None? <==> MatchCount(cs, u) <= 1
  {
    RemoveCount(cs, u);
    MatchCountZero(cs, u);
    MatchCountZero(RemoveFirstMatch(cs, u), u);
  }

  /** Removal keeps every other customer, in its relative order. */
  lemma RemoveKeepsOthers(cs: seq<Customer>, u: string)
    requires FirstMatch(cs, u).Some?
    ensures var i := FirstMatch(cs, u).value; var r := RemoveFirstMatch(cs, u);
      |r| == |cs| - 1 &&
      (forall j :: 0 <= j < i ==> r[j] == cs[j]) &&
      (forall j :: i <= j < |r| ==> r[j] == cs[j + 1])
  {
    var i := FirstMatch(cs, u).value;
    var r := RemoveFirstMatch(cs, u);
    assert r == cs[..i] + cs[i + 1..];
    forall j | 0 <= j < i
      ensures r[j] == cs[j]
    {
      assert r[j] == cs[..i][j];
    }
    forall j | i <= j < |r|
      ensures r[j] == cs[j + 1]
    {
      assert r[j] == cs[i + 1..][j - i];
    }
  }

  class Manager {
    const user: AbstractUser
    var customers: seq<Customer>

    /** Starts with no customers; loading the saved customer files is not modelled. */
    constructor (username: string, password: string)
      ensures customers == []
      ensures user.username == username && user.password == password && !user.isLoggedin
      ensures fresh(user)
    {
      user := new AbstractUser(username, password);
      customers := [];
    }

    /**
     * Appends the customer. Building the record for its file looks up the
     * customer's level, which refreshes (but, the cache being fresh, does
     * not change) the customer's tier cache.
     */
    method AddCustomer(customer: Customer)
      requires customer.Valid()
      modifies this, customer.customerLevel
      ensures customers == old(customers) + [customer]
      ensures customer.Valid()
      ensures customer.customerLevel.level == old(customer.customerLevel.level)
      ensures customer.customerLevel.fee == old(customer.customerLevel.fee)
    {
      customers := customers + [customer];
      var _ := customer.GetCustomerLevel();
    }

    /**
     * Scans for the first customer named `usernameToRemove` and removes that
     * object from the list, then stops. Deleting its file is not modelled.
     */
    method RemoveCustomer(usernameToRemove: string)
      modifies this
      ensures customers == RemoveFirstMatch(old(customers), usernameToRemove)
    {
      var i := 0;
      while i < |customers|
        invariant 0 <= i <= |customers|
        invariant customers == old(customers)
        invariant forall j :: 0 <= j < i ==> customers[j].user.username != usernameToRemove
      {
        var customer := customers[i];
        if customer.user.username == usernameToRemove {
          assert FirstMatch(customers, usernameToRemove) == Some(i);
          RemoveObjectAtFirstMatch(customers, usernameToRemove, i);
          customers := RemoveObject(customers, customer);
          return;
        }
        i := i + 1;
      }
    }

    /** The first customer named `username`, or `None`; changes nothing. */
    method GetCustomer(username: string) returns (r: Option<Customer>)
      ensures r == Find(customers, username)
      ensures r.Some? ==> r.value in customers && r.value.user.username == username
      ensures r.None? <==> forall c :: c in customers ==> c.user.username != username
    {
      for i := 0 to |customers|
        invariant forall j :: 0 <= j < i ==> customers[j].user.username != username
      {
        var customer := customers[i];
        if customer.user.username == username {
          return Some(customer);
        }
      }
      return None;
    }
  }
}
