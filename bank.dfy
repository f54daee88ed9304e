/**
 * The bank: a registry over a list of accounts that it shares with whoever
 * built it. It opens new accounts by appending to that list, and forwards
 * deposits and withdrawals to the first account in the list with the
 * requested id.
 */
module Banking {
  import Ids
  import opened Accounts

  datatype Option<T> = None | Some(value: T)

  /** The ids of `accounts`, position by position. */
  function IdsOf(accounts: seq<Account>): (r: seq<int>)
    ensures |r| == |accounts|
    ensures forall i :: 0 <= i < |accounts| ==> r[i] == accounts[i].id
  {
    seq(|accounts|, i requires 0 <= i < |accounts| => accounts[i].id)
  }

  /**
   * The position of the first occurrence of `id` in `ids`, scanning from the
   * front, or None when `id` does not occur at all.
   */
  function IndexOf(ids: seq<int>, id: int): (r: Option<nat>)
    ensures r.None? <==> id !in ids
    ensures r.Some? ==> r.value < |ids| && ids[r.value] == id
    ensures r.Some? ==> forall j :: 0 <= j < r.value ==> ids[j] != id
  {
    if ids == [] then None
    else if ids[0] == id then Some(0)
    else
      match IndexOf(ids[1..], id)
      case None => None
      case Some(k) => Some(k + 1)
  }

  /**
   * When the ids were handed out one after the other by the counter, each id
   * leads the lookup to its own position and no other.
   */
  lemma IndexOfIssuedId(ids: seq<int>, k: nat)
    requires Ids.Increasing(ids)
    requires k < |ids|
    ensures IndexOf(ids, ids[k]) == Some(k)
  {
    Ids.IncreasingIsPairwise(ids);
  }

  /**
   * Appending to the list never redirects a lookup that already succeeded,
   * and a lookup that failed now finds the appended account exactly when it
   * carries the id.
   */
  lemma {:induction false} IndexOfAppend(ids: seq<int>, x: int, id: int)
    ensures IndexOf(ids + [x], id)
         == if id in ids then IndexOf(ids, id)
            else if x == id then Some(|ids|)
            else None
  {
    if ids != [] && ids[0] != id {
      assert (ids + [x])[1..] == ids[1..] + [x];
      IndexOfAppend(ids[1..], x, id);
    }
  }

  /**
   * The list of accounts. The bank and the code that built it hold the same
   * object, so an append by either one is seen by the other.
   */
  class AccountList {
    var items: seq<Account>

    constructor ()
      ensures items == []
    {
      items := [];
    }

    method Add(account: Account)
      modifies this
      ensures items == old(items) + [account]
    {
      items := items + [account];
    }
  }

  class Bank {
    /** The shared list, kept as the live store of the bank. */
    const accounts: AccountList
    /** The id counter this bank was given, from which its new accounts take their ids. */
    const ids: Ids.IdCounter

    /** A bank over `accounts`: the list itself, not a copy. */
    constructor (accounts: AccountList, ids: Ids.IdCounter)
      ensures this.accounts == accounts && this.ids == ids
    {
      this.accounts := accounts;
      this.ids := ids;
    }

    /** The position of the account a request for `id` goes to. */
    function Lookup(id: int): Option<nat>
      reads accounts
    {
      IndexOf(IdsOf(accounts.items), id)
    }

    /** Whether `account` is the one a request for `id` goes to. */
    predicate Targets(id: int, account: Account)
      reads accounts
    {
      Lookup(id).Some? && Lookup(id).value < |accounts.items| && accounts.items[Lookup(id).value] == account
    }

    /**
     * Linear scan of the list, front to back, for the first account whose
     * id is `id`.
     */
    method Find(id: int) returns (k: Option<nat>)
      ensures k == Lookup(id)
      ensures k.Some? ==> k.value < |accounts.items| && accounts.items[k.value].id == id
      ensures k.None? ==> forall a :: a in accounts.items ==> a.id != id
    {
      var items := accounts.items;
      var i := 0;
      while i < |items|
        invariant 0 <= i <= |items|
        invariant forall j :: 0 <= j < i ==> items[j].id != id
      {
        if items[i].id == id {
          return Some(i);
        }
        i := i + 1;
      }
      return None;
    }

    /**
     * Creates an account with the next id, gives it `initialBalance` through
     * the unvalidated setter, appends it to the shared list and returns its id.
     */
    method OpenNewBankAccount(initialBalance: real) returns (newId: int)
      requires ids.Valid()
      modifies accounts, ids
      ensures ids.Valid()
      ensures 0 < newId && ids.issued == old(ids.issued) + [newId]
      ensures old(ids.last) < newId && ids.last == newId
      ensures forall i :: 0 <= i < |old(ids.issued)| ==> old(ids.issued)[i] < newId
      ensures |accounts.items| == |old(accounts.items)| + 1
      ensures accounts.items[..|old(accounts.items)|] == old(accounts.items)
      ensures fresh(accounts.items[|old(accounts.items)|])
      ensures accounts.items[|old(accounts.items)|].id == newId
      ensures accounts.items[|old(accounts.items)|].balance == initialBalance
      ensures newId !in IdsOf(old(accounts.items)) ==> Lookup(newId) == Some(|old(accounts.items)|)
      ensures (forall a :: a in old(accounts.items) ==> a.id in old(ids.issued)) ==>
        Lookup(newId) == Some(|old(accounts.items)|)
    {
      var account := new Account(ids);
      account.SetBalance(initialBalance);
      ghost var before := accounts.items;
      accounts.Add(account);
      newId := account.id;
      assert IdsOf(accounts.items) == IdsOf(before) + [newId];
      IndexOfAppend(IdsOf(before), newId, newId);
    }

    /**
     * Deposits into the account with id `id`: NotFound when the list holds
     * none, otherwise whatever that account's own deposit does. No other
     * account changes.
     */
    method Deposit(id: int, amount: real) returns (outcome: Outcome)
      modifies accounts.items
      ensures Lookup(id).None? ==> outcome == Fail(NotFound(id))
      ensures Lookup(id).Some? ==>
        var target := accounts.items[Lookup(id).value];
        && outcome == Deposited(old(target.balance), amount).Status()
        && target.balance == Deposited(old(target.balance), amount).GetOr(old(target.balance))
      ensures forall a :: a in accounts.items && !Targets(id, a) ==> a.balance == old(a.balance)
    {
      var k := Find(id);
      if k.None? {
        return Fail(NotFound(id));
      }
      outcome := accounts.items[k.value].Deposit(amount);
    }

    /**
     * Withdraws from the account with id `id`: NotFound when the list holds
     * none, otherwise whatever that account's own withdraw does. No other
     * account changes.
     */
    method Withdraw(id: int, amount: real) returns (outcome: Outcome)
      modifies accounts.items
      ensures Lookup(id).None? ==> outcome == Fail(NotFound(id))
      ensures Lookup(id).Some? ==>
        var target := accounts.items[Lookup(id).value];
        && outcome == Withdrawn(old(target.balance), amount).Status()
        && target.balance == Withdrawn(old(target.balance), amount).GetOr(old(target.balance))
      ensures forall a :: a in accounts.items && !Targets(id, a) ==> a.balance == old(a.balance)
    {
      var k := Find(id);
      if k.None? {
        return Fail(NotFound(id));
      }
      outcome := accounts.items[k.value].Withdraw(amount);
    }
  }
}
