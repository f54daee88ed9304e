/**
 * A bank account: an id fixed at construction and a balance that deposits
 * and withdrawals change. Java's `double` amounts are modelled as `real`;
 * the exceptions the Java methods throw are modelled as returned outcomes.
 */
module Accounts {
  import Ids

  /** The failures of the bank domain, carrying the values their messages show. */
  datatype BankError =
    | NegativeAmount(amount: real)                   // "Negative amount: <amount>"
    | InsufficientFunds(amount: real, balance: real) // "Cannot withdraw <amount> from <balance>"
    | NotFound(id: int)                              // "No account found with id: <id>"

  /** A new balance, or the error that rejected the operation. */
  datatype Result = Success(value: real) | Failure(error: BankError)
  {
    /** The new balance on success, and `current` on failure. */
    function GetOr(current: real): real
    {
      match this
      case Success(v) => v
      case Failure(_) => current
    }

    /** What a caller of the void Java method observes: normal return or an exception. */
    function Status(): Outcome
    {
      match this
      case Success(_) => Pass
      case Failure(e) => Fail(e)
    }
  }

  /** Normal return, or the exception thrown. */
  datatype Outcome = Pass | Fail(error: BankError)

  /** The check that deposit and withdraw share: a negative amount is rejected. */
  function CheckAmount(amount: real): (r: Outcome)
    ensures r.Fail? <==> amount < 0.0
    ensures r.Fail? ==> r.error == NegativeAmount(amount)
  {
    if amount < 0.0 then Fail(NegativeAmount(amount)) else Pass
  }

  /** The balance after depositing `amount` into an account holding `balance`. */
  function Deposited(balance: real, amount: real): (r: Result)
    ensures r.Failure? <==> amount < 0.0
    ensures r.Failure? ==> r.error == NegativeAmount(amount)
    ensures r.Success? ==> r.value - balance == amount
  {
    match CheckAmount(amount)
    case Fail(e) => Failure(e)
    case Pass => Success(balance + amount)
  }

  /**
   * The balance after withdrawing `amount` from an account holding `balance`.
   * The negative-amount check comes first, then the insufficient-funds one.
   */
  function Withdrawn(balance: real, amount: real): (r: Result)
    ensures r.Success? <==> 0.0 <= amount <= balance
    ensures amount < 0.0 ==> r == Failure(NegativeAmount(amount))
    ensures 0.0 <= amount && balance < amount ==> r == Failure(InsufficientFunds(amount, balance))
    ensures r.Success? ==> balance - r.value == amount && 0.0 <= r.value
  {
    match CheckAmount(amount)
    case Fail(e) => Failure(e)
    case Pass =>
      if amount > balance then Failure(InsufficientFunds(amount, balance))
      else Success(balance - amount)
  }

  /** Deposit and withdraw reject a negative amount identically, whatever the balance. */
  lemma NegativeAmountRuleShared(balance: real, amount: real)
    requires amount < 0.0
    ensures Deposited(balance, amount) == Withdrawn(balance, amount)
    ensures Deposited(balance, amount) == Failure(NegativeAmount(amount))
  {
  }

  /**
   * A withdrawal of the amount just deposited restores the balance, provided
   * the balance was not negative: from a negative balance (reachable only
   * through the setter) the withdrawal is refused as insufficient funds.
   */
  lemma WithdrawUndoesDeposit(balance: real, amount: real)
    requires 0.0 <= balance && 0.0 <= amount
    ensures Deposited(balance, amount).Success?
    ensures Withdrawn(Deposited(balance, amount).value, amount) == Success(balance)
  {
  }

  /** From a negative balance, depositing and withdrawing the same amount is not a round trip. */
  lemma WithdrawAfterDepositFromNegativeBalance(balance: real, amount: real)
    requires balance < 0.0 && 0.0 <= amount
    ensures Withdrawn(Deposited(balance, amount).value, amount)
         == Failure(InsufficientFunds(amount, balance + amount))
  {
  }

  /** A deposit of the amount just withdrawn restores the balance. */
  lemma DepositUndoesWithdraw(balance: real, amount: real)
    requires Withdrawn(balance, amount).Success?
    ensures Deposited(Withdrawn(balance, amount).value, amount) == Success(balance)
  {
  }

  /**
   * Deposits and withdrawals never take a non-negative balance below zero;
   * only the unvalidated setter can.
   */
  lemma NonNegativeBalancePreserved(balance: real, amount: real)
    requires 0.0 <= balance
    ensures 0.0 <= Deposited(balance, amount).GetOr(balance)
    ensures 0.0 <= Withdrawn(balance, amount).GetOr(balance)
  {
  }

  class Account {
    /** Assigned once, from the id counter, when the account is created. */
    const id: int
    var balance: real

    /** A fresh account: the next id from `ids` and a zero balance. */
    constructor (ids: Ids.IdCounter)
      requires ids.Valid()
      modifies ids
      ensures ids.Valid()
      ensures id == ids.last && 0 < id && old(ids.last) < id
      ensures ids.issued == old(ids.issued) + [id]
      ensures balance == 0.0
    {
      var next := ids.Next();
      id := next;
      balance := 0.0;
    }

    /** The raw setter: no validation, so any balance, negative ones too. */
    method SetBalance(newBalance: real)
      modifies this
      ensures balance == newBalance
    {
      balance := newBalance;
    }

    /** Validates the amount, then adds it; on failure the balance is unchanged. */
    method Deposit(amount: real) returns (outcome: Outcome)
      modifies this
      ensures outcome == Deposited(old(balance), amount).Status()
      ensures balance == Deposited(old(balance), amount).GetOr(old(balance))
    {
      outcome := CheckAmount(amount);
      if outcome.Pass? {
        balance := balance + amount;
      }
    }

    /** Validates the amount against the balance, then subtracts it; on failure the balance is unchanged. */
    method Withdraw(amount: real) returns (outcome: Outcome)
      modifies this
      ensures outcome == Withdrawn(old(balance), amount).Status()
      ensures balance == Withdrawn(old(balance), amount).GetOr(old(balance))
    {
      outcome := CheckAmount(amount);
      if outcome.Fail? {
        return;
      }
      if amount > balance {
        outcome := Fail(InsufficientFunds(amount, balance));
        return;
      }
      balance := balance - amount;
    }
  }
}
