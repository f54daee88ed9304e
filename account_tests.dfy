/**
 * The scenarios of the account's unit tests, each as a method that returns
 * what the test inspects and promises what the test asserts about it. The
 * id counter is passed in because in the program it is process-wide and
 * already advanced by whatever ran before.
 */
module AccountTests {
  import Ids
  import opened Accounts

  const Amount: real := 3.0
  const InitialBalance: real := 10.0

  /** The two account operations that the negative-amount test is run against. */
  datatype Action = DepositAction | WithdrawAction

  method IdIsAutomaticallyAssignedAsPositiveNumber(ids: Ids.IdCounter) returns (id: int)
    requires ids.Valid()
    modifies ids
    ensures 0 < id
  {
    var account := new Account(ids);
    id := account.id;
  }

  method IdsAreIncremental(ids: Ids.IdCounter) returns (first: int, second: int)
    requires ids.Valid()
    modifies ids
    ensures first < second
  {
    var a := new Account(ids);
    var b := new Account(ids);
    first, second := a.id, b.id;
  }

  method DepositWhenAmountIsCorrectShouldIncreaseBalance(ids: Ids.IdCounter) returns (balance: real)
    requires ids.Valid()
    modifies ids
    ensures balance == InitialBalance + Amount
  {
    var account := new Account(ids);
    account.SetBalance(InitialBalance);
    var _ := account.Deposit(Amount);
    balance := account.balance;
  }

  method DepositWhenAmountIsNegativeShouldThrow(ids: Ids.IdCounter) returns (outcome: Outcome, balance: real)
    requires ids.Valid()
    modifies ids
    ensures outcome == Fail(NegativeAmount(-1.0))
    ensures balance == 0.0
  {
    var account := new Account(ids);
    outcome := account.Deposit(-1.0);
    balance := account.balance;
  }

  method WithdrawWhenAmountIsNegativeShouldThrow(ids: Ids.IdCounter) returns (outcome: Outcome, balance: real)
    requires ids.Valid()
    modifies ids
    ensures outcome == Fail(NegativeAmount(-1.0))
    ensures balance == 0.0
  {
    var account := new Account(ids);
    outcome := account.Withdraw(-1.0);
    balance := account.balance;
  }

  method WithdrawWhenBalanceIsUnsufficientShouldThrow(ids: Ids.IdCounter) returns (outcome: Outcome, balance: real)
    requires ids.Valid()
    modifies ids
    ensures outcome == Fail(InsufficientFunds(Amount, 0.0))
    ensures balance == 0.0
  {
    var account := new Account(ids);
    outcome := account.Withdraw(Amount);
    balance := account.balance;
  }

  method WithdrawWhenBalanceIsSufficientShouldDecreaseBalance(ids: Ids.IdCounter) returns (balance: real)
    requires ids.Valid()
    modifies ids
    ensures balance == InitialBalance - Amount
  {
    var account := new Account(ids);
    account.SetBalance(InitialBalance);
    var _ := account.Withdraw(Amount);
    balance := account.balance;
  }

  /** The shared negative-amount test, run against either operation on a fresh account. */
  method ActionWithNegativeAmount(ids: Ids.IdCounter, action: Action) returns (outcome: Outcome, balance: real)
    requires ids.Valid()
    modifies ids
    ensures outcome == Fail(NegativeAmount(-1.0))
    ensures balance == 0.0
  {
    var account := new Account(ids);
    match action {
      case DepositAction =>
        outcome := account.Deposit(-1.0);
      case WithdrawAction =>
        outcome := account.Withdraw(-1.0);
    }
    balance := account.balance;
  }
}
