/**
 * The scenarios of the bank's unit tests. Each starts from the fixture the
 * tests set up before every case: an empty list and a bank built over it.
 */
module BankTests {
  import Ids
  import opened Accounts
  import opened Banking

  const Amount: real := 5.0
  const InitialBalance: real := 10.0

  /** A new empty list, and a bank that shares it. */
  method Setup(ids: Ids.IdCounter) returns (bankAccounts: AccountList, bank: Bank)
    ensures fresh(bankAccounts) && fresh(bank)
    ensures bankAccounts.items == []
    ensures bank.accounts == bankAccounts && bank.ids == ids
  {
    bankAccounts := new AccountList();
    bank := new Bank(bankAccounts, ids);
  }

  /** A new account given `initialBalance` through the unvalidated setter. */
  method CreateTestAccount(ids: Ids.IdCounter, initialBalance: real) returns (account: Account)
    requires ids.Valid()
    modifies ids
    ensures ids.Valid()
    ensures fresh(account)
    ensures account.id == ids.last && old(ids.last) < account.id
    ensures account.balance == initialBalance
  {
    account := new Account(ids);
    account.SetBalance(initialBalance);
  }

  method OpenNewAccountShouldReturnAPositiveIdAndStoreTheAccount(ids: Ids.IdCounter)
    returns (newAccountId: int, storedId: int)
    requires ids.Valid()
    modifies ids
    ensures 0 < newAccountId
    ensures storedId == newAccountId
  {
    var bankAccounts, bank := Setup(ids);
    newAccountId := bank.OpenNewBankAccount(0.0);
    storedId := bankAccounts.items[0].id;
  }

  method DepositWhenAccountIsNotFoundShouldThrow(ids: Ids.IdCounter) returns (outcome: Outcome)
    ensures outcome == Fail(NotFound(1))
  {
    var bankAccounts, bank := Setup(ids);
    outcome := bank.Deposit(1, InitialBalance);
  }

  /**
   * The caller adds two accounts to the list after the bank was built; the
   * bank skips the first and deposits into the second, leaving the first alone.
   */
  method DepositWhenAccountIsFoundShouldIncrementBalance(ids: Ids.IdCounter)
    returns (foundBalance: real, otherBalance: real)
    requires ids.Valid()
    modifies ids
    ensures foundBalance == InitialBalance + Amount
    ensures otherBalance == InitialBalance
  {
    var bankAccounts, bank := Setup(ids);
    var another := CreateTestAccount(ids, InitialBalance);
    bankAccounts.Add(another);
    var toBeFound := CreateTestAccount(ids, InitialBalance);
    bankAccounts.Add(toBeFound);
    assert IdsOf(bankAccounts.items) == [another.id, toBeFound.id];
    assert bank.Lookup(toBeFound.id) == Some(1);
    var _ := bank.Deposit(toBeFound.id, Amount);
    foundBalance, otherBalance := toBeFound.balance, another.balance;
  }

  method WithdrawWhenAccountIsNotFoundShouldThrow(ids: Ids.IdCounter) returns (outcome: Outcome)
    ensures outcome == Fail(NotFound(1))
  {
    var bankAccounts, bank := Setup(ids);
    outcome := bank.Withdraw(1, Amount);
  }

  method WithdrawWhenAccountIsFoundShouldDecrementBalance(ids: Ids.IdCounter) returns (balance: real)
    requires ids.Valid()
    modifies ids
    ensures balance == InitialBalance - Amount
  {
    var bankAccounts, bank := Setup(ids);
    var testAccount := CreateTestAccount(ids, InitialBalance);
    bankAccounts.Add(testAccount);
    var _ := bank.Withdraw(testAccount.id, Amount);
    balance := testAccount.balance;
  }
}
