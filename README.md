# Bank accounts and a bank registry, in Dafny

This project models the toy banking domain of the `codecoverage-example`
repository, a teaching example for unit testing. It has two parts:

- An account (`BankAccount`) holds an id and a balance. The id comes from an
  ever-increasing counter when the account is created. The balance starts at 0.
  - `setBalance` sets the balance without any check.
  - `deposit` rejects a negative amount and otherwise adds it.
  - `withdraw` rejects a negative amount. It then rejects an amount above the
    balance, and otherwise subtracts it.
  - A rejected operation leaves the balance as it was.
- A bank (`Bank`) is built over a list of accounts that its creator keeps and
  may add to.
  - `openNewBankAccount` creates an account, appends it to that list and
    returns its id.
  - `deposit(id, amount)` and `withdraw(id, amount)` scan the list for an
    account with that id and forward the call. When no account has the id,
    they fail with "No account found with id: <id>". When several accounts
    share the id, the model forwards to the first of them in list order; the
    tests never build such a list.

`BankAccount.java` and `Bank.java` are not part of this model. Their behaviour
is taken from what the unit tests `BankAccountTest.java` and `BankTest.java`
assert, and every test case is restated as a verified method.

Layout:

- `ids.dfy`, module `Ids`: the id counter as an explicit object
  (`IdCounter`). In the program it is a process-wide static. A ghost history of
  the issued ids records that they are positive and increasing.
- `account.dfy`, module `Accounts`: the error datatype and the pure rules
  `Deposited` and `Withdrawn` (new balance or error). Lemmas relate the two
  rules. The `Account` class has `modifies this` methods proved against those
  rules.
- `bank.dfy`, module `Banking`: `AccountList`, the shared list, as an object
  both sides hold. `IndexOf` is the first-match specification. The `Bank`
  class has the linear-scan `Find` and the forwarding `Deposit`/`Withdraw`.
- `account_tests.dfy`, `bank_tests.dfy`: the test cases. Each method returns
  what its test inspects, and its `ensures` states at least what the test asserts. The
  id counter is a parameter because in the program it has already been
  advanced by whatever ran before.

Exceptions are modelled as returned values. `Outcome` is either `Pass` or
`Fail(error)`. `BankError` is one of `NegativeAmount(amount)`,
`InsufficientFunds(amount, balance)` or `NotFound(id)`; each constructor
carries the numbers its message shows.

Where the tests leave the behaviour open, the model makes these choices:

- The negative-amount check of `withdraw` runs first. The tests cannot tell
  the two orders apart, because their negative withdrawals are all made
  from a zero balance.
- `openNewBankAccount` stores its initial balance without validation, so a
  negative one is accepted. The tests only open accounts with 0.
- A request for an id that several accounts share goes to the first of them.
- An amount of 0 is accepted by both operations, and withdrawing exactly the
  balance succeeds. The amounts that reach an account in the tests are
  only -1 and 3 (on balances 0 and 10) and 5 (on balance 10).

The tests add accounts to the shared list directly, and the model allows
that.

## Model

| member | source | states |
|---|---|---|
| `Ids.IdCounter.constructor` | testing.codecoverage.example/tests/testing/example/bank/BankAccountTest.java:21-26 | the counter starts with nothing issued and its last id at 0, so every id it hands out is positive (counting from 1 in steps of 1 is the model's choice; the tests need only positive, increasing ids) |
| `Ids.IdCounter.Next` | testing.codecoverage.example/tests/testing/example/bank/BankAccountTest.java:21-31 | the id handed out is positive and strictly above every id handed out before; the counter's invariant (issued ids positive and increasing; the last one remembered, 0 before any) is kept |
| `Ids.IncreasingIsPairwise` | testing.codecoverage.example/tests/testing/example/bank/BankAccountTest.java:29-31 | ids that each exceed their predecessor are ordered pairwise: an account created earlier has a strictly smaller id than any created later, so no two issued ids are equal |
| `Accounts.CheckAmount` | testing.codecoverage.example/tests/testing/example/bank/BankAccountTest.java:113-125 | the check shared by deposit and withdraw fails exactly for a negative amount, with `NegativeAmount` carrying that amount |
| `Accounts.Deposited` | testing.codecoverage.example/tests/testing/example/bank/BankAccountTest.java:34-66 | a deposit fails if and only if the amount is negative, with `NegativeAmount(amount)`; on success the new balance exceeds the old by exactly the amount |
| `Accounts.Withdrawn` | testing.codecoverage.example/tests/testing/example/bank/BankAccountTest.java:69-101 | a withdrawal succeeds if and only if 0 <= amount <= balance; a negative amount fails with `NegativeAmount` whatever the balance; a non-negative amount above the balance fails with `InsufficientFunds(amount, balance)`; on success the balance drops by exactly the amount and stays non-negative |
| `Accounts.NegativeAmountRuleShared` | testing.codecoverage.example/tests/testing/example/bank/BankAccountTest.java:104-125 | for every balance, deposit and withdraw of a negative amount give the same failure, `NegativeAmount(amount)` |
| `Accounts.WithdrawUndoesDeposit` | testing.codecoverage.example/tests/testing/example/bank/BankAccountTest.java:34-42 | a property of the modelled deposit and withdraw rules, not a test assertion: from a non-negative balance, withdrawing the amount just deposited succeeds and restores the original balance |
| `Accounts.WithdrawAfterDepositFromNegativeBalance` | testing.codecoverage.example/tests/testing/example/bank/BankAccountTest.java:93-101 | a property of the modelled rules, not a test assertion: from a negative balance, which only the setter can produce, withdrawing any non-negative amount just deposited, 0 included, is refused with `InsufficientFunds`, so the round trip above needs its precondition |
| `Accounts.DepositUndoesWithdraw` | testing.codecoverage.example/tests/testing/example/bank/BankAccountTest.java:93-101 | a property of the modelled rules, not a test assertion: after any successful withdrawal, depositing the same amount restores the original balance |
| `Accounts.NonNegativeBalancePreserved` | testing.codecoverage.example/tests/testing/example/bank/BankAccountTest.java:81-101 | a property of the modelled rules, not a test assertion: neither deposit nor withdraw, successful or not, takes a non-negative balance below zero |
| `Accounts.Account.constructor` | testing.codecoverage.example/tests/testing/example/bank/BankAccountTest.java:21-31 | a new account takes the counter's next id, which is positive and above every earlier id, and starts with balance 0 |
| `Accounts.Account.SetBalance` | testing.codecoverage.example/tests/testing/example/bank/BankAccountTest.java:34-42 | the raw setter stores any balance without validation |
| `Accounts.Account.Deposit` | testing.codecoverage.example/tests/testing/example/bank/BankAccountTest.java:34-66 | the returned outcome and the new balance are those of `Deposited` on the old balance; a failure leaves the balance unchanged |
| `Accounts.Account.Withdraw` | testing.codecoverage.example/tests/testing/example/bank/BankAccountTest.java:69-101 | the returned outcome and the new balance are those of `Withdrawn` on the old balance; a failure leaves the balance unchanged |
| `Banking.IndexOf` | testing.codecoverage.example/tests/testing/example/bank/BankTest.java:37-56 | the lookup yields nothing exactly when no id matches; otherwise it yields a position holding the id with no match before it |
| `Banking.IndexOfIssuedId` | testing.codecoverage.example/tests/testing/example/bank/BankTest.java:44-56 | over ids issued one after another, looking up the id at position k yields exactly k: in a list whose ids came from one counter in order, each id selects its own position |
| `Banking.IndexOfAppend` | testing.codecoverage.example/tests/testing/example/bank/BankTest.java:44-56 | after an append to the list, an existing match is kept; otherwise the appended account is found exactly when it carries the id |
| `Banking.AccountList.constructor` | testing.codecoverage.example/tests/testing/example/bank/BankTest.java:23-27 | a new list is empty |
| `Banking.AccountList.Add` | testing.codecoverage.example/tests/testing/example/bank/BankTest.java:47-53 | the caller's append puts the account at the end of the same list the bank reads |
| `Banking.Bank.constructor` | testing.codecoverage.example/tests/testing/example/bank/BankTest.java:23-27 | the bank keeps the caller's list object itself, not a copy, and the id counter it was given |
| `Banking.Bank.Find` | testing.codecoverage.example/tests/testing/example/bank/BankTest.java:37-56 | the scan returns the first position whose account has the id (agreeing with `IndexOf`), or nothing exactly when no account in the list has it |
| `Banking.Bank.OpenNewBankAccount` | testing.codecoverage.example/tests/testing/example/bank/BankTest.java:30-34 | the returned id is positive and above every id the counter issued before, and above its last id, so it differs from every account built from the same counter, through the bank or not; the list grows by one fresh account at the end carrying that id and the initial balance, earlier entries unchanged; if no earlier account had the id, and in particular if every earlier account's id came from this counter, a lookup of it now reaches the new account |
| `Banking.Bank.Deposit` | testing.codecoverage.example/tests/testing/example/bank/BankTest.java:37-56 | an unknown id gives `NotFound(id)`; otherwise the first matching account's outcome and balance are those of `Deposited`; every other account keeps its balance |
| `Banking.Bank.Withdraw` | testing.codecoverage.example/tests/testing/example/bank/BankTest.java:59-74 | an unknown id gives `NotFound(id)`; otherwise the first matching account's outcome and balance are those of `Withdrawn`; every other account keeps its balance |
| `AccountTests.IdIsAutomaticallyAssignedAsPositiveNumber` | testing.codecoverage.example/tests/testing/example/bank/BankAccountTest.java:21-26 | whatever the counter's state, a new account's id is positive |
| `AccountTests.IdsAreIncremental` | testing.codecoverage.example/tests/testing/example/bank/BankAccountTest.java:29-31 | of two accounts created in turn, the first has the smaller id |
| `AccountTests.DepositWhenAmountIsCorrectShouldIncreaseBalance` | testing.codecoverage.example/tests/testing/example/bank/BankAccountTest.java:34-42 | balance 10, deposit 3: balance 13 |
| `AccountTests.DepositWhenAmountIsNegativeShouldThrow` | testing.codecoverage.example/tests/testing/example/bank/BankAccountTest.java:45-66 | depositing -1 into a fresh account fails with `NegativeAmount(-1)`, and the balance stays 0 |
| `AccountTests.WithdrawWhenAmountIsNegativeShouldThrow` | testing.codecoverage.example/tests/testing/example/bank/BankAccountTest.java:69-78 | withdrawing -1 from a fresh account fails with `NegativeAmount(-1)`, and the balance stays 0 |
| `AccountTests.WithdrawWhenBalanceIsUnsufficientShouldThrow` | testing.codecoverage.example/tests/testing/example/bank/BankAccountTest.java:81-90 | withdrawing 3 from a fresh account fails with `InsufficientFunds(3, 0)`, and the balance stays 0 |
| `AccountTests.WithdrawWhenBalanceIsSufficientShouldDecreaseBalance` | testing.codecoverage.example/tests/testing/example/bank/BankAccountTest.java:93-101 | balance 10, withdraw 3: balance 7 |
| `AccountTests.ActionWithNegativeAmount` | testing.codecoverage.example/tests/testing/example/bank/BankAccountTest.java:104-125 | run with either deposit or withdraw on a fresh account, an amount of -1 fails with `NegativeAmount(-1)` and the balance stays 0 |
| `BankTests.Setup` | testing.codecoverage.example/tests/testing/example/bank/BankTest.java:23-27 | the fixture is a fresh empty list and a fresh bank sharing that very list |
| `BankTests.CreateTestAccount` | testing.codecoverage.example/tests/testing/example/bank/BankTest.java:79-83 | the fixture account has a new id and the requested balance, set without validation |
| `BankTests.OpenNewAccountShouldReturnAPositiveIdAndStoreTheAccount` | testing.codecoverage.example/tests/testing/example/bank/BankTest.java:30-34 | on an empty list, opening an account returns a positive id, and the list's first account carries that id |
| `BankTests.DepositWhenAccountIsNotFoundShouldThrow` | testing.codecoverage.example/tests/testing/example/bank/BankTest.java:37-41 | a deposit to id 1 in an empty bank fails with `NotFound(1)` |
| `BankTests.DepositWhenAccountIsFoundShouldIncrementBalance` | testing.codecoverage.example/tests/testing/example/bank/BankTest.java:44-56 | with two accounts at 10 added by the caller, a deposit of 5 to the second one's id makes it 15 and leaves the first at 10 |
| `BankTests.WithdrawWhenAccountIsNotFoundShouldThrow` | testing.codecoverage.example/tests/testing/example/bank/BankTest.java:59-63 | a withdrawal from id 1 in an empty bank fails with `NotFound(1)` |
| `BankTests.WithdrawWhenAccountIsFoundShouldDecrementBalance` | testing.codecoverage.example/tests/testing/example/bank/BankTest.java:66-74 | an account at 10 added by the caller, withdraw 5 by its id: balance 5 |

## Left out

- `BankAccount.java` and `Bank.java` are not part of this model. The behaviour modelled is what the two test classes assert, together with the choices the tests leave open: the order of the two checks in `withdraw`; an initial balance stored without validation by `openNewBankAccount`; the first match among accounts sharing an id; zero amounts and withdrawing the whole balance accepted.
- Java `double` arithmetic: amounts and balances are exact `real`s, so rounding and IEEE-754 special values (NaN, infinities, -0.0) are not modelled. The tests use only whole numbers.
- The text of the exception messages, including the rendering of numbers such as `-1.0` and `3.0`. Each error is a constructor carrying the values the message would show.
- The exception types (`IllegalArgumentException`, `NoSuchElementException`): failures are returned as `Outcome` values. `NegativeAmount` and `InsufficientFunds` stand for the first type and `NotFound` for the second.
- `getId` and `getBalance`: they are plain reads of the `id` and `balance` fields.
- Ids.IdCounter.Next: does not model the wrap-around of a Java `int` after 2^31 - 1 accounts. Ids are unbounded integers, so positivity and monotonicity hold without limit.
- The static, process-wide nature of the counter, and thread safety. The counter is an explicit object. Two separate `IdCounter` objects may issue equal ids, whereas the single Java static never does. So ids are unique, and lookups reach one account per id, only for accounts created from one counter; the test methods use one counter throughout.
- JUnit machinery: the `ExpectedException` rule, `assertThrows`, `fail`, and passing `BankAccount::deposit`/`BankAccount::withdraw` as a `BiConsumer`. That last one becomes the two-valued `Action` parameter of `AccountTests.ActionWithNegativeAmount`.
- The alternative negative-deposit test (lines 60-66 of `BankAccountTest.java`) checks only the error. It is covered by `AccountTests.DepositWhenAmountIsNegativeShouldThrow`, which also checks the balance.
