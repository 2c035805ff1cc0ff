# SethmagAPP account ledger in Dafny

This project models the core of the SethmagAPP banking service: its account hierarchy and its account service.

An account holds an account number and a mutable exact balance. There are two kinds:

- A **Savings** account refuses any withdrawal that would leave less than 1000.
- A **Current** account refuses a withdrawal when the resulting balance would be below minus (the balance before the withdrawal plus 100000). This bound moves with the balance. It is modelled as the code computes it, not as a fixed floor of -100000.

Deposits add the amount unconditionally, whatever its sign.

The service keeps a map from account numbers to account objects. It is seeded with `SAV123` (Savings, 5000) and `CUR456` (Current, 10000). Its operations behave as follows:

- `withdraw` and `deposit` report "Account not found" on an unknown number.
- `withdraw` catches the account's refusal and only logs it. The call then completes normally with the balance unchanged, so the caller cannot tell a refusal from a withdrawal that went through.
- `getAccount` returns the account object or null.

The Dafny side:

- `accounts.dfy` (module `Accounts`) has the value-level specification: `AccountState`, `Boundary`, `Permits`, `WithdrawFrom` and `DepositInto`. It also has the class `Account`, whose `Deposit` and `Withdraw` update `balance` in place and are proved against those functions. The two Java subclasses become one class with a constant `variant`. `Withdraw` branches on it, one branch per override.
- `service.dfy` (module `AccountServices`) has the registry's value (`Ledger`, a map from number to `AccountState`) and the service operations on it. It also has the class `AccountService`, which holds a `map<string, Account>` set once by its constructor (the field is `final` in the code) and whose methods are proved against those functions. The module then gives lemmas over single requests and over any sequence of requests (`Run`).

`BigDecimal` is modelled as `real`. Both are exact for addition, subtraction and comparison.

Two points of the code's behaviour shape the service contracts:

- The service's `withdraw` swallows the account's policy outcome. It returns `Completed` whether or not the withdrawal went through, and `WithdrawStatusIgnoresPolicy` proves that the status does not depend on the amount.
- `getAccount` returns the live account object (`Account?`), not a copy. Its contract relates that object's value to the registry's value.

## Model

| member | source | states |
|---|---|---|
| Accounts.Permits | SethmagAPP/src/main/java/com/example/SethmagAPP/SethmagAppApplication.java:57-77 | the Savings check passes iff balance - amount >= 1000; the Current check passes iff amount <= 2*balance + 100000 |
| Accounts.Account.constructor | SethmagAPP/src/main/java/com/example/SethmagAPP/SethmagAppApplication.java:32-35 | a new account has the given number, variant and balance |
| Accounts.Account.Deposit | SethmagAPP/src/main/java/com/example/SethmagAPP/SethmagAppApplication.java:46-48 | the balance becomes old balance + amount and nothing else changes |
| Accounts.Account.Withdraw | SethmagAPP/src/main/java/com/example/SethmagAPP/SethmagAppApplication.java:51-77 | check then commit: on success the balance is old - amount, on refusal it is unchanged, and the outcome and new value agree with WithdrawFrom |
| Accounts.SavingsWithdrawal | SethmagAPP/src/main/java/com/example/SethmagAPP/SethmagAppApplication.java:57-62 | a Savings withdrawal is refused exactly when balance - amount < 1000, with the balance unchanged; on success the balance is old - amount and at least 1000 |
| Accounts.CurrentWithdrawal | SethmagAPP/src/main/java/com/example/SethmagAPP/SethmagAppApplication.java:71-77 | a Current withdrawal is refused exactly when amount > 2*old + 100000, with the balance unchanged; on success the balance is old - amount and at least -(old + 100000) |
| Accounts.WithdrawRespectsBoundary | SethmagAPP/src/main/java/com/example/SethmagAPP/SethmagAppApplication.java:56-77 | for either variant, a withdrawal that goes through never leaves less than the boundary computed from the previous balance, a refusal changes nothing, and the variant is kept |
| Accounts.RejectionIsStable | SethmagAPP/src/main/java/com/example/SethmagAPP/SethmagAppApplication.java:57-77 | a refused withdrawal leaves the account unchanged, so replaying it yields the same refusal |
| Accounts.DepositAddsAmount | SethmagAPP/src/main/java/com/example/SethmagAPP/SethmagAppApplication.java:46-48 | deposit adds exactly the amount for any amount, so a negative amount lowers the balance, and the variant is kept |
| Accounts.DepositThenWithdrawRestores | SethmagAPP/src/main/java/com/example/SethmagAPP/SethmagAppApplication.java:46-77 | withdrawing the amount just deposited goes through and restores the account, for Savings whenever the account was at or above 1000 |
| Accounts.CurrentFrozenFromHalfOverdraft | SethmagAPP/src/main/java/com/example/SethmagAPP/SethmagAppApplication.java:71-76 | a Current account at or below -50000 cannot withdraw any positive amount |
| Accounts.CurrentOverdraftBeyondConstant | SethmagAPP/src/main/java/com/example/SethmagAPP/SethmagAppApplication.java:66-76 | from 10000 a Current withdrawal of 120000 goes through and leaves -110000, below -100000 |
| AccountServices.AccountService.constructor | SethmagAPP/src/main/java/com/example/SethmagAPP/SethmagAppApplication.java:82-87 | the registry starts as exactly SAV123 (Savings, 5000) and CUR456 (Current, 10000), each held by a fresh account object |
| AccountServices.AccountService.Withdraw | SethmagAPP/src/main/java/com/example/SethmagAPP/SethmagAppApplication.java:89-100 | an unknown key reports AccountNotFound; a known key completes whether the account refused or not; the new registry value is LedgerWithdraw of the old one |
| AccountServices.AccountService.Deposit | SethmagAPP/src/main/java/com/example/SethmagAPP/SethmagAppApplication.java:102-109 | an unknown key reports AccountNotFound; a known key completes; the new registry value is LedgerDeposit of the old one |
| AccountServices.AccountService.GetAccount | SethmagAPP/src/main/java/com/example/SethmagAPP/SethmagAppApplication.java:111-113 | the result is null iff the key is absent, and otherwise the registered object, whose value is the registry's entry |
| AccountServices.UnknownAccountChangesNothing | SethmagAPP/src/main/java/com/example/SethmagAPP/SethmagAppApplication.java:89-106 | withdraw and deposit on an absent key report AccountNotFound and leave every account unchanged |
| AccountServices.WithdrawOnKnownAccount | SethmagAPP/src/main/java/com/example/SethmagAPP/SethmagAppApplication.java:89-100 | on a present key withdraw completes, keys and the other accounts are untouched, and the target changes by the amount only when permitted |
| AccountServices.WithdrawStatusIgnoresPolicy | SethmagAPP/src/main/java/com/example/SethmagAPP/SethmagAppApplication.java:94-99 | the status withdraw returns depends only on whether the key is present, never on the amount or the policy |
| AccountServices.DepositOnKnownAccount | SethmagAPP/src/main/java/com/example/SethmagAPP/SethmagAppApplication.java:102-109 | on a present key deposit completes, adds exactly the amount to the target and touches nothing else |
| AccountServices.InitialLedgerHoldsSeed | SethmagAPP/src/main/java/com/example/SethmagAPP/SethmagAppApplication.java:83-87 | the seed holds exactly SAV123 and CUR456 with their variants and balances, and its Savings account is above the minimum |
| AccountServices.RunKeepsAccounts | SethmagAPP/src/main/java/com/example/SethmagAPP/SethmagAppApplication.java:82-113 | no sequence of requests adds or removes an account or changes a variant |
| AccountServices.NeverRegisteredStaysAbsent | SethmagAPP/src/main/java/com/example/SethmagAPP/SethmagAppApplication.java:111-113 | a key outside the seed looks up absent after any sequence of requests |
| AccountServices.ApplyKeepsSavingsAboveMinimum | SethmagAPP/src/main/java/com/example/SethmagAPP/SethmagAppApplication.java:89-109 | any request other than a negative deposit keeps every Savings account at or above 1000 |
| AccountServices.RunKeepsSavingsAboveMinimum | SethmagAPP/src/main/java/com/example/SethmagAPP/SethmagAppApplication.java:52-62 | over any sequence of requests without negative deposits, Savings accounts stay at or above 1000 |
| AccountServices.NegativeDepositBreaksSavingsMinimum | SethmagAPP/src/main/java/com/example/SethmagAPP/SethmagAppApplication.java:46-48 | a deposit of -4500 into the seeded SAV123 leaves 500, so the minimum is not a service invariant |
| AccountServices.SeedScenario | SethmagAPP/src/main/java/com/example/SethmagAPP/SethmagAppApplication.java:85-109 | from the seed, withdraw 3500 then 1000 from SAV123 (the second refused), withdraw 50000 from CUR456, deposit 200 into SAV123, giving 1700 and -40000, and UNKNOWN is absent afterwards |

## Left out

- The Spring Boot bootstrap (`main`, `run`) and the dependency-injection annotations are framework plumbing.
- `BankController` is left out. It decodes HTTP parameters and turns outcomes and exceptions into response text.
- The `System.out.println` logging in the service is left out. A swallowed refusal appears only as "completes, balance unchanged".
- Exception message strings are left out. Refusals carry a `PolicyViolation` kind and a lookup miss is `AccountNotFound`.
- Concurrency and locking are left out. The code has none, and every operation is modelled as one sequential step.
- `getBalance` and `getAccountNum` are plain reads of the `balance` and `number` fields.
- `AccountServices.AccountService.GetAccount` hands out the live object, as the code does. The model does not follow what a caller might later do with that alias.
- Amount validation does not exist in the code, so the model has none. Zero and negative amounts are accepted everywhere.
