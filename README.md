# Banking app ledger, modelled in Dafny

The banking app is a small desktop form. It keeps an in-memory directory of bank
accounts for the lifetime of the process. An account has a number, a holder name
and a balance. The form has buttons to create an account, deposit into it,
withdraw from it and display it. This project models the ledger behind those
buttons and proves what each operation does to the balance and to the directory.

- `accounts.dfy`, module `Accounts`: the `Account` class. Its `balance` field is
  updated in place by `Deposit` and `Withdraw`. The pure functions `DepositStep`
  and `WithdrawStep` specify those methods. They give the outcome and the new
  balance, checking conditions in the same order as `Account.deposit` and
  `Account.withdraw`. Python exceptions become constructors of `Outcome`:
  a `ValueError` raised by `deposit` or `withdraw` is `InvalidAmount`, a failed
  `float` parse in a handler is `InvalidInput`, and `InsufficientFundsError` is
  `InsufficientFunds(available)`.
- `directory.dfy`, module `Directory`: the `BankingSystem` class, which holds
  `accounts: map<string, Account>`. It handles create, deposit, withdraw and
  display. Each mutating handler is specified by a function on a value snapshot
  of the directory: `ApplyCreate`, `ApplyDeposit` and `ApplyWithdraw`. The class
  invariant `Valid` says every account is filed under its own number, so two
  numbers never share one `Account` object.
- `session.dfy`, module `Session`: any sequence of button presses, applied in
  order. These lemmas state what holds of the directory after any session:
  - accounts are never removed;
  - every account stays filed under its own number;
  - balances stay non-negative unless an account is opened with a negative
    balance;
  - number and holder change only when an account is created again;
  - an account number that is never created stays unknown.
- `scenarios.dfy`, module `Scenarios`: worked scenarios, derived by clients of
  `BankingSystem` from the method contracts alone.

Amounts and balances are exact `real`s. The app only adds, subtracts and
compares them. An amount entry field reaches the core as an `AmountField`, which
is one of three things:
- `Blank`: the stripped text is empty;
- `Parsed(v)`: `float` succeeded with value `v`;
- `Malformed`: `float` raised.

Creating an account treats `Blank` as 0 (`float(text or 0)`). Deposit and
withdrawal treat `Blank` as unparsable (`float("")` raises). Every handler parses
the amount before it looks up the account, so a bad amount for an unknown
account is reported as invalid input, not as "not found".

Where a positivity-first reading and the code differ, the model follows the code:

- **Withdrawal check order.** The code tests for an overdraft before it tests that the amount
  is positive (bankgui.py:22-27), and the model keeps that order.
  `WithdrawOrderIrrelevantWhenSolvent` proves the order makes no difference while
  the balance is not negative. `WithdrawOrderVisibleWhenOverdrawn` shows where it
  does make a difference.
- **Negative opening balance.** Nothing checks the sign of an opening balance
  (bankgui.py:13, 81). `NegativeOpeningIsAccepted` exhibits one such account.

## Model

`Session.Run` stands in for the app's main loop (bankgui.py:141-144). It applies
a sequence of button presses in order, each one through `Session.Apply` to the
directory the previous press left. It states nothing of its own, so it has no
row; the `Session.Run*` lemmas below are stated over it.

| member | source | states |
|---|---|---|
| `Accounts.DepositStep` | bankgui.py:15-19 | a deposit succeeds iff the amount is positive; then the balance grows by exactly the amount; otherwise the outcome is InvalidAmount and the balance is unchanged; a deposit never lowers the balance |
| `Accounts.WithdrawStep` | bankgui.py:21-27 | a withdrawal succeeds iff 0 < amount <= balance, and then the balance drops by the amount; it reports InsufficientFunds carrying the current balance iff amount > balance (even when the amount is not positive); it reports InvalidAmount iff amount <= 0 and amount <= balance; on failure the balance is unchanged; a non-negative balance stays non-negative and never grows |
| `Accounts.WithdrawPositivityFirst` | bankgui.py:21-27 | reference ordering of the same two checks, with the positivity check first: success iff 0 < amount <= balance, and then the balance drops by the amount; InvalidAmount iff amount <= 0; InsufficientFunds carrying the balance iff 0 < amount and amount > balance; on failure the balance is unchanged |
| `Accounts.WithdrawOrderIrrelevantWhenSolvent` | bankgui.py:22-27 | with a non-negative balance, the code's check order and the positivity-first order give the same outcome and balance for every amount |
| `Accounts.WithdrawOrderVisibleWhenOverdrawn` | bankgui.py:22-27 | when balance < amount <= 0, the code reports InsufficientFunds(balance), whereas the positivity-first order would report InvalidAmount |
| `Accounts.DepositThenWithdraw` | bankgui.py:15-27 | on a non-negative balance, withdrawing a just-deposited positive amount succeeds and restores the original balance |
| `Accounts.WithdrawThenDeposit` | bankgui.py:15-27 | after a successful withdrawal, depositing the same amount succeeds and restores the original balance |
| `Accounts.Account.constructor` | bankgui.py:10-13 | a new account holds the given number, holder and opening balance, with no check on the balance's sign |
| `Accounts.Account.Deposit` | bankgui.py:15-19 | updates only this account's balance, with the outcome and new balance given by DepositStep; number and holder are constants and never change |
| `Accounts.Account.Withdraw` | bankgui.py:21-27 | updates only this account's balance, with the outcome and new balance given by WithdrawStep |
| `Accounts.Account.GetBalance` | bankgui.py:29-30 | returns the current balance and modifies nothing |
| `Accounts.Account.Describe` | bankgui.py:32-33 | yields the account's number, holder and balance, reading state only |
| `Directory.ApplyCreate` | bankgui.py:77-90 | a malformed opening balance, an empty number or an empty holder gives InvalidInput and leaves the directory unchanged; otherwise the outcome is Ok and the keys become the old keys plus the number; the number maps to a new account with the given holder and an opening balance that is 0 when blank; this overwrites any earlier entry; every other key keeps its entry; the well-keyed invariant is preserved |
| `Directory.ApplyDeposit` | bankgui.py:92-107 | an unparsable or blank amount gives InvalidInput; otherwise an unknown number gives NotFound; in both cases the directory is unchanged; otherwise success iff the amount is positive, which adds the amount to that account alone; a non-positive amount gives InvalidAmount; only that account's balance can change; solvency is preserved |
| `Directory.ApplyWithdraw` | bankgui.py:109-124 | an unparsable or blank amount gives InvalidInput; otherwise an unknown number gives NotFound; in both cases the directory is unchanged; otherwise success iff 0 < amount <= balance, which subtracts the amount; an overdraft gives InsufficientFunds carrying the balance; otherwise InvalidAmount; any failure leaves the directory unchanged; only that account's balance can change; solvency is preserved |
| `Directory.BankingSystem.constructor` | bankgui.py:36-37 | the directory starts empty |
| `Directory.BankingSystem.CreateAccount` | bankgui.py:77-90 | the outcome and the new directory snapshot are those of ApplyCreate; on success the number maps to a freshly allocated Account; a refused create leaves the number-to-object map exactly as it was; every other number keeps the same Account object; the class invariant is kept |
| `Directory.BankingSystem.Deposit` | bankgui.py:92-107 | the key-to-object mapping is unchanged; the outcome and the new snapshot are those of ApplyDeposit, so only the named account's balance changes, and only on success |
| `Directory.BankingSystem.Withdraw` | bankgui.py:109-124 | the key-to-object mapping is unchanged; the outcome and the new snapshot are those of ApplyWithdraw |
| `Directory.BankingSystem.DisplayInfo` | bankgui.py:126-131 | returns the account's number, holder and balance iff the number is in the directory, and None ("Account not found!") otherwise; modifies nothing |
| `Session.Apply` | bankgui.py:77-131 | routes a button press to its handler; display reports Ok or NotFound and leaves the directory unchanged; no action other than create changes the set of account numbers |
| `Session.RunNeverRemoves` | bankgui.py:77-131 | after any sequence of actions, every account number present at the start is still present |
| `Session.RunWithoutCreateKeepsKeys` | bankgui.py:92-131 | a sequence of deposits, withdrawals and displays leaves the set of account numbers exactly as it was |
| `Session.RunKeepsWellKeyed` | bankgui.py:86-87 | if every entry is filed under its own account number, that stays true after any sequence of actions |
| `Session.RunKeepsSolvent` | bankgui.py:109-124 | if every balance is non-negative and no create action opens with a negative balance, every balance is still non-negative after the sequence |
| `Session.NegativeOpeningIsAccepted` | bankgui.py:81-87 | creating an account with opening balance -5.0 succeeds (outcome Ok) and leaves a negative balance in the directory |
| `Session.RunKeepsHolder` | bankgui.py:86-87 | an existing account that no create action re-creates keeps its number and its holder through any sequence of actions |
| `Session.RunNeverInventsAccounts` | bankgui.py:86-87 | an account number that no create action names never enters the directory |

## Left out

- The tkinter user interface is left out: building widgets, entry fields and
  buttons (bankgui.py:43-75), the message windows (bankgui.py:133-139), the
  main loop (bankgui.py:141-144), and the window set-up in
  `BankingSystem.__init__`. The session model stands in for the main loop: it
  applies one action at a time.
- Reading and stripping entry text is left out. Account numbers and holders
  arrive already stripped.
- Float conversion is left out. It is modelled only by its result: `Blank`,
  `Parsed(v)` or `Malformed`.
- IEEE floating point is not modelled: rounding, `nan` and `inf`, all of which
  `float` accepts. A `nan` amount compares false with everything, so the source
  reports it as an invalid amount. The model has no such value.
  `DepositThenWithdraw` and `WithdrawThenDeposit` hold for exact amounts
  only. With the app's floats they can fail: a balance of 0.1, plus a deposit
  of 0.2, minus a withdrawal of 0.2, leaves 0.10000000000000003.
- The wording of success and error messages is left out, and so is the text
  layout of `display_account_info`. `Describe` and `DisplayInfo` return the
  three fields instead of a formatted string. `Outcome`, together with the
  action and its input, tells the messages apart.
- `ApplyCreate` merges the two error messages of `create_account` into one
  outcome. Both "Invalid balance amount!" (bankgui.py:83) and "Account number
  and holder name cannot be empty!" (bankgui.py:90) give `InvalidInput`. The
  input tells them apart: a `Malformed` opening balance gives the first.
- The default `initial_balance=0` of the `Account` constructor is not
  modelled. The one caller always passes a balance, and a blank field reaching
  `ApplyCreate` is what yields 0.
- Concurrency is not modelled. The app is single-threaded.
