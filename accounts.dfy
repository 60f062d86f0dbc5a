/** The ledger entry of the banking app: one account with a number, a holder
    and a balance that deposits and withdrawals change in place. Amounts and
    balances are exact reals; the app only adds, subtracts and compares them. */
module Accounts {

  /** How one operation of the app ends. */
  datatype Outcome =
    | Ok
      /** InsufficientFundsError; it reports the balance available at the time. */
    | InsufficientFunds(available: real)
      /** ValueError raised by Account.deposit or Account.withdraw. */
    | InvalidAmount
      /** "Account not found!" */
    | NotFound
      /** An amount field that does not parse, or an empty number or holder. */
    | InvalidInput

  /** The three fields an account shows. */
  datatype Info = Info(number: string, holder: string, balance: real)

  /** The outcome of one ledger operation with the balance it leaves. */
  datatype Step = Step(outcome: Outcome, balance: real)

  /** Account.deposit: only a positive amount is credited. */
  function DepositStep(balance: real, amount: real): (s: Step)
    ensures s.outcome == Ok <==> amount > 0.0
    ensures s.outcome == Ok ==> s.balance == balance + amount
    ensures s.outcome != Ok ==> s.outcome == InvalidAmount && s.balance == balance
    ensures s.balance >= balance
  {
    if amount > 0.0 then Step(Ok, balance + amount) else Step(InvalidAmount, balance)
  }

  /** Account.withdraw: the overdraft test comes first, then the positivity
      test, so an amount that is both too large and not positive is reported
      as insufficient funds. */
  function WithdrawStep(balance: real, amount: real): (s: Step)
    ensures s.outcome == Ok <==> 0.0 < amount <= balance
    ensures s.outcome == Ok ==> s.balance == balance - amount
    ensures s.outcome == InsufficientFunds(balance) <==> amount > balance
    ensures s.outcome == InvalidAmount <==> amount <= 0.0 && amount <= balance
    ensures s.outcome != Ok ==> s.balance == balance
    ensures balance >= 0.0 ==> 0.0 <= s.balance <= balance
  {
    if amount > balance then Step(InsufficientFunds(balance), balance)
    else if amount > 0.0 then Step(Ok, balance - amount)
    else Step(InvalidAmount, balance)
  }

  /** The positivity-first order for a withdrawal: reject a non-positive
      amount first, then an overdraft. A reference to compare WithdrawStep with. */
  function WithdrawPositivityFirst(balance: real, amount: real): (s: Step)
    ensures s.outcome == Ok <==> 0.0 < amount <= balance
    ensures s.outcome == InvalidAmount <==> amount <= 0.0
    ensures s.outcome == InsufficientFunds(balance) <==> 0.0 < amount && balance < amount
    ensures s.outcome == Ok ==> s.balance == balance - amount
    ensures s.outcome != Ok ==> s.balance == balance
  {
    if amount <= 0.0 then Step(InvalidAmount, balance)
    else if amount > balance then Step(InsufficientFunds(balance), balance)
    else Step(Ok, balance - amount)
  }

  /** While the balance is not negative the order of the two tests cannot be observed. */
  lemma WithdrawOrderIrrelevantWhenSolvent(balance: real, amount: real)
    requires balance >= 0.0
    ensures WithdrawStep(balance, amount) == WithdrawPositivityFirst(balance, amount)
  {
  }

  /** With a negative balance (an account opened below zero) the order shows:
      a non-positive amount above the balance reads as insufficient funds. */
  lemma WithdrawOrderVisibleWhenOverdrawn(balance: real, amount: real)
    requires balance < amount <= 0.0
    ensures WithdrawStep(balance, amount).outcome == InsufficientFunds(balance)
    ensures WithdrawPositivityFirst(balance, amount).outcome == InvalidAmount
  {
  }

  /** On a balance that is not negative, a successful deposit is undone by
      withdrawing the same amount. (Below zero the withdrawal is refused as
      an overdraft.) */
  lemma DepositThenWithdraw(balance: real, amount: real)
    requires amount > 0.0 && balance >= 0.0
    ensures WithdrawStep(DepositStep(balance, amount).balance, amount) == Step(Ok, balance)
  {
  }

  /** A successful withdrawal is undone by depositing the same amount. */
  lemma WithdrawThenDeposit(balance: real, amount: real)
    requires 0.0 < amount <= balance
    ensures DepositStep(WithdrawStep(balance, amount).balance, amount) == Step(Ok, balance)
  {
  }

  /** One bank account. The number and the holder never change after
      creation; the balance is updated in place. */
  class Account {
    const number: string
    const holder: string
    var balance: real

    /** The opening balance is taken as given; nothing checks its sign. */
    constructor (number: string, holder: string, initialBalance: real)
      ensures this.number == number && this.holder == holder
      ensures balance == initialBalance
    {
      this.number := number;
      this.holder := holder;
      balance := initialBalance;
    }

    method Deposit(amount: real) returns (r: Outcome)
      modifies this
      ensures r == DepositStep(old(balance), amount).outcome
      ensures balance == DepositStep(old(balance), amount).balance
    {
      if amount > 0.0 {
        balance := balance + amount;
        r := Ok;
      } else {
        r := InvalidAmount;
      }
    }

    method Withdraw(amount: real) returns (r: Outcome)
      modifies this
      ensures r == WithdrawStep(old(balance), amount).outcome
      ensures balance == WithdrawStep(old(balance), amount).balance
    {
      if amount > balance {
        r := InsufficientFunds(balance);
      } else if amount > 0.0 {
        balance := balance - amount;
        r := Ok;
      } else {
        r := InvalidAmount;
      }
    }

    /** Reads the balance; with no modifies clause it changes nothing. */
    method GetBalance() returns (b: real)
      ensures b == balance
    {
      b := balance;
    }

    /** The fields display_account_info formats, read without side effects. */
    function Describe(): (i: Info)
      reads this
      ensures i.number == number && i.holder == holder && i.balance == balance
    {
      Info(number, holder, balance)
    }
  }
}
