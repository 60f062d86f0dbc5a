/** The account directory of the banking app: a dictionary from account
    number to Account, driven by the create, deposit, withdraw and display
    handlers. Each handler is specified by a function on a value snapshot of
    the directory (account number to the account's fields). */
module Directory {
  import opened Accounts

  /** An amount entry field after stripping and float conversion. */
  datatype AmountField =
    | Blank             // the stripped text is empty
    | Parsed(value: real)
    | Malformed         // float(...) raised ValueError

  datatype Option<T> = None | Some(value: T)

  /** The directory as values: account number to the account's fields. */
  type Dir = map<string, Info>

  /** The outcome of one handler with the directory it leaves. */
  datatype Reply = Reply(outcome: Outcome, dir: Dir)

  /** Every entry is filed under its own account number. */
  ghost predicate WellKeyed(dir: Dir) {
    forall k :: k in dir ==> dir[k].number == k
  }

  /** No account holds a negative balance. */
  ghost predicate Solvent(dir: Dir) {
    forall k :: k in dir ==> dir[k].balance >= 0.0
  }

  /** dir' differs from dir at most in the balance filed under number. */
  ghost predicate OnlyBalanceOf(dir: Dir, dir': Dir, number: string) {
    && dir'.Keys == dir.Keys
    && (forall k :: k in dir && k != number ==> dir'[k] == dir[k])
    && (forall k :: k in dir ==> dir'[k].number == dir[k].number && dir'[k].holder == dir[k].holder)
  }

  /** create_account: a malformed opening balance or an empty number or holder
      is rejected; otherwise a new account is filed under the number,
      replacing any account already there. A blank opening balance means 0. */
  function ApplyCreate(dir: Dir, number: string, holder: string, initial: AmountField): (r: Reply)
    ensures r.outcome == Ok || r.outcome == InvalidInput
    ensures r.outcome == InvalidInput <==> initial.Malformed? || number == "" || holder == ""
    ensures r.outcome == InvalidInput ==> r.dir == dir
    ensures r.outcome == Ok ==> r.dir.Keys == dir.Keys + {number}
    ensures r.outcome == Ok ==>
      r.dir[number] == Info(number, holder, if initial.Parsed? then initial.value else 0.0)
    ensures forall k :: k in dir && k != number ==> k in r.dir && r.dir[k] == dir[k]
    ensures WellKeyed(dir) ==> WellKeyed(r.dir)
  {
    if initial.Malformed? then Reply(InvalidInput, dir)
    else if number != "" && holder != "" then
      var opening := if initial.Parsed? then initial.value else 0.0;
      Reply(Ok, dir[number := Info(number, holder, opening)])
    else Reply(InvalidInput, dir)
  }

  /** deposit handler: the amount must parse (a blank one does not), then the
      account must exist, then Account.deposit decides. */
  function ApplyDeposit(dir: Dir, number: string, amount: AmountField): (r: Reply)
    ensures !amount.Parsed? ==> r == Reply(InvalidInput, dir)
    ensures amount.Parsed? && number !in dir ==> r == Reply(NotFound, dir)
    ensures r.outcome == Ok <==> amount.Parsed? && number in dir && amount.value > 0.0
    ensures r.outcome == Ok ==> number in r.dir && r.dir[number].balance == dir[number].balance + amount.value
    ensures amount.Parsed? && number in dir && amount.value <= 0.0 ==> r.outcome == InvalidAmount
    ensures r.outcome != Ok ==> r.dir == dir
    ensures OnlyBalanceOf(dir, r.dir, number)
    ensures Solvent(dir) ==> Solvent(r.dir)
  {
    if !amount.Parsed? then Reply(InvalidInput, dir)
    else if number !in dir then Reply(NotFound, dir)
    else
      var s := DepositStep(dir[number].balance, amount.value);
      Reply(s.outcome, dir[number := dir[number].(balance := s.balance)])
  }

  /** withdraw handler: the amount must parse, then the account must exist,
      then Account.withdraw decides. */
  function ApplyWithdraw(dir: Dir, number: string, amount: AmountField): (r: Reply)
    ensures !amount.Parsed? ==> r == Reply(InvalidInput, dir)
    ensures amount.Parsed? && number !in dir ==> r == Reply(NotFound, dir)
    ensures r.outcome == Ok <==> amount.Parsed? && number in dir && 0.0 < amount.value <= dir[number].balance
    ensures r.outcome == Ok ==> number in r.dir && r.dir[number].balance == dir[number].balance - amount.value
    ensures amount.Parsed? && number in dir && amount.value > dir[number].balance ==>
      r.outcome == InsufficientFunds(dir[number].balance)
    ensures amount.Parsed? && number in dir && amount.value <= 0.0 && amount.value <= dir[number].balance ==>
      r.outcome == InvalidAmount
    ensures r.outcome != Ok ==> r.dir == dir
    ensures OnlyBalanceOf(dir, r.dir, number)
    ensures Solvent(dir) ==> Solvent(r.dir)
  {
    if !amount.Parsed? then Reply(InvalidInput, dir)
    else if number !in dir then Reply(NotFound, dir)
    else
      var s := WithdrawStep(dir[number].balance, amount.value);
      Reply(s.outcome, dir[number := dir[number].(balance := s.balance)])
  }

  /** The directory the app keeps for its lifetime. Accounts are objects;
      deposits and withdrawals update the one filed under the given number. */
  class BankingSystem {
    var accounts: map<string, Account>

    /** Every account is filed under its own number, so two numbers never
        share an Account object. */
    ghost predicate Valid()
      reads this
    {
      forall k :: k in accounts ==> accounts[k].number == k
    }

    /** The directory as values. */
    ghost function Snapshot(): (d: Dir)
      reads this, accounts.Values
      ensures d.Keys == accounts.Keys
      ensures Valid() ==> WellKeyed(d)
    {
      map k | k in accounts :: accounts[k].Describe()
    }

    constructor ()
      ensures Valid() && accounts == map[]
    {
      accounts := map[];
    }

    method CreateAccount(number: string, holder: string, initial: AmountField) returns (r: Outcome)
      requires Valid()
      modifies this
      ensures Valid()
      ensures r == ApplyCreate(old(Snapshot()), number, holder, initial).outcome
      ensures Snapshot() == ApplyCreate(old(Snapshot()), number, holder, initial).dir
      ensures r == Ok ==> number in accounts && fresh(accounts[number])
      ensures r != Ok ==> accounts == old(accounts)
      ensures forall k :: k in old(accounts) && k != number ==> k in accounts && accounts[k] == old(accounts[k])
    {
      if initial.Malformed? {
        return InvalidInput;
      }
      var opening := if initial.Parsed? then initial.value else 0.0;
      if number != "" && holder != "" {
        ghost var before := Snapshot();
        var account := new Account(number, holder, opening);
        accounts := accounts[number := account];
        r := Ok;
        assert Snapshot() == before[number := Info(number, holder, opening)];
      } else {
        r := InvalidInput;
      }
    }

    method Deposit(number: string, amount: AmountField) returns (r: Outcome)
      requires Valid()
      modifies accounts.Values
      ensures Valid() && accounts == old(accounts)
      ensures r == ApplyDeposit(old(Snapshot()), number, amount).outcome
      ensures Snapshot() == ApplyDeposit(old(Snapshot()), number, amount).dir
    {
      if !amount.Parsed? {
        return InvalidInput;
      }
      if number in accounts {
        r := accounts[number].Deposit(amount.value);
      } else {
        r := NotFound;
      }
    }

    method Withdraw(number: string, amount: AmountField) returns (r: Outcome)
      requires Valid()
      modifies accounts.Values
      ensures Valid() && accounts == old(accounts)
      ensures r == ApplyWithdraw(old(Snapshot()), number, amount).outcome
      ensures Snapshot() == ApplyWithdraw(old(Snapshot()), number, amount).dir
    {
      if !amount.Parsed? {
        return InvalidInput;
      }
      if number in accounts {
        r := accounts[number].Withdraw(amount.value);
      } else {
        r := NotFound;
      }
    }

    /** display_info: the fields of the account filed under number, or None
        for "Account not found!". Changes nothing. */
    method DisplayInfo(number: string) returns (r: Option<Info>)
      ensures r.Some? <==> number in accounts
      ensures r.Some? ==> r.value == Snapshot()[number]
    {
      if number in accounts {
        var info := accounts[number].Describe();
        r := Some(info);
      } else {
        r := None;
      }
    }
  }
}
