/** A session of the banking app: the window dispatches one user action at a
    time to a handler, each acting on the directory left by the one before.
    The lemmas state what holds of the directory after ANY such sequence. */
module Session {
  import opened Accounts
  import opened Directory

  /** One press of a button, with the text of the fields it reads. */
  datatype Action =
    | Create(number: string, holder: string, initial: AmountField)
    | Deposit(number: string, amount: AmountField)
    | Withdraw(number: string, amount: AmountField)
    | Display(number: string)

  /** The handler the button runs. Displaying only reads. */
  function Apply(dir: Dir, a: Action): (r: Reply)
    ensures a.Display? ==> r == Reply(if a.number in dir then Ok else NotFound, dir)
    ensures !a.Create? ==> r.dir.Keys == dir.Keys
  {
    match a
    case Create(number, holder, initial) => ApplyCreate(dir, number, holder, initial)
    case Deposit(number, amount) => ApplyDeposit(dir, number, amount)
    case Withdraw(number, amount) => ApplyWithdraw(dir, number, amount)
    case Display(number) => Reply(if number in dir then Ok else NotFound, dir)
  }

  /** The directory after the actions, in order. */
  function Run(dir: Dir, actions: seq<Action>): Dir
    decreases |actions|
  {
    if actions == [] then dir else Run(Apply(dir, actions[0]).dir, actions[1..])
  }

  /** No action removes an account: the keys only grow. */
  lemma {:induction false} RunNeverRemoves(dir: Dir, actions: seq<Action>)
    ensures dir.Keys <= Run(dir, actions).Keys
    decreases |actions|
  {
    if actions != [] {
      RunNeverRemoves(Apply(dir, actions[0]).dir, actions[1..]);
    }
  }

  /** Without a create action the set of accounts stays exactly the same. */
  lemma {:induction false} RunWithoutCreateKeepsKeys(dir: Dir, actions: seq<Action>)
    requires forall i :: 0 <= i < |actions| ==> !actions[i].Create?
    ensures Run(dir, actions).Keys == dir.Keys
    decreases |actions|
  {
    if actions != [] {
      RunWithoutCreateKeepsKeys(Apply(dir, actions[0]).dir, actions[1..]);
    }
  }

  /** Every account stays filed under its own number. */
  lemma {:induction false} RunKeepsWellKeyed(dir: Dir, actions: seq<Action>)
    requires WellKeyed(dir)
    ensures WellKeyed(Run(dir, actions))
    decreases |actions|
  {
    if actions != [] {
      var next := Apply(dir, actions[0]).dir;
      assert WellKeyed(next) by {
        if !actions[0].Create? {
          assert OnlyBalanceOf(dir, next, actions[0].number) || next == dir;
        }
      }
      RunKeepsWellKeyed(next, actions[1..]);
    }
  }

  /** An action that cannot open an account below zero. */
  predicate OpensSolvent(a: Action) {
    a.Create? && a.initial.Parsed? ==> a.initial.value >= 0.0
  }

  /** Deposits and withdrawals never drive a balance below zero; only an
      account opened with a negative balance can be below zero. */
  lemma {:induction false} RunKeepsSolvent(dir: Dir, actions: seq<Action>)
    requires Solvent(dir)
    requires forall i :: 0 <= i < |actions| ==> OpensSolvent(actions[i])
    ensures Solvent(Run(dir, actions))
    decreases |actions|
  {
    if actions != [] {
      var next := Apply(dir, actions[0]).dir;
      assert OpensSolvent(actions[0]);
      assert Solvent(next);
      RunKeepsSolvent(next, actions[1..]);
    }
  }

  /** Nothing checks the sign of an opening balance: one create action can
      leave a negative balance in the directory. */
  lemma NegativeOpeningIsAccepted()
    ensures Apply(map[], Create("A1", "Alice", Parsed(-5.0))).outcome == Ok
    ensures !Solvent(Run(map[], [Create("A1", "Alice", Parsed(-5.0))]))
  {
    var r := Apply(map[], Create("A1", "Alice", Parsed(-5.0)));
    assert r.dir["A1"].balance == -5.0;
  }

  /** The number and holder of an account change only when a create action
      names its number again (which replaces the whole account). */
  lemma {:induction false} RunKeepsHolder(dir: Dir, actions: seq<Action>, number: string)
    requires number in dir
    requires forall i :: 0 <= i < |actions| ==> !(actions[i].Create? && actions[i].number == number)
    ensures number in Run(dir, actions)
    ensures Run(dir, actions)[number].number == dir[number].number
    ensures Run(dir, actions)[number].holder == dir[number].holder
    decreases |actions|
  {
    if actions != [] {
      var next := Apply(dir, actions[0]).dir;
      assert number in next && next[number].number == dir[number].number && next[number].holder == dir[number].holder;
      RunKeepsHolder(next, actions[1..], number);
    }
  }

  /** An account number that no create action names stays unknown. */
  lemma {:induction false} RunNeverInventsAccounts(dir: Dir, actions: seq<Action>, number: string)
    requires number !in dir
    requires forall i :: 0 <= i < |actions| ==> !(actions[i].Create? && actions[i].number == number)
    ensures number !in Run(dir, actions)
    decreases |actions|
  {
    if actions != [] {
      var next := Apply(dir, actions[0]).dir;
      assert number !in next;
      RunNeverInventsAccounts(next, actions[1..], number);
    }
  }
}
