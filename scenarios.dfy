/** Worked scenarios, derived by clients of BankingSystem from
    the method contracts alone. */
module Scenarios {
  import opened Accounts
  import opened Directory

  /** Lookups and bad input on an empty directory. */
  method EmptyDirectoryScenario() {
    var bank := new BankingSystem();

    // Looking up an account in the empty directory: not found.
    var shown := bank.DisplayInfo("ZZ");
    assert shown == None;

    // An empty account number is refused and leaves the directory as it was.
    var r := bank.CreateAccount("", "Bob", Parsed(10.0));
    assert r == InvalidInput;
    assert bank.accounts == map[];

    // A deposit into an unknown account: not found.
    r := bank.Deposit("ZZ", Parsed(10.0));
    assert r == NotFound;
  }

  /** A1 / Alice / 100.0, then a deposit of 50.0 and a refused withdrawal of 200.0. */
  method AliceScenario() {
    var bank := new BankingSystem();
    var r := bank.CreateAccount("A1", "Alice", Parsed(100.0));
    assert r == Ok;
    var b := bank.accounts["A1"].GetBalance();
    assert b == 100.0;

    r := bank.Deposit("A1", Parsed(50.0));
    assert r == Ok;
    assert bank.Snapshot()["A1"].balance == 150.0;

    r := bank.Withdraw("A1", Parsed(200.0));
    assert r == InsufficientFunds(150.0);
    assert bank.Snapshot()["A1"].balance == 150.0;
  }

  /** A blank opening balance means 0; a blank amount is not a number. */
  method BlankFieldScenario() {
    var bank := new BankingSystem();
    var r := bank.CreateAccount("B2", "Bob", Blank);
    assert r == Ok;
    assert bank.Snapshot()["B2"] == Info("B2", "Bob", 0.0);

    r := bank.Deposit("B2", Blank);
    assert r == InvalidInput;
    assert bank.Snapshot()["B2"].balance == 0.0;
  }

  /** A refused create keeps the Account object filed under the number, so a
      reference taken before it still sees later deposits. */
  method RefusedCreateScenario() {
    var bank := new BankingSystem();
    var r := bank.CreateAccount("A1", "Alice", Parsed(100.0));
    var a := bank.accounts["A1"];

    r := bank.CreateAccount("A1", "", Parsed(1.0));
    assert r == InvalidInput;
    assert bank.accounts["A1"] == a;

    r := bank.Deposit("A1", Parsed(50.0));
    assert a.balance == 150.0;
  }
}
