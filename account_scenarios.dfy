/** The unit tests of src/account.rs as client code: each method builds an
    account, applies transactions through the class and asserts what the
    test asserts, using nothing but the methods' contracts. Amounts are in
    units of 1/10000, so 5.0 is 50000. */
module AccountScenarios {
  import opened Transactions
  import opened AccountSpec
  import opened Accounts

  function Tx(kind: TransactionType, tx: TransactionId, amount: Amount): Transaction {
    Transaction(kind, 0, tx, amount)
  }

  method WithdrawalWithSufficientFunds() {
    var account := new Account.Default();
    account.available, account.total := 50000, 50000;
    account.Apply(Tx(Withdrawal, 0, 40000));
    assert account.total == 10000 && account.available == 10000;
  }

  method WithdrawalWithInsufficientFunds() {
    var account := new Account.Default();
    account.available, account.total := 40000, 40000;
    account.Apply(Tx(Withdrawal, 0, 50000));
    assert account.total == 40000 && account.available == 40000;
  }

  method DisputeDepositFreezesFunds() {
    var account := new Account.Default();
    account.Apply(Tx(Deposit, 0, 50000));
    account.Apply(Tx(Dispute, 0, 0));
    assert account.total == 50000 && account.available == 0 && account.held == 50000;
    assert account.txHistory[0].disputed;
  }

  method DisputeWithdrawalRaisesHeld() {
    var account := new Account.Default();
    account.available, account.total := 50000, 50000;
    account.Apply(Tx(Withdrawal, 0, 50000));
    account.Apply(Tx(Dispute, 0, 0));
    assert account.total == 50000 && account.available == 0 && account.held == 50000;
    assert account.txHistory[0].disputed;
  }

  method ResolveDisputedDeposit() {
    var account := new Account.Default();
    account.Apply(Tx(Deposit, 0, 50000));
    account.Apply(Tx(Dispute, 0, 0));
    account.Apply(Tx(Resolve, 0, 0));
    assert account.total == 50000 && account.available == 50000 && account.held == 0;
    assert !account.txHistory[0].disputed;
  }

  method ResolveDisputedWithdrawal() {
    var account := new Account.Default();
    account.available, account.total := 50000, 50000;
    account.Apply(Tx(Withdrawal, 0, 50000));
    account.Apply(Tx(Dispute, 0, 0));
    account.Apply(Tx(Resolve, 0, 0));
    assert account.total == 0 && account.available == 0 && account.held == 0;
    assert !account.txHistory[0].disputed;
  }

  method ChargebackDisputedDeposit() {
    var account := new Account.Default();
    account.Apply(Tx(Deposit, 0, 50000));
    account.Apply(Tx(Dispute, 0, 0));
    account.Apply(Tx(Chargeback, 0, 0));
    assert account.total == 0 && account.available == 0 && account.held == 0 && account.locked;
  }

  method ChargebackDisputedWithdrawal() {
    var account := new Account.Default();
    account.available, account.total := 50000, 50000;
    account.Apply(Tx(Withdrawal, 0, 50000));
    account.Apply(Tx(Dispute, 0, 0));
    account.Apply(Tx(Chargeback, 0, 0));
    assert account.total == 50000 && account.available == 50000 && account.held == 0 && account.locked;
  }

  method LockedAccountIgnoresEverything() {
    var account := new Account.Default();
    account.locked := true;
    account.Apply(Tx(Deposit, 0, 1000000));
    account.Apply(Tx(Withdrawal, 1, 555500));
    account.Apply(Tx(Dispute, 0, 0));
    assert account.total == 0 && account.available == 0 && account.held == 0 && account.locked;
  }

  /** Disputing a deposit whose money was partly withdrawn is not refused:
      available goes negative while total stays available plus held. */
  method DisputeAfterWithdrawalOverdraws() {
    var account := new Account.Default();
    account.Apply(Tx(Deposit, 0, 50000));
    account.Apply(Tx(Withdrawal, 1, 40000));
    account.Apply(Tx(Dispute, 0, 0));
    assert account.available == -40000 && account.held == 50000 && account.total == 10000;
  }

  /** A deposit reusing the id of a disputed entry replaces it with an
      undisputed one, although the disputed amount stays held. */
  method ReusedIdReplacesEntry() {
    var account := new Account.Default();
    account.Apply(Tx(Deposit, 7, 50000));
    account.Apply(Tx(Dispute, 7, 0));
    account.Apply(Tx(Deposit, 7, 20000));
    assert account.available == 20000 && account.held == 50000 && account.total == 70000;
    assert account.txHistory[7] == DisputableTransaction(Tx(Deposit, 7, 20000), false);
  }
}
