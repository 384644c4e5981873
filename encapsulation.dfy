/**
 * Encapsulation: a `BankAccount` whose balance is private, has no setter,
 * and changes only through guarded deposits and withdrawals, so that it is
 * never negative.
 */
module Encapsulation {
  /** `BankAccount`. */
  class BankAccount {
    var accountHolderName: string
    var balance: real

    /** The invariant the guards keep. */
    predicate Valid()
      reads this
    {
      balance >= 0.0
    }

    /** A positive initial balance is taken; anything else leaves the default 0. */
    constructor(name: string, initialBalance: real)
      ensures Valid()
      ensures accountHolderName == name
      ensures initialBalance > 0.0 ==> balance == initialBalance
      ensures initialBalance <= 0.0 ==> balance == 0.0
    {
      accountHolderName := name;
      balance := if initialBalance > 0.0 then initialBalance else 0.0;
    }

    /** `getBalance()`. */
    function GetBalance(): (b: real)
      reads this
      requires Valid()
      ensures b == balance && b >= 0.0
    {
      balance
    }

    /** `setAccountHolderName`: the name only; the balance is untouched. */
    method SetAccountHolderName(accountHolderName: string)
      requires Valid()
      modifies this
      ensures Valid()
      ensures this.accountHolderName == accountHolderName && balance == old(balance)
    {
      this.accountHolderName := accountHolderName;
    }

    /** `deposit(amount)`: added when positive, otherwise refused. */
    method Deposit(amount: real)
      requires Valid()
      modifies this
      ensures Valid()
      ensures accountHolderName == old(accountHolderName)
      ensures amount > 0.0 ==> balance == old(balance) + amount
      ensures amount <= 0.0 ==> balance == old(balance)
    {
      if amount > 0.0 {
        balance := balance + amount;
      }
    }

    /** `withdraw(amount)`: taken when positive and covered by the balance, otherwise refused. */
    method Withdraw(amount: real)
      requires Valid()
      modifies this
      ensures Valid()
      ensures accountHolderName == old(accountHolderName)
      ensures 0.0 < amount <= old(balance) ==> balance == old(balance) - amount
      ensures !(0.0 < amount <= old(balance)) ==> balance == old(balance)
    {
      if amount > 0.0 && amount <= balance {
        balance := balance - amount;
      }
    }
  }

  /** Starting from 1000: deposit 500, a refused deposit of -100, withdraw 200, a refused withdrawal of 5000. */
  method AccountScenario() returns (account: BankAccount)
    ensures account.Valid() && account.balance == 1300.0
  {
    account := new BankAccount("John Doe", 1000.0);
    account.Deposit(500.0);
    account.Deposit(-100.0);
    account.Withdraw(200.0);
    account.Withdraw(5000.0);
  }
}
