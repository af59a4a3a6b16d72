/**
  Client code that drives the Erc20 ledger through the unit scenarios of the
  contract, proved from the class's specifications alone.
 */
module Erc20Scenarios {
  import opened Env
  import opened Erc20

  /** A new ledger reports its initial supply. */
  method NewWorks(caller: AccountId) returns (supply: Balance)
    ensures supply == 777
  {
    var token := new Erc20(777, caller);
    supply := token.TotalSupply();
  }

  /** The creator holds the supply; any other account reads 0. */
  method BalanceWorks(caller: AccountId, other: AccountId) returns (supply: Balance, mine: Balance, theirs: Balance)
    requires other != caller
    ensures supply == 100 && mine == 100 && theirs == 0
  {
    var token := new Erc20(100, caller);
    supply := token.TotalSupply();
    mine := token.BalanceOf(caller);
    theirs := token.BalanceOf(other);
  }

  /** Alice, the creator, sends 25 of 100 to Bob. */
  method TransferWorks(alice: AccountId, bob: AccountId) returns (r: Result<()>, a: Balance, b: Balance)
    requires alice != bob
    ensures r.Ok? && a == 75 && b == 25
  {
    var token := new Erc20(100, alice);
    r := token.Transfer(alice, bob, 25);
    a := token.BalanceOf(alice);
    b := token.BalanceOf(bob);
  }

  /** The creator sends 10 to an account that held nothing, which then holds 10. */
  method TransferWorks2(caller: AccountId, other: AccountId) returns (before: Balance, r: Result<()>, after: Balance)
    requires other != caller
    ensures before == 0 && r.Ok? && after == 10
  {
    var token := new Erc20(100, caller);
    before := token.BalanceOf(other);
    r := token.Transfer(caller, other, 10);
    after := token.BalanceOf(other);
  }

  /** A transfer above the sender's balance fails and changes no balance. */
  method TransferTooMuch(alice: AccountId, bob: AccountId) returns (r: Result<()>, a: Balance, b: Balance)
    requires alice != bob
    ensures r == Err(InsufficientBalance) && a == 100 && b == 0
  {
    var token := new Erc20(100, alice);
    r := token.Transfer(alice, bob, 150);
    a := token.BalanceOf(alice);
    b := token.BalanceOf(bob);
  }

  /** The event stream holds the issuance, then the transfer, in that order. */
  method TransferLogsEvents(alice: AccountId, bob: AccountId) returns (log: seq<Event>)
    ensures log == [Event.Transfer(None, Some(alice), 100), Event.Transfer(Some(alice), Some(bob), 10)]
  {
    var token := new Erc20(100, alice);
    var r := token.Transfer(alice, bob, 10);
    log := token.events;
  }

  /** A self-transfer and a zero-value transfer succeed and leave balances as they were. */
  method SelfAndZeroTransfers(alice: AccountId, bob: AccountId) returns (r1: Result<()>, r2: Result<()>, a: Balance, b: Balance)
    requires alice != bob
    ensures r1.Ok? && r2.Ok? && a == 100 && b == 0
  {
    var token := new Erc20(100, alice);
    r1 := token.Transfer(alice, alice, 60);
    r2 := token.Transfer(bob, alice, 0);
    a := token.BalanceOf(alice);
    b := token.BalanceOf(bob);
  }
}
