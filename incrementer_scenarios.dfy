/**
  Client code that drives the Incrementer through the unit scenarios of the
  contract, proved from the class's specifications alone.
 */
module IncrementerScenarios {
  import opened Env
  import opened Incrementer

  /** The default contract starts at 0. */
  method DefaultWorks() returns (v: U32)
    ensures v == 0
  {
    var counter := new Incrementer.Default();
    v := counter.Get();
  }

  /** Starting at 42, increments of 1 and 11 read back 43 and 54. */
  method ItWorks() returns (v0: U32, v1: U32, v2: U32)
    ensures v0 == 42 && v1 == 43 && v2 == 54
  {
    var caller: AccountId := seq(32, _ => 1);
    var counter := new Incrementer(42, caller);
    v0 := counter.Get();
    counter.Inc(1);
    v1 := counter.Get();
    counter.Inc(11);
    v2 := counter.Get();
  }

  /** A new contract stores 0 for its creator. */
  method MyValueWorks(caller: AccountId) returns (v: U32, mine: U32)
    ensures v == 11 && mine == 0
  {
    var counter := new Incrementer(11, caller);
    v := counter.Get();
    mine := counter.GetMine(caller);
  }

  /** Successive increments of the caller's counter accumulate: 0, 1, 101. */
  method IncMineWorks(caller: AccountId) returns (m0: U32, m1: U32, m2: U32)
    ensures m0 == 0 && m1 == 1 && m2 == 101
  {
    var counter := new Incrementer.Default();
    m0 := counter.GetMine(caller);
    counter.IncMine(caller, 1);
    m1 := counter.GetMine(caller);
    counter.IncMine(caller, 100);
    m2 := counter.GetMine(caller);
  }

  /** Removing the caller's entry resets it to 0 without touching others. */
  method RemoveMineWorks(caller: AccountId, other: AccountId) returns (m1: U32, m2: U32, o: U32)
    requires other != caller
    ensures m1 == 25 && m2 == 0 && o == 7
  {
    var counter := new Incrementer.Default();
    counter.IncMine(other, 7);
    counter.IncMine(caller, 25);
    m1 := counter.GetMine(caller);
    counter.RemoveMine(caller);
    m2 := counter.GetMine(caller);
    o := counter.GetMine(other);
  }
}
