/**
  A counter contract: one global unsigned 32-bit counter and one counter per
  caller, read with a zero default. The caller identity is an explicit
  parameter.
 */
module Incrementer {
  import opened Env

  const U32_LIMIT: nat := 0x1_0000_0000
  type U32 = x: nat | x < U32_LIMIT

  class Incrementer {
    var value: U32
    /** The per-caller counters; a caller with no entry reads 0. */
    var counts: map<AccountId, U32>

    /** Starts the global counter at `initValue` and stores 0 for the caller. */
    constructor (initValue: U32, caller: AccountId)
      ensures value == initValue
      ensures counts == map[caller := 0]
      ensures Get() == initValue && forall c :: GetMine(c) == 0
    {
      value := initValue;
      counts := map[caller := 0];
    }

    /** The global counter at 0 and no per-caller entries. */
    constructor Default()
      ensures value == 0
      ensures counts == map[]
      ensures Get() == 0 && forall c :: GetMine(c) == 0
    {
      value := 0;
      counts := map[];
    }

    /** The global counter. */
    function Get(): (r: U32)
      reads this
      ensures r == value
    {
      value
    }

    /** The caller's counter, 0 when the caller has no entry. */
    function GetMine(caller: AccountId): (r: U32)
      reads this
      ensures caller !in counts ==> r == 0
      ensures caller in counts ==> r == counts[caller]
    {
      if caller in counts then counts[caller] else 0
    }

    /** Adds `amount` to the global counter; the per-caller counters are untouched. */
    method Inc(amount: U32)
      requires value + amount < U32_LIMIT
      modifies this`value
      ensures value == old(value) + amount
      ensures counts == old(counts)
    {
      value := value + amount;
    }

    /**
      Adds `amount` to the caller's counter (absent counts as 0); the global
      counter and every other caller's entry are untouched.
     */
    method IncMine(caller: AccountId, amount: U32)
      requires GetMine(caller) + amount < U32_LIMIT
      modifies this`counts
      ensures counts == old(counts)[caller := old(GetMine(caller)) + amount]
      ensures GetMine(caller) == old(GetMine(caller)) + amount
      ensures forall c :: c != caller ==> GetMine(c) == old(GetMine(c))
      ensures value == old(value)
    {
      var myValue := GetMine(caller);
      counts := counts[caller := myValue + amount];
    }

    /**
      Deletes the caller's entry, so the caller reads 0 again; the global
      counter and every other caller's entry are untouched.
     */
    method RemoveMine(caller: AccountId)
      modifies this`counts
      ensures counts == old(counts) - {caller}
      ensures GetMine(caller) == 0
      ensures forall c :: c != caller ==> GetMine(c) == old(GetMine(c))
      ensures value == old(value)
    {
      counts := counts - {caller};
    }
  }
}
