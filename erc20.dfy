/**
  A reduced ERC-20 token ledger: a fixed total supply issued to the creating
  account, a sparse account-to-balance map read with a zero default, and a
  transfer that fails with InsufficientBalance or moves value and logs a
  Transfer event. The caller identity is an explicit parameter.
 */
module Erc20 {
  import opened Env

  /** Balances are unsigned 128-bit integers. */
  const MAX_BALANCE: nat := 0xffff_ffff_ffff_ffff_ffff_ffff_ffff_ffff
  type Balance = b: nat | b <= MAX_BALANCE

  datatype Error = InsufficientBalance

  datatype Result<T> = Ok(value: T) | Err(error: Error)

  /** The contract's event; issuance is a Transfer whose `from` is None. */
  datatype Event = Transfer(from: Option<AccountId>, to: Option<AccountId>, value: Balance)

  /** The zero-default read: an account with no entry holds 0. */
  function BalanceIn(m: map<AccountId, Balance>, owner: AccountId): (r: Balance)
    ensures owner !in m ==> r == 0
    ensures owner in m ==> r == m[owner]
  {
    if owner in m then m[owner] else 0
  }

  /** The sum of all balances stored in `m`. */
  ghost function Sum(m: map<AccountId, Balance>): (r: nat)
    decreases |m|
  {
    if m == map[] then 0
    else
      var k :| k in m;
      assert |m - {k}| < |m| by { assert m.Keys - {k} < m.Keys; }
      m[k] + Sum(m - {k})
  }

  /** Any entry can be split off the sum, whichever one `Sum` picks first. */
  lemma {:induction false} SumRemove(m: map<AccountId, Balance>, k: AccountId)
    requires k in m
    ensures Sum(m) == m[k] + Sum(m - {k})
    decreases |m|
  {
    var j :| j in m && Sum(m) == m[j] + Sum(m - {j});
    if j != k {
      assert |m - {j}| < |m| by { assert (m - {j}).Keys < m.Keys; }
      assert |m - {k}| < |m| by { assert (m - {k}).Keys < m.Keys; }
      SumRemove(m - {j}, k);
      SumRemove(m - {k}, j);
      assert m - {j} - {k} == m - {k} - {j};
    }
  }

  /** Overwriting one entry changes the sum by the difference of the two values. */
  lemma SumUpdate(m: map<AccountId, Balance>, k: AccountId, v: Balance)
    ensures Sum(m[k := v]) + BalanceIn(m, k) == Sum(m) + v
  {
    SumRemove(m[k := v], k);
    if k in m {
      SumRemove(m, k);
      assert m[k := v] - {k} == m - {k};
    } else {
      assert m[k := v] - {k} == m;
    }
  }

  /** No single balance exceeds the sum of all balances. */
  lemma BalanceAtMostSum(m: map<AccountId, Balance>, k: AccountId)
    ensures BalanceIn(m, k) <= Sum(m)
  {
    if k in m {
      SumRemove(m, k);
    }
  }

  /**
    After the debit of `from`, crediting `to` with `value` cannot exceed the
    sum of balances before the transfer; so when that sum is the total supply
    the credit stays within Balance.
   */
  lemma CreditBounded(m: map<AccountId, Balance>, from: AccountId, to: AccountId, value: Balance)
    requires value <= BalanceIn(m, from)
    ensures BalanceIn(m[from := BalanceIn(m, from) - value], to) + value <= Sum(m)
  {
    var debited := m[from := BalanceIn(m, from) - value];
    SumUpdate(m, from, BalanceIn(m, from) - value);
    BalanceAtMostSum(debited, to);
  }

  /**
    The balances after a successful transfer: debit `from`, then re-read `to`
    (so a self-transfer nets to nothing) and credit it.
   */
  function Moved(m: map<AccountId, Balance>, from: AccountId, to: AccountId, value: Balance): (r: map<AccountId, Balance>)
    requires value <= BalanceIn(m, from)
    requires Sum(m) <= MAX_BALANCE
    ensures Sum(r) == Sum(m)
    ensures r.Keys == m.Keys + {from, to}
    ensures from != to ==> BalanceIn(r, from) == BalanceIn(m, from) - value
    ensures from != to ==> BalanceIn(r, to) == BalanceIn(m, to) + value
    ensures from == to ==> BalanceIn(r, from) == BalanceIn(m, from)
    ensures forall a :: a != from && a != to ==> BalanceIn(r, a) == BalanceIn(m, a)
  {
    var debited := m[from := BalanceIn(m, from) - value];
    CreditBounded(m, from, to, value);
    SumUpdate(m, from, BalanceIn(m, from) - value);
    SumUpdate(debited, to, BalanceIn(debited, to) + value);
    debited[to := BalanceIn(debited, to) + value]
  }

  class Erc20 {
    var totalSupply: Balance
    var balances: map<AccountId, Balance>
    /** The Transfer events emitted so far, oldest first. */
    var events: seq<Event>

    /** Conservation: the balances add up to the total supply. */
    ghost predicate Valid()
      reads this
    {
      Sum(balances) == totalSupply
    }

    /** Issues the whole supply to the creating account. */
    constructor (initialSupply: Balance, caller: AccountId)
      ensures Valid()
      ensures totalSupply == initialSupply
      ensures balances == map[caller := initialSupply]
      ensures BalanceOf(caller) == initialSupply
      ensures forall a :: a != caller ==> BalanceOf(a) == 0
      ensures events == [Event.Transfer(None, Some(caller), initialSupply)]
    {
      totalSupply := initialSupply;
      balances := map[caller := initialSupply];
      events := [Event.Transfer(None, Some(caller), initialSupply)];
      SumUpdate(map[], caller, initialSupply);
    }

    function TotalSupply(): (r: Balance)
      reads this
      ensures r == totalSupply
      ensures Valid() ==> r == Sum(balances)
    {
      totalSupply
    }

    /** The balance of `owner`, 0 for an account with no entry. */
    function BalanceOf(owner: AccountId): (r: Balance)
      reads this
      ensures owner !in balances ==> r == 0
      ensures owner in balances ==> r == balances[owner]
      ensures Valid() ==> r <= totalSupply
    {
      BalanceAtMostSum(balances, owner);
      BalanceIn(balances, owner)
    }

    /** The caller moves `value` of its own tokens to `to`. */
    method Transfer(caller: AccountId, to: AccountId, value: Balance) returns (r: Result<()>)
      requires Valid()
      modifies this`balances, this`events
      ensures Valid()
      ensures totalSupply == old(totalSupply)
      ensures r.Err? <==> old(BalanceOf(caller)) < value
      ensures r.Err? ==> r.error == InsufficientBalance
      ensures r.Err? ==> balances == old(balances) && events == old(events)
      ensures r.Ok? ==> balances == Moved(old(balances), caller, to, value)
      ensures r.Ok? ==> events == old(events) + [Event.Transfer(Some(caller), Some(to), value)]
    {
      r := TransferFromTo(caller, to, value);
    }

    /**
      Moves `value` from `from` to `to`, or fails with InsufficientBalance
      and changes nothing.
     */
    method TransferFromTo(from: AccountId, to: AccountId, value: Balance) returns (r: Result<()>)
      requires Valid()
      modifies this`balances, this`events
      ensures Valid()
      ensures totalSupply == old(totalSupply)
      ensures r.Err? <==> old(BalanceOf(from)) < value
      ensures r.Err? ==> r.error == InsufficientBalance
      ensures r.Err? ==> balances == old(balances) && events == old(events)
      ensures r.Ok? ==> balances == Moved(old(balances), from, to, value)
      ensures r.Ok? ==> events == old(events) + [Event.Transfer(Some(from), Some(to), value)]
    {
      var fromBalance := BalanceOf(from);
      if fromBalance < value {
        return Err(InsufficientBalance);
      }
      ghost var before := balances;
      balances := balances[from := fromBalance - value];
      var toBalance := BalanceOf(to);
      CreditBounded(before, from, to, value);
      balances := balances[to := toBalance + value];
      assert balances == Moved(before, from, to, value);
      events := events + [Event.Transfer(Some(from), Some(to), value)];
      r := Ok(());
    }
  }
}
