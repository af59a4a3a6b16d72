# ink! ledgers in Dafny

A model of two small ink! smart contracts, each as a Dafny class. The caller's
account is an explicit parameter.

- `Erc20` (erc20.dfy) is a reduced ERC-20 token (EIP-20, "Specification"
  section). It holds `totalSupply`, `balances` (a sparse
  `map<AccountId, Balance>` read with a zero default) and `events`, the
  `Transfer` events emitted so far, oldest first.
  - The constructor credits the whole supply to the caller and logs the
    issuance as a `Transfer` from `None`.
  - `TransferFromTo` either fails with `InsufficientBalance` and changes
    nothing, or does three things in order: debits `from`, re-reads `to`,
    credits `to`. It then logs `Transfer(Some(from), Some(to), value)`.
  - `Valid()` is the object invariant: the balances add up to the total
    supply (`Sum`). Every method keeps it.
  - `Balance` is the unsigned 128-bit range. So the credit at erc20/lib.rs:94
    has to be proved to stay in range, and the invariant proves it
    (`CreditBounded`).
  - The source has two implementations of the zero-default read:
    `balance_of_or_zero` (`unwrap_or(0)`) and `balance_of_impl`
    (`unwrap_or_default()`). `balance_of` delegates to the first of them. The
    model has one, `BalanceIn` on maps, which `BalanceOf` reads through.
  - `Moved` is the map after a successful transfer. It is the specification
    that `TransferFromTo` is proved against.
- `Incrementer` (incrementer.dfy) has two kinds of counter:
  - a global `U32` counter `value`;
  - per-caller counters `counts`, which are read with a zero default.

  `Get` and `GetMine` are the read-only accessors. `Inc` may change only `value`.
  `IncMine` and `RemoveMine` may change only `counts`, and only at the caller's
  entry.
- env.dfy holds the shared types: the ink! environment's 32-byte `AccountId`
  and an `Option` standing for Rust's `core::option::Option`.
- The scenario modules are client code. They drive each class through the
  contract's unit scenarios, using only the class specifications.

## Model

| member | source | states |
|---|---|---|
| Erc20.Erc20.constructor | erc20/lib.rs:41-53 | total supply is `initial_supply`; the caller holds exactly `initial_supply`; every other account reads 0; the invariant holds; the log is exactly `Transfer(None, Some(caller), initial_supply)` |
| Erc20.Erc20.TotalSupply | erc20/lib.rs:57-60 | returns the total supply, which under the invariant equals the sum of all balances |
| Erc20.Erc20.BalanceOf | erc20/lib.rs:63-72 | an account without an entry reads 0, otherwise its stored balance; under the invariant no balance exceeds the total supply |
| Erc20.BalanceIn | erc20/lib.rs:104-106 | the zero-default read on a balance map: an account without an entry reads 0, otherwise its stored balance |
| Erc20.Erc20.Transfer | erc20/lib.rs:75-78 | the caller's transfer has exactly the effect of `TransferFromTo` with `from` = caller |
| Erc20.Erc20.TransferFromTo | erc20/lib.rs:80-101 | fails iff `from`'s balance is below `value`. On failure the error is `InsufficientBalance` and balances and log are unchanged. On success the balances become `Moved(old balances)` and exactly one `Transfer(Some(from), Some(to), value)` is appended. Total supply and the conservation invariant are kept either way |
| Erc20.Moved | erc20/lib.rs:92-94 | the balances after a successful transfer. The sum of balances is unchanged. When `from != to`, `from` drops by `value` and `to` rises by `value`. A self-transfer leaves the account unchanged. Every other account is unchanged, and both `from` and `to` now have entries |
| Erc20.CreditBounded | erc20/lib.rs:92-94 | after the debit, `to_balance + value` is at most the sum of balances before the transfer. That sum is the total supply, so the addition cannot overflow |
| Erc20.SumUpdate | erc20/lib.rs:92-94 | one `insert` changes the sum of balances by the new value minus the old zero-default value |
| Erc20.SumRemove | erc20/lib.rs:14-16 | the sum of balances splits as any one entry plus the sum of the rest |
| Erc20.BalanceAtMostSum | erc20/lib.rs:104-106 | the zero-default balance of any account is at most the sum of all balances |
| Erc20Scenarios.NewWorks | erc20/lib.rs:121-124 | a ledger created with 777 reports a total supply of 777 |
| Erc20Scenarios.BalanceWorks | erc20/lib.rs:127-132 | after creation with 100, the creator holds 100 and any other account 0 |
| Erc20Scenarios.TransferWorks | erc20/lib.rs:135-146 | after the creator sends 25 of 100, it holds 75 and the recipient 25 |
| Erc20Scenarios.TransferWorks2 | erc20/lib.rs:149-154 | a recipient that read 0 receives 10, the transfer returns `Ok`, and the recipient then reads 10 |
| Erc20Scenarios.TransferTooMuch | erc20/lib.rs:86-89 | sending 150 of 100 returns `InsufficientBalance`; sender still 100, recipient still 0 |
| Erc20Scenarios.TransferLogsEvents | erc20/lib.rs:95-99 | after creation and one transfer the log is exactly the issuance then the transfer, in that order |
| Erc20Scenarios.SelfAndZeroTransfers | erc20/lib.rs:92-94 | a self-transfer, and a zero-value transfer from an empty account, both succeed and change no balance |
| Incrementer.Incrementer.constructor | incrementer/lib.rs:19-27 | `value` is `init_value`; the map holds exactly a 0 for the caller, so every caller reads 0 |
| Incrementer.Incrementer.Default | incrementer/lib.rs:30-34 | `value` is 0 and the map is empty, so every caller reads 0 |
| Incrementer.Incrementer.Get | incrementer/lib.rs:37-39 | returns the global counter `value` |
| Incrementer.Incrementer.GetMine | incrementer/lib.rs:42-46 | the caller's counter: 0 when the caller has no entry, otherwise the stored entry |
| Incrementer.Incrementer.Inc | incrementer/lib.rs:49-51 | `value` grows by `by`; the method's frame is the `value` field alone, and the map is unchanged |
| Incrementer.Incrementer.IncMine | incrementer/lib.rs:54-58 | the caller's entry becomes its previous zero-default reading plus `by`. Every other caller's reading and `value` are unchanged |
| Incrementer.Incrementer.RemoveMine | incrementer/lib.rs:61-64 | the caller's entry is deleted, so the caller reads 0. Every other caller's reading and `value` are unchanged |
| IncrementerScenarios.DefaultWorks | incrementer/lib.rs:73-76 | the default contract reads 0 |
| IncrementerScenarios.ItWorks | incrementer/lib.rs:79-86 | starting at 42, increments of 1 and 11 read back 43 and then 54 |
| IncrementerScenarios.MyValueWorks | incrementer/lib.rs:89-93 | a contract created with 11 reads 11, and the creator's own counter reads 0 |
| IncrementerScenarios.IncMineWorks | incrementer/lib.rs:96-103 | the caller's own counter reads 0, then 1, then 101: successive increments accumulate |
| IncrementerScenarios.RemoveMineWorks | incrementer/lib.rs:106-113 | after reaching 25 and being removed, the caller's counter reads 0, and another caller's 7 is untouched |

## Left out

- Caller identity is a parameter (`caller`, `from`) rather than being read from
  the runtime. `get_caller_address` (erc20/lib.rs:109-111) only returns that
  runtime value, so it has no counterpart.
- The storage engine is replaced by Dafny `map` fields: `ink_storage::Mapping`,
  `SpreadAllocate` and `initialize_contract`. A freshly initialised contract
  starts with an empty map.
- Event delivery and topic indexing are not modelled. Only the appended
  `Transfer` record is kept, in the `events` field.
- SCALE encoding, type-info derives, ink! attributes and `cfg` features are
  left out. They have no behaviour.
- Deployment, gas and concurrency are left out. The runtime runs one call at a
  time, and each method is modelled as one atomic step.
- Incrementer.Incrementer.Inc: requires `value + by` to stay below 2^32. It
  does not model what the source's u32 `+=` does past that bound: a panic
  that reverts the call when overflow checks are on, or a wrap-around when
  they are off.
- Incrementer.Incrementer.IncMine: requires the caller's reading plus `by` to
  stay below 2^32, for the same reason as `Inc`.
- In the Dafny, the `by` parameter is named `amount`, because `by` is a
  Dafny keyword. The source's `map` field is named `counts`, for the same
  reason.
