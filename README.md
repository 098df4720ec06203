# Per-client ledger of assets-exchange, in Dafny

This project models the account state machine of assets-exchange. That is the
code that takes a stream of deposits, withdrawals, disputes, resolves and
chargebacks for one client and keeps three balances (`available`, `held`,
`total`), a `locked` flag and a history of stored transactions
(`src/account.rs`).

- `transaction.dfy` (module `Transactions`): the types from
  `src/transaction.rs`. `ClientId` is a `u16` and `TransactionId` a `u32`,
  both as subset types. `Amount` is an exact integer count of 1/10000 units.
  `TransactionType` has five kinds. `Transaction` is the flat record `kind`,
  `client`, `tx`, `amount`.
- `account_spec.dfy` (module `AccountSpec`): the account as a value
  (`AccountState`) and one transaction's effect as pure functions: `SaveTx`,
  `HandleDisputes` and `Apply`. The dispute, resolve and chargeback effects are
  written as a table (`Effect`) keyed by the stored kind and the action.
  `Valid` is the history invariant: only deposits and withdrawals are stored,
  each under its own id. `Balanced` is `total == available + held`.
- `account.dfy` (module `Accounts`): the `Account` class. It has the source's
  fields, with `txHistory` as a `map`, and the getter `Id` for `Account::id`
  (no contract: it only reads the field). Its methods `SaveTx`, `Apply` and
  `HandleDisputes` update the fields in place, and each is proved to produce
  `AccountSpec`'s result from the old state. `HandleDisputes` leaves out the
  `unreachable!()` arms. The verifier proves from the first half of `Valid()`
  (only deposits and withdrawals are stored) that the match on the stored kind
  needs no other case (src/account.rs:146). It proves from the requires
  `currentTx.kind.IsDisputeKind()`, which stands for `apply` sending only the
  three dispute kinds there (src/account.rs:74), that the two matches on the
  action need no other case (src/account.rs:113, 143).
- `account_lemmas.dfy` (module `AccountLemmas`): the properties of the state
  machine:
  - the per-kind effects;
  - the cases that change nothing;
  - locking is terminal over any later sequence of transactions;
  - the invariants hold over any sequence;
  - a dispute followed by a resolve restores the exact prior state.
- `account_scenarios.dfy` (module `AccountScenarios`): the unit tests of
  `src/account.rs`, written as client methods that use only the class's
  contracts. Two more methods show that a dispute can overdraw `available`
  and that a deposit reusing an id replaces the stored entry.

The model keeps these policies of the code in `src/account.rs`:
- `apply` returns nothing. Every rejection is a silent no-op, so the model has
  no error type. A rejected step leaves the state unchanged.
- Disputing a deposit does not check that `available` covers the amount.
  `available` may become negative (`DisputeAfterWithdrawalOverdraws`).
- A deposit or withdrawal whose id is already in the history is not refused.
  `HashMap::insert` replaces the entry with an undisputed one and the balances
  still move (`ReusedIdReplacesEntry`).
- `tx.client` is never compared with the account's id.
- There is no multi-account dispatcher in the code, so none is modelled.

`Account::save_tx` is public and accepts a transaction of any kind. Only
`apply` calls it, and only with deposits and withdrawals, so `Valid()` holds
for every account built by the constructors and `apply`. `Accounts.Account.SaveTx`
therefore promises `Valid()` afterwards only when it stores a deposit or a
withdrawal. `Accounts.Account.Apply` requires `Valid()`. Its first half is the
assumption behind the `unreachable!()` arm on the stored kind
(src/account.rs:146); its second half (each key is its entry's own `tx`) is
kept as a documented invariant of `save_tx` and no arm relies on it.

## Model

| member | source | states |
|---|---|---|
| `AccountSpec.Effect` | src/account.rs:96-144 | every dispute, resolve and chargeback effect moves the balances so that the change in total equals the change in available plus the change in held; a dispute adds the stored amount to held, and a resolve or chargeback takes it out |
| `AccountSpec.SaveTx` | src/account.rs:47-55 | the history gains the key `tx.tx`, whose entry is the transaction marked undisputed (an earlier entry with that id is overwritten); every other entry and all balances, the lock and the id are unchanged; a well-formed history stays well formed when a deposit or withdrawal is stored |
| `AccountSpec.HandleDisputes` | src/account.rs:78-149 | an unknown id, or a step rejected by the `(disputed, kind)` gate, leaves the account unchanged; otherwise only the referenced entry may change, the history keeps its keys, total stays available plus held, the history stays well formed, and the account ends up locked exactly when it was locked already or this was a chargeback on a disputed entry |
| `AccountSpec.Apply` | src/account.rs:57-76 | a locked account is left unchanged; the history stays well formed (only deposits and withdrawals, each under its own id); total stays available plus held; the client id never changes; the account ends up locked exactly when it was locked or the transaction is a chargeback on a disputed stored entry |
| `Accounts.Account.Default` | src/account.rs:22-33 | client 0, all three balances zero, unlocked, empty history; the new account is well formed and balanced |
| `Accounts.Account.New` | src/account.rs:36-41 | like the default account, but for the given client id |
| `Accounts.Account.SaveTx` | src/account.rs:47-55 | the fields afterwards are `AccountSpec.SaveTx` of the fields before; storing a deposit or withdrawal keeps the history well formed |
| `Accounts.Account.Apply` | src/account.rs:57-76 | the fields afterwards are `AccountSpec.Apply` of the fields before; the history stays well formed; a balanced account stays balanced; a locked account is left entirely unchanged |
| `Accounts.Account.HandleDisputes` | src/account.rs:78-149 | the fields afterwards are `AccountSpec.HandleDisputes` of the fields before, with no case for a stored kind other than deposit or withdrawal |
| `AccountLemmas.LockedIgnoresAll` | src/account.rs:58-60 | applying any transaction to a locked account returns it unchanged: balances, lock and history |
| `AccountLemmas.LockedIsTerminal` | src/account.rs:58-60 | a locked account is unchanged by every finite sequence of later transactions |
| `AccountLemmas.RunPreservesInvariants` | src/account.rs:57-149 | every sequence of transactions keeps the history well formed, keeps total equal to available plus held, keeps the client id, and never unlocks a locked account |
| `AccountLemmas.ChargebackLocksForGood` | src/account.rs:107-141 | a chargeback on a disputed entry of an unlocked account locks it, and after that no sequence of transactions changes anything |
| `AccountLemmas.DepositEffect` | src/account.rs:62-66 | on an unlocked account a deposit adds its amount to available and total, leaves held and the lock alone, and stores the deposit undisputed under its id |
| `AccountLemmas.WithdrawalEffect` | src/account.rs:67-73 | on an unlocked account a withdrawal takes effect if and only if available is at least the amount; then available and total drop by the amount, held and the lock stay, and the withdrawal is stored undisputed; otherwise the whole state is unchanged |
| `AccountLemmas.DisputeStepsIgnored` | src/account.rs:79-87 | dispute, resolve or chargeback on an unknown id, a dispute of a disputed entry, and a resolve or chargeback of an undisputed entry each leave the account unchanged |
| `AccountLemmas.DisputeEffect` | src/account.rs:96-124 | disputing an undisputed entry adds its amount to held, takes it out of available for a deposit or adds it to total for a withdrawal, marks the entry disputed and does not lock |
| `AccountLemmas.ResolveEffect` | src/account.rs:102-132 | resolving a disputed entry takes its amount out of held, puts it back into available for a deposit or takes it out of total for a withdrawal, clears the entry's flag and does not lock |
| `AccountLemmas.ChargebackEffect` | src/account.rs:107-141 | charging back a disputed entry takes its amount out of held, out of total for a deposit or into available for a withdrawal, locks the account and leaves the history as it was (the entry stays disputed) |
| `AccountLemmas.ResolveUndoesDispute` | src/account.rs:96-132 | for both stored kinds, the balance change of a resolve is the exact negation of the change of a dispute |
| `AccountLemmas.DisputeThenResolveRestores` | src/account.rs:96-132 | disputing an undisputed stored transaction on an unlocked account and then resolving it yields exactly the account before the dispute |

## Left out

- Amounts are `f64` in the source. The model counts 1/10000 units exactly, so floating-point rounding in additions, subtractions and the `>=` comparison is not modelled.
- The `serde_amount` serializer and deserializer (rounding and truncating to 4 decimal places), the `Deref`/`DerefMut` impls on `Amount`, and the serde derives on `Account` are serialization glue, not ledger logic.
- `src/main.rs` is a CSV-printing demo that never touches `Account`. It is not part of this model.
- The `unreachable!()` panics are not modelled as behaviour. The model instead proves that they cannot be reached from a well-formed account.
