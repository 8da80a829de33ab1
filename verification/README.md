# LinkMe ledger contract, modelled in Dafny

LinkMe is a SmartPy smart contract that keeps one storage record for a
small company. The record holds:

- the owner and a minimum investment, both fixed at origination;
- an investment ledger: `investors` per sender, plus the owner-keyed `my_investments`;
- a payroll: `employ_or_vendor`, the amount owed to each payee;
- a membership registry: pending `requests` and a `black_list`;
- two fields no entry point uses: `cap_table` and `eval`.

Seven entry points change this record: `invest`, `pay_employ_or_vendor`, `join`,
`reject`, `remove_from_job`, `remove_from_blacklist` and `update_record`. Each call
is atomic. A failed check aborts the whole call with an error string, and the
storage stays as it was.

The model has four modules:

- `Michelson` (michelson.dfy): addresses, mutez amounts bounded by 2^63-1,
  mutez addition that fails on overflow, and `sp.tez`.
- `Ledger` (ledger.dfy): the storage record as a datatype, plus one function per
  entry point. Each function maps the old storage to an `Outcome`: either
  `Applied(new storage, emitted transfers)` or `Aborted(error)`. Its contract
  gives the guards in the order MySubmittion.py checks them, and it says
  exactly which keys and fields change.
- `Transactions` (transactions.dfy): the closed set of calls and their atomic
  application (`Dispatch`, `Apply`, `Run`, `Emitted`). It also holds the
  invariants of reachable storage and the lemmas about sequences of calls.
- `Contract` (contract.dfy): class `LinkMe`, whose entry-point methods update its
  fields in place. Each method is proved to reply and to leave the storage
  exactly as the matching `Ledger` function says, and to keep `Valid()`.

`sp.send` is modelled as a `Transfer` that the entry point emits; it is not a
balance change.

`my_investments[owner]` is not a running total: a first-time investor
overwrites it with their own amount (MySubmittion.py:24). The model keeps this
overwrite, and `OwnerTotalResetByNewInvestor` exhibits it.

## Model

| member | source | states |
|---|---|---|
| `Michelson.AddMutez` | MySubmittion.py:26-27 | mutez addition succeeds exactly when the sum fits below 2^63, and then adds exactly the second operand |
| `Michelson.Tez` | MySubmittion.py:7 | `sp.tez(n)` is n whole tez: exactly n million mutez |
| `Ledger.Init` | MySubmittion.py:4-15 | at origination the owner and the minimum (val tez) are set, and every map is empty with `eval` 0 |
| `Ledger.Invest` | MySubmittion.py:17-27 | it aborts with "INVALID AMOUNT" exactly when the amount is below the minimum. For a returning sender, an overflowing sum of the sender's figure aborts first, then a missing owner key, then an overflowing owner sum. A first-time sender always succeeds otherwise, without reading the owner key. A returning sender succeeds exactly when neither mutez sum overflows and the owner key exists. The sender's figure grows by exactly the amount, and every other investor is untouched. The owner-keyed figure becomes the old figure plus the amount for a returning sender, and just the amount for a first-time one; no other key of `my_investments` changes. Nothing else changes and nothing is emitted |
| `Ledger.PayEmployOrVendor` | MySubmittion.py:29-38 | a non-owner gets "UNAUTHORISED ACCESS", an unknown id "INVALID ACCOUNT" and a zero balance "PAYMENTS MADE", in that order. It succeeds exactly otherwise (see "## Left out" on `sp.send`). On success it emits one transfer of the whole nonzero old balance to id. That balance becomes 0, the key stays, and nothing else changes |
| `Ledger.Join` | MySubmittion.py:40-45 | a blacklisted sender gets "YOU ARE BLACKLISTED" first. A sender with a pending request gets "REQUEST ALREADY SENT". It succeeds exactly otherwise, adding only the key sender with value 0 to `requests` |
| `Ledger.Reject` | MySubmittion.py:56-62 | non-owner: "UNAUTHORISED ACCESS"; id without request: "INVALID ADDRESS". It succeeds exactly otherwise. On success id leaves `requests` and enters `black_list` with 0, and nothing else changes |
| `Ledger.RemoveFromJob` | MySubmittion.py:64-72 | non-owner: "UNAUTHORISED ACCESS"; id not on payroll: "INVALID ADDRESS". On success id leaves the payroll and enters `black_list` with 0, and nothing else changes |
| `Ledger.RemoveFromBlacklist` | MySubmittion.py:74-80 | non-owner: "UNAUTHORISED ACCESS"; id not blacklisted: "INVALID ADDRESS". On success only key id is removed from `black_list` |
| `Ledger.UpdateRecord` | MySubmittion.py:82-90 | non-owner: "UNAUTHORISED ACCESS"; id not on payroll: "INVALID ADDRESS". On success only `employ_or_vendor[id]` is overwritten with salary, and the payroll keys stay the same |
| `Transactions.Dispatch` | MySubmittion.py:17-90 | every owner-only entry point aborts with "UNAUTHORISED ACCESS" for a non-owner, before any membership check. Only `invest` changes the investment ledgers. Only `pay_employ_or_vendor` emits, and at most one transfer. Owner, minimum, `cap_table` and `eval` never change |
| `Transactions.Run` | MySubmittion.py:5-15 | over any sequence of calls, owner, minimum, `cap_table` and `eval` keep their values |
| `Transactions.ConsistentStep` | MySubmittion.py:17-90 | from any storage, every call keeps request and blacklist values at 0. It keeps `my_investments` keyed by the owner alone, holding that key once anyone has invested |
| `Transactions.InitInv` | MySubmittion.py:5-15 | the storage at origination satisfies the reachable-state invariant |
| `Transactions.InvStep` | MySubmittion.py:17-90 | every call preserves the reachable-state invariant: the payroll stays empty and `requests` and `black_list` stay disjoint |
| `Transactions.InvRun` | MySubmittion.py:17-90 | any sequence of calls preserves the reachable-state invariant |
| `Transactions.Reachable` | MySubmittion.py:4-90 | every storage reachable from origination satisfies the invariant. In it the payroll is empty, `requests` and `black_list` are disjoint with all values 0, and `my_investments` holds only the owner key |
| `Transactions.InvestorsNeverDecrease` | MySubmittion.py:22-27 | across any sequence of calls an investor key is never removed and `investors[a]` never decreases |
| `Transactions.NothingEverPaid` | MySubmittion.py:34-38 | from a reachable storage no sequence of calls emits a transfer, since the payroll is empty |
| `Transactions.InvestNeverMissesOwnerKey` | MySubmittion.py:26-27 | on any consistent storage, so on every reachable one, `invest` never fails on a missing owner key in `my_investments` |
| `Transactions.NonOwnerChangesNothing` | MySubmittion.py:33-88 | an owner-only call by anyone else aborts with "UNAUTHORISED ACCESS" and leaves the storage unchanged |
| `Transactions.PayTwice` | MySubmittion.py:34-38 | right after a successful payment, paying the same id again aborts with "PAYMENTS MADE" and emits nothing |
| `Transactions.UpdateRecordNeverCreates` | MySubmittion.py:87-90 | in a reachable storage `update_record` always aborts, with "INVALID ADDRESS" for the owner: no payroll entry is created implicitly |
| `Transactions.JoinRejectJoin` | MySubmittion.py:40-62 | join, then the owner's reject succeeds, then a second join by the same address aborts with "YOU ARE BLACKLISTED" |
| `Transactions.UnblacklistThenJoin` | MySubmittion.py:41-80 | after `remove_from_blacklist(a)`, a join by `a` succeeds if `a` has no pending request |
| `Transactions.InvestScenario` | MySubmittion.py:119-129 | with a minimum of 2 tez, alice's 7 tez investment gives `investors = {alice: 7 tez}` and `my_investments = {owner: 7 tez}`. Her 1 tez investment then aborts with "INVALID AMOUNT" and changes nothing |
| `Transactions.OwnerTotalResetByNewInvestor` | MySubmittion.py:22-27 | after alice invests 7 tez and bob 2 tez, `my_investments[owner]` is 2 tez, not the 9 tez the two invested |
| `Contract.LinkMe.constructor` | MySubmittion.py:4-15 | the new object's storage is the origination storage, and it is valid |
| `Contract.LinkMe.Invest` | MySubmittion.py:17-27 | replies and updates the fields in place exactly as `Ledger.Invest` says, all or nothing, and keeps `Valid()`; on a valid object it never fails on a missing owner key |
| `Contract.LinkMe.PayEmployOrVendor` | MySubmittion.py:29-38 | replies, emits and updates the fields in place exactly as `Ledger.PayEmployOrVendor` says, and keeps `Valid()` |
| `Contract.LinkMe.Join` | MySubmittion.py:40-45 | replies and updates the fields in place exactly as `Ledger.Join` says, and keeps `Valid()` |
| `Contract.LinkMe.Reject` | MySubmittion.py:56-62 | replies and updates the fields in place exactly as `Ledger.Reject` says, and keeps `Valid()` |
| `Contract.LinkMe.RemoveFromJob` | MySubmittion.py:64-72 | replies and updates the fields in place exactly as `Ledger.RemoveFromJob` says, and keeps `Valid()` |
| `Contract.LinkMe.RemoveFromBlacklist` | MySubmittion.py:74-80 | replies and updates the fields in place exactly as `Ledger.RemoveFromBlacklist` says, and keeps `Valid()` |
| `Contract.LinkMe.UpdateRecord` | MySubmittion.py:82-90 | replies and updates the fields in place exactly as `Ledger.UpdateRecord` says, and keeps `Valid()` |

## Left out

- The commented-out entry points `accept`, `update_cap_table` and `send_SAFE_or_SAFT` (MySubmittion.py:47-54, 93-109). They are not live code. No accept transition is modelled, which is why the payroll provably stays empty.
- The `@sp.entry_point` decorator at MySubmittion.py:92, which ends up on the test function. It is a framework artefact.
- The test scenario harness (MySubmittion.py:111-129), apart from its two steps, which `InvestScenario` restates.
- How `sp.test_account("owner")` derives the owner's address. The owner is a parameter of origination. Addresses are natural numbers compared only for equality.
- Ledger.PayEmployOrVendor: does not model the abort of `sp.send` when `id` does not resolve to a contract that accepts a unit parameter. Addresses here are plain numbers, so address kinds cannot be told apart. The contract says the call succeeds whenever the three guards pass. In storage reachable from origination the payroll is empty, so no payment path is ever reached.
- The chain effect of `sp.send`: moving tez and the contract's balance. An entry point emits a `Transfer` record instead, and the model does not check the balance. Tezos runs emitted operations only after the call's storage update. So `pay_employ_or_vendor`'s send-before-zero order is not observable here, and reentrancy is not modelled.
- Tez attached to calls other than `invest`. They go to the contract's balance, which the model does not track.
- `sp.set_type` annotations. Their effect is captured by the Dafny types `Address`, `Mutez` and `nat`.
- The environment's exact failure value for a mutez overflow or a lookup of a missing key. These are the `MutezOverflow` and `MissingKey` errors.
- `cap_table` and `eval` are kept as fields that no entry point writes. The model gives them no behaviour.
