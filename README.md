# Transaction processor: a verified model of the ledger-replay engine

The transaction processor reads a stream of ledger events and keeps one
account per client. The event kinds are deposit, withdrawal, dispute,
resolve and chargeback. Its core has three parts:

- the account, with `available`, `held` and `total` funds and a `locked` flag;
- the event record, whose only mutable part is its `in_dispute` flag;
- the engine `process_transaction`. It creates the client's account on first
  sight, then runs one of five handlers. Deposits and withdrawals are stored
  under their transaction id. Disputes, resolves and chargebacks look up the
  stored record, check its client and dispute flag, and then change both the
  account and the record.

The model has five modules:

- `Ids` (ids.dfy): identifiers and amounts. Amounts are exact integers in
  ten-thousandths of a unit (`Unit == 10000`), the precision the program
  prints.
- `Accounts` (account.dfy) covers account.rs. `Account` is a class whose
  methods update its fields in place. Each method is specified by the
  function of the same name on the value type `AccountState`. Lemmas show
  that every mutator keeps `total == available + held`, never clears
  `locked` and never changes the client id.
- `Transactions` (transaction.dfy) covers transaction.rs: the class
  `Transaction` and its value type `Record`.
- `ProcessorSpec` (processor_spec.dfy) is the engine as a function:
  - the `Ledger` value (both maps);
  - one function per handler;
  - `Apply` for one event and `Replay` for a sequence;
  - lemmas for each handler's effect, the frame of one event, the ledger
    invariant, lock finality and which keys exist after a replay.
- `TransactionProcessor` (transaction_processor.dfy) is the engine as the
  source runs it. `Processor` holds `map<ClientId, Account>` and
  `map<TxId, Transaction>` and has one method per handler. Each method is
  proved to change the abstract ledger exactly as `ProcessorSpec` says.
  `RunProcessTransaction`, the test driver, is proved to leave the replay of
  its input.
- `Scenarios` (scenarios.dfy) holds both unit tests and further event
  sequences as lemmas about `Replay`. Client ids and amounts are symbolic, so
  each lemma covers every run of the same shape; two further lemmas apply
  them to the tests' own values (1.0, 2.0, 1.5, 3.0 and 5.0, clients 1 and 2).

The model follows the code as written, including behaviour a reader might
not expect:

- A deposit or withdrawal whose id is already stored replaces the earlier
  record. It is not rejected as a duplicate (`DuplicateIdOverwritesScenario`).
- A withdrawal refused for lack of funds is still stored
  (`WithdrawalEffect`, `DepositWithdrawScenario`), and it can then be
  disputed (`RefusedWithdrawalDisputeScenario`).
- A chargeback only clears the record's dispute flag, so the record can be
  disputed again (`ChargedBackRecordDisputedAgainScenario`).
- `hold` does not check the available funds, so `available` can become
  negative (`DisputeAfterWithdrawalScenario`).
- Dispute, resolve and chargeback act only on a record that has an amount.
  Every stored record has one (`RecordsValid`).
- The client's account is created even for an event that is then ignored
  (`ApplyFrame`, `ForeignDisputeScenario`).

## Model

| member | source | states |
|---|---|---|
| Accounts.NewAccount | src/models/account.rs:13-21 | a new account has the given client id, all three balances zero and is not locked |
| Accounts.Account.constructor | src/models/account.rs:13-21 | the new object holds exactly `NewAccount(clientId)` |
| Accounts.AccountState.UpdateTotal | src/models/account.rs:43-45 | afterwards `total == available + held`; available, held, locked and client are unchanged; a consistent account is left as it is |
| Accounts.AccountState.Add | src/models/account.rs:47-50 | available rises by the amount; held, locked and client are unchanged; total is recomputed, so on a consistent account it rises by the amount |
| Accounts.AccountState.Subtract | src/models/account.rs:52-57 | when the amount is covered, available falls by it and stays non-negative, held, locked and client are kept, and total is recomputed; otherwise the account is unchanged in every field |
| Accounts.AccountState.Hold | src/models/account.rs:59-62 | the amount moves from available to held; total, locked and client are unchanged; the sum of available and held is kept |
| Accounts.AccountState.Release | src/models/account.rs:64-67 | the amount moves from held back to available; total, locked and client are unchanged |
| Accounts.AccountState.Chargeback | src/models/account.rs:69-73 | held falls by the amount, available is unchanged, the account is locked, total is recomputed, so on a consistent account it falls by the amount |
| Accounts.HoldReleaseInverse | src/models/account.rs:59-67 | releasing what was just held restores the account exactly, and so does holding what was just released |
| Accounts.OpPreservesConsistency | src/models/account.rs:43-73 | each of the five mutators keeps `total == available + held` |
| Accounts.OpsPreserveInvariants | src/models/account.rs:5-73 | any sequence of mutators keeps the balance invariant, never unlocks a locked account and never changes the client id |
| Accounts.OpsKeepLockAndClient | src/models/account.rs:5-73 | from any state, consistent or not, any sequence of mutators never unlocks a locked account and never changes the client id |
| Accounts.Account.UpdateTotal | src/models/account.rs:43-45 | the object's new value is `UpdateTotal` of its old value |
| Accounts.Account.Add | src/models/account.rs:47-50 | the object's new value is `Add` of its old value |
| Accounts.Account.Subtract | src/models/account.rs:52-57 | the object's new value is `Subtract` of its old value |
| Accounts.Account.Hold | src/models/account.rs:59-62 | the object's new value is `Hold` of its old value |
| Accounts.Account.Release | src/models/account.rs:64-67 | the object's new value is `Release` of its old value |
| Accounts.Account.Chargeback | src/models/account.rs:69-73 | the object's new value is `Chargeback` of its old value |
| Transactions.NewRecord | src/models/transaction.rs:21-34 | the record carries the given kind, client, id and amount and is not in dispute |
| Transactions.Transaction.constructor | src/models/transaction.rs:21-34 | the new object holds exactly `NewRecord` of its arguments |
| Transactions.Transaction.SetDispute | src/models/transaction.rs:56-58 | the dispute flag becomes the argument; kind, client, id and amount are unchanged |
| ProcessorSpec.AccountOf | src/services/transaction_processor.rs:13-15 | the client's stored account if there is one, otherwise a new account for that client |
| ProcessorSpec.WithAccount | src/services/transaction_processor.rs:13-15 | the client is added to the account keys and its entry is `AccountOf`, so a new zero, unlocked account when it had none; no existing account and no record changes |
| ProcessorSpec.ApplyFrame | src/services/transaction_processor.rs:7-38 | after any event the event's client has an account; no other account changes; the record keys grow only by the event's id, and only for a deposit or withdrawal with an amount, which is then stored as is; no record under another id changes |
| ProcessorSpec.ApplyAfterOpen | src/services/transaction_processor.rs:13-37 | applying an event equals opening the client's account and then storing the account and records the handler returns |
| ProcessorSpec.MissingAmountIgnored | src/services/transaction_processor.rs:48-51 | a deposit or withdrawal without an amount only opens the client's account |
| ProcessorSpec.DepositEffect | src/services/transaction_processor.rs:43-52 | a deposit credits available (and total, on a consistent account), keeps held and locked, and stores the event under its id, replacing any earlier record |
| ProcessorSpec.WithdrawalEffect | src/services/transaction_processor.rs:57-66 | a covered withdrawal debits available, which stays non-negative, keeps held and locked, and on a consistent account lowers total by the amount; an uncovered one leaves the account unchanged; the event is stored in both cases |
| ProcessorSpec.DisputeEffect | src/services/transaction_processor.rs:71-85 | a dispute changes more than the account creation exactly when the record exists, is not in dispute, belongs to the same client and has an amount; it then makes the account `Hold` of that amount (total and locked kept) and replaces the record by itself marked in dispute, leaving its kind, client and amount and every other record as they were; no record is added |
| ProcessorSpec.ResolveEffect | src/services/transaction_processor.rs:90-104 | a resolve changes more than the account creation exactly when the record exists, is in dispute, belongs to the same client and has an amount; it then makes the account `Release` of that amount (total and locked kept) and replaces the record by itself with the flag cleared, leaving every other field and record as they were; no record is added |
| ProcessorSpec.ChargebackEffect | src/services/transaction_processor.rs:109-123 | a chargeback changes more than the account creation exactly when the record exists, is in dispute, belongs to the same client and has an amount; it then makes the account `Chargeback` of that amount (held lowered, available kept, locked, consistent) and replaces the record by itself with the flag cleared, leaving every other field and record as they were; no record is added |
| ProcessorSpec.DisputeResolveRoundTrip | src/services/transaction_processor.rs:76-103 | a dispute that applies followed by the same client's resolve of the same record gives back the ledger as it was, apart from opening the client's account: same balances, record out of dispute again |
| ProcessorSpec.ApplyPreservesValid | src/services/transaction_processor.rs:7-123 | one event keeps the ledger invariant: every account is consistent and filed under its own client, and every record is filed under its own id and is a deposit or withdrawal with an amount |
| ProcessorSpec.ReplayPreservesValid | src/services/transaction_processor.rs:130-137 | the ledger invariant holds after every prefix of any event sequence |
| ProcessorSpec.ApplyKeepsLocks | src/services/transaction_processor.rs:7-123 | no event unlocks or removes a locked account |
| ProcessorSpec.ReplayKeepsLocks | src/services/transaction_processor.rs:130-137 | once locked, an account stays locked whatever events follow |
| ProcessorSpec.ReplayDomains | src/services/transaction_processor.rs:130-137 | after a replay from empty maps, the account keys are exactly the events' clients, and the record keys are exactly the ids of the deposits and withdrawals with an amount |
| ProcessorSpec.ReplayFirstPrefix | src/services/transaction_processor.rs:133-135 | the replay of the first n events depends only on those events |
| ProcessorSpec.ReplaySnoc | src/services/transaction_processor.rs:133-135 | replaying one more event applies it to the replay of the others |
| TransactionProcessor.Processor.constructor | src/services/transaction_processor.rs:131-132 | a new processor holds two empty maps |
| TransactionProcessor.Processor.OpenAccount | src/services/transaction_processor.rs:13-19 | the client is in the account map afterwards and the returned object is its account; the abstract ledger becomes `WithAccount`; only a fresh account object can be added |
| TransactionProcessor.Processor.ProcessTransaction | src/services/transaction_processor.rs:7-38 | the abstract ledger afterwards is `Apply` of the ledger before and of the event; the maps stay filed by their own keys |
| TransactionProcessor.Processor.RunHandler | src/services/transaction_processor.rs:19-37 | the account and the records afterwards are what `Dispatch` returns for the event's kind; no other account changes |
| TransactionProcessor.Processor.ProcessDeposit | src/services/transaction_processor.rs:43-52 | the account and the records afterwards are what `DepositStep` returns |
| TransactionProcessor.Processor.ProcessWithdraw | src/services/transaction_processor.rs:57-66 | the account and the records afterwards are what `WithdrawStep` returns |
| TransactionProcessor.Processor.ProcessDispute | src/services/transaction_processor.rs:71-85 | the account and the records afterwards are what `DisputeStep` returns |
| TransactionProcessor.Processor.ProcessResolve | src/services/transaction_processor.rs:90-104 | the account and the records afterwards are what `ResolveStep` returns |
| TransactionProcessor.Processor.ProcessChargeback | src/services/transaction_processor.rs:109-123 | the account and the records afterwards are what `ChargebackStep` returns |
| TransactionProcessor.RunProcessTransaction | src/services/transaction_processor.rs:130-137 | processing the events one by one, in order, from a new processor leaves exactly `Replay` of their values from the empty ledger |
| Scenarios.DepositWithdrawScenario | src/services/transaction_processor.rs:140-164 | after three deposits and a covered and an uncovered withdrawal there are two accounts and five records; the first client has the deposits minus the covered withdrawal, the second keeps its deposit, nothing is held and neither is locked |
| Scenarios.DisputeResolveChargebackScenario | src/services/transaction_processor.rs:167-192 | after deposit, dispute and resolve the first client has the deposit available, nothing held and is unlocked; after deposit, dispute and chargeback the second client has nothing and is locked; there are two accounts and two records, neither in dispute |
| Scenarios.DepositWithdrawTest | src/services/transaction_processor.rs:140-164 | the first unit test with its own values: two accounts and five records, client 1 holds 1.5 available and total, client 2 holds 2.0, nothing held, neither locked |
| Scenarios.DisputeResolveChargebackTest | src/services/transaction_processor.rs:167-192 | the second unit test with its own values: two accounts and two records, client 1 holds 5.0 available and total and is unlocked, client 2 holds nothing and is locked |
| Scenarios.DuplicateIdOverwritesScenario | src/services/transaction_processor.rs:48-51 | a second deposit under the same id replaces the first record; a dispute then holds the second amount while both stay credited |
| Scenarios.RefusedWithdrawalDisputeScenario | src/services/transaction_processor.rs:62-65 | a refused withdrawal is stored; disputing it holds its amount and drives available negative |
| Scenarios.DisputeAfterWithdrawalScenario | src/models/account.rs:59-62 | disputing a deposit after a covered withdrawal holds the whole deposit, leaving available at minus the withdrawn amount |
| Scenarios.ChargedBackRecordDisputedAgainScenario | src/services/transaction_processor.rs:114-122 | a charged-back record can be disputed again; the locked account then holds the amount a second time |
| Scenarios.ForeignDisputeScenario | src/services/transaction_processor.rs:76-77 | a client disputing another client's record only gets an empty account; the record and the owner's account are unchanged |

## Left out

- The CSV input, the JSON checkpoints and the printed output of src/services/io.rs are I/O and library calls. So is the checkpoint cadence. The model starts from the decoded events and stops at the final maps.
- The command line and the logger of src/main.rs, the data carrier of src/models/checkpoint.rs and the process-spawning integration test in tests/integration_test.rs are left out.
- Amounts are exact integers, not `f32`. Rounding drift is not modelled. With exact amounts, `hold` and `release` keep `total` equal to `available + held`. In `f32` that can fail by a rounding error.
- src/models/id.rs is not part of this model. Client and transaction ids are unbounded naturals, so fixed id widths are not modelled.
- The getters of account.rs and transaction.rs are reads of the class fields. They have no separate members.
- The map iteration order of the output is not modelled. The ledger is a pair of maps, and the output order is not specified anyway.
- Deserialisation is modelled by `NewRecord`: an event read without a dispute flag starts out of dispute.
- RunProcessTransaction: the events are given as distinct objects, as values moved out of a vector are. Moving ownership into the map is modelled by storing the same object.
