# Ledger engine model (csv-reader)

This project is a Dafny model of the transaction engine of `csv-reader`, a small
payments ledger. The engine reads client transactions one by one and keeps two
tables:

- **accounts**: one account per client. Each account holds an `available` and a
  `held` balance and a `locked` flag. Its `total` is derived.
- **ledger**: one entry per transfer id. An entry keeps the transfer and its
  dispute state, which is two flags: under dispute and charged back.

Deposits and withdrawals are *transfers*. They move money and create ledger
entries. Disputes, resolves and chargebacks are *mutations*. Each names an
earlier transfer by its id. A mutation first changes that entry's dispute
state. If the entry accepts it, the mutation then moves the amount between
`available` and `held`, or removes it (a chargeback, which also locks the
account).

The model has two layers.

- **Values.** `AccountState`, `RecordState` and `TrialBalanceState` are
  datatypes. Each operation is a function on them (`HandleTransfer`,
  `HandleMutation`, `Mutate`, `Handle`), and the properties are proved about
  those functions.
- **Objects.** `Account`, `TransactionRecord` and `TrialBalance` are classes
  whose fields are updated in place, as the Rust code does. Every method
  ensures that its new state and its result are exactly what the value-level
  function gives for the old state. `TrialBalance` holds maps from keys to
  objects, with a ghost `Repr` set of the objects it owns.

The model follows the code, not the intended design, in these places:

- **Re-dispute.** A dispute of an entry that is already under dispute is
  accepted and holds the funds a second time (`DisputeTwice`).
- **Locked accounts.** The engine checks the lock before it looks at the
  transaction, so a locked account refuses deposits too
  (`LockedAccountRefuses`).
- **Mutation client.** The client of a mutation is never compared with the
  client of the transfer it names. The mutating client's account is the one
  that moves (`DisputeByAnotherClient`).
- **Failed transfers.** A transfer the account refuses is still entered in the
  ledger and can be disputed later (`RefusedWithdrawalCanBeDisputed`).
- **Signs.** Amounts are never checked for sign. A chargeback can drive `held`
  negative.

Modules:

- `Results`: Option and Result.
- `Clients`, `TransactionIds`: the id newtypes.
- `Errors`: `TransactionError` and `Outcome`.
- `Transactions`: the transaction sum types and the row conversion.
- `Accounts`, `TransactionRecords`, `TrialBalances`: the three parts of the
  engine.
- `TrialBalanceProperties`: the engine-level properties and the engine's own
  test scenario.

## Model

| member | source | states |
|---|---|---|
| Transactions.TryFrom | src/transaction/transaction.rs:36-55 | A row fails to convert exactly when it is a deposit or withdrawal without an amount. The error is `ParseError` of that row. Otherwise the kind, client and id are carried over, and a transfer carries the row's amount. |
| Transactions.TryFromRowOf | src/transaction/transaction.rs:36-55 | Every transaction, written as its row, converts back to itself. |
| Transactions.RowOfTryFrom | src/transaction/transaction.rs:44-52 | A converted row is recovered from its transaction, except that a mutation row's amount is dropped. |
| Transactions.Transaction.Client | src/transaction/transaction.rs:20-30 | The client stored in whichever of the five records the transaction wraps. It has no contract of its own; `TryFrom`'s ensures ties it to the row's client, and `TryFromRowOf` to the transaction's row. |
| Transactions.Transfer.TransactionId | src/transaction/transaction.rs:68-73 | The id of the wrapped deposit or withdrawal. `TryFrom`'s ensures ties it to the row's id, and the engine files every entry under it (`HandleKeepsValid`). |
| Transactions.Transfer.Amount | src/transaction/transaction.rs:75-80 | The amount of the wrapped deposit or withdrawal. `TryFrom`'s ensures ties it to the row's amount, and `AcceptedMutation` shows that it is the amount a mutation moves. |
| Transactions.Mutation.TransactionId | src/transaction/transaction.rs:93-99 | The id named by the wrapped dispute, resolve or chargeback. `MutationOfUnknownId`, `RefusedMutation` and `AcceptedMutation` state what the engine does with it. |
| Accounts.AccountState.Row | src/account.rs:19-32 | The output row carries the account's client, available, held and locked, and its total is available + held. |
| Accounts.AccountState.Total | src/account.rs:45-47 | The derived total, available + held. `Row` states that the output row's total is this sum, and `HandleMutation` states which mutations keep it and which lower it. |
| Accounts.AccountState.Lock | src/account.rs:54-56 | Locking sets `locked` and leaves the balances and the client unchanged. |
| Accounts.AccountState.HandleTransfer | src/account.rs:59-77 | A locked account returns AccountLocked and is unchanged. A transfer succeeds exactly when the account is unlocked and, for a withdrawal, the amount is at most `available`. An overdraft returns InsufficientFunds. Any refusal leaves the account unchanged. A deposit adds to `available` and a withdrawal subtracts, leaving it non-negative. `held`, `locked` and the client never change. |
| Accounts.AccountState.HandleMutation | src/account.rs:80-104 | A locked account returns AccountLocked and is unchanged. On an unlocked account the call always succeeds. A dispute moves the amount from available to held, and a resolve moves it back; both keep the total and leave the account unlocked. A chargeback locks the account and takes the amount from held, so the total drops by the amount. |
| Accounts.LockIsMonotone | src/account.rs:54-56 | No transfer or mutation unlocks a locked account, and locking twice is the same as locking once. |
| Accounts.DisputeThenResolve | src/account.rs:90-97 | On an unlocked account, a dispute followed by a resolve of the same amount restores the account exactly, and both succeed. |
| Accounts.Fresh | src/account.rs:35-42 | The value of a new account. Its properties are stated by `FreshIsEmpty`, and `Account.constructor` is proved to produce it. |
| Accounts.FreshIsEmpty | src/account.rs:35-42 | A new account belongs to its client, is unlocked and has total zero. It accepts every deposit, and it refuses every withdrawal of a positive amount. |
| Accounts.Account.constructor | src/account.rs:35-42 | A new account has nothing available, nothing held, and is unlocked. |
| Accounts.Account.Total | src/account.rs:45-47 | The object's total, which is the derived total of its current value. |
| Accounts.Account.Locked | src/account.rs:50-52 | The object's lock flag. `HandleTransaction` consults it before dispatching, as `handle_transaction` does. |
| Accounts.Account.Lock | src/account.rs:54-56 | The object's new state is the value-level `Lock` of its old state. |
| Accounts.Account.HandleTransfer | src/account.rs:59-77 | The object's new state and the result are those of the value-level `HandleTransfer`. |
| Accounts.Account.HandleMutation | src/account.rs:80-104 | The object's new state and the result are those of the value-level `HandleMutation`. |
| TransactionRecords.RecordState.Mutate | src/transaction_record.rs:27-71 | The transfer never changes. A dispute succeeds exactly when the entry is not charged back, and then sets under-dispute; this includes an entry already under dispute. A resolve succeeds exactly when the entry is under dispute and not charged back, and clears under-dispute. A chargeback succeeds exactly when the entry is under dispute, and sets charged-back and clears under-dispute. A refusal changes nothing and reports the error of its kind. Charged-back never reverts, and the invariant charged-back ⇒ not under dispute is kept. |
| TransactionRecords.ChargeBackIsFinal | src/transaction_record.rs:42-67 | A valid charged-back entry refuses every further mutation and stays unchanged. |
| TransactionRecords.NewRecord | src/transaction_record.rs:13-19 | A new entry keeps the given transfer, is neither under dispute nor charged back, and is valid. |
| TransactionRecords.TransactionRecord.constructor | src/transaction_record.rs:13-19 | A new entry stores the transfer, is not under dispute, is not charged back, and is valid. |
| TransactionRecords.TransactionRecord.Tx | src/transaction_record.rs:20-22 | The entry's transfer. It is an immutable field, so `Mutate` can never change it, matching `RecordState.Mutate`'s first ensures. |
| TransactionRecords.TransactionRecord.Mutate | src/transaction_record.rs:27-71 | The object's new flags and the result are those of the value-level `Mutate`. `tx` is immutable. |
| TrialBalances.TrialBalanceState.WithAccount | src/trial_balance.rs:36-39 | The client has an account afterwards and the ledger is unchanged. An existing account is kept, and a missing one is added as a fresh account. |
| TrialBalances.TrialBalanceState.Handle | src/trial_balance.rs:35-78 | The value-level `handle_transaction`. It has no contract of its own, because its behaviour is stated case by case in lemmas. `HandleFrame` and `HandleKeepsValid` give the frame and the invariant. `LockedAccountRefuses`, `MissingAccountIsFresh`, `DuplicateTransfer`, `NewTransferIsRecorded`, `MutationOfUnknownId`, `RefusedMutation` and `AcceptedMutation` give each path. `TrialBalance.HandleTransaction` is proved equal to it. |
| TrialBalances.TrialBalanceState.HandleTransfer | src/trial_balance.rs:46-61 | The transfer arm, for an unlocked account. It is stated by `DuplicateTransfer` and `NewTransferIsRecorded`, and `TrialBalance.HandleTransfer` is proved equal to it. |
| TrialBalances.TrialBalanceState.HandleMutation | src/trial_balance.rs:62-75 | The mutation arm, for an unlocked account. It is stated by `MutationOfUnknownId`, `RefusedMutation` and `AcceptedMutation`, and `TrialBalance.HandleMutation` is proved equal to it. |
| TrialBalances.TrialBalanceState.HandleFrame | src/trial_balance.rs:35-78 | After one transaction, the account keys are the old keys plus the client. The ledger gains at most the transaction's id. Every other account and every other entry is unchanged. |
| TrialBalances.TrialBalanceState.HandleKeepsValid | src/trial_balance.rs:35-78 | Handling a transaction keeps accounts filed under their own clients, entries filed under their own ids, and every entry valid. |
| TrialBalances.Empty | src/trial_balance.rs:18-23 | The engine before any transaction: no accounts and no entries. `EmptyIsValid` states that it is valid, and `TrialBalance.constructor` is proved to produce it. |
| TrialBalances.EmptyIsValid | src/trial_balance.rs:18-23 | The empty engine is valid, so with `RunKeepsValid` every run from it ends in a valid state. |
| TrialBalances.Run | src/main.rs:49-67 | The run over a sequence yields one result per transaction. |
| TrialBalances.TrialBalance.constructor | src/trial_balance.rs:18-23 | A new engine has no accounts and no entries, and is valid. |
| TrialBalances.TrialBalance.HandleTransaction | src/trial_balance.rs:35-78 | The engine's new state and the result are those of the value-level `Handle`. The engine stays valid. Only new account and record objects join it. |
| TrialBalances.TrialBalance.OpenAccount | src/trial_balance.rs:36-39 | The client afterwards has an account object, and the account values are those of `WithAccount`. |
| TrialBalances.TrialBalance.HandleAll | src/main.rs:49-67 | Handling transactions in order, and collecting each result, ends in the state and results of `Run` over them, and the engine stays valid. |
| TrialBalances.TrialBalance.HandleTransfer | src/trial_balance.rs:46-61 | The transfer arm's new state and result are those of the value-level transfer arm. The account objects stay filed as before. |
| TrialBalances.TrialBalance.Enter | src/trial_balance.rs:48-53 | A fresh entry for the transfer is filed under its vacant id, and nothing else in the ledger changes. |
| TrialBalances.TrialBalance.HandleMutation | src/trial_balance.rs:62-75 | The mutation arm's new state and result are those of the value-level mutation arm. Neither map is rebound. |
| TrialBalances.TrialBalance.MutateEntry | src/trial_balance.rs:64-67 | Only the entry under the id changes, and it takes its `Mutate` transition. |
| TrialBalances.TrialBalance.SettleMutation | src/trial_balance.rs:69 | Only the client's account changes, and it takes its `HandleMutation` step with the given amount. |
| TrialBalanceProperties.LockedAccountRefuses | src/trial_balance.rs:41-43 | A locked account refuses every transaction, deposits included, with AccountLocked, and nothing changes. |
| TrialBalanceProperties.MissingAccountIsFresh | src/trial_balance.rs:36-39 | A missing account behaves as a fresh one, and it remains a fresh one when the transaction fails. |
| TrialBalanceProperties.DuplicateTransfer | src/trial_balance.rs:48-60 | A transfer with an id already in the ledger returns DuplicateTransaction(id). Nothing changes beyond the creation of a missing account. |
| TrialBalanceProperties.NewTransferIsRecorded | src/trial_balance.rs:48-55 | A transfer with a new id is entered as a fresh entry even when the account refuses it. The account takes the step of its `HandleTransfer`, whose result is returned. |
| TrialBalanceProperties.MutationOfUnknownId | src/trial_balance.rs:62-75 | A mutation of an unknown id returns MissingTransaction(id). No balance and no entry changes. |
| TrialBalanceProperties.RefusedMutation | src/trial_balance.rs:64-67 | A mutation the entry refuses returns the entry's error, and no balance and no entry changes. |
| TrialBalanceProperties.AcceptedMutation | src/trial_balance.rs:41-69 | A mutation the entry accepts returns Ok. The entry takes its transition, and the account of the mutation's client moves by the amount of the entry's transfer. |
| TrialBalanceProperties.AcceptedStep | src/trial_balance.rs:62-75 | When the entry's transition and the account's step are known, an accepted mutation returns Ok, and the next state is the old one with that entry and that account replaced. |
| TrialBalanceProperties.TransferTwice | src/trial_balance.rs:48-60 | Repeating a transfer on an account that was not locked is refused as a duplicate and changes nothing, whatever the first attempt returned. |
| TrialBalanceProperties.DisputeByAnotherClient | src/trial_balance.rs:64-69 | A dispute by a client other than the transfer's owner succeeds. It holds the amount on the disputing client's account and leaves the owner's account alone. |
| TrialBalanceProperties.DisputeByClientWithoutAccount | src/trial_balance.rs:36-69 | A client with no account who disputes another client's entry succeeds. The client's new account ends with the amount held and its negative available, unlocked, and the owner's account is untouched. |
| TrialBalanceProperties.DisputeTwice | src/transaction_record.rs:29-31 | Disputing the same entry twice succeeds both times. It holds the amount twice, and the total is kept. |
| TrialBalanceProperties.RefusedWithdrawalCanBeDisputed | src/trial_balance.rs:49-55 | An overdraft withdrawal returns InsufficientFunds, yet it is entered in the ledger. A later dispute of it succeeds and holds its amount. |
| TrialBalanceProperties.RunKeepsValid | src/main.rs:49-67 | Every run from a valid state ends in a valid state. |
| TrialBalanceProperties.RunOnlyGrows | src/trial_balance.rs:35-78 | Over any run, no account and no entry is removed, and no entry's transfer changes. |
| TrialBalanceProperties.RunFreezesLockedAccount | src/trial_balance.rs:41-43 | A locked account is unchanged for the rest of any run. |
| TrialBalanceProperties.RunFreezesChargedBackEntry | src/transaction_record.rs:42-67 | In a valid state, a charged-back entry is unchanged for the rest of any run. |
| TrialBalanceProperties.ScenarioStep1 | src/trial_balance.rs:96-100 | The test's deposit of 100 on a new engine succeeds, holds nothing, and records the deposit. |
| TrialBalanceProperties.ScenarioStep2 | src/trial_balance.rs:101-105 | The withdrawal of 50 succeeds and leaves 50 available. |
| TrialBalanceProperties.ScenarioStep3 | src/trial_balance.rs:106-109 | The dispute of the deposit succeeds and holds 100, leaving -50 available. |
| TrialBalanceProperties.DisputeOfEntry1 | src/trial_balance.rs:106-109 | In the test, the dispute of deposit 1 after step 2 is accepted by its entry, which becomes under dispute. |
| TrialBalanceProperties.DisputeOfDeposit1 | src/trial_balance.rs:106-109 | In the test, the dispute moves 100 from client 1's 50 available to held, leaving -50 available. |
| TrialBalanceProperties.After3FromAfter2 | src/trial_balance.rs:106-109 | The state after step 3 is the state after step 2 with the disputed entry and the moved account. |
| TrialBalanceProperties.ScenarioStep4 | src/trial_balance.rs:110-113 | The resolve succeeds and returns to the state after the withdrawal. |
| TrialBalanceProperties.ScenarioStep5 | src/trial_balance.rs:114-118 | The chargeback of the resolved deposit returns ChargeBackError and changes nothing. |
| TrialBalanceProperties.ScenarioStep6 | src/trial_balance.rs:119-123 | The second withdrawal of 50 succeeds and leaves nothing available. |
| TrialBalanceProperties.ScenarioStep7 | src/trial_balance.rs:124-129 | Repeating the withdrawal returns DuplicateTransaction(3) and changes nothing. |
| TrialBalanceProperties.ScenarioStep8 | src/trial_balance.rs:130-134 | The chargeback of id 100 returns MissingTransaction(100) and changes nothing. |
| TrialBalanceProperties.RunExtend | src/trial_balance.rs:150-154 | A run over a prefix, extended by one handled transaction, is the run over the longer prefix. |
| TrialBalanceProperties.ScenarioPrefix1 | src/trial_balance.rs:150-154 | The run over the first test transaction ends in the state after step 1 with its expected result. |
| TrialBalanceProperties.ScenarioPrefix2 | src/trial_balance.rs:150-154 | The run over the first two test transactions ends in the state after step 2 with the expected results. |
| TrialBalanceProperties.ScenarioPrefix3 | src/trial_balance.rs:150-154 | The run over the first three test transactions ends in the state after step 3 with the expected results. |
| TrialBalanceProperties.ScenarioPrefix4 | src/trial_balance.rs:150-154 | The run over the first four test transactions ends in the state after step 4 with the expected results. |
| TrialBalanceProperties.ScenarioPrefix5 | src/trial_balance.rs:150-154 | The run over the first five test transactions ends in the state after step 5 with the expected results. |
| TrialBalanceProperties.ScenarioPrefix6 | src/trial_balance.rs:150-154 | The run over the first six test transactions ends in the state after step 6 with the expected results. |
| TrialBalanceProperties.ScenarioPrefix7 | src/trial_balance.rs:150-154 | The run over the first seven test transactions ends in the state after step 7 with the expected results. |
| TrialBalanceProperties.ScenarioPrefix8 | src/trial_balance.rs:150-154 | The run over all eight test transactions ends in the final state with the expected results. |
| TrialBalanceProperties.ScenarioRun | src/trial_balance.rs:136-154 | The test's eight transactions give Ok, Ok, Ok, Ok, ChargeBackError, Ok, DuplicateTransaction(3), MissingTransaction(100). Client 1 ends with nothing available, nothing held, and unlocked. |
| TrialBalanceProperties.TestTrialBalance | src/trial_balance.rs:94-155 | A fresh engine object that handles the test's transactions in order returns exactly the expected results. |

## Left out

- Reading input: the command line, the file, the CSV reader (`transaction_reader`) and `main`'s error logging are I/O. `HandleAll` stands for `main`'s loop over rows that converted; rows that fail to parse are logged and skipped there, which is outside the engine.
- `to_csv`: the CSV writer and serde are I/O. Only the content of a written row is modelled, by `AccountState.Row`, and not the order of the rows, which follows the hash map.
- Logging (`tracing`) has no effect on state and is left out.
- The initial capacities of the hash maps (1000 and 100000 entries) affect only performance.
- Decimals: `rust_decimal` values are modelled as exact reals. Its 96-bit range, scale and overflow panics are not modelled.
- Accounts.AccountState.HandleMutation: states only what the code guarantees. It does not check that `available` stays non-negative after a dispute, because the code does not either (for the disputed deposit in the test it goes to -50).
- TrialBalances.Run: its own contract states only the length of the results. What a run does is stated by the lemmas about it in `TrialBalanceProperties` and by `HandleAll`.
- The record types `Deposit`, `Withdrawal`, `Dispute`, `Resolve` and `ChargeBack` (src/transaction/*.rs) are plain datatypes, and their `new`/accessor functions are the datatype constructors and fields. `TransactionRow` is modelled with the four fields the conversion reads (`transaction_type`, `client`, `transaction_id`, `amount: Option<Decimal>`); the CSV decoding that builds it is left out.
