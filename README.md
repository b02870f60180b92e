# Payment engine ledger — a verified Dafny model

This project models the core of a small payments engine: the ledger state
machine that applies an ordered stream of deposits, withdrawals, disputes,
resolves and chargebacks to client accounts. It also models the decoder that
turns one input row into a command.

- `command.dfy` (module `Commands`): the five-variant `Command` sum type. The
  money movements (`Deposit`, `Withdrawal`) carry `clientId`, `tx` and `amount`.
  The dispute-lifecycle commands (`Dispute`, `Resolve`, `Chargeback`) carry only
  `clientId` and `tx`. `ClientId` is the `u16` range and `TxId` the `u32`
  range, as subset types of `int`. `Amount` is `real`: `rust_decimal::Decimal`
  is exact and its equality compares numeric values, and exact rationals behave
  the same way.
- `account.dfy` (module `Accounts`): `Account` stores only `clientId`,
  `available`, `held` and `locked`. The balances are unconstrained signed
  amounts. `NewAccount` is the zero, unlocked account. `Total` is the derived
  `available + held` that the exporter reports.
- `transaction.dfy` (module `Transactions`): the decoded input row
  `TransactionInput`, the decoder `ToCommand`, the ledger's `TransactionRecord`
  and the three-valued `TransactionStatus`. `ToInput` is the canonical row for a
  command; it is the decoder's inverse.
- `state.dfy` (module `Engine`): the ledger as a value (`Ledger`, two maps) and
  the pure transition function `Step`. Its per-kind helpers keep the source's
  order of checks. The class `State` holds the two maps as fields, and its
  `ProcessSingleCommand` method updates them in place with the source's early
  returns; its postcondition ties the new maps to `Step`. The lemmas state what
  each command does and what every command preserves: the `Valid` ledger
  invariant and the one-step `StepRelated` relation.
- `runner.dfy` (module `Runner`): the engine's in-order consumer loop, as the
  fold `Replay` and as the method `RunEngine` that drives a `State` object
  through a `while` loop. The run-level lemmas and the unit-test scenarios are
  here too.
- `wrappers.dfy` (module `Wrappers`): `Option` and `Result`.

Every rule violation is a silent no-op, as in the source. A `Ledger` that
`Step` leaves unchanged is that no-op. `Valid` holds on every ledger an engine
can reach (`RunEngine`, `ReplayPreservesValid`). The lemmas that need the
owner's account to exist assume it.

## Model

| member | source | states |
|---|---|---|
| `Transactions.ToCommand` | src/models/transaction.rs:24-56 | a row decodes exactly when its kind is one of the five exact, case-sensitive strings and, for `deposit`/`withdrawal`, an amount is present; the command then has the row's kind, client and tx, and a money movement carries the row's amount |
| `Transactions.DecodeErrors` | src/models/transaction.rs:25-54 | the decoder yields `Missing amount in deposit`, `Missing amount in withdrawal` or `Unknown transaction type: <kind>` exactly in the missing-amount and unknown-kind cases |
| `Transactions.DecodeEncode` | src/models/command.rs:5-28 | every one of the five command variants is produced by its canonical row, with client, tx and amount copied unchanged |
| `Transactions.EncodeDecode` | src/models/transaction.rs:24-56 | a row that decodes is its command's canonical row, except that an amount on a dispute, resolve or chargeback row is dropped |
| `Transactions.AmountIgnoredForLifecycle` | src/models/transaction.rs:42-53 | for `dispute`, `resolve` and `chargeback` rows the amount column does not affect the result, which is always a command without an amount |
| `Transactions.MovesChargedBackTerminal` | src/engine/state.rs:116-172 | under the one-command status moves, `ChargedBack` is never left and is only entered from `Disputed` |
| `Transactions.DecodeExamples` | src/models/transaction.rs:91-177 | the decoder's unit-test cases, plus a capitalised kind being rejected |
| `Engine.State.constructor` | src/engine/state.rs:17-22 | a new engine has no accounts and no transactions |
| `Engine.State.ProcessSingleCommand` | src/engine/state.rs:25-186 | the in-place update of both maps equals `Step` applied to the old maps |
| `Engine.DuplicateTxIgnored` | src/engine/state.rs:32-35 | a deposit or withdrawal whose tx id is already recorded, whatever the record's kind or client, leaves the ledger unchanged (the same check is at lines 67-70) |
| `Engine.LockedClientIgnored` | src/engine/state.rs:37-39 | any of the five commands naming a frozen client's account leaves the ledger unchanged (the other checks are at lines 72-74, 105-109, 133-137 and 166-169) |
| `Engine.DepositEffect` | src/engine/state.rs:41-59 | a deposit with a fresh tx id on a missing or unfrozen account creates the zero account if needed, credits `available` by the amount, keeps `held`, changes no other account, and inserts exactly one normal deposit record |
| `Engine.WithdrawalEffect` | src/engine/state.rs:76-98 | a withdrawal with a fresh tx id on a missing or unfrozen account creates the zero account first; it is recorded iff `available >= amount`; if applied it debits `available` and inserts a normal withdrawal record, otherwise no balance changes and the tx id stays unused |
| `Engine.DisputeEffect` | src/engine/state.rs:100-127 | on a valid ledger a dispute takes effect exactly on an owned, normal deposit of an unfrozen client: the record becomes `Disputed` and its amount moves from `available` (possibly negative) to `held`, keeping the total; otherwise nothing changes; no account is ever created |
| `Engine.ResolveEffect` | src/engine/state.rs:128-154 | on a valid ledger a resolve takes effect exactly on an owned, disputed record of an unfrozen client: the record becomes `Normal` and its amount moves from `held` back to `available`, keeping the total; otherwise nothing changes |
| `Engine.ChargebackEffect` | src/engine/state.rs:155-184 | a chargeback takes effect exactly on an owned, disputed record whose account exists and is unfrozen: the record becomes `ChargedBack`, `held` drops by the amount but never below zero, `available` is untouched and the account is frozen; otherwise nothing changes |
| `Engine.DisputeThenResolve` | src/engine/state.rs:112-153 | unless the record is already disputed, a dispute followed by a resolve of the same tx restores the whole ledger exactly |
| `Engine.StepIsRelated` | src/engine/state.rs:25-186 | every command removes no account and no record, never changes a record's owner, amount or kind, moves a status at most once along Normal→Disputed, Disputed→Normal or Disputed→ChargedBack, and never unfreezes an account |
| `Engine.EmptyValid` | src/engine/state.rs:17-22 | the new engine's ledger is consistent |
| `Engine.StepPreservesValid` | src/engine/state.rs:25-186 | every command preserves consistency: accounts are filed under their own client id, every record's owner has an account, only deposits leave `Normal`, and an account is frozen exactly when one of its records has been charged back |
| `Engine.ChargebackWitness` | src/engine/state.rs:172-181 | an account that a command freezes is frozen by a chargeback of one of its own records |
| `Engine.LockedAccountUnchanged` | src/engine/state.rs:25-186 | no command changes a frozen account |
| `Runner.RunEngine` | src/engine/runner.rs:11-21 | running a fresh engine over commands in order yields the accounts of `Replay` from the empty ledger, which is consistent |
| `Runner.ReplayExtends` | src/engine/runner.rs:15-17 | over any run, nothing is removed, records keep owner, amount and kind, `ChargedBack` is never left, and frozen accounts stay frozen |
| `Runner.ReplayPreservesValid` | src/engine/runner.rs:15-17 | every run keeps a consistent ledger consistent |
| `Runner.LockFinality` | src/engine/state.rs:277-284 | once an account is frozen, no later command changes its balances or its lock |
| `Runner.DuplicateSuppressed` | src/engine/state.rs:317-333 | once a tx id is recorded, a later deposit or withdrawal reusing it, with any client or amount, after any commands in between, has no effect |
| `Runner.DepositThenWithdrawScenario` | src/engine/state.rs:195-224 | deposit 10.0, withdraw 3.0, then withdraw 10.0 leaves client 1 at available 7.0, held 0, unlocked, with only tx 1 and 2 recorded |
| `Runner.DisputeResolveScenario` | src/engine/state.rs:227-252 | deposit 5.0 then dispute leaves client 2 at available 0, held 5.0; a further resolve leaves it at available 5.0, held 0, unlocked, with the record back to `Normal` |
| `Runner.ChargebackLocksScenario` | src/engine/state.rs:255-285 | deposit 2.5, dispute, chargeback, then deposit 1.0 leaves client 3 at 0, 0, locked, and the last deposit unrecorded |
| `Runner.InsufficientFundsScenario` | src/engine/state.rs:459-467 | a first withdrawal of 5.0 records nothing and leaves an empty, unlocked account behind |
| `Runner.NegativeAvailableScenario` | src/engine/state.rs:497-543 | deposit 10, withdraw 10, dispute leaves client 42 at available -10.0, held 10.0, unlocked; a further chargeback leaves client 42 at available -10.0, held 0, locked |
| `Runner.DisputeUnknownTxScenario` | src/engine/state.rs:356-366 | a dispute of an unknown tx creates no account and no record |
| `Runner.ReplayFront` | src/engine/runner.rs:15-17 | replaying a list applies its first command first |

## Left out

- The asynchronous hand-off in src/engine/runner.rs (the bounded `mpsc` channel, task spawning, `yield_now`, joining the task): only the order in which commands reach the engine matters, and `Replay`/`RunEngine` keep that order.
- The decoding loop in src/engine/runner.rs (lines 46-47 and 54-55) ends the whole process on the first bad row instead of skipping it and going on. That is I/O and process control, and it is not modelled. Decoding errors are modelled as `Err` values of `ToCommand`.
- CSV reading and writing (src/adapters/csv_parser.rs, src/adapters/output.rs), argument handling (src/adapters/cli.rs) and wiring (src/main.rs) are I/O. Only the exported total `available + held` (src/adapters/output.rs:33) is kept, as `Accounts.Total`.
- Serde's decoding of a row into `TransactionInput` (whitespace trimming, number parsing): `TransactionInput` is modelled as already decoded.
- `rust_decimal` representation details are not modelled: scale, the rendering of `7.0` as against `7`, and the panic on 96-bit overflow. Amounts are exact rationals.
- Map iteration order (the exporter writes accounts in `HashMap` order): maps are unordered values here.
- tests/integration.rs runs the built program on CSV files that are not part of this model.
- Engine.DisputeEffect and Engine.ResolveEffect assume `Valid`, so the owner's account exists. Without it the source still flips the status but moves no funds. `Step` models that branch, but these two lemmas do not describe it.
