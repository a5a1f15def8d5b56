# Ledger core: a verified model

A Dafny model of the backend of a double-entry ledger: accounts, transactions, per-account entry streams,
balance snapshots and account lifecycle events, the operations that write them, and the reads derived from them.
`dafny verify dfyconfig.toml` checks the whole project.

## How it is built

The tables are one value, `Ledger.Ledger`, and every committed database transaction is one operation of the
datatype `Op`, given its meaning by `Ledger.Apply`: the new tables and the error a caller sees. Three things are
connected to that meaning.

* The write path as it runs (`protocol.dfy`): any number of sessions, one SQL statement at a time under READ
  COMMITTED, with row locks taken one by one, private uncommitted writes, waits on locks, on an uncommitted equal
  reference and on a row being updated, transient failures with retries, and snapshot scheduling after the commit.
  Every interleaving is shown to be a serial run of the operations, without deadlock, and every session ends.
* The services as they change state (`services.dfy`): classes whose methods update the tables in the order of the
  code, roll back, retry and schedule snapshots, each shown to be the operation it stands for.
* The reads (`audit.dfy`, `appends.dfy`, `csv_export.dfy`, `keyset.dfy`, `reconciliation.dfy`, `snapshots.dfy`): paged
  loops, caches and re-checks, each shown to agree with the unpaged, uncached, full history, also while it grows.

| file | what it holds |
|---|---|
| `prelude.dfy`, `seqs.dfy` | results and errors; filtering, summing and ordering of rows |
| `rounding.dfy`, `money.dfy` | half-up rounding, decimal parsing and printing, rates and conversion |
| `double_entry.dfy` | validated transactions and their builders |
| `ledger.dfy` | tables, derived reads, atomic operations |
| `lifecycle.dfy` | the fold of an account's lifecycle events |
| `invariants.dfy`, `preservation.dfy` | what every reachable ledger satisfies, and that every operation keeps it |
| `growth.dfy`, `history.dfy` | what no run can take back: streams, closed accounts, limits, projections |
| `balance_law.dfy`, `stored_rows.dfy`, `statement_law.dfy` | balances, writes, refusals and statements in terms of the stored rows alone |
| `effects.dfy`, `conservation.dfy` | what posting and voiding do, conservation, void/reversal pairs |
| `protocol.dfy`, `protocol_steps.dfy`, `serializability.dfy` | sessions, their steps, refinement of the atomic operations |
| `idempotency.dfy`, `duplicates.dfy`, `replies.dfy`, `progress.dfy` | one answer per reference, never a bare duplicate; replies and history agree; no deadlock, no endless run |
| `snapshots.dfy`, `services.dfy` | the scheduling policy; the services as classes |
| `audit.dfy`, `appends.dfy` | audit pages; paging over successive ledgers of one run |
| `csv.dfy`, `csv_export.dfy` | the CSV printer and its reader; the exports |
| `keyset.dfy`, `reconciliation.dfy` | keyset feeds, the re-check job |
| `scenarios.dfy` | runs from the empty ledger that reach what the code does not guard against |

Assumptions: one monotone clock supplies `posted_at` and snapshot `created_at`; ids of new rows are fresh; amounts
are unbounded integers of minor units once inside the ledger, as in `Money.add`.

## Where the code and its description part ways

The model follows the code.

* `updateLimit` never looks at the balance, so it can leave an account below its new limit. Limits are therefore an
  invariant of runs whose limit changes cover the debt at the time; a single change keeps them exactly then
  (`Growth.LimitChangeKeepsLimitsIff`, `Scenarios.LimitCanStrandDebt`).
* A comment in the audit service orders the end of a window as as_of before `to`; the code prefers `to`. With as_of
  before `to`, in a window open at as_of, the last row and the reported balance can disagree, and only then
  (`Scenarios.BoundsCanDisagree`, `Audit.LastPageBalances`); the gap is exact (`Audit.LastPageGap`).
* The running balance is seeded at the cursor and not at the first row, so a cursor that lies before the window opens,
  which the endpoint never hands out but accepts, shifts the running column (`Audit.AnyCursorPage`,
  `Audit.AnyCursorExact`, `Scenarios.CursorCanMislead`).
* A vault is inserted without an opening event, so its limit is not a projection of its events until somebody
  changes it (`History.ProjectionExact`, `History.FreshVaultNotProjected`).
* Voiding goes through single-currency construction, so a cross-currency transfer can never be voided
  (`Effects.ExchangeNeverVoided`).
* The cross-currency check compares only the first base leg (`DoubleEntry.CrossBalancedExact`,
  `DoubleEntry.ExtraBaseLegUnchecked`); exact exchange balance is claimed for the two-leg transfers
  the code builds.
* The comment on the gate speaks of debit-normal accounts; the code gates either normal side, and so does the model.
* The gate runs before the reference is inserted, so a racing duplicate may be refused by the gate instead of
  resolving to the original (`Effects.DuplicateExact`); every answer it does get is the original's id.
* The aggregate sequence test of the re-check job is exact for positive positions only
  (`Reconciliation.SequenceTestExact`, `Reconciliation.ZeroFoolsTheTest`).

## Model

| member | source | states |
|---|---|---|
| Rounding.RoundHalfUpIsNearest | src/domain/money.ts:38-47 | for every positive denominator the result is the nearest integer, a tie going away from zero |
| Rounding.NearestIsUnique | src/domain/money.ts:38-47 | no other integer is nearest in that sense, so the rule determines the result |
| Rounding.RoundHalfUpOdd | src/domain/money.ts:42-47 | rounding commutes with negation |
| Rounding.RoundHalfUpMonotone | src/domain/money.ts:42-47 | a larger numerator never rounds to a smaller result |
| Rounding.RoundHalfUpScaleFree | src/domain/money.ts:42-47 | a common factor of numerator and denominator changes nothing |
| Money.FromDecimalStringExact | src/domain/money.ts:58-82 | parsing succeeds with u exactly when the text has the admitted shape, denotes u at four places, and u is in range |
| Money.AcceptedCharacters | src/domain/money.ts:69-82 | every character of an accepted amount is a decimal digit, the point, or a sign in front |
| Money.SpacesIgnored | src/domain/money.ts:73 | a space, tab or line break before or after an amount changes nothing |
| Money.ParsePrintRoundTrip | src/domain/money.ts:69-90 | printing any in-range amount and parsing it back gives the amount |
| Money.PrintIsCanonical | src/domain/money.ts:84-90 | every printed amount is a canonical form: optional minus, no needless leading zero, exactly four decimals |
| Money.CanonicalIsPrinted | src/domain/money.ts:84-90 | every canonical form is what printing its own value gives, so the printer hits exactly the canonical strings |
| Money.NormaliseIdempotent | src/domain/money.ts:69-90 | re-reading a normalised amount changes neither its value nor its text |
| Money.ConversionIgnoresTrailingZeros | src/domain/money.ts:27-36 | a conversion does not depend on trailing zeros in the rate |
| Money.ParseFxRateExact | src/domain/money.ts:27-36 | a rate is read exactly when it is digits with at most ten decimals and not zero, and its value is the one written |
| Money.ConvertAtExact | src/domain/money.ts:114-119 | a conversion yields r exactly when the rate is readable, r is the nearest amount with ties away from zero, and r is in range |
| Money.SplitConversion | src/domain/money.ts:114-119 | converting n parts of an amount separately changes the converted total by at most (n+1)/2 minor units |
| DoubleEntry.ValidateLegs | src/domain/transaction.ts:113-129 | accepts exactly two or more legs with distinct accounts and positive amounts, and reports the first fault in leg order |
| DoubleEntry.FirstFaultMeans | src/domain/transaction.ts:113-129 | the error is that of the first bad leg: a repeated account is an invalid transaction, any other non-positive amount an invalid amount |
| DoubleEntry.IsBalanced | src/domain/transaction.ts:85-103 | the loop decides balance: equal totals in one currency, else every quote leg opposes and equals the conversion of the first base leg |
| DoubleEntry.BalancedExact | src/domain/transaction.ts:85-103 | one-currency legs balance exactly when debits minus credits are zero, and no legs at all never do |
| DoubleEntry.OfAccepts | src/domain/transaction.ts:40-55 | construction succeeds exactly for valid legs of one currency with equal debits and credits, and keeps them as given |
| DoubleEntry.OfRefusals | src/domain/transaction.ts:40-55 | fewer than two legs are an invalid transaction, a bad leg gives its own error, valid legs that do not balance are unbalanced |
| DoubleEntry.BuildTransferExact | src/domain/transaction.ts:147-172 | a transfer is built exactly when the accounts differ, the amount is positive, and a rate is given, convertible and not rounding to nothing just when the currencies differ; it then credits the source with the amount and debits the target with it or its conversion, and keeps the rate |
| DoubleEntry.BuildMovementExact | src/domain/transaction.ts:184-197 | deposits and withdrawals are built exactly for positive amounts on an account other than the vault; a deposit debits the account and credits the vault, a withdrawal the opposite, without a rate |
| DoubleEntry.TransferRefusals | src/domain/transaction.ts:147-172 | which error a transfer is refused with, in the order the builder looks |
| DoubleEntry.CrossBalancedExact | src/domain/transaction.ts:85-103 | legs in several currencies balance exactly when rate and base are given, a base leg exists, and every other-currency leg agrees with the first base leg |
| DoubleEntry.ExtraBaseLegUnchecked | src/domain/transaction.ts:92-101 | a second base leg passes the cross-currency check whatever its amount: only the first is compared |
| DoubleEntry.ReversalBuildable | src/application/transactions/transactions.service.ts:376-383 | the flipped legs of an accepted transaction build a reversal exactly when it has one currency |
| Invariants.GateExact | src/domain/invariants.ts:13-45 | the gate passes exactly when every leg's account exists, has the leg's currency, is active, and stays at or above minus its limit on its full-history balance |
| BalanceLaw.GateCodes | src/domain/invariants.ts:33-45 | a missing account comes before a wrong currency, and both before the first leg whose account is frozen, closed or short of funds, each with its own error |
| BalanceLaw.BalanceIsDebitsMinusCredits | src/domain/invariants.ts:13-26 | the balance of a debit-normal account is its debits minus its credits, of a credit-normal account its credits minus its debits, of an unknown one zero |
| BalanceLaw.StreamRows | src/infrastructure/event-store/ledger.store.ts:242-259 | an account's stream is exactly its rows of the log, each as often as it is stored |
| BalanceLaw.ReadLaw | src/infrastructure/event-store/ledger.store.ts:367-415 | a balance read at any as_of, whatever snapshots back it, is debits against credits over exactly the account's rows whose transactions were posted by then |
| Invariants.SnapshotReadIsReplay | src/infrastructure/event-store/ledger.store.ts:367-415 | for any snapshots the scheduler can have written, the snapshot-backed balance equals the full replay, now and at any as_of |
| Invariants.PublishedBalance | src/domain/invariants.ts:18-26 | a published leg on the account's normal side adds its amount to the balance, one on the other side takes it away |
| Preservation.SlotsAlwaysFree | db/schema.ts:112-113 | in a reachable ledger the next position of each account, and the pair of new transaction and account, are always free |
| Preservation.ApplyKeeps | src/application/transactions/transactions.service.ts:251-418 | every atomic operation keeps the whole invariant: links, numbering, currencies, balanced legs, void pairing, unique references, sound snapshots, projected rows |
| Preservation.RunKeeps | src/application/transactions/transactions.service.ts:251-418 | every ledger reached by any run of operations satisfies the invariant |
| Growth.RunGrows | src/infrastructure/event-store/ledger.store.ts:106-130 | over any run every earlier stream is a prefix of the later one, headers change only from posted to void, closed accounts never change |
| Growth.PublishedWithinLimit | src/domain/invariants.ts:33-45 | after a movement commits, each touched account is active and at or above minus its limit |
| Growth.LimitChangeKeepsLimitsIff | src/application/accounts/accounts.service.ts:156-171 | a limit change keeps every account within its limit exactly when the new limit covers that account's current debt |
| Scenarios.LimitCanStrandDebt | src/application/accounts/accounts.service.ts:156-171 | for every debt an account can run up and every smaller limit, a run from the empty ledger keeps all limits until that limit change is accepted, which leaves the account below its limit |
| Growth.RunKeepsLimits | src/application/transactions/transactions.service.ts:458-467 | no account is ever below its limit in a run whose limit changes respect the debt at the time |
| Effects.PostExact | src/application/transactions/transactions.service.ts:266-301 | a posting succeeds exactly when every leg is allowed, the reference is unused and the id is new |
| Effects.DuplicateExact | src/application/transactions/transactions.service.ts:266-277 | a repeated reference is refused as a duplicate exactly when every leg is still allowed; otherwise the gate's refusal comes first |
| Effects.VoidExact | src/application/transactions/transactions.service.ts:369-418 | a void succeeds exactly when the target is posted, has one currency, and every flipped leg is allowed |
| Effects.ExchangeNeverVoided | src/application/transactions/transactions.service.ts:376-383 | voiding a cross-currency transfer is always refused and changes nothing |
| Effects.PostEffect | src/application/transactions/transactions.service.ts:279-291 | posting moves every balance by exactly what the new transaction's entries say, and no other |
| Effects.VoidEffect | src/application/transactions/transactions.service.ts:376-418 | voiding takes back from every balance exactly what the target did to it |
| Effects.VoidUndoesPost | src/application/transactions/transactions.service.ts:363-418 | posting and then voiding leaves every balance where it was, on either normal side |
| StoredRows.PostedRows | src/application/transactions/transactions.service.ts:276-301 | a posting stores one header with the caller's reference, type, rate and time, its legs as entries in order at the next positions, and moves each touched account one position on; nothing else changes |
| StoredRows.VoidedRows | src/application/transactions/transactions.service.ts:376-418 | a void stores a reversal header that points at its target, the target's entries with debit and credit exchanged, and the target as void; nothing else changes |
| StoredRows.PostRefusals | src/application/transactions/transactions.service.ts:266-334 | a posting is refused with the gate's error first, then for a repeated reference, then for a taken id, and for nothing else |
| StoredRows.VoidRefusals | src/application/transactions/transactions.service.ts:369-418 | a void is refused for an unknown target, one that crossed currencies, the gate's error, a taken id, and last for a target void already, and for nothing else |
| StoredRows.SlotsFreeMeans | db/schema.ts:112-113 | entries of one transaction are admitted exactly when both unique indexes still hold with them |
| StoredRows.OpenedRows | src/application/accounts/accounts.service.ts:24-50 | opening stores exactly the row asked for, with the amount its limit text denotes, and one opening event; it is refused exactly for an unreadable limit, a taken id or number, a negative limit or a currency that is not three capitals |
| StoredRows.VaultRows | src/application/internal-accounts.service.ts:39-51 | a vault's row in literal fields; an existing vault number leaves everything as it is |
| StoredRows.StatusRows | src/application/accounts/accounts.service.ts:99-153 | a status change writes status, transition and the one event that names it, and is refused exactly for an unknown account, a closed one, or closing with a balance |
| StoredRows.LimitRows | src/application/accounts/accounts.service.ts:156-174 | a limit change writes the amount its text denotes and one event with the canonical text, and is refused exactly for an unreadable limit, an unknown or closed account, or a negative limit |
| Effects.TransferEffect | src/application/transactions/transactions.service.ts:131-156 | on debit-normal accounts a transfer lowers the source by the amount and raises the target by it or its conversion, on credit-normal ones the signs turn; no third balance moves |
| Effects.DepositEffect | src/domain/transaction.ts:180-189 | a deposit raises a debit-normal account and lowers a debit-normal vault by the amount, on credit-normal ones the signs turn; no third balance moves |
| Effects.WithdrawalEffect | src/domain/transaction.ts:191-197 | a withdrawal does the opposite to both; no third balance moves |
| Conservation.ConservedPerCurrency | src/domain/transaction.ts:40-55 | for each currency and each as_of, debits minus credits over the whole log are the shares of the cross-currency transactions posted by then, every stored transaction counted once; nothing else creates or destroys money |
| Conservation.ExchangeMovesConvertedAmount | src/domain/transaction.ts:161-171 | a stored transaction adds nothing to any currency at any as_of, except that a cross-currency one, once posted, adds minus its base amount to one currency and exactly the conversion to the other |
| Conservation.VoidsPairWithReversals | src/application/transactions/transactions.service.ts:376-418 | each void transaction has exactly one reversal, the two cancel on every account, and neither crossed currencies |
| Conservation.BalancesAreSurvivors | src/application/transactions/transactions.service.ts:369-418 | after any run every balance is the sum over the transactions left once pairs are cancelled, also when reversals are voided in turn |
| History.StreamIsNumbered | src/application/transactions/transactions.service.ts:276-291 | after any run each account's sequence numbers are exactly 1..currentSequence in order, in the account's currency |
| History.AsOfSelectsPrefix | src/infrastructure/event-store/ledger.store.ts:242-259 | any as_of selects a prefix of a stream, and replay returns that prefix |
| History.ClosedIsFinal | src/application/accounts/accounts.service.ts:109-124 | a closed account has a zero balance, and its row and both streams never change again |
| History.ProjectionExact | src/application/account-events/account-event.service.ts:54-95 | folding the events gives the row's status, and its limit exactly when the stream holds an opening or a limit change; the row's history is the same gapless chain |
| History.FreshVaultNotProjected | src/application/internal-accounts.service.ts:39-51 | a vault just created has no events, and its limit is not what they fold to |
| History.CreatedAccountProjects | src/application/accounts/accounts.service.ts:37-48 | for every account opened through create, folding its events rebuilds its status and limit after any later run |
| Lifecycle.FoldEvents | src/application/account-events/account-event.service.ts:54-95 | the loop computes the fold of the stream that the projection theorems are about |
| Lifecycle.ItemsAre | src/application/account-events/account-event.service.ts:54-95 | the history lists every event but limit changes, in order, each with its number, kind and the status it leads to, and the last of these is the account's status |
| Lifecycle.LimitIsLast | src/application/account-events/account-event.service.ts:54-95 | the folded limit is the canonical text of the amount the latest opening or limit change carries |
| ProtocolSteps.TodoInOrder | src/infrastructure/repositories/account.repository.ts:140-154 | the lock statement visits exactly the wanted existing rows, in strictly ascending id order |
| ProtocolSteps.GateDecides | src/application/transactions/transactions.service.ts:435-468 | a session in its check phase, judging by its locked rows, passes exactly when every leg is allowed on the committed full-history balance its entry will extend |
| ProtocolSteps.HeadOk | src/application/transactions/transactions.service.ts:270-277 | past the gate, the header insert either succeeds or aborts exactly as the atomic posting would on a duplicate reference |
| ProtocolSteps.MarkOk | src/application/transactions/transactions.service.ts:414-417 | the guarded update either marks a posted target or aborts exactly as the atomic void would |
| ProtocolSteps.MovementCommits | src/application/transactions/transactions.service.ts:266-301 | making a session's private header, entries, sequences and void mark visible is exactly the atomic operation on the state at commit |
| ProtocolSteps.ChangeCommits | src/application/accounts/accounts.service.ts:109-150 | the same for a status or limit change: row and lifecycle event together |
| ProtocolSteps.WriteSnapshotOk | src/application/snapshot/snapshot.service.ts:47-52 | a balance read in one statement and inserted as a snapshot in a later one is still the balance at that position |
| Serializability.GateCarries | src/application/transactions/transactions.service.ts:449-466 | the step behind CheckedBalanceStands: as long as the locked rows and their streams stay put, so do the checked balances and the gate's verdict on them |
| Serializability.StepKeeps | src/application/transactions/transactions.service.ts:251-418 | every enabled step of any session can be taken and keeps what every session relies on and the serial explanation of the tables |
| Serializability.Serialisable | src/application/transactions/transactions.service.ts:251-418 | after any interleaving the tables are those of the atomic operations run one at a time in commit order |
| Serializability.CommitsExplained | src/infrastructure/db/tx-runner.ts:61-82 | each recorded commit and abort had, at its place in that order, exactly the outcome recorded with it |
| Replies.ReplyMatchesHistory | src/application/transactions/transactions.service.ts:251-337 | after any interleaving, a request answered with its own id, or a change that was made, has exactly one entry in that order, its own operation without fault; one answered with another id has at most the duplicate it ran into; a refusal past the opening reads is the fault of its one entry, or the conflict of an exhausted retry budget with none |
| Replies.ReplyIsSerialOutcome | src/infrastructure/db/tx-runner.ts:61-82 | that entry is the session's, and run at its place in the order its operation has exactly that outcome |
| Replies.OpeningAnswers | src/application/transactions/transactions.service.ts:251-264 | a refusal or no-op decided by the opening reads is what the atomic operation would have answered at that moment, the void of a void transaction apart |
| Serializability.TargetsApart | src/infrastructure/event-store/ledger.store.ts:162-172 | two voids that passed the gate at the same time have different targets |
| Idempotency.CheckedBalanceStands | src/application/transactions/transactions.service.ts:435-468 | no step of another session moves a balance or a row between its check and the commit of the entries that extend it |
| Idempotency.CommitsWhatWasChecked | src/application/transactions/transactions.service.ts:266-301 | at commit every leg still passes the gate on the committed balance, and its sequence number is the next position of the stream |
| Idempotency.SchedulesWhatItWrote | src/application/transactions/transactions.service.ts:344-361 | after its commit a session schedules one snapshot per leg, at the position that leg's entry just took |
| Idempotency.OneAnswerPerReference | src/application/transactions/transactions.service.ts:257-334 | over all interleavings, successful calls with one reference return one id, which carries it, and no other transaction does |
| Duplicates.NeverABareDuplicate | src/application/transactions/transactions.service.ts:315-334 | in no interleaving does a request with a non-empty reference end with the duplicate error |
| Duplicates.RepeatIsAnswered | src/application/transactions/transactions.service.ts:257-263 | a request whose reference is committed when it looks gets the original's id in that step; one that meets it at its header goes on to look it up and gets the original's id |
| Idempotency.RefusedLeavesNothing | src/infrastructure/db/tx-runner.ts:61-82 | a refused request has left no transaction and no entry behind |
| Idempotency.DuplicateCreatesNothing | src/application/transactions/transactions.service.ts:315-334 | a request answered with another id created no transaction of its own |
| Idempotency.LogGuardsNeverFire | db/schema.ts:112-113 | the unique indexes of the log never refuse an insert and the guarded void update never waits: row locks settle both first |
| Progress.WaitsClimb | src/infrastructure/repositories/account.repository.ts:134-154 | a session that is waited for and waits itself stands strictly later in the lock order |
| Progress.NoWaitCycle | src/infrastructure/repositories/account.repository.ts:134-154 | in no reachable state do waits on rows, references and void marks close a cycle of any length |
| Progress.NeverStuck | src/application/transactions/transactions.service.ts:266-291 | while any session is unfinished, some session can take its next step |
| Progress.EveryStepCounts | src/infrastructure/db/tx-runner.ts:40-59 | every step of every session, retries included, lowers a measure of the whole system that cannot fall below zero |
| Progress.EverybodyFinishes | src/infrastructure/db/tx-runner.ts:40-59 | from every reachable state, steps of the sessions alone lead to a state in which every session has its answer |
| History.SnapshotPositionsUnique | src/infrastructure/event-store/ledger.store.ts:224-240 | after any run each position of an account is snapshotted at most once, with exactly the balance at that position |
| Snapshots.ReadReplaysTrailing | src/infrastructure/event-store/ledger.store.ts:379-415 | a balance read sums exactly the entries past the newest snapshot, fewer than the interval and than the maximum lag |
| StoredRows.ScheduledRows | src/application/snapshot/snapshot.service.ts:27-52 | scheduling stores debits against credits up to the position exactly when it is a multiple of the interval, or the maximum lag past every snapshot of the account, and not yet taken |
| Snapshots.CommitKeepsBounds | src/application/snapshot/snapshot.service.ts:27-41 | each commit followed by its scheduling restores that bound for every account, for any interval and maximum lag |
| Snapshots.ScheduledRunBounded | src/application/transactions/transactions.service.ts:344-361 | so after any run from the empty ledger every account's balance read stays within both bounds |
| Services.LedgerService.BalancesFor | src/infrastructure/event-store/ledger.store.ts:367-415 | the map holds exactly the asked accounts, each with its snapshot-backed balance, zero for an unknown one |
| Services.LedgerService.AppendEntries | src/infrastructure/event-store/ledger.store.ts:112-130 | all rows are appended, or none when a unique index refuses one |
| Services.LedgerService.MarkTransactionVoid | src/infrastructure/event-store/ledger.store.ts:166-172 | marks the row exactly when it is posted, reports whether it did, and the row is void afterwards whenever it exists; nothing else changes |
| Services.LedgerService.BumpSequences | src/infrastructure/repositories/account.repository.ts:156-163 | the loop sets exactly the given accounts' sequences and leaves every other field and row |
| Services.LedgerService.CollectEntrySeqs | src/application/transactions/transactions.service.ts:435-468 | refuses with the first fault in statement order, or returns the next sequence number of every leg's account |
| Services.LedgerService.RunPost | src/application/transactions/transactions.service.ts:266-301 | one attempt is the atomic posting, or leaves every table as it was |
| Services.LedgerService.RunVoid | src/application/transactions/transactions.service.ts:387-418 | one attempt is the atomic void, or leaves every table as it was |
| Services.LedgerService.AppendWithin | src/application/account-events/account-event.store.ts:49-66 | appends the event at a number above every earlier one of the account, so UNIQUE (account_id, seq) admits it |
| Services.LedgerService.WithTransaction | src/infrastructure/db/tx-runner.ts:40-59 | at most maxRetries + 1 attempts, one when nothing fails; the outcome is the atomic operation's, or a conflict after every allowed attempt failed transiently, and any failure leaves all tables as they were |
| Services.LedgerService.PostTransaction | src/application/transactions/transactions.service.ts:251-337 | a non-empty reference some transaction carries returns that transaction and changes nothing, also when others commit it in between, and never ends in the duplicate error; otherwise the atomic posting plus scheduling on what the others left, or nothing added to it |
| Services.LedgerService.SnapshotAfterCommit | src/application/transactions/transactions.service.ts:344-361 | schedules each leg's account, in leg order, at the sequence number it was given |
| Services.LedgerService.VoidTransaction | src/application/transactions/transactions.service.ts:369-427 | the atomic void plus scheduling on what others committed in between, or nothing added with the error the code reports; a cross-currency target is refused as unbalanced |
| Services.LedgerService.TakeSnapshot | src/application/snapshot/snapshot.service.ts:47-52 | writes the balance at the target position once, nothing for position zero or a position already written |
| Services.LedgerService.MaybeSnapshot | src/application/snapshot/snapshot.service.ts:27-41 | takes a snapshot exactly on an interval boundary or at the maximum lag |
| Services.LedgerService.UpdateStatus | src/application/accounts/accounts.service.ts:99-153 | the atomic status change on what others committed in between, the no-op for the present status, or nothing added |
| Services.LedgerService.UpdateLimit | src/application/accounts/accounts.service.ts:156-174 | the amount the text denotes becomes the limit of an open account and nothing else of any row changes, or an unchanged ledger |
| Services.LedgerService.Create | src/application/accounts/accounts.service.ts:24-50 | under the bounded retries, exactly the row asked for with the amount its limit denotes and one opening event, or an unchanged ledger on a taken number, an unreadable or negative limit, a bad currency or an exhausted retry budget |
| Services.InternalAccounts.GetInternalCashAccountId | src/application/internal-accounts.service.ts:28-61 | returns and caches the one account with the currency's vault number, adding at most one, whose row is given field by field, also when a concurrent first call wins the insert; an error caches nothing and comes only from a bad currency or an exhausted retry budget |
| Services.CacheSurvives | src/application/internal-accounts.service.ts:21-43 | account numbers never change, so a cached vault id stays right whatever else commits |
| Audit.Get | src/application/audit/audit.service.ts:50-121 | the loop carries the running balance over the page's rows from the base |
| Audit.PageIs | src/application/audit/audit.service.ts:64-109 | a page holds exactly its stretch of the window, each row with the balance of the full history at that row, and a cursor exactly when rows remain |
| Audit.WalkIsStatement | src/application/audit/audit.service.ts:64-121 | following the cursors yields every row of the window once, in order, for any page size and filters |
| Audit.StatementIsWindow | src/infrastructure/event-store/ledger.store.ts:266-295 | the rows of that listing are exactly the account's entries the filters admit |
| StatementLaw.StatementRows | src/application/audit/audit.service.ts:64-121 | the pages list exactly the account's rows posted by as_of, not before `from` and not after `to`, in sequence order, each with debits against credits of all rows up to its number |
| StatementLaw.ReportedRows | src/application/audit/audit.service.ts:106-109 | the reported balance is debits against credits of the account's rows posted by `to`, else by as_of, else so far |
| Audit.LastPageBalances | src/application/audit/audit.service.ts:102-109 | on the last page the last running balance is the reported balance unless as_of lies before `to` and the window is open at as_of |
| Audit.LastPageGap | src/application/audit/audit.service.ts:106-109 | otherwise the two differ by exactly the net of what was posted after as_of and up to `to` |
| Scenarios.BoundsCanDisagree | src/application/audit/audit.service.ts:106-109 | some run from the empty ledger ends with a last page that contradicts its own reported balance exactly when as_of lies before `to` and the window is open at as_of |
| Audit.AnyCursorPage | src/application/audit/audit.service.ts:58-104 | for any cursor a client sends the rows are right; the running column is off on every row by what the account moved between the cursor and the page's opening, and the cursor handed out is right again |
| Audit.AnyCursorExact | src/application/audit/audit.service.ts:64-67 | every running balance on such a page is right exactly when the page is empty or the account's balance at the cursor is its balance at the page's opening |
| Scenarios.CursorCanMislead | src/application/audit/audit.service.ts:64-67 | a run from the empty ledger on which a cursor before its window misstates the running balance |
| Appends.AppendsBetweenPages | src/application/audit/audit.service.ts:64-121 | a page read, followed by the rest as any later ledger shows it, is the whole listing of that later ledger |
| Appends.MomentsAreSuccessive | src/infrastructure/event-store/ledger.store.ts:106-130 | the ledgers that reads meet at successive moments of any one run are sound and each extends the ones before |
| Appends.LiveWalkIsListing | src/application/audit/audit.service.ts:64-121 | paging while others post, one ledger per page, yields exactly the listing of the ledger the last page was read from: no row skipped or repeated |
| Appends.LiveWalkExtends | src/application/audit/audit.service.ts:64-121 | and what the first reader would have seen in one go comes first in it, unchanged |
| CsvExport.CellsStay | src/application/audit/audit.service.ts:178-201 | an entry's row of cells reads the same in every later ledger, also after its transaction is voided |
| CsvExport.ColumnsHold | src/application/audit/audit.service.ts:152-201 | under each column name stands the datum it announces |
| CsvExport.ExplanationReads | src/application/audit/audit.service.ts:129-134 | the explanation gives type, signed effect, where the money came from or went to, any rate, and the running balance, in this order |
| CsvExport.CounterpartyMeans | src/infrastructure/event-store/ledger.store.ts:270-281 | the counterparty is the account of the first other entry of the transaction, and missing exactly when there is none |
| CsvExport.WriteCsv | src/application/audit/audit.service.ts:141-206 | reading each page from a later ledger of the run, the export still writes the heading and the whole listing up to as_of of the ledger its last page came from, every cell as the code forms it, and a CSV reader gets exactly that table back |
| Csv.CsvRoundTrip | src/application/audit/audit.service.ts:208-218 | a reader after section 2 of RFC 4180 recovers exactly the rows if and only if every row has at least one field |
| Csv.CsvInjective | src/application/audit/audit.service.ts:208-218 | different tables never print the same text |
| Csv.CellsPlain | src/application/audit/audit.service.ts:208-214 | a cell is quoted exactly when it holds a comma, a quote, a CR or an LF |
| Keyset.FetchIs | src/infrastructure/event-store/ledger.store.ts:343-349 | a page is the next stretch of the ordered listing, with a cursor exactly when rows remain that stands for where it stopped, also among equal timestamps |
| Keyset.FeedWalk | src/application/transactions/transactions.service.ts:206-241 | following nextCursor over the global feed yields every transaction of the wanted type and status exactly once, newest first with ties broken by id, for every page size |
| Keyset.AccountWalk | src/application/transactions/transactions.service.ts:174-204 | following the sequence cursors of an account's list yields its whole stream in order |
| Keyset.AccountListWalk | src/infrastructure/repositories/account.repository.ts:88-110 | the account list yields every account of the wanted status and type exactly once, oldest first, ties broken by id |
| Reconciliation.Run | src/application/reconciliation/reconciliation.service.ts:58-199 | the report lists, once each, exactly the transactions whose stored debits and credits differ in one currency or whose recorded rate does not carry one currency into the other, the accounts whose numbers do not count up, and those whose rows add up to less than minus the limit; it passes exactly when there is none, and fails as a whole only on a stored rate that cannot be applied |
| Reconciliation.RateFailsMeans | src/application/reconciliation/reconciliation.service.ts:84-142 | the job stops exactly when a cross-currency transaction's recorded rate cannot be applied to its first base row |
| Reconciliation.SequenceTestExact | src/application/reconciliation/reconciliation.service.ts:144-159 | for positive positions, count = max = distinct count holds exactly when they are 1..n |
| Reconciliation.ZeroFoolsTheTest | src/application/reconciliation/reconciliation.service.ts:144-159 | without positivity the aggregate test can be fooled: positions 0 and 2 pass it |
| Reconciliation.NothingToReport | src/application/reconciliation/reconciliation.service.ts:58-199 | in every reachable state of a run that lowers no limit below a current debt, no issue holds and no rate fails |
| Reconciliation.LoweredLimitReported | src/application/reconciliation/reconciliation.service.ts:161-182 | after a limit change the account is reported exactly when its debt exceeds the new limit |

## Left out

- Serializability.Serialisable: account creation and vault creation are one atomic step each in the interleaved model, because their statements touch only rows nobody else can see yet.
- Serializability.Serialisable: reads that a session makes before its transaction and answers from directly (unknown account, known reference, present status) appear in no commit, because they change nothing.
- Services.LedgerService.PostTransaction: what others commit between the lookup and the transaction is a parameter, any sequence of operations at that one place; interleaving statement by statement is in the protocol model. The method requires the legs' accounts to exist and the new id to be unused, as its callers ensure.
- Services.LedgerService.WithTransaction: backoff delays and connection handling are dropped; which attempt fails transiently, and before which statement, is a parameter.
- Services.LedgerService.Create: the account number and the id are parameters; the limit text is parsed by the same rule as `Money`, where PostgreSQL's own numeric parser also admits surrounding white space, exponents and special values.
- Services.LedgerService.VoidTransaction: as for PostTransaction, others commit at one place only.
- Services.LedgerService.UpdateStatus: as for PostTransaction, others commit at one place only; the timestamp and reason stored with a transition are not modelled.
- Snapshots.CommitKeepsBounds: scheduling runs right after its own commit, in commit order, with fixed settings and without failures.
- Keyset.AccountListWalk: the table of listed rows with their creation times is a parameter, because creation times are not part of the ledger tables here.
- Audit.Get: counterparties, explanations, fx rate labels and ISO formatting of a row are modelled for the export only; a cursor below zero, which reads like zero, is not modelled.
- CsvExport.WriteCsv: the text of an instant and of an id, and the names of accounts, are parameters; of several counterparties the first in log order is taken, where the query leaves their order open; HTTP headers and streaming are dropped and the output is one string.
- Reconciliation.Run: the details printed with an issue and the order of issues within one query are not modelled.
- Lifecycle.FoldEvents: reasons and timestamps of history items are not modelled; a missing or malformed limit is ignored as in the code.
- `deposit`, `withdraw` and the views returned after a write are not modelled beyond the builders, the vault lookup and the posting they call.
- `AccountEventStore.append` has no caller and would bypass the row update, so it is not an operation.
- Upper overflow of `NUMERIC(19,4)` sums, clock skew between application and database, and manual edits of timestamps lie outside the assumptions.
- The SQL engine, query planning, cursor encoding, UUID generation, controllers, guards, logging, health checks and the web client are not part of this model.
