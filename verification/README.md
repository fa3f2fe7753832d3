# Monierave: verified model of the banking backend

This project models the business rules of Monierave, a banking backend whose operations are short
database transactions, and proves what they keep over every run.

**Money.** `Tables` holds the rows, `Operations` says what each operation does as a function of the
whole database, and `Store` is the imperative code, statement by statement with rollback, proved equal to
those functions. `LedgerInvariant` and `LedgerRuns` prove the double-entry invariant over every run:
the cached balance is the sum of the postings and never negative, transactions balance, each reversed
transaction is paired with one reversal that cancels it, currencies sum to zero, closed accounts stay
closed at zero. `Effects` says exactly when transfers and reversals commit and that a reversal undoes its
original. `TransferLimits` and `Idempotency` cover the daily limit and exactly-once transfers. `Answers`
says for each error exactly when it is returned, and what a success returns.

**Concurrency.** `Interleaving` runs any number of these operations statement by statement, with private
changes, row locks held to the end, rollback at any point and commit. `Serializability`, `Stability` and
`CommitOrder` prove that each commit performs its own atomic operation on the state it finds, so every
interleaving has committed what its committed operations produce one at a time, in commit order.
`ConcurrentCalls` draws exactly-once transfers and the debit rules from that; `LockOrder` proves that no
interleaving deadlocks and that the open transactions can always be finished; `RunningAlone` proves that the
statements of a transaction nobody disturbs give its atomic operation, errors included.

Where a law fixes a limit, an expiry, a delay, a transition rule or the contents of a report, it does so by
literal figures and the rows themselves rather than through the function that computes them.

**Views.** `Reconciliation` characterises the drift report on arbitrary, possibly corrupted, databases.
`History` covers cursor pagination over still and changing histories; `Statement` ties running balances,
opening and closing balances and money-movement buckets to the one posting log.

**Email.** `Outbox` (relays with leases, crashes and stale writes), `EmailJobs` (overlapping handler
runs, retries, dead letters) and `Delivery` (webhooks) are state machines over all interleavings of
their steps, with the sequential code as classes beside them.

**Access.** `Sessions` (exclusive login, refresh rotation, reuse detection) and `Users` (verification,
resends, address changes, bounces). `RateLimiter` and `MoneyFormat` are two small self-contained pieces.

## Reading the model

- Tables are maps and sequences. The posting log is append-only. An account's public ID and account number
  are identified with its row ID, a ledger account with its natural key (the mirrored account, or the
  settlement code).
- `now` is the start time of a database transaction, as `now()` is in PostgreSQL; `created_at` and
  `posted_at` are both that time. Times are microseconds, balances and amounts unbounded integers with
  the `bigint` range checked where the database checks it.
- The schema's CHECK constraints and the deferred balance trigger are never used as guards: the invariant
  shows they cannot fire. Unique keys are modelled where the code relies on them.
- UUIDs and sequence values are parameters. Where a theorem needs them never to repeat, the step relation
  keeps the set of values drawn so far. Token hashes stand for tokens.
- Assumed of the task queue: it refuses a task ID it still knows, and runs a task at most
  `MaxRetry + 1` times.

Where code and expectation differ, the model follows the code:

- `published` is not a final outbox state: releasing an event checks neither status nor owner
  (`Outbox.PublishedIsNotTerminal`; `Outbox.PublishedIsFinalExactly` gives the exact condition).
- `dead_letter` is not final while an overlapping run is in flight (`EmailJobs.DeadLetterIsNotTerminal`;
  `EmailJobs.SettledStays` and `EmailJobs.UnsettledCanLeave` give the exact condition).
- The five-minute ceiling on the outbox retry delay is never reached (`Outbox.DelayDoubles`).
- A reversal may debit a frozen account (`Effects.FrozenAccountIsDebited`), and nothing else may
  (`LedgerRuns.ApplyPersists`, `ConcurrentCalls.CommitDebits`).
- A call may replay a key row that has expired by its own clock, when a transaction started a key's lifetime
  or more earlier commits that row while the call is open (`CommitOrder.LateReplay`, `CommitOrder.ReplayCommit`).
- Whether the send is recorded before or after the provider's `accepted` webhook shows in the time of the last
  event (`Delivery.OrderMattersOnlyForAccepted`).
- All account reports together do not cover the global reconciliation
  (`Reconciliation.AccountsDoNotCoverGlobal`; `Reconciliation.GlobalIsEveryAccountAndTheRest` gives the exact difference).
- A webhook tagged with an unknown job is refused by a foreign key and not recorded, so it can be
  redelivered (`Delivery.EmailDelivery.ProcessEmailDeliveryEventTx`).
- A bounce puts a disabled registration back to pending with a new deadline
  (`Users.UserStore.UpdateCurrentUserEmailDeliverability`).

## Model

| member | source | states |
|---|---|---|
| `Store.SQLStore.Rollback` | db/sqlc/store.go:63-78 | every table becomes the saved one; the operations below use it to abort |
| `Store.SQLStore.AddAccountBalanceInternal` | db/sqlc/account.sql.go:14-22 | the guarded balance update changes one row or fails and changes nothing |
| `Store.SQLStore.CreateBalancedTransaction` | db/sqlc/transaction_tx.go:606-658 | the two loops reject zero, too few or unbalanced lines and otherwise insert the pending row and exactly its postings |
| `Store.SQLStore.MarkBankingTransactionPosted` | db/sqlc/ledger.sql.go:436-444 | only a pending row becomes posted |
| `Store.SQLStore.MarkBankingTransactionReversed` | db/sqlc/ledger.sql.go:467-474 | only a posted row becomes reversed |
| `Store.SQLStore.CheckTransfer` | db/sqlc/transaction_tx.go:216-260 | the transfer checks fail with the first applicable error, in the order of the code |
| `Store.SQLStore.PostTransfer` | db/sqlc/transaction_tx.go:262-306 | the writes of a transfer leave the state that settling its plan leaves |
| `Store.SQLStore.TransferWithQueries` | db/sqlc/transaction_tx.go:210-353 | checks and writes together are the atomic transfer |
| `Store.SQLStore.TransferTx` | db/sqlc/transaction_tx.go:108-126 | the call commits or rolls back exactly as the atomic operation does |
| `Store.SQLStore.IdempotentTransferTx` | db/sqlc/transaction_tx.go:128-208 | the keyed call equals the atomic keyed transfer, including replay, conflict and rollback |
| `Store.SQLStore.TransferUnderKey` | db/sqlc/transaction_tx.go:179-198 | under a reserved key, the transfer and the completed key are written together |
| `Store.SQLStore.CheckSettlement` | db/sqlc/transaction_tx.go:477-515 | deposit and withdrawal checks fail with the first applicable error |
| `Store.SQLStore.PostSettlement` | db/sqlc/transaction_tx.go:517-568 | the writes of a deposit or withdrawal leave the settled state |
| `Store.SQLStore.SettlementMovementTx` | db/sqlc/transaction_tx.go:467-604 | a deposit or withdrawal commits or rolls back exactly as the atomic operation does |
| `Store.SQLStore.LockAccountsForOperator` | db/sqlc/operator_tx.go:417-443 | the distinct accounts are read in strictly ascending order, or the call fails |
| `Store.SQLStore.ReverseBalances` | db/sqlc/operator_tx.go:239-269 | the balance loop applies the opposite of every customer posting, or fails |
| `Store.SQLStore.PostReversal` | db/sqlc/operator_tx.go:222-278 | the writes of a reversal leave the settled state with the original marked reversed |
| `Store.SQLStore.ReverseTransactionTx` | db/sqlc/operator_tx.go:158-278 | a reversal commits or rolls back exactly as the atomic operation does |
| `Store.SQLStore.CreateAccountTx` | db/sqlc/account_tx.go:77-109 | the account and its customer ledger account are created together or not at all |
| `Store.SQLStore.CloseAccountTx` | db/sqlc/account_tx.go:119-146 | only an owned, open account at zero is closed |
| `Store.SQLStore.SetAccountStatusTx` | db/sqlc/operator_tx.go:55-91 | freezing and unfreezing follow the operator rules |
| `LedgerInvariant.SettleKeepsInv` | db/sqlc/transaction_tx.go:606-658 | settling any well-formed plan keeps all seven parts of the ledger invariant |
| `LedgerRuns.PreparedOk` | db/sqlc/transaction_tx.go:210-353 | the plans of transfers, deposits, withdrawals and reversals are well-formed |
| `LedgerRuns.ApplyKeepsInv` | db/sqlc/operator_tx.go:193-278 | every operation, successful or not, keeps the ledger invariant |
| `LedgerRuns.ApplyPersists` | db/sqlc/operator_tx.go:208-220 | postings are only appended, closed accounts never change, a status moves only from posted to reversed, and a frozen account is debited by a reversal alone |
| `LedgerRuns.RunPersists` | db/sqlc/ledger.sql.go:436-474 | the same over every run |
| `LedgerRuns.MoneyIsConserved` | db/sqlc/transaction_tx.go:485-567 | per currency, customer balances and the settlement ledger sum to zero |
| `LedgerRuns.ReachableIsSafe` | db/migration/000014_double_entry_ledger.up.sql:80-90 | every reachable state satisfies the ledger invariant and conservation |
| `Effects.TransferCommitsExactly` | db/sqlc/transaction_tx.go:222-306 | a transfer commits if and only if its conditions hold, the day's transfers of the sender included, and then moves exactly the amount from one account to the other, nothing else |
| `Effects.SettlementCommitsExactly` | db/sqlc/transaction_tx.go:477-568 | a deposit or withdrawal commits if and only if its conditions hold, and then changes one balance, one row and two cancelling postings, nothing else |
| `Effects.ReversalCommitsExactly` | db/sqlc/operator_tx.go:167-278 | a reversal commits if and only if the original is reversible and affordable, and then gives every account back what the original moved |
| `Effects.ReversalUndoes` | db/sqlc/operator_tx.go:193-278 | an operation followed at once by its reversal restores every balance |
| `Effects.FrozenAccountIsDebited` | db/sqlc/operator_tx.go:216-269 | for every positive amount, a reachable state in which a reversal takes that amount from a frozen account |
| `TransferLimits.ApplyKeepsLimits` | db/sqlc/transaction_tx.go:238-256 | no operation pushes any sender over the daily limit on any day |
| `TransferLimits.DailyLimitHolds` | db/sqlc/ledger.sql.go:236-249 | in every run, with start times in any order, the transfers that debit an account and were created on one UTC day total at most 2,500,000 |
| `TransferLimits.DailyTotalIs` | db/sqlc/ledger.sql.go:236-249 | the total the check reads is the sum of the amounts of the account's outgoing transfers created on the current UTC day or later, reversed ones included and each counted once |
| `Answers.TransferAnswers` | db/sqlc/transaction_tx.go:210-353 | for each error, a transfer returns it if and only if its own condition holds and every earlier check passes |
| `Answers.TransferReceipt` | db/sqlc/transaction_tx.go:262-306 | a committed transfer returns the posted row, the debit before the credit, and the sender and recipient rows as they now are |
| `Answers.SettlementAnswers` | db/sqlc/transaction_tx.go:467-604 | the same table of errors for deposits and withdrawals |
| `Answers.ReversalAnswers` | db/sqlc/operator_tx.go:158-278 | the same for reversals; when one customer is short and another would overflow, the earlier posting decides |
| `Answers.ReversalWrites` | db/sqlc/operator_tx.go:222-278 | a committed reversal writes one posted row naming its original and operator, the opposite of each posting in order, and marks the original reversed |
| `Answers.OpenAnswers` | db/sqlc/account_tx.go:77-109 | opening fails only on a used identifier and otherwise adds an active account at zero with its ledger account |
| `Answers.CloseAnswers` | db/sqlc/account_tx.go:119-146 | each error of closing has its exact condition; success changes the status alone |
| `Answers.StatusAnswers` | db/sqlc/operator_tx.go:55-91 | the same for freezing and unfreezing |
| `Idempotency.NeverIncomplete` | db/sqlc/transaction_tx.go:166-168 | in one-at-a-time runs the incomplete-record branch is unreachable |
| `Idempotency.LaterCallsReplay` | db/sqlc/transaction_tx.go:155-174 | after a first success, until the cleanup or a call with the key runs past its lifetime, every later call replays the receipt or is refused, and changes nothing |
| `Idempotency.AtMostOncePerLifetime` | db/sqlc/idempotency.sql.go:73-83 | in one-at-a-time runs two calls move money for one key only if the cleanup or a call with the key ran past the first lifetime in between |
| `Idempotency.FailuresLeaveNoTrace` | db/sqlc/transaction_tx.go:179-206 | removing the failed attempts from any run leaves the same state, and every later call gets the same reply |
| `Idempotency.RowsComeFromMoves` | db/sqlc/transaction_tx.go:179-198 | every key row, hence every replayed receipt, was filed by a call that moved money |
| `Idempotency.KeyedAnswers` | db/sqlc/transaction_tx.go:128-208 | a keyed call is refused for its form, answered from its row while the row's expiry lies ahead, or performed as a plain transfer and filed for 24 hours |
| `Idempotency.ExpiredRowIsUnused` | db/sqlc/idempotency.sql.go:116-122 | once a row's expiry has come, a call answers and leaves exactly what it would without the row |
| `Idempotency.LifetimeEnds` | db/sqlc/idempotency.sql.go:73-122 | 24 hours after a move, a call with the key that still meets the row it left is a new call, and may move money again |
| `Idempotency.PurgeKeepsUnexpired` | db/sqlc/idempotency.sql.go:135-138 | the cleanup keeps exactly the rows whose expiry lies ahead and touches nothing else |
| `Serializability.DecideReversal` | db/sqlc/operator_tx.go:193-220 | checks made on rows read earlier are the checks on the current state |
| `Serializability.ExecKeepsGood` | db/sqlc/transaction_tx.go:686-735 | every statement keeps what its transaction knows about the committed state true |
| `Stability.CommitFramed` | db/sqlc/transaction_tx.go:262-306 | a commit changes only rows it has locked and rows under its own new identifiers |
| `Stability.FramedIsUnaffected` | db/sqlc/transaction_tx.go:712-735 | such a commit leaves what every other open transaction has read and checked intact |
| `CommitOrder.CommitIsApply` | db/sqlc/store.go:63-78 | publishing a transaction's changes is its atomic operation on the state at commit, or nothing if it is a replay |
| `CommitOrder.ReplayCommit` | db/sqlc/transaction_tx.go:155-174 | a replay changes nothing, and is the reply of the atomic operation if and only if the key has not expired by the clock of its own transaction |
| `CommitOrder.LateReplay` | db/sqlc/transaction_tx.go:145-174 | how the other case arises: an older transaction commits its key row between the statement that deletes expired rows and the read |
| `CommitOrder.StepIsAtomic` | db/sqlc/store.go:63-78 | each step keeps the system's invariant; only a commit, which performs the committing transaction's own operation, and the cleanup change the committed state |
| `CommitOrder.InterleavingIsSerial` | db/sqlc/transaction_tx.go:210-353 | every state of every interleaving is the result of running its committed operations one at a time in commit order |
| `CommitOrder.LogIsCommits` | db/sqlc/store.go:63-78 | each entry of that order was put there by the commit of a transaction with that operation and start time, or by the cleanup |
| `CommitOrder.InterleavingIsSafe` | db/sqlc/transaction_tx.go:686-735 | no interleaving breaks the ledger invariant, the daily limit or conservation |
| `CommitOrder.InterleavingPersists` | db/sqlc/operator_tx.go:208-220 | no interleaving reopens a closed account, removes a posting or moves a status back |
| `ConcurrentCalls.ExactlyOnce` | db/sqlc/transaction_tx.go:128-208 | however calls overlap, two committed calls move money for one key only if the cleanup or a call with the key, started past the first lifetime, committed in between |
| `ConcurrentCalls.ReplaysReturnAMove` | db/sqlc/transaction_tx.go:155-174 | a committed replay returns the receipt of a committed call that moved money with the same key and hash |
| `ConcurrentCalls.NeverIncompleteRecord` | db/sqlc/transaction_tx.go:166-168 | no statement of any interleaving meets an incomplete key record |
| `ConcurrentCalls.CommitDebits` | db/sqlc/operator_tx.go:216-220 | in every interleaving a commit lowers only balances its own operation may lower, a frozen one only through a reversal |
| `ConcurrentCalls.OnlyCommitsChangeAccounts` | db/sqlc/store.go:63-78 | no other step changes an account |
| `LockOrder.RequestRanksAbove` | db/sqlc/operator_tx.go:417-443 | a transaction asks only for rows ranked above all it holds: key, then transaction, then accounts in ascending order |
| `LockOrder.NoCycle` | db/sqlc/transaction_tx.go:712-735 | the waits-for graph has no cycle |
| `LockOrder.SomeoneCanMove` | db/sqlc/transaction_tx.go:712-735 | while any transaction is open, one can take its next statement or its commit |
| `LockOrder.StatementsRunOut` | db/sqlc/transaction_tx.go:210-353 | each statement ends its phase or leaves fewer statements in it |
| `LockOrder.Finishes` | db/sqlc/transaction_tx.go:712-735 | all open transactions can be brought to their end by their own statements and commits |
| `LockOrder.NeverDeadlocked` | db/sqlc/operator_tx.go:167-215 | in every state of every interleaving: no cycle of waits, some open transaction can move, and all can be finished |
| `RunningAlone.AloneIsApply` | db/sqlc/transaction_tx.go:210-353 | the statements of one undisturbed transaction end in the state, or the error, of its atomic operation |
| `Reconciliation.ReportAccounts` | db/sqlc/reconciliation.go:82-95 | the first loop reports each drifted account as missing its ledger or out of balance |
| `Reconciliation.ReportTransactions` | db/sqlc/reconciliation.go:103-122 | the second loop reports one or two issues per unsound transaction |
| `Reconciliation.ReportReversals` | db/sqlc/reconciliation.go:128-135 | the third loop reports each original reversed more than once |
| `Reconciliation.Reconcile` | db/sqlc/reconciliation.go:51-137 | the report, or the unknown-account or out-of-range error |
| `Reconciliation.ReportIsExact` | db/sqlc/reconciliation.sql.go:14-150 | the report contains exactly the issues that hold, with the figures they claim; an account's scope is the transactions with a posting, of either sign, on its ledger |
| `Reconciliation.ReportIsSorted` | db/sqlc/reconciliation.sql.go:14-150 | accounts by ID, then transactions and reversals by creation time and ID, so no issue comes twice |
| `Reconciliation.ReportFailsExactly` | db/sqlc/reconciliation.go:51-137 | there is no report exactly when the account is unknown or a sum in scope does not fit |
| `Reconciliation.ConsistentExactlyWhenSound` | db/sqlc/reconciliation.go:75-137 | a report is consistent if and only if, in its scope, balances equal their postings, posted transactions have at least two postings that cancel, and no original has two reversals |
| `Reconciliation.GlobalCoversEveryAccount` | db/sqlc/reconciliation.sql.go:14-37 | a consistent global report implies a consistent report for each account |
| `Reconciliation.AccountsDoNotCoverGlobal` | db/sqlc/reconciliation.sql.go:122-150 | the converse fails: a posted transaction without postings is in no account's scope |
| `Reconciliation.GlobalIsEveryAccountAndTheRest` | db/sqlc/reconciliation.sql.go:74-93 | global consistency is consistency of every account and of the transactions on no account |
| `Reconciliation.MetricBoundsReport` | db/sqlc/operational_metrics.sql.go:30-63 | the metric d and the number n of issues satisfy n <= 2d, and d <= n when reversals refer to rows |
| `Reconciliation.ReachableReconciles` | db/sqlc/reconciliation.go:51-137 | every reachable state reconciles without an issue, globally and per account |
| `History.TransactionPage` | api/transaction_history.go:315-363 | the page keeps at most its size of rows in order, shows each row field by field (incoming exactly when the posting is positive), and returns the last row's key as cursor exactly when more follow |
| `History.PageIsAnInterval` | db/sqlc/transaction_history.sql.go:301-325 | a page holds exactly the matching rows between its cursor and the next, in descending order |
| `History.HistoryPagesAreComplete` | db/sqlc/transaction_history.sql.go:301-325 | following the cursor ends and yields exactly the rows that meet the range, type, status and direction asked for, newest first |
| `History.NoDuplicates` | db/sqlc/transaction_history.sql.go:314-320 | whatever changes between requests, later pages hold only older rows |
| `History.SteadyRowsAppearOnce` | db/sqlc/transaction_history.sql.go:301-325 | a row that matches throughout a finished walk is on exactly one page |
| `History.OnlyMatchingRows` | db/sqlc/transaction_history.sql.go:301-325 | every row on a page matched when its page was read |
| `History.WalkEnds` | api/transaction_history.go:326-340 | n full pages hold n times the page size of different rows, so a walk ends once rows stop arriving |
| `Statement.PageFromListing` | db/sqlc/transaction_history.sql.go:250-325 | the page built from the query result is the page of the walk |
| `Statement.HistoryIsPostings` | db/sqlc/transaction_history.sql.go:260-299 | the history has one row for each transaction with a posting on the account's ledger, made of the two |
| `Statement.ListedAmountsAddUp` | db/sqlc/transaction_history.sql.go:109-132 | the listed amounts sum to closing minus opening balance |
| `Statement.RunningBalances` | db/sqlc/transaction_history.sql.go:279-282 | the newest row carries the closing balance, the oldest starts from the opening balance, and neighbours differ by the newer amount |
| `Statement.ClosesAtCachedBalance` | db/sqlc/transaction_history.sql.go:109-132 | an unbounded statement closes at the cached balance |
| `Statement.MoneyMovement` | api/transaction_history.go:234-244 | the handler's loop returns the buckets and their totals |
| `Statement.BucketsPartitionRange` | db/sqlc/transaction_history.sql.go:14-66 | the day or week buckets hold every movement of the range exactly once |
| `Statement.BucketsCoverRange` | db/sqlc/transaction_history.sql.go:14-66 | buckets start on whole days or weeks and follow one another without a gap, from the one the range begins in to the one it ends in |
| `Statement.BucketIsItsSpan` | db/sqlc/transaction_history.sql.go:14-66 | each bucket sums the credits and the debits posted within its own day or week and the range |
| `Statement.MovementIsBalanceChange` | db/sqlc/transaction_history.sql.go:14-66 | money in minus money out equals closing minus opening balance |
| `Outbox.DelayDoubles` | worker/outbox_relay.go:196-203 | the delay doubles from one second to 256 and stays within a fifth above its base |
| `Outbox.CreatedIsClaimable` | db/sqlc/outbox.sql.go:83-97 | a new event can be claimed from its creation on |
| `Outbox.ClaimedUntilLeaseEnds` | db/sqlc/outbox.sql.go:14-38 | a claim counts an attempt and keeps the event from every relay until the lease has run out |
| `Outbox.ReleasedEventWaits` | db/sqlc/outbox.sql.go:294-302 | a released event is pending with its attempts kept, cannot be claimed for 2^min(attempts, 8) seconds, and can be a fifth later |
| `Outbox.MarkedIsNotClaimable` | db/sqlc/outbox.sql.go:259-268 | marking publishes the event at that time, and it cannot be claimed any more |
| `Outbox.PruneIsExact` | db/sqlc/outbox.sql.go:139-143 | the cleanup removes exactly the events published before the cutoff |
| `Outbox.StepKeeps` | db/sqlc/outbox.sql.go:14-38 | every step of every relay, the queue and the cleanup keeps the outbox invariant |
| `Outbox.NoJobIsLost` | worker/outbox_relay.go:99-194 | every created job was accepted by the queue or still has an unpublished event; published implies accepted |
| `Outbox.AlwaysRecoverable` | db/sqlc/outbox.sql.go:14-38 | from every reachable state a free relay can still publish any job not yet accepted, after waiting out the lease or delay |
| `Outbox.PublishedStays` | db/sqlc/outbox.sql.go:259-268 | over every run, a published event that no relay can release stays published until pruned |
| `Outbox.ReleasableCanLeave` | db/sqlc/outbox.sql.go:294-302 | as long as a relay can release it, some continuation puts a published event back to pending |
| `Outbox.PublishedIsFinalExactly` | worker/outbox_relay.go:121-194 | published is final if and only if no relay has the event in its batch other than about to be marked |
| `Outbox.PublishedIsNotTerminal` | db/sqlc/outbox.sql.go:294-302 | a run from the start in which a published event is released |
| `Outbox.OutboxRelay.PublishEvent` | worker/outbox_relay.go:121-194 | publishing one event is a run of the protocol; the event ends published, or pending, unclaimed, with its attempts unchanged and waiting out its delay; no other event changes |
| `Outbox.OutboxRelay.Offer` | worker/outbox_relay.go:121-153 | loading and enqueueing lead to marking exactly when the queue has the task and says so |
| `Outbox.OutboxRelay.Conclude` | worker/outbox_relay.go:155-194 | the closing write publishes the event or puts it back to wait, or is lost |
| `Outbox.OutboxRelay.PublishBatch` | worker/outbox_relay.go:99-119 | a whole batch is a run of the protocol, and every event of the batch is dealt with |
| `EmailJobs.SentIsFinalAndAttemptsBounded` | worker/task_send_verify_email.go:73-153 | under any overlap sent is entered only after acceptance and never left, and attempts <= runs <= maximum |
| `EmailJobs.SettledStays` | db/sqlc/email_job.sql.go:411-419 | dead_letter is kept while no started run is in flight |
| `EmailJobs.LeavesDeadLetter` | db/sqlc/email_job.sql.go:510-517 | dead_letter is left if and only if such a run records its outcome |
| `EmailJobs.UnsettledCanLeave` | db/sqlc/email_job.sql.go:562-575 | with such a run there is always a continuation that leaves it |
| `EmailJobs.DeadLetterIsNotTerminal` | db/sqlc/email_job.sql.go:411-419 | such a state is reachable for every job with at least two attempts |
| `EmailJobs.NoteRacesHandler` | db/sqlc/email_job.sql.go:464-470 | noting the enqueue and starting the handler give the same job in either order, and the note shows only on a pending job |
| `EmailJobs.StartsExactly` | db/sqlc/email_job.sql.go:673-682 | an attempt starts exactly on a job neither sent nor dead-lettered, which is then processing with one attempt more |
| `EmailJobs.Processor.ProcessTaskSendEmail` | worker/task_send_verify_email.go:73-153 | one undisturbed run and its error handler, as a run of the protocol, with its outcome |
| `EmailJobs.Processor.Drain` | worker/processor.go:148-181 | undisturbed runs end sent or dead-lettered within the runs left, and sent exactly when an acceptance comes first |
| `Delivery.EmailDelivery.FindJob` | db/sqlc/email_delivery_tx.go:124-154 | a webhook is matched by message ID first, then by its tag |
| `Delivery.EmailDelivery.ProcessEmailDeliveryEventTx` | db/sqlc/email_delivery_tx.go:37-118 | the new tables and the reply, in every branch |
| `Delivery.EmailDelivery.MarkEmailJobSent` | db/sqlc/email_job.sql.go:562-575 | recording a send keeps a status that events have already set |
| `Delivery.TransitionsClimb` | db/sqlc/email_delivery_tx.go:156-211 | every allowed transition climbs pending < accepted < delayed < delivered < terminal |
| `Delivery.TransitionRule` | db/sqlc/email_delivery_tx.go:156-211 | a transition is allowed if and only if the event is later and of higher rank, except that only a complaint follows delivery |
| `Delivery.StepKeeps` | db/sqlc/email_job.sql.go:722-763 | in any step each job's status stays or climbs, and so does its event time |
| `Delivery.AtMostFourChanges` | db/sqlc/email_delivery_tx.go:43-118 | over any run a job's status changes at most four times |
| `Delivery.WebhookEffect` | db/sqlc/email_delivery_tx.go:43-118 | a webhook changes a job if and only if it is new, is about that job, and reports a later and higher status; then it sets status, time and a missing message ID, and no other job |
| `Delivery.FindIsExact` | db/sqlc/email_delivery_tx.go:124-154 | the job found is the one that sent the message or, if none did, the tagged one without a message |
| `Delivery.WebhookReply` | db/sqlc/email_delivery_tx.go:37-118 | what each webhook is answered, and that its ID is remembered unless it names an unknown job |
| `Delivery.SentEffect` | db/sqlc/email_job.sql.go:562-575 | recording a send sets the message and keeps what events have set, and is refused exactly when another job has sent it |
| `Delivery.ReplayChangesNothing` | db/sqlc/email_delivery_tx.go:50-62 | a webhook ID seen before changes nothing, at any later time |
| `Delivery.OrderMattersOnlyForAccepted` | db/sqlc/email_job.sql.go:562-575 | recording a send and the first webhook give the same state in either order if and only if the webhook does not report accepted |
| `Delivery.AcceptedTwoWays` | api/resend_webhook.go:226-228 | for accepted the two orders differ in the time of the last event alone |
| `Sessions.SessionStore.CreateExclusiveSessionTx` | db/sqlc/session_tx.go:32-92 | login revokes what is live and inserts the new session, or changes nothing |
| `Sessions.SessionStore.ValidateSession` | db/sqlc/session_tx.go:94-117 | validates if and only if the session exists, belongs to the user, is live, unexpired and on its device |
| `Sessions.SessionStore.RotateRefreshTokenTx` | db/sqlc/session_tx.go:119-196 | rotates, revokes on reuse, or fails unchanged |
| `Sessions.SessionStore.RevokeSessionTx` | db/sqlc/session_tx.go:198-236 | logout revokes from the bound device only |
| `Sessions.CheckIsExact` | db/sqlc/session_tx.go:94-117 | each refusal of a session has its exact condition |
| `Sessions.LoginWorks` | db/sqlc/session_tx.go:32-92 | after a login the new session is the user's only live one, checks out from its device until it expires, and its token can be exchanged |
| `Sessions.RotationWorks` | db/sqlc/session_tx.go:119-196 | a refresh succeeds exactly with the current token on a session that checks out, and the token it issues, ID and hash, can be exchanged next |
| `Sessions.LogoutKillsSession` | db/sqlc/session_tx.go:198-236 | a logout from the bound device ends the session for good; from another device it is refused |
| `Sessions.LogoutAllKillsSessions` | db/sqlc/session_tx.go:238-267 | revoking all of a user's sessions ends each for good and leaves everyone else's alone |
| `Sessions.OneLiveSession` | db/sqlc/session_tx.go:32-92 | in every reachable state a user has at most one unrevoked session |
| `Sessions.StepPersists` | db/sqlc/session.sql.go:220-226 | revocation is permanent; user, device and expiry never change |
| `Sessions.ExchangedAtMostOnce` | db/sqlc/session_tx.go:119-196 | over any run a refresh token is exchanged at most once |
| `Sessions.ReuseKillsSession` | db/sqlc/session_tx.go:147-169 | a token that is not current, from the bound device on a live session, revokes it, and nothing of it validates or rotates again |
| `Sessions.SupersededTokenKillsSession` | db/sqlc/session_tx.go:147-169 | replaying an exchanged token ends the session for good |
| `Users.UserStore.CreateUserTx` | db/sqlc/create_user_tx.go:81-101 | signup inserts a pending user and its mail |
| `Users.UserStore.VerifyUserEmailTx` | db/sqlc/email_verification_tx.go:23-92 | verification activates or fails with the first applicable error |
| `Users.UserStore.RequestEmailVerificationTx` | db/sqlc/email_verification_tx.go:100-142 | a resend restarts verification and mails again, or fails unchanged |
| `Users.UserStore.UpdateUserTx` | db/sqlc/update_user_tx.go:22-58 | an address change restarts registration; a change of case alone does not |
| `Users.UserStore.UpdateCurrentUserEmailDeliverability` | db/sqlc/user.sql.go:232-268 | a newer report about the current address is applied, any other is not |
| `Users.UsersStaySound` | db/sqlc/user.sql.go:61-352 | over every run: active exactly when verified, pending always with a deadline, active never undeliverable |
| `Users.UndeliverablePersists` | db/sqlc/user.sql.go:232-268 | undeliverable stays until the address changes |
| `Users.ActivatesOnlyByToken` | db/sqlc/email_verification_tx.go:29-72 | a user becomes active if and only if the unexpired token of a mail to the current address is presented |
| `Users.SameUpToCase` | db/sqlc/email_verification_tx.go:37-54 | two addresses are the same exactly when they agree letter by letter up to ASCII case |
| `Users.SignUpExactly` | db/sqlc/create_user_tx.go:81-101 | a signup is refused exactly for a used name or address, and otherwise adds a pending user with seven days to verify, and its mail |
| `Users.SignUpLeadsToActive` | db/sqlc/email_job.sql.go:620-627 | the link mailed to a new user activates the account until the link expires, and with another hash never does |
| `Users.VerifyExactly` | db/sqlc/email_verification_tx.go:23-92 | verification succeeds if and only if the link is open and current and the user neither disabled nor undeliverable; it activates once |
| `Users.VerifyAnswers` | db/sqlc/email_verification_tx.go:29-72 | each error of a refused verification has its exact condition |
| `Users.ResendExactly` | db/sqlc/email_verification_tx.go:100-142 | exactly who is granted a resend, which error the others get, and what it restarts |
| `Users.UpdateExactly` | db/sqlc/update_user_tx.go:22-58 | a new address restarts registration and is mailed; the same one in another spelling is only stored |
| `Users.ExpireExactly` | db/sqlc/user.sql.go:90-95 | exactly the pending users past their deadline are disabled |
| `Users.ReportExactly` | db/sqlc/user.sql.go:232-268 | exactly which reports apply, and what they change |
| `RateLimiter.MemoryRateLimiter.Allow` | api/operations.go:127-160 | the verdict, the new entries and the time to wait |
| `RateLimiter.MemoryRateLimiter.RemoveExpired` | api/operations.go:169-175 | the loop keeps exactly the open windows |
| `RateLimiter.SameVerdicts` | api/operations.go:127-160 | with a clock that never runs backwards, every answered call gets the verdict of an unbounded counter |
| `RateLimiter.CapacityHolds` | api/operations.go:146-153 | the map never exceeds its capacity |
| `RateLimiter.FullMeansOpenWindows` | api/operations.go:146-153 | a call is refused for lack of room only when that many other windows are open |
| `RateLimiter.AtMostLimitPerWindow` | api/operations.go:155-159 | with a fixed limit and window and no reset, at most the limit of calls per key is allowed in each window |
| `RateLimiter.WindowSpan` | api/operations.go:153-159 | the calls of a window fall into its span of time |
| `RateLimiter.FirstCallsAreAllowed` | api/operations.go:127-160 | an answered call is allowed if and only if it is among the first `limit` of its window, which the first call opens at full length |
| `RateLimiter.RefusedExactly` | api/operations.go:127-153 | a call goes unanswered exactly for its parameters or because that many other windows are open |
| `MoneyFormat.FormatGroupedInteger` | mailer/resend_mailer.go:345-351 | the loop inserts the commas of the recursive grouping |
| `MoneyFormat.FormatFinancialAmount` | mailer/resend_mailer.go:326-343 | for every int64, reading the text back returns the amount; no currency gives no text |
| `MoneyFormat.FormatRoundTrip` | mailer/resend_mailer.go:326-343 | the round trip for every amount and every non-empty currency |
| `MoneyFormat.FormatShape` | mailer/resend_mailer.go:326-343 | a sign only if negative, the currency, a space, a grouped major part without leading zero, a point and two digits |
| `MoneyFormat.CommasEveryThree` | mailer/resend_mailer.go:345-351 | counted from the right, exactly every fourth character is a comma |
| `MoneyFormat.GroupedLength` | mailer/resend_mailer.go:345-351 | the number of commas, and that the first digit stays first |

## Left out

- Audit rows, notification rows and failure audits of the money operations; their presence does not change money.
- Retrying account creation on an account-number collision, beneficiaries and account-number generation: easy members.
- Operator input validation is a verdict passed in, and `hashTransferRequest` is an opaque hash.
- The per-transfer check computes `dailyLimit - amount` in int64. For hugely negative amounts it wraps, which changes only which error is returned; the model subtracts without wrapping.
- Store.SQLStore.CreateBalancedTransaction: the running total is unbounded where the code uses int64; every caller passes amounts that cancel.
- Statement.MoneyMovement: bucket totals are unbounded where the handler adds int64 values.
- RateLimiter.MemoryRateLimiter.Allow: the call count is unbounded where the code uses int64.
- Interleaving: ledger-account and daily-total reads ride along with the check that uses them, replies to callers are not recorded, and an insert that meets another transaction's key row may go on without waiting (more behaviours than PostgreSQL allows).
- Statement.MovementIsBalanceChange: periods are cut in a time zone of fixed offset; daylight saving is not modelled.
- Ownership of the account in history and statement requests, counterparties and references.
- Date parsing, cursor text (base64 and JSON), and the page-size limits of the HTTP layer.
- Outbox: payload decoding failures are one way in which loading fails; the batch size and the creation-time order of claims are not modelled, so any subset of claimable events may be claimed.
- EmailJobs: tasks whose payload cannot be read, and the delay between retries.
- Delivery: the user side of a webhook is in Users; bounce details and audit rows are not modelled.
- Sessions: audit rows written per revoked session, and deleting sessions, which no code path does.
- Users: full names, passwords and the session revocation of a profile update; addresses compare by ASCII case folding.
- HTTP handlers, middleware, cookies, cryptography, token formats, the Redis limiter and its failover wrapper, configuration, metrics, the command line and the frontend.
