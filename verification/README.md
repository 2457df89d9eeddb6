# Verification of the payout service

A Dafny model of the payout pipeline, the workflow engine and the smaller protocols around them, with
proofs of what they promise. The model follows the source step by step: services that update stores are
classes over those stores, and each of their methods is proved to do what a step relation or a
specification function says; the theorems are about those, over every input, every interleaving or every
reachable state.

## What is modelled

- **Payout pipeline** (`PayoutProtocol`, `PayoutLedger`, `PayoutTheorems`, `PayoutLocks`, `PayoutDeposits`,
  `PayoutBooks`, `PayoutCredits`, `PayoutRaces`). One shared state:
  Redis balances and locks, the Mongo transactions and users, the queue, the delayed republishes, the
  dead-letter queue, and a program counter per payout request and per worker delivery. Every awaited
  operation is one step. Each step carries an outcome: it is answered, it never ran, or it ran and the
  answer was lost. Lock and balance keys may expire between any two steps, messages may be duplicated.
- **Its services as classes** (`DistributedLock`, `Balance`, `Mongo`, `Worker`, `Gateway`, `CacheAgreement`).
  The methods perform the operations of the source on Redis and Mongo objects and are proved to follow the
  step relation under every combination of faults.
- **Retry and dead-lettering** (`RetryQueue`), **idempotency keys** (`Idempotency`), the **scheduler** with
  its leader key and the requests that race with it (`Scheduler`), **spending windows** on a civil calendar
  (`Calendar`) and their **cached counters** (`SpendingLimit`, `SpendingCaps`, `SpendingSerial`, `SpendingRaces`),
  in which every operation of a check and of a record is a step.
- **Workflow engine** (`Workflow`) with a big-step semantics of the node graph, and **placeholder
  interpolation** (`Interpolate`) as scanner and printer.
- **Sessions, one-time codes and verification tokens** (`Auth`) against a specification over past events,
  and **direct messages** (`DirectMessages`).

Amounts are integers: the balance scripts return a number, which Redis truncates to an integer reply. Ids
are natural numbers where only equality matters. Foreign services (currency, fraud score, mail, node
executors) are arbitrary answers.

## Where the code does less than it says

Each point is a lemma with a concrete run or the exact condition under which the promise holds.

- The first-access sync overwrites the balance key without looking. After a lapsed lock a request can write
  the balance it loaded over one that has been paid from, and more is paid out than there was:
  `PayoutRaces.StaleSyncOverpays`. The books are right exactly when every sync finds the key absent or at its
  own value (`PayoutDeposits.ExactIff`), as they are when locks last until the balance check
  (`PayoutDeposits.LockKeepsBooks`); a lock that lasts from the check to the sync is not enough.
  When the key has expired, the same stale sync fills it with a document that was loaded before: a write that
  the ledger books as a deposit, so that `PayoutDeposits.NoDriftIff` shows no drift there.
  `PayoutBooks.BooksIff` is exact for those runs too, and `PayoutBooks.StartAndAdjustments` says when expiries
  and adjustments do no harm.
- The worker's rollback does not know whether the deduction ran. An unexpected error before it (a lost
  claim, lookup, balance read or an unsent deduction) credits money that was never taken, once per delivery:
  `WorkerPass.ExactIff`, `WorkerPass.LostClaimsCredit`, `PayoutCredits.CreditPerMessage`.
- An error after the Mongo update, such as a failing lock release, restores Redis but not Mongo:
  `WorkerPass.AgreeIff`, `CacheAgreement.OtherFaultsDisagree`.
- `initiatePayout` says that the status may have changed while it waited for the lock, but checks the
  document loaded before: `PayoutLocks.LoadedStatusDecides`, `PayoutRaces.SuspendedUserIsPaid`.
- The scheduler says that it checks for more payouts at once, but its leader key is never released, so at
  most one payout is claimed per leadership, and leaderships are a TTL apart: `SchedulerProtocol.OnePayoutPerWindow`,
  `SchedulerProtocol.ClaimsAreSlow`.
- A cancellation saves without looking again, and may be accepted for a payout that is being initiated:
  `SchedulerProtocol.CancelIff`, `SchedulerProtocol.CancelledAndInitiated`. An update may be accepted too
  late in the same way: `SchedulerProtocol.UpdateIff`.
- A spending counter may outlive its window by less than a second, and an increment of an expired counter
  starts from zero, so that a late record lets a later payout pass the cap: `SpendingCaps.CoverageIff`,
  `SpendingRaces.LateRecordBreaksTheCap`.
- The user's lock is released before the spend is recorded, in the background. A payout that is checked in
  between reads a counter without it, and the cap is passed although every record is counted:
  `SpendingRaces.TwoChecksBreakTheCap`, with the exact condition in `SpendingCaps.CapIff`,
  `SpendingCaps.TrustIff` and `SpendingCaps.SeesAllIff`.
- Two overlapping verifications of one code both pass, and so do two overlapping password changes on one
  verification: `OneTimeRace.BothPassIff`, `OneTimeRace.BothChangeIff`. Overlapping first calls create
  two conversations, and different spellings of one id count as different users:
  `DirectMessageModel.ConcurrentCreateIff`, `DirectMessageModel.OneDmPerSetIff`,
  `DirectMessageModel.SpellingRepeatsAUser`, `DirectMessageModel.SortedIff`. Overlapping retries of a workflow execution
  can pass the maximum: `WorkflowRecords.ConcurrentRetriesIff`.
- The comment "nack without requeue" reads as if only exhausted messages were dead-lettered; on this queue
  every failed attempt is: `RetryProtocol.DrainedAccounts`. Starting the consumer twice loses the first
  consumer tag: `ConsumerControl.StopEndsIff`.

## Model

| member | source | states |
|---|---|---|
| `PayoutTheorems.LedgerIsExact` | src/worker/index.js:78-243 | over every interleaving of calls, workers, redeliveries, expiries, adjustments and faults, a Redis balance is exactly the deposits, plus what overwriting syncs have changed (the drift), less the deductions, plus the restores; a sync over a key that is there deposits nothing |
| `PayoutTheorems.NoOverdraft` | src/services/balance.service.js:54-110 | no balance key is ever negative; by the ledger, then, the net deductions of a user exceed the deposits if and only if the drift exceeds what is left |
| `PayoutTheorems.DeductedAtMostOnce` | src/worker/index.js:84-120 | whatever deliveries, duplicates and republishes occur, a transaction is deducted at most once, and exactly once if it is completed |
| `PayoutTheorems.TransactionsOnlyAdvance` | src/models/transaction.model.js:126-137 | between any two moments of a run the transactions keep user, amount and currency, none disappears, and none returns to `initiated` |
| `PayoutTheorems.MessagesNameStoredTransactions` | src/services/payout.service.js:145-190 | every message queued, delayed, dead-lettered or in hand names a stored transaction with the same user, amount and currency, so that TRANSACTION_NOT_FOUND (`src/worker/index.js:94-96`) is unreachable |
| `PayoutTheorems.CleanRunOk` | src/worker/index.js:84-215 | in a run whose unexpected errors strike only after the deduction and whose rollbacks and failure marks take effect, every transaction is at every moment settled or held by exactly the worker that claimed it |
| `PayoutTheorems.QuiescentLedger` | src/worker/index.js:114-215 | in such a run, once no worker is active, deposits and drift less the balance are exactly the total of the completed transactions |
| `PayoutDeposits.NoDriftIff` | src/services/payout.service.js:103-108 | over all runs, the books never drift if and only if every write over a present key (a sync, or the re-sync of a debit) finds its own value there; a sync that finds the key expired counts as a deposit, stale or not, and never as drift (`PayoutBooks.BooksIff` tells them apart) |
| `PayoutDeposits.ExactIff` | src/services/payout.service.js:103-108 | while the key of a user neither expires nor is adjusted, balance and net deductions add up to the starting money (the cached balance, or the Mongo balance) at every moment if and only if every first-access sync that ran found the key absent, or already at the value it wrote |
| `PayoutDeposits.PaidWithinStart` | src/services/payout.service.js:103-111 | under that condition no more is ever paid out than the user started with |
| `PayoutDeposits.LockKeepsBooks` | src/services/payout.service.js:73-108 | the condition holds when no lock lapses between its acquisition and the balance check of its holder |
| `PayoutDeposits.RunDeposits` | src/services/payout.service.js:103-108 | for such a user the only deposit of a run is the starting money, made when the key is first filled; until then no payout of the user is recorded |
| `PayoutDeposits.StartMinusBalance` | src/worker/index.js:114-215 | for a user whose key neither expires nor is adjusted: in a clean run without active workers, starting money less balance is the total of the completed transactions if and only if the books have not drifted, and so whenever the syncs agree; a user without a key has completed none |
| `PayoutBooks.BooksIff` | src/services/payout.service.js:103-108 | over all runs, expiries and adjustments included: while the key is there, starting money and accepted adjustments less the balance are the net deductions, at every moment, if and only if every sync, read-through and re-sync fills in what is left at that moment |
| `PayoutBooks.CalmBooks` | src/worker/index.js:114-140 | in a run in which the key expires only while no call may yet sync a document that it loaded and no worker is between its deduction and its Mongo update, deductions and adjustments exclude each other and the sync, and workers are answered: what is left is in the key while it is there, in the Mongo document while no worker is about to update it, and in every document that may yet be synced |
| `PayoutBooks.StartAndAdjustments` | src/worker/index.js:114-215 | in such a run, when it is clean and no worker is active, starting money and adjustments, less the balance in either store, are the total of the completed transactions, however often the key has expired |
| `PayoutRaces.StaleSyncOverpays` | src/services/payout.service.js:103-108 | a run with no fault and one lapsed lock that pays 120 to a user with 100; the lock does not lapse between the balance check and the sync of its holder |
| `PayoutTheorems.SettledTotal` | src/worker/index.js:194-215 | when every transaction is settled, deductions less restores equal the total of the completed ones |
| `PayoutTheorems.RunPinned` | src/services/payout.service.js:103-108 | a present balance key stays present, and is never overwritten by the first-access sync, while it does not expire and nobody adjusts it |
| `PayoutLedger.RunOk` | src/worker/index.js:84-215 | the invariant of every reachable state: exact books, no negative balance, at most one deduction, what each worker and call may rely on at its program point, and messages that match stored transactions |
| `PayoutLedger.HandlerStepDbOk` | src/worker/index.js:84-215 | every awaited operation of a worker keeps the books exact and the balances non-negative, whether it fails before or after taking effect |
| `PayoutLedger.HandlerStepOk` | src/worker/index.js:84-215 | every operation establishes what the worker relies on at the next one: in particular no second deduction after a claim |
| `PayoutLedger.HandlerStepFrame` | src/worker/index.js:84-215 | a worker touches only the transaction of its message; it claims only an `initiated` one, and without the claim it changes neither deductions nor a started status |
| `PayoutLedger.CallStepOk` | src/services/payout.service.js:52-239 | every awaited operation of a payout request keeps the books exact, only appends transactions, and reaches the publication only with a stored transaction that matches its message |
| `PayoutLedger.PublishOk` | src/services/message-publisher.service.js:16-55 | publishing keeps the invariant even when the library reports a full buffer after enqueueing |
| `PayoutLedger.AdjustOk` | src/services/admin.service.js:242-267 | an adjustment keeps the books exact, no balance negative, and no transaction changed |
| `PayoutProtocol.TryDeduct` | src/services/balance.service.js:58-72 | the deduction script accepts exactly when the key is there with enough on it, and then leaves the difference, which is not negative |
| `PayoutLocks.RunLocks` | src/services/payout.service.js:75-82 | in every reachable state lock values are fresh, no two calls share one, and a call that freed its lock no longer finds its value in Redis |
| `PayoutLocks.FailingExitHoldsNothing` | src/services/payout.service.js:232-239 | once a failing request has run its release, no lock carries its value, then or ever after |
| `PayoutLocks.FailingExitIff` | src/services/payout.service.js:75-82 | the step in which a request fails for good leaves a lock of its own behind if and only if its release never ran while it held the lock, or the lock was taken and the answer lost |
| `PayoutLocks.LoadedStatusDecides` | src/services/payout.service.js:54-87 | over all runs, a request gets past the status check if and only if the document it loaded before the lock was active, whatever has become of the account since |
| `PayoutLocks.PastIsActive` | src/services/payout.service.js:86-87 | no request whose loaded document was not active is ever past the check |
| `PayoutRaces.SuspendedUserIsPaid` | src/services/payout.service.js:86-87 | a run in which the user is suspended before the lock is taken and the request returns with success |
| `LockProtocol.MutualExclusion` | src/services/distributed-lock.service.js:18-36 | in every reachable timed state at most one unexpired, unreleased holder exists per resource |
| `LockProtocol.FreeIffNoHolder` | src/services/distributed-lock.service.js:26-35 | the key exists exactly while somebody holds the resource |
| `LockProtocol.LapsedReleaseIsHarmless` | src/services/distributed-lock.service.js:41-64 | a release with the value of a lapsed or finished grant changes nothing for anybody |
| `LockProtocol.OwnerReleaseFrees` | src/services/distributed-lock.service.js:46-59 | a release by the holder frees the resource and ends no other grant |
| `DistributedLocks.DistributedLock.Acquire` | src/services/distributed-lock.service.js:18-36 | SET NX PX with a fresh value: the value when the key was created, nothing when it is held, an error when the reply is lost; a live key is never overwritten |
| `DistributedLocks.DistributedLock.Release` | src/services/distributed-lock.service.js:41-64 | compare and delete: the key goes only when it still carries the caller's value, and the result says so |
| `DistributedLocks.DistributedLock.AcquireWithRetry` | src/services/distributed-lock.service.js:69-84 | it gives up only after exactly `maxRetries` attempts that all found the lock held; otherwise the last attempt alone decided; the time waited is the sum of the growing pauses |
| `DistributedLocks.WaitTimeClosedForm` | src/services/distributed-lock.service.js:72-80 | before attempt n the waits sum to delay * n * (n - 1) / 2 |
| `Balances.BalanceService.GetBalance` | src/services/balance.service.js:24-29 | the live balance, nothing for an absent or expired key |
| `Balances.BalanceService.SyncBalance` | src/services/balance.service.js:35-39 | the key is set with the cache TTL and nothing else changes |
| `Balances.BalanceService.HasSufficientBalance` | src/services/balance.service.js:42-47 | true exactly when the key is live and covers the amount |
| `Balances.BalanceService.DeductBalance` | src/services/balance.service.js:54-85 | one atomic read, check and write: error codes for absent key and low balance, the exact new balance otherwise; every expiry is kept |
| `Balances.BalanceService.AddBalance` | src/services/balance.service.js:90-110 | the same for the credit; an absent key is an error and is not created |
| `MongoStore.Transactions.ClaimForProcessing` | src/models/transaction.model.js:126-137 | only a transaction that is `initiated` is claimed, and the claim alone turns it to `processing` |
| `MongoStore.Transactions.SaveStatus` | src/models/transaction.model.js:143-169 | `markAsCompleted` and `markAsFailed` set the status whatever it was, and nothing else |
| `MongoStore.Transactions.FindByTransactionId` | src/models/transaction.model.js:118-120 | the stored document, or nothing |
| `MongoStore.Transactions.Create` | src/services/payout.service.js:145-171 | a new record at the end of the collection |
| `MongoStore.Transactions.CreateAdjustment` | src/services/admin.service.js:269-289 | one adjustment record at the end of its collection |
| `MongoStore.PayoutUsers.SetBalance` | src/worker/index.js:133-140 | the balance of that user only; an unknown user is no error |
| `WorkerPass.PassBooks` | src/worker/index.js:78-243 | a first delivery in closed form for every combination of faults: debit, credit, final status, Mongo balance, and ack or nack; other users and transactions unchanged |
| `WorkerPass.ExactIff` | src/worker/index.js:194-215 | exactly when a first delivery leaves the ledger of its transaction exact: the rollback must run after the debit and must not run before it |
| `WorkerPass.AgreeIff` | src/worker/index.js:119-140 | exactly when a first delivery keeps the Redis and the Mongo balance equal: an error after the Mongo update or before the debit must not be rolled back, one in between must |
| `WorkerPass.ProcessCredits` | src/worker/index.js:202-213 | one delivery, from any program point and under any faults, credits the user at most once |
| `WorkerPass.CreditsBounded` | src/worker/index.js:202-213 | n deliveries add at most n times the amount to the balance |
| `WorkerPass.LostClaimsCredit` | src/worker/index.js:84-88 | the bound is reached: while the claim itself keeps failing, every delivery credits the user although nothing was deducted, and the transaction stays `initiated` |
| `Workers.WorkerService.ProcessMessage` | src/worker/index.js:78-243 | the imperative delivery, over the Redis and Mongo classes, leaves the stores as the step relation says under every fault; it returns normally exactly when the message is to be acknowledged, and otherwise rethrows the first failure, in terms of the stores and the answers, unless marking the claimed transaction fails as well |
| `Workers.WorkerService.TryToPay` | src/worker/index.js:84-148 | claim or lookup, then payment: who holds the document, the error of the first failing operation, and which errors roll back |
| `Workers.WorkerService.Pay` | src/worker/index.js:114-148 | balance check and deduction before settlement: BALANCE_NOT_FOUND exactly without a live key, INSUFFICIENT_BALANCE exactly below the amount, any lost answer an unexpected error |
| `Workers.WorkerService.Settle` | src/worker/index.js:128-148 | completion, Mongo balance and lock release, in this order, stopping at the first error, and successful exactly when all are answered |
| `Workers.WorkerService.Fail` | src/worker/index.js:194-241 | credit back after an unexpected error only, mark the claimed transaction failed, and rethrow the error, or that of the mark |
| `GatewayPass.CallBooks` | src/services/payout.service.js:84-239 | everything a lock holder does in closed form, for every combination of faults and verdicts: it answers success exactly when every check passed and every reply arrived; it writes no balance but the first-access sync; what it creates, sends and leaves locked |
| `GatewayPass.ExitsAndTheLock` | src/services/payout.service.js:180-239 | a failing exit leaves the lock held if and only if the release never ran; a successful one leaves it to the one message sent, which carries its value and names a stored transaction |
| `Gateway.PayoutService.InitiatePayout` | src/services/payout.service.js:44-253 | before the lock the first failing check decides and nothing changes; at the lock all attempts but the last found it held, and the answer and the lock table follow from the last; under the lock the answer is the id of the one new record, which the one message names, or the error of the first check that fails (account, limits, cache, funds, fraud score, record, message) in terms of the stores, unless the release fails as well; stores and queue end as the step relation says |
| `Gateway.PayoutService.Initiate` | src/services/payout.service.js:84-239 | the same for the part under the lock, including the release on failure, whose error replaces the first one |
| `Gateway.PayoutService.Check` | src/services/payout.service.js:86-142 | account, limits, cache sync, funds and fraud score in this order: which answer each failing check gives, in terms of the stores |
| `Gateway.PayoutService.CreateAndPublish` | src/services/payout.service.js:144-190 | record first, then the message with the id of that record; a lost answer or an unsent message is the error |
| `Gateway.UpToTheLock` | src/services/payout.service.js:54-72 | the steps of the pipeline before the lock come to an attempt at it exactly when no check before it fails |
| `Gateway.ThreeAttempts` | src/services/payout.service.js:75-82 | in the pipeline an attempt that finds the lock held is followed by another one up to the third, and one that finds it free takes it |
| `Gateway.PublishAgrees` | src/services/payout.service.js:181-190 | publication is the same step in the pipeline and in one call |
| `Gateway.PayoutService.GetUserBalance` | src/services/payout.service.js:276-289 | the cached balance, or the Mongo balance, which is then cached; the stores end as the one step of the pipeline model says |
| `Gateway.PayoutQueue.PublishPayoutMessage` | src/services/message-publisher.service.js:16-55 | the message is appended or not; false does not exclude that it was |
| `CacheAgreement.CacheAlwaysAgrees` | src/services/admin.service.js:242-267 | over any sequence of reads, adjustments, expiries and payouts whose faults satisfy the condition, every balance key equals the Mongo balance, which is never negative |
| `CacheAgreement.OtherFaultsDisagree` | src/worker/index.js:194-213 | the condition is necessary: a funded payout with any other faults breaks the agreement |
| `CacheAgreement.PayoutAgrees` | src/services/payout.service.js:103-111 | a payout from the first-access sync to the end of its first delivery keeps the agreement under the condition |
| `CacheAgreement.AdjustAgreesIff` | src/services/admin.service.js:254-267 | exactly which faults of an allowed adjustment keep the agreement |
| `CacheAgreement.AdjustWithoutFaults` | src/services/admin.service.js:242-267 | without faults the faulty form is the single step of the pipeline model |
| `Admin.AdminService.AdjustBalance` | src/services/admin.service.js:223-312 | the first failing check refuses, each with its condition, and changes nothing; otherwise Mongo, the script or the re-sync, and the record follow as far as the answers allow, for every fault; the record is written only when both balances were changed, and its failure is an error although they were |
| `Admin.AdminService.ChangeRedis` | src/services/admin.service.js:257-267 | the script, and the re-sync from Mongo when the script reports anything but success |
| `RetryProtocol.AttemptsBounded` | src/services/message-consumer.service.js:114-146 | however deliveries interleave, the handler starts at most MAX_RETRY_ATTEMPTS + 1 times per message |
| `RetryProtocol.DrainedAccounts` | src/services/message-consumer.service.js:42-146 | once drained, a well-formed message has one dead-lettered copy per failing attempt and one ack if and only if an attempt succeeded; a malformed one has a single copy; a null body is retried without ever reaching the handler |
| `RetryProtocol.StepDecreases` | src/services/message-consumer.service.js:114-146 | every step but a new publication lowers the number of steps left to the whole queue |
| `RetryProtocol.RunsAreShort` | src/services/message-consumer.service.js:114-146 | so every run without new publications is at most that long |
| `RetryProtocol.NotStuck` | src/services/message-consumer.service.js:22-38 | and until the queue has drained some step is enabled |
| `RetryProtocol.RunsInv` | src/config/rabbitmq.js:79-86 | in every reachable state a message has at most one copy on its way, whose header is its number of failures, and the dead-letter queue holds one copy per failure |
| `PayoutCredits.CreditPerDelivery` | src/worker/index.js:202-213 | over every run of the pipeline, a transaction is credited back at most once per delivery |
| `PayoutCredits.CreditPerMessage` | src/services/message-consumer.service.js:114-146 | and unless the broker delivers a message twice, each transaction is delivered, and credited back, at most MAX_RETRY_ATTEMPTS + 1 times |
| `PayoutCredits.RunSingle` | src/services/message-consumer.service.js:114-146 | in such a run at most one copy of the message of a transaction is queued, delayed or in hand, and its header is the number of deliveries before it |
| `PayoutCredits.NackIsRetry` | src/services/message-consumer.service.js:114-146 | a failed attempt in the pipeline is the failed attempt of the model of the queue: the same copy is dead-lettered and the same one scheduled, if any |
| `Consumer.MessageConsumer.HandleMessage` | src/services/message-consumer.service.js:42-109 | in terms of the body: one with all four fields and a positive amount runs the handler once, and is acknowledged if and only if it succeeds; anything else but null is dead-lettered unhandled; failures and null bodies are dead-lettered, and sent again while retries remain |
| `Consumer.MessageConsumer.HandleFailure` | src/services/message-consumer.service.js:114-146 | nack without requeue in any case, and a delayed copy with the next count while retries remain |
| `Consumer.Channel.Nack` | src/config/rabbitmq.js:79-86 | a rejected delivery of `payout_queue` leaves a copy in the dead-letter queue |
| `ConsumerControl.StopEndsIff` | src/services/message-consumer.service.js:22-38 | stopping leaves no consumer at the broker if and only if it was never started while it ran: the first tag is lost otherwise |
| `IdempotencyProtocol.HandledAtMostOnce` | src/middleware/idempotency.middleware.js:37-106 | for any interleaving of requests with one key while Redis answers, the handler runs at most once, and every other request gets a 409 or exactly the first response |
| `IdempotencyProtocol.RunInv` | src/middleware/idempotency.middleware.js:37-106 | the invariant behind it: per key at most one owner, and the stored entry tells how far it is |
| `IdempotencyProtocol.FailsOpen` | src/middleware/idempotency.middleware.js:107-114 | when Redis does not answer the handler runs, whatever the key's state |
| `IdempotencyProtocol.NoKeyPasses` | src/middleware/idempotency.middleware.js:22-23 | a request without a key runs the handler and leaves the entries alone |
| `IdempotencyProtocol.MalformedRefused` | src/middleware/idempotency.middleware.js:25-32 | over all runs, a request with a malformed key is refused and never runs the handler |
| `IdempotencyMiddleware.IdempotencyStore.Check` | src/middleware/idempotency.middleware.js:19-80 | without a key the request passes; a key that is too long or has another character is refused; otherwise a pending entry conflicts, a completed one is replayed, and a new key is claimed, for every fault |
| `IdempotencyMiddleware.IdempotencyStore.Respond` | src/middleware/idempotency.middleware.js:87-104 | the storing step of the protocol: once it has taken effect a retry with the key gets this very response, and when the write is lost a retry finds what was there |
| `SchedulerProtocol.InitiatedAtMostOnce` | src/services/scheduler.service.js:74-80 | however instances, cancellations and updates interleave and whatever fails, a scheduled payout is initiated at most once |
| `SchedulerProtocol.OneLeaderPerWindow` | src/services/scheduler.service.js:56-62 | the leader key is granted at most once in any window of its TTL |
| `SchedulerProtocol.OnePayoutPerWindow` | src/services/scheduler.service.js:89-93 | two payouts claimed under leadership are claimed under leaderships granted at least a TTL apart, though a claim may come late after its grant: the immediate next tick never passes the key, which nobody releases |
| `SchedulerProtocol.ClaimsAreSlow` | src/services/scheduler.service.js:89-93 | however late they are made, when n payouts have been claimed under leadership, n - 1 TTLs have passed |
| `SchedulerProtocol.CancelIff` | src/controllers/scheduler.controller.js:96-106 | an accepted cancellation keeps the payout from ever being initiated if and only if no scheduler had claimed it by the time of the save |
| `SchedulerProtocol.CancelledAndInitiated` | src/controllers/scheduler.controller.js:84-110 | such a race is reachable: a payout both cancelled with success and initiated |
| `SchedulerProtocol.UpdateIff` | src/controllers/scheduler.controller.js:124-142 | an accepted update is in the record, fields that were not given unchanged, and a scheduler can still take the payout, with the new amount, if and only if it is still pending at the save: neither claimed nor cancelled in between |
| `SchedulerProtocol.LoadIff` | src/controllers/scheduler.controller.js:84-101 | a request goes on to its save if and only if its load was answered and found the payout pending |
| `SchedulerProtocol.SavedWasPending` | src/controllers/scheduler.controller.js:84-130 | over all runs, a request is past its load only if its payout was pending at that very step |
| `SchedulerProtocol.RunInv` | src/services/scheduler.service.js:52-146 | the invariant behind it, over ticks of any number of instances and requests of the controller |
| `SchedulerServices.SchedulerService.RunTick` | src/services/scheduler.service.js:52-97 | in terms of the documents: who leads claims the first pending payout whose time has come, and no other document changes; the claimed one is executed when the claim is answered; the leader key is taken exactly when it is free |
| `SchedulerServices.SchedulerService.Execute` | src/services/scheduler.service.js:100-146 | the claimed record ends completed when the payout went through and the save was answered, and otherwise failed unless that save is lost |
| `SchedulerServices.ScheduleStore.ClaimFirstDue` | src/services/scheduler.service.js:74-78 | the first pending payout whose time has come, and only that one, becomes `processing` |
| `SchedulerControl.OneTimer` | src/services/scheduler.service.js:29-48 | however often and in whatever order it is started and stopped, one timer runs exactly while the last operation was a start, and none otherwise |
| `SchedulerServices.SchedulerController.Request` | src/controllers/scheduler.controller.js:84-146 | cancel and update, alone with the store: accepted if and only if both operations are answered and the payout was pending; only then, and only in the given fields, does its record change |
| `Calendar.WindowsTile` | src/services/spending-limit.service.js:20-65 | for each period start <= now < reset, every instant of the window has the same window, and the reset starts the next one |
| `Calendar.WindowsAreDays` | src/services/spending-limit.service.js:23-61 | the date arithmetic with month overflow, Sunday and leap years agrees with windows defined on day numbers |
| `Calendar.DateRoundTrip` | src/services/spending-limit.service.js:25-34 | taking a date apart into fields and building it again, shifted by days, gives midnight of that day |
| `Calendar.WeeksStartOnMonday` | src/services/spending-limit.service.js:28-36 | a weekly window starts on a Monday, counted from the fifth of January 1970, and is seven days long |
| `Calendar.MonthsStartOnTheFirst` | src/services/spending-limit.service.js:38-41 | a monthly window starts on the first of the month and year of `now` |
| `Gregorian.MonthsAreGregorian` | src/services/spending-limit.service.js:38-41 | every month starts on the day number that the Gregorian calendar gives it, counted from leap years and five-month groups without a list of month lengths |
| `Calendar.TtlCoversWindow` | src/services/spending-limit.service.js:47-65 | the TTL is at least one second, covers the rest of the window and overshoots it by less than a second |
| `SpendingCaps.CapIff` | src/services/spending-limit.service.js:107-141 | over all interleavings of checks, creations, completions, failures and records of any number of payouts: completed payouts and those past their check never exceed a limit, in a window of any time, if and only if each payout fits beside the others when it passes its check, and again when it is created |
| `SpendingSerial.CapIsTight` | src/services/spending-limit.service.js:107-141 | then no window ever completes more than a limit; and after a payout that does not fit, the run goes on to complete more |
| `SpendingCaps.LimitsHold` | src/services/spending-limit.service.js:69-141 | no window of any time ever completes more than a limit while every check has found usages that are at least what the other payouts hold when its own is admitted |
| `SpendingCaps.TrustIff` | src/services/spending-limit.service.js:112-141 | an admission is safe for all limits under which its check would have passed if and only if the usages found are at least what the others hold |
| `SpendingSerial.SerialLimitsHold` | src/services/payout.service.js:91-101 | the cap holds when live counters cover what is recorded, and no step of a check, up to the creation of the transaction, is taken while another payout is checked, open, or completed and not recorded |
| `SpendingSerial.SerialInformed` | src/services/spending-limit.service.js:107-141 | such undisturbed checks find at least what the others hold, also when the window changes during the check |
| `SpendingRaces.TwoChecksBreakTheCap` | src/worker/index.js:130-177 | a run that completes 12 under a daily cap of 10: the second payout is checked after the first is completed and before it is recorded; every write of the counter covers |
| `SpendingRaces.LateRecordBreaksTheCap` | src/services/spending-limit.service.js:143-167 | a run with undisturbed checks that completes 16 under a daily cap of 10: a record that comes when its counter has expired lets the counter start again |
| `SpendingCaps.CoverageIff` | src/services/spending-limit.service.js:69-167 | over all runs, no live counter ever falls below what has been recorded of its window if and only if each cached aggregate still covers that, and each increase finds its counter, or creates one that does |
| `SpendingCaps.IncrCovers` | src/services/spending-limit.service.js:154-166 | one increase leaves every live counter at least what is recorded if and only if its counter was there, or nothing of the window was recorded before; a payout of an earlier window makes up for as much as its own amount |
| `SpendingCaps.CountersExactIff` | src/services/spending-limit.service.js:69-167 | over all runs, a counter that lasts to the end of its window always equals what has been recorded of it if and only if cached aggregates are what is recorded, increases are made in the window of their payout or make up the total, and no other counter but zero outlives its window |
| `SpendingCaps.IncrExact` | src/services/spending-limit.service.js:154-166 | exactly when one increase leaves the counters exact: a counter that was there needs a payout of its window, a missing one a total of nothing else |
| `SpendingCaps.CountersLag` | src/services/spending-limit.service.js:143-167 | such a counter lags behind the completed payouts of its window by those that are not recorded yet |
| `SpendingCaps.SeesAllIff` | src/services/spending-limit.service.js:69-103 | at every moment of such a run, a reading of the usage is at least all that the window holds if and only if no payout of it is open, and, when a counter is read, every completed one is recorded |
| `Spending.CheckFromIff` | src/services/spending-limit.service.js:107-141 | a check allows an amount if and only if it leaves every usage within its limit; it only fills counters, and then all of them are there with the usages that it found |
| `Spending.CheckAlone` | src/services/spending-limit.service.js:69-141 | without interruption the operations of a check are that one check: it passes exactly when it is allowed, and leaves the same counters |
| `Spending.RecordAlone` | src/services/spending-limit.service.js:145-167 | without interruption the operations of a record are that one record |
| `Spending.RecordFromIs` | src/services/spending-limit.service.js:154-166 | a record increases each limited period once, and touches no other counter |
| `Spending.RunOk` | src/worker/index.js:130-177 | what every payout knows at its program point: the usages found so far leave room for it, and the periods recorded are those of the loop so far; only completed payouts are recorded |
| `SpendingServices.SpendingLimitService.GetCurrentUsage` | src/services/spending-limit.service.js:69-103 | the value of a live counter, which stays; otherwise the aggregate of the window, cached until the reset |
| `SpendingServices.SpendingLimitService.Aggregate` | src/services/spending-limit.service.js:80-96 | the sum of the completed payouts created since the start of the window |
| `SpendingServices.SpendingLimitService.CheckLimits` | src/services/spending-limit.service.js:107-141 | refused exactly when some limit would be exceeded, and then by the first such limit |
| `SpendingServices.SpendingLimitService.RecordSpend` | src/services/spending-limit.service.js:145-167 | every limited period is increased once, from zero when its counter is gone; a TTL is kept, and set only where there is none |
| `Interpolation.ScanPrints` | src/worker/workflow.worker.js:179-183 | the leftmost scan splits a template into literals and placeholders whose concatenation is the template |
| `Interpolation.ScanUnique` | src/worker/workflow.worker.js:179-183 | and it is the only such split |
| `Interpolation.RenderedTokenwise` | src/worker/workflow.worker.js:179-184 | the output is the rendering of each piece in place; inserted text is never scanned again |
| `Interpolation.IdentityWithoutMatches` | src/worker/workflow.worker.js:180-183 | if no path resolves the template comes back unchanged, blanks inside the braces included |
| `Interpolation.MatchLengthIff` | src/worker/workflow.worker.js:180 | the greedy length is the length of the match of the expression, and of no other |
| `Interpolation.JoinSplit` | src/worker/workflow.worker.js:187 | the keys of a path contain no dot and joined give the path |
| `Interpolation.SplitJoin` | src/worker/workflow.worker.js:187 | splitting undoes joining |
| `Interpolation.PathSelects` | src/worker/workflow.worker.js:186-188 | a path is followed from left to right: its last key selects a member of what the rest of it selects |
| `Interpolation.MemberIff` | src/worker/workflow.worker.js:186-188 | a key selects the field of that name of an object, or the element of an array whose index it shows in decimal, and nothing else |
| `Interpolation.IndexIff` | src/worker/workflow.worker.js:186-188 | a key is an index exactly when it is the decimal form of a number without leading zeros |
| `Interpolation.TrimIff` | src/worker/workflow.worker.js:181 | trimming takes away the blanks at both ends and nothing else |
| `Interpolation.PlaceholderRendered` | src/worker/workflow.worker.js:179-188 | a placeholder with a path between any blanks is replaced by the value that the path selects, and left as it is without one |
| `WorkflowRecords.ExecuteWorkflow` | src/worker/workflow.worker.js:191-313 | for every fate of the database writes: a run without a failing write is the big-step run of the graph; it starts at the first node, and each further one is the first node with the id to which the stored answer of the one before leads; it succeeds only where that id is absent or unknown; success leaves exactly its own trace in the record, and so does every failure if and only if the write of the failure path takes effect; on an acyclic graph it ends within as many executions as there are nodes |
| `WorkflowRecords.RunNodes` | src/worker/workflow.worker.js:210-277 | the loop alone: the trace is the big-step run or a part of it, and between nodes the record is the mid-run list |
| `WorkflowSemantics.TraceShape` | src/worker/workflow.worker.js:204-277 | each node sees exactly the outputs of the nodes run before it, and all but possibly the last succeed |
| `WorkflowSemantics.BranchTaken` | src/worker/workflow.worker.js:271-276 | after a condition node comes the first node with its true or its false id, as its stored answer says, after any other the first with its next id; an answered node ends the run, successfully, if and only if that id is absent or unknown |
| `WorkflowSemantics.ConditionAnswer` | src/worker/workflow.worker.js:150-166 | what a condition answers, operator by operator: equality and its opposite, strict comparison of two numbers, occurrence as a part, existence, and false for any other operator |
| `WorkflowSemantics.OtherAnswers` | src/worker/workflow.worker.js:230-248 | an unknown kind and a condition without a field fail, and any other node answers what its executor answers |
| `WorkflowSemantics.Deterministic` | src/worker/workflow.worker.js:210-277 | the semantics allows one trace per graph and payload |
| `WorkflowSemantics.AcyclicDistinct` | src/worker/workflow.worker.js:210-212 | on an acyclic graph no node is run twice |
| `WorkflowSemantics.PathLength` | src/worker/workflow.worker.js:210-277 | a path of existing nodes in an acyclic graph is no longer than the list of nodes |
| `WorkflowSemantics.StepsPath` | src/worker/workflow.worker.js:271-276 | the nodes executed form a path of the graph, to which the next node can be appended |
| `WorkflowRecords.MidRunStep` | src/worker/workflow.worker.js:217-265 | push and positional write of one node turn the stored list of a prefix into that of the next, whatever an earlier attempt left |
| `WorkflowRecords.MidRunIff` | src/worker/workflow.worker.js:217-265 | between nodes the stored list is this run's own trace if and only if the run began with an empty one |
| `WorkflowRecords.ExecutionStore.Retry` | src/services/workflow.service.js:168-187 | only a failed execution with retries left is queued again, and the count never passes the maximum |
| `WorkflowRecords.ConcurrentRetriesIff` | src/services/workflow.service.js:171-187 | n requests that read before any writes stay within the maximum if and only if n retries were left |
| `WorkflowRecords.LifeOk` | src/services/workflow.service.js:114-187 | over the whole life of a triggered execution the stored count is the number of accepted retries, never above the maximum, and the stored results are those of the last run that ended |
| `WorkflowRecords.FindNode` | src/worker/workflow.worker.js:210-212 | the first node with the id; an absent or empty id ends the run |
| `AuthModel.RefreshIff` | src/services/auth.service.js:140-166 | over all traces, a refresh succeeds if and only if the token is that of the user's latest login, less than 30 days old, with no logout and no password change since |
| `AuthModel.VerifyOtpIff` | src/services/auth.service.js:215-227 | a code is accepted if and only if it is the one sent last to that address, less than 10 minutes ago, neither withdrawn nor verified since |
| `AuthModel.ChangePasswordIff` | src/services/auth.service.js:230-250 | a change is accepted if and only if the latest verification of the address is less than 10 minutes old and unused |
| `AuthModel.LoginIff` | src/services/auth.service.js:89-101 | a login succeeds if and only if the address is registered, an e-mail verification of its account has happened, and the password is that of the latest change, or the first one |
| `AuthModel.VerifiedIff` | src/services/auth.service.js:77-82 | an account is verified if and only if a verification of it has happened |
| `AuthModel.VerifyEmailIff` | src/services/auth.service.js:58-86 | a verification token is accepted if and only if it is the one sent last to its user, less than 10 minutes ago, and the user has not been verified |
| `AuthModel.OtpVerifiedOnce` | src/services/auth.service.js:197-227 | between two verifications of an address another code was sent |
| `AuthModel.OneChangePerVerification` | src/services/auth.service.js:230-250 | between two password changes of an address lies another verification, less than 10 minutes before the second |
| `AuthModel.ChangeNeedsVerification` | src/services/auth.service.js:230-234 | every password change follows a verification by less than 10 minutes |
| `AuthModel.ErrorIff` | src/services/auth.service.js:58-268 | an operation is accepted exactly when none of its checks, in their order, fails |
| `OneTimeRace.BothPassIff` | src/services/auth.service.js:219-226 | two requests on one stored value that both run to the end both pass if and only if they overlap, whichever step removes the value: for a code the second one |
| `OneTimeRace.BothChangeIff` | src/services/auth.service.js:230-249 | one verification lets two password changes through if and only if neither has deleted the flag before the other one reads it |
| `AuthServices.AuthService.Login` | src/services/auth.service.js:89-130 | refused without the right password, then without verification; otherwise the session key is replaced by a fresh token that can be refreshed at once |
| `AuthServices.AuthService.Logout` | src/services/auth.service.js:133-137 | the session key is gone, and nothing else |
| `AuthServices.AuthService.Refresh` | src/services/auth.service.js:140-166 | accepted exactly when the token is a genuine refresh token, not expired, and still the one in the session key; each refusal has its error; no state changes |
| `AuthServices.AuthService.ForgotPassword` | src/services/auth.service.js:197-212 | a new code replaces the old one for 10 minutes; when the mail fails the code is withdrawn; each refusal has its error |
| `AuthServices.AuthService.VerifyOtp` | src/services/auth.service.js:215-227 | accepted exactly for the live code of a registered address, which is then deleted, and the flag is set for 10 minutes |
| `AuthServices.AuthService.ChangePassword` | src/services/auth.service.js:230-250 | flag, length and account are checked in this order; an accepted change replaces the password and deletes the flag and the session of that user |
| `AuthServices.AuthService.ResendVerification` | src/services/auth.service.js:253-268 | for an unverified user a fresh token replaces the old one and is accepted at once, whether or not the mail that follows fails |
| `AuthServices.AuthService.VerifyEmail` | src/services/auth.service.js:58-86 | exactly the stored, unexpired token of an unverified user is accepted; it is deleted, the user is verified, and a login with the right password is accepted from then on |
| `DirectMessageModel.OneDmPerSetIff` | src/services/dm.service.js:16-58 | over any sequence of calls, participants are distinct and between 2 and 8, and no two conversations of a workspace have the same ones, if and only if every call that created a conversation named no user in two spellings |
| `DirectMessageModel.SpellingRepeatsAUser` | src/services/dm.service.js:32-54 | a user who names himself in upper case gets a conversation that lists him twice |
| `DirectMessageModel.OneDmPerSet` | src/services/dm.service.js:16-58 | in particular, while no call names a user in two spellings, no two conversations of a workspace have the same participants, who are distinct and between 2 and 8 |
| `DirectMessageModel.SameDm` | src/services/dm.service.js:16-58 | calls that name the same users, in any order, however often and by any of them, get the same conversation whatever happens in between |
| `DirectMessageModel.ExactIff` | src/services/dm.service.js:18-45 | the conversation returned has exactly the named users, each once, if and only if no user is named in two spellings |
| `DirectMessageModel.ConcurrentCreateIff` | src/services/dm.service.js:35-54 | two calls that both searched in vain before either created leave one conversation per set if and only if they wanted different sets |
| `DirectMessageModel.SortedIff` | src/services/dm.service.js:32-54 | the list stored is sorted if and only if lower case changes the order of no two spellings given |
| `DirectMessageModel.ParticipantsSortedIff` | src/services/dm.service.js:32-54 | over any sequence of calls, every stored list is sorted if and only if every call that created a conversation kept the order of its ids |
| `DirectMessageModel.ParticipantsSorted` | src/services/dm.service.js:32-54 | ids as the service prints them always keep it |
| `DirectMessageModel.CanonicalList` | src/services/dm.service.js:32-39 | and calls with the same users look up the very same list |
| `DirectMessageModel.SpellingBreaksTheOrder` | src/services/dm.service.js:32-39 | upper-case spellings are sorted before they are cast: a stored list that is not sorted |
| `DirectMessageModel.OpenOk` | src/services/dm.service.js:16-58 | one call keeps the invariant, returns a conversation of exactly the wanted users, and creates one only when there was none |
| `DirectMessageModel.OpenIs` | src/services/dm.service.js:16-58 | the same for the specification: which of the answers a call gets, and what it changes, in terms of the ids, the members and the conversations |
| `DirectMessageModel.LessIff` | src/services/dm.service.js:33 | the order by which the ids are sorted: a proper prefix comes first, and otherwise the first difference decides |
| `DirectMessages.DmService.GetOrCreateDm` | src/services/dm.service.js:16-58 | for any list of ids: too few or too many different ones, or the first that is malformed or no member, refuse; otherwise a conversation between them is returned, reopened for the initiator alone, or created when there was none |
| `DirectMessages.DmService.CloseDm` | src/services/dm.service.js:159-167 | exactly a participant in that workspace closes a conversation, and is added to the list once; nothing else changes |

## Left out

- Consumer.MessageConsumer.HandleMessage: does not model a failing `ack`, or connection loss while a message is in hand; redelivery is a `Duplicate` step of the pipeline model instead.
- WorkflowRecords.ExecuteWorkflow: takes a bound on the number of nodes, because a cyclic graph runs for ever in the source; for every bound it says where the run stands.
- WorkflowRecords.ExecutionStore.Retry: is one step; the race between its read and its write is `ConcurrentRetriesIff`.
- SpendingCaps.LimitsHold: one user with a fixed set of limits; every Redis and Mongo operation is answered or the check or record ends there; no administrator adjustments, which the aggregate would count as payouts, and no usage overview, which fills counters without a payout.
- PayoutTheorems.QuiescentLedger: assumes that unexpected errors strike only from the deduction on and that rollback and failure mark take effect; `ExactIff` of `WorkerPass` gives the exact condition for one delivery.
- PayoutDeposits.ExactIff: the balance read of `getUserBalance` and an adjustment are single steps of the pipeline; their own interleavings with the sync are not modelled.
- Interpolation.IdentityWithoutMatches: values are own-key JSON trees; JavaScript prototype lookups and members of strings are not modelled, and only blank, tab, carriage return and line feed are trimmed.
- AuthModel.VerifyOtpIff: operations are single steps; their races are `BothPassIff` and `BothChangeIff`. Registration, profile updates and the user cache, which no decision here depends on, are not modelled; accounts and addresses are fixed, and a password is compared as it is, not by its hash.
- DirectMessageModel.OneDmPerSet: calls are single steps; their race is `ConcurrentCreateIff`. Messages, notifications and listing of conversations are not modelled.
- IdempotencyProtocol.HandledAtMostOnce: within the lifetime of a key and while Redis answers the middleware; `FailsOpen` shows the other case.
- SchedulerServices.ScheduleStore.ClaimFirstDue: picks the first due payout in the collection; in the protocol the database picks any.
- Admin.AdminService.AdjustBalance: the record has no currency and no generated id, and the amount is a whole number.
- Gateway.PayoutService.InitiatePayout: the IP check, the currency quote, the spending limits and the fraud score are arbitrary answers; audit, metrics, webhooks and notifications have no effect on the stores.
- Floating-point amounts and rounding, time zones and daylight saving, wallets, deletion of payout users, and the totals kept in user metadata.
- The worker's forced deletion of the lock when a message carries no lock value: published messages always carry one.
- The Redis method name `setEx` of the spending service is read as a set with TTL.
- Controllers, validators, health, rate limits, WebSocket events, the token cryptography and password hashing.
