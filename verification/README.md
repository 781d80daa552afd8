# Verification of the durable delivery pipeline

This Dafny project models the part of the email service that must not go wrong when things
stall, crash or arrive twice: sending an email at most once, never forgetting a queued one, and
recording what the provider reports exactly once.

## What is modelled

- **The send-attempt protocol** (`EmailRows`, `EmailTable`, `SendProtocol`, `Rejections`,
  `SecondSubmissions`, `SendRun`, `Acceptance`). A row of the `emails` table is a datatype, every `UPDATE ... WHERE` is a guarded
  statement on it, and a class applies the statements in place. `SendProtocol` is a state machine
  over one email: any number of worker runs, each with its own attempt id and fence, leases that
  may expire at any moment, operators, cancels, replays and provider callbacks. A statement whose
  answer is lost may have taken effect, may take effect at any later time, or never; a finalising
  transaction may therefore commit and still report an error. `SendRun` is one call of
  `processFromQueueDurable` written as a method whose every statement is a step of that machine,
  with arbitrary steps of everyone else in between; its contract also gives the answer and the row of
  every undisturbed call. `Rejections` says which provider errors count as a rejection. `Acceptance` is the persistence loop alone,
  with its exact result for every pattern of failures.
- **The Redis queue** (`Receipts`, `Queue`, `RedisQueue`, `QueueRuns`, `Retries`). Five collections and the
  attempt counters, changed by one function per Lua script; a class runs the scripts with their
  loops.
- **The two stores together** (`NoLoss`, `NoLossExact`, `LosingRuns`, `Worker`). Any number of worker
  loops over rows and queue, each of which may crash between any two steps; a call that reports an
  error may have taken effect, may do so at any later time, or never; replays may be interrupted between their row write
  and their queue write. `Worker` writes one loop as methods over that machine, with the other loops
  at work between its calls.
- **Provider callbacks, inbox, outbox and webhook deliveries** (`EmailDomain`, `ProviderStatus`,
  `Pipeline`, `PipelineStore`, `Deliveries`). Callbacks come at least once and in any order; statuses,
  processing, dispatch, delivery, recovery, replay and purging are steps on four keyed tables.
- **Smaller engines**: the sliding-window rate limiter (`RateLimit`), daily quota counters
  (`Usage`), idempotent sends under concurrency, with
  writes that land late and processes that stop (`Sending`, `SendFates`, `Sender`), batches (`Batch`), Stripe
  event ordering (`Billing`, `BillingStream`), and the inbound retention purge (`Retention`).

Fresh random identifiers (attempt ids, fences, receipt and replay tokens, email ids) are taken to
be distinct. Clocks, the provider, the object store and the database's failures are parameters.
Unique keys come from the `ON CONFLICT` clauses and the create-then-look-up fallback.

## Where the code falls short of a simple promise

Each of these is stated with the exact condition under which the promise holds; runs that break
it are lemmas of their own where an if-and-only-if does not already name the input.

- Two callbacks can race. A failure report and a proof of delivery (delivered, opened, clicked)
  give different final statuses depending on which comes first, unless a bounce or complaint
  decides (`OrderIndependentIff`, `RaceHasTwoOutcomes`).
- After a queue write that reports an error, `send` sets the row to failed without looking at it.
  If the write did reach the queue, a worker may hold the row, and the result is a row whose status
  and attempt state contradict each other (`EnqueueFailedKeepsConsistencyIff`,
  `EnqueueFailedCanBreakARow`).
- A queued email can be forgotten. Say that an email is *secured* if its id is pending, scheduled or
  dead, or in processing under a receipt that nothing is going to give up: no worker past its claim,
  or about to acknowledge, holds it, and no acknowledgement of it is under way. Some steps can expose
  an email; each is safe for good if and only if it finds what it needs, whatever all loops do and
  whatever lands late afterwards:
  - the row write of a replay whose process stops before the queue write: the email is secured
    (`InterruptedReplayIsSafeIff`). It is not enough that the queue knows the id: a worker that is
    about to acknowledge takes it away (`InterruptedReplayCanLose`);
  - the mark at the end of a re-enqueue: the email is secured (`RecoveryMarkIsSafeIff`). Three loops
    can have taken the entry, claimed the row and let that claim expire before the mark
    (`RecoveryMarkCanLose`);
  - a worker that gives its row back: the queue has not taken its receipt back meanwhile, or the
    email is secured without it (`RetryIsSafeIff`). Two loops and a stall past the queue lease are
    enough (`RetryCanLose`);
  - the same write, or the mark, when it lands late: the email is secured (`LateWriteIsSafeIff`).
    One loop is enough (`LateRetryCanLose`);
  - one more dead letter on a full dead list: the id is known outside the tail that falls off
    (`DeadLetterIsSafeIff`).

  With a single loop, uninterrupted replays and no retry or mark that lands late, all but the last
  always find what they need (`OneLoopLosesNothing`).
- A success of `send` need not name an email that the queue was given, and an error does not mean that
  it was not. An "already exists" answer names a queued email if and only if the call that made the row
  was told "created" or its queue write took effect with an error (`ReusedIsQueuedIff`). An email with a
  row is never queued if and only if the insert of its call reported an error, or its queue write failed
  without effect, or its process stopped before the queue write (`NeverQueued`, `QueuedOrNeverIff`).
  Runs show each case: the answer may be for the call's own row (`OwnRowAnswered`), for a lost insert
  (`LostInsertAnswered`), after a failed queue write (`FailedEnqueueAnswered`), after a process that
  stopped without any error (`StoppedCreatorAnswered`); and a call may be told an error, and given its
  quota back, for an email that is in the queue (`ErrorForAQueuedEmail`).
- So the daily counter is the recipients of queued emails plus the reservations under way if and only
  if no queue write, with recipients under a limit, took effect with an error for a call that has
  ended (`QuotaIsConserved`).
- A quota reservation is undone exactly if the remembered time and the reservation fall on the same
  UTC day (`ReleaseUndoesReserveIff`).
- "At most one submission" holds until a live attempt is written off. In a reachable state in which
  none was, a step keeps the promise in every continuation without a write-off if and only if it is
  not itself a failed review, or an applied failure callback, that finds a live attempt
  (`OneSubmissionIff`; runs in `AFailedReviewAllowsASecondSubmission` and
  `AFailureCallbackAllowsASecondSubmission`).
- A stream of Stripe events converges, in every order and with any duplicates, if and only if for each
  team the greatest event names its customer or no event does (`StreamConvergesIff`): an event without
  a customer keeps the one its team has at that moment.

## Model

Rows marked "in place" are the repositories' and scripts' own operations as class methods and loops;
they tie the code's form to the functions that the other rows, the results, speak of.

| member | source | states |
|---|---|---|
| ProviderStatus.CallbackTarget | internal/service/ses_events.go:373-402 | a callback never asks for queued, sending, ambiguous or cancelled |
| ProviderStatus.CallbacksOnlyClimb | internal/domain/email.go:152-194 | over any callback stream the status rises strictly in one fixed order or stays as it is |
| ProviderStatus.RedeliveryChangesNothing | internal/repository/delivery_pipeline_repo.go:331-360 | a callback processed again after any further callbacks has no effect |
| ProviderStatus.CancelledStaysCancelled | internal/domain/email.go:152-155 | no stream of callbacks reopens a cancelled email |
| ProviderStatus.FinalStatus | internal/domain/email.go:152-194 | non-recursive form of the result of any stream: complaint over bounce over an early failure over the furthest point of the chain |
| ProviderStatus.KindsDecideTheEnding | internal/service/ses_events.go:373-402 | for any stream of callback kinds, from any status: complaint over bounce over a reject or rendering failure that came before any delivery, open or click, over the furthest of click, open, delivery and send; other kinds count for nothing |
| ProviderStatus.OrderIndependentIff | internal/domain/email.go:152-176 | every permutation of the callbacks gives the same status if and only if no undecided failure-versus-delivery race is among them |
| ProviderStatus.RaceHasTwoOutcomes | internal/domain/email.go:170-175 | in the excluded case two permutations end differently, one failed and one not |
| EmailRows.NewRow | internal/repository/email_repo.go:25-49 | a new row is consistent |
| EmailRows.ConsistencyIsInductive | internal/repository/email_repo.go:184-378 | every statement but the unfenced status write keeps status, attempt state, pair, lease and recovery flag consistent |
| EmailRows.ProviderEventKeepsConsistency | internal/repository/delivery_pipeline_repo.go:341-360 | so does the row half of a callback, applied or only recorded |
| EmailRows.EnqueueFailedKeepsConsistencyIff | internal/service/email_service.go:385-397 | the status write after a failed enqueue keeps a row consistent if and only if it finds no attempt under way, accepted or in review, and no recovery pending |
| EmailRows.EnqueueFailedCanBreakARow | internal/repository/email_repo.go:473-487 | concrete run that leaves an inconsistent row |
| EmailRows.StalePairChangesNothing | internal/repository/email_repo.go:195-227 | a worker statement whose pair no longer owns the row changes nothing |
| EmailRows.QuarantineIsClosed | internal/repository/delivery_pipeline_repo.go:176-272 | only an operator, an applied callback or the unfenced write takes a row out of review |
| EmailTable.AllRecoveredIsConsistent | internal/repository/email_repo.go:229-286 | expiry recovery keeps the whole table consistent |
| SendProtocol.InvHolds | internal/service/email_service.go:521-717 | the protocol invariant holds in every state of every interleaving |
| SendProtocol.AtMostOneSubmission | internal/service/email_service.go:537-696 | in every interleaving, two attempts that may have produced a message and were not written off are the same attempt |
| SendProtocol.LiveAttemptBlocksResend | internal/repository/email_repo.go:184-203 | while such an attempt exists no claim, replay or start of another can match |
| Rejections.BookedByItsAnswer | internal/mailer/ses.go:135-162 | over any run, an attempt counts as rejected if and only if the provider answered it with a client-side API error whose code has one of eleven markers, as taken if and only if the call succeeded, and as unclear if and only if it ended in any other error: cancelled, timed out, no API answer, a server fault, an unmarked code |
| Rejections.AnswerDecidesTheRun | internal/service/email_service.go:594-650 | in any run, after a definite rejection only the hand-back is open if the code is temporary and only the failure if not; every other error and a missing receipt go to review, a receipt to persistence |
| Rejections.UnknownUnlessDefinite | internal/mailer/ses.go:135-162 | the outcome is unknown unless the error is a client-side API error whose code mentions a marker, in any mixture of cases |
| Rejections.RetryableIfTemporary | internal/mailer/ses.go:165-187 | an API error is retryable if and only if its code says so or does not say the opposite |
| SecondSubmissions.OneSubmissionIff | internal/repository/delivery_pipeline_repo.go:242-360 | in any reachable state without written-off attempts, a step keeps at most one submission in every continuation without a write-off if and only if it does not write off a live attempt |
| SecondSubmissions.AFailedReviewAllowsASecondSubmission | internal/repository/delivery_pipeline_repo.go:242-252 | a run in which a stalled worker and its successor may both send, separated only by a failed review |
| SecondSubmissions.AFailureCallbackAllowsASecondSubmission | internal/repository/delivery_pipeline_repo.go:324-360 | the same with a failure callback |
| SendProtocol.OwnershipIsOnePeriod | internal/repository/email_repo.go:184-227 | a pair that held the row and lost it never holds it again |
| SendProtocol.StaleWorkerIsHarmless | internal/repository/email_repo.go:195-227 | over any run, a worker that lost its row never changes it again |
| SendProtocol.DeadLettersCannotCloseReplay | internal/repository/email_repo.go:325-365 | over any run, from its preparation until it is claimed, cancelled or resolved, a replay stays as prepared and every late dead-letter write is a no-op |
| SendProtocol.RollbackUndoesOnlyItsOwnReplay | internal/repository/email_repo.go:353-378 | a rollback that takes effect finds the row untouched since its own preparation |
| SendProtocol.ReviewClosesOnlyByDecision | internal/repository/delivery_pipeline_repo.go:176-272 | over any run, the step that ends a review is an operator's, an applied callback, or the unfenced write |
| SendProtocol.AcceptanceIsNeverDowngraded | internal/service/email_service.go:680-696 | after any acceptance commit no statement of the run, late or repeated, changes the row |
| SendProtocol.EventsAreRecordedOnce | internal/repository/delivery_pipeline_repo.go:57-104 | log and outbox hold the same entries once each, and "sent" exactly if an acceptance committed |
| SendProtocol.RowsStayConsistent | internal/repository/email_repo.go:184-430 | the row is consistent in every reachable state of a run whose unfenced writes each meet their exact condition |
| SendRun.FinishedRunsStaySettled | internal/service/email_service.go:572-696 | whether a finished run may have submitted never changes, whatever it left in flight |
| SendRun.NeverStartedLater | internal/service/email_service.go:555-592 | over any run, an attempt that is over, not started and without a start in flight is never submitted |
| SendRun.Email.ProcessFromQueueDurable | internal/service/email_service.go:521-696 | with anyone acting between its statements, the answer says exactly whether the provider may hold the message, which is requeued or rescheduled only if not, and what caused it; a suppressed or unchecked recipient is never sent to; undisturbed, the answer and the whole final row are given for every reading, recipient check and provider answer |
| SendRun.Email.AfterClaim | internal/service/email_service.go:555-594 | the same from the recipient check on: unchecked hands the row back, suppressed closes it, clear goes by the provider's answer |
| SendRun.Email.Send | internal/service/email_service.go:594-696 | undisturbed: submitted within the lease, in review after it or without a receipt, handed back or failed on a definite rejection, each with its whole final row |
| SendRun.Email.SendToReview | internal/service/email_service.go:698-722 | up to three tries, each a legal step, leave the run over and the submission on record; undisturbed, the row is in review |
| SendRun.Email.PersistAcceptance | internal/service/email_service.go:654-696 | reports success only if the acceptance was committed; undisturbed, exactly if the lease stands |
| Acceptance.Ledger.PersistAcceptance | internal/service/email_service.go:657-696 | for every failure pattern and every timing of the tries: accepted with its receipt and one event if some try committed while the lease stood, and persisted exactly if that or a later try said so; otherwise the fallback alone decides |
| Receipts.DecodingReturnsTheId | internal/queue/redis.go:273-275 | decoding an encoded receipt returns its id when the token has no separator |
| Receipts.DecodingReturnsTheIdIff | internal/queue/redis.go:226-228 | decoding returns the id if and only if the token has no separator |
| Receipts.ReceiptsAreUnambiguous | internal/queue/redis.go:273-275 | equal receipts have equal tokens and ids |
| Receipts.UuidShapedIff | internal/queue/redis.go:228-228 | a raw item is recognised if and only if it is five non-empty groups of hex digits joined by dashes |
| Queue.RemoveFirstIsExact | internal/queue/redis.go:99-100 | giving up a receipt takes away its first occurrence only, and everything else stays in order |
| Queue.DequeueKeepsHeld | internal/queue/redis.go:64-93 | taking an item loses no id |
| Queue.AckLosesAtMostItsId | internal/queue/redis.go:95-112 | acknowledging drops at most the acknowledged id |
| Queue.RequeueKeepsHeld | internal/queue/redis.go:114-153 | a retry loses no id except those pushed off a full dead list |
| Queue.RescheduleKeepsHeld | internal/queue/redis.go:158-177 | rescheduling loses no id |
| Queue.ReplayKeepsHeld | internal/queue/redis.go:189-206 | replaying a dead letter loses no id |
| Queue.PromoteKeepsHeld | internal/queue/redis.go:52-62 | promotion loses no id |
| Queue.RecoverConservesIds | internal/queue/redis.go:215-248 | recovery keeps the multiset of ids over pending and processing |
| Queue.RecoverMovesExactlyTheExpired | internal/queue/redis.go:221-245 | for any processing list, repeated items included, it moves exactly the first occurrences of expired items and keeps the rest, both in order |
| QueueRuns.LeasesMatchReceipts | internal/queue/redis.go:64-177 | in every reachable state receipts in processing and leases correspond one to one |
| QueueRuns.ReceiptsAreUsedOnce | internal/queue/redis.go:95-248 | over any run a receipt is used up at most once, by whichever of the four gets there |
| Retries.CounterCountsFailures | internal/queue/redis.go:122-125 | over any run the stored counter is the number of counted retries by holders of a receipt since the last replay or expiry |
| Retries.FailuresRetryThenDie | internal/queue/redis.go:118-137 | over any run the fifth or a later counted failure puts the email at the head of the dead list and on no schedule; the first four schedule it after 1, 2, 4 and 8 seconds; an uncounted one leaves the counter alone and schedules it after one second |
| Retries.OnlyFailuresDie | internal/queue/redis.go:126-133 | over any run nothing but a fifth or later counted failure makes a dead letter |
| Retries.LeaseIsKept | internal/queue/redis.go:64-93 | over any run a receipt in processing has the lease it was handed out with |
| Retries.TakenBackWhenOver | internal/queue/redis.go:215-248 | over any run recovery takes a receipt back if and only if that lease is over, and then its id is pending, ahead of all others |
| Retries.SweepMovesTheOver | internal/queue/redis.go:221-245 | of each item whose lease is over, tokenised or shaped like a UUID, exactly one occurrence moves and the rest stay |
| Retries.SweepLeases | internal/queue/redis.go:228-242 | leases of what stays are kept, and a raw id without one is given 300 seconds |
| NoLoss.NoQueuedEmailIsLost | internal/worker/email_worker.go:95-164 | with any number of loops and calls that land late, in every state of every run whose exposing steps find what they need, a published queued email is flagged for recovery or in the queue |
| NoLoss.OneLoopLosesNothing | internal/worker/email_worker.go:42-155 | one loop with uninterrupted replays and no retry or mark that lands late needs no such condition: an email is lost only if a full dead list drops it |
| NoLoss.NothingIsTrimmedBelowTheCap | internal/queue/redis.go:128-131 | that cannot happen while the dead list is below its cap |
| NoLossExact.InterruptedReplayIsSafeIff | internal/service/email_service.go:984-1021 | in any reachable state, a replay cut off after its row write is safe in every continuation if and only if the email was secured |
| LosingRuns.InterruptedReplayCanLose | internal/service/email_service.go:994-1006 | a run that loses an email the queue knew when it was replayed |
| NoLossExact.RecoveryMarkIsSafeIff | internal/service/email_service.go:941-956 | in any reachable state with any loops, clearing a recovery flag is safe in every continuation if and only if the email is secured |
| LosingRuns.RecoveryMarkCanLose | internal/service/email_service.go:941-956 | a run of three loops after which the mark lets some continuation lose the email although the queue holds its id |
| NoLossExact.RetryIsSafeIff | internal/repository/email_repo.go:205-215 | giving a row back is safe in every continuation if and only if the receipt is still in processing or the email is secured without it |
| LosingRuns.RetryCanLose | internal/queue/redis.go:215-248 | a run of two loops that loses an email after its receipt was taken back |
| NoLossExact.LateWriteIsSafeIff | internal/repository/email_repo.go:205-323 | a retry or a recovery mark that lands late is safe in every continuation if and only if the email is secured when it lands |
| LosingRuns.LateRetryCanLose | internal/worker/email_worker.go:95-155 | a run of one loop that loses an email to a retry that lands late |
| NoLossExact.DeadLetterIsSafeIff | internal/queue/redis.go:128-131 | one more dead letter on a full list, at once or late, is safe for an email that relies on the queue if and only if the queue knows it outside the tail |
| Worker.Loop.ProcessNext | internal/worker/email_worker.go:95-155 | one iteration, with any call failing and other loops and everyone else acting in between, ends idle, loses no email whose exposing steps were guarded, and is ready if every call was answered |
| Worker.Loop.ProcessFromQueue | internal/service/email_service.go:521-717 | always ends with exactly one queue call due; undisturbed, the call and the row's status are given for every reading, recipient check and outcome of sending |
| Worker.Loop.Settle | internal/worker/email_worker.go:116-147 | makes exactly the queue call that is due; a failed reschedule asks for an uncounted requeue, a retry for the dead-letter write exactly if it landed, was answered and used up the attempts, an acknowledgement for nothing |
| Worker.Loop.Maintain | internal/service/email_service.go:931-958 | a maintenance round, with any failures and anyone acting in between, loses no email whose exposing steps were guarded |
| Worker.Loop.ListQueueRecoveryPending | internal/repository/email_repo.go:288-315 | lists flagged queued rows, all of them if they are fewer than the limit, which is clamped to 5000 and defaults to 1000 |
| Pipeline.CallbackEffectsAreRecordedOnce | internal/repository/delivery_pipeline_repo.go:377-396 | despite redelivery, stale claims and recovery each callback is recorded at most once, and a processed one is recorded with its outbox row |
| Pipeline.DispatchedOnceToExactlyTheSubscribers | internal/repository/delivery_pipeline_repo.go:398-472 | an event is dispatched at most once, while due; ever after it has exactly one delivery for each webhook of its own team that was active with the event among its own at that moment, made with its class, due at once |
| Pipeline.DeliveriesComeFromDispatches | internal/repository/delivery_pipeline_repo.go:398-472 | over any run a delivery of an outbox event comes from a dispatch of that event |
| Deliveries.AttemptsCountTries | internal/repository/webhook_delivery_repo.go:34-65 | over any run the attempts of a delivery are its claims since it was made or reopened |
| Deliveries.FailureRetriesOrGivesUp | internal/repository/webhook_delivery_repo.go:76-86 | over any run a failed try under way is the last if it is the fifth or later; before that the delivery waits for the given time |
| Deliveries.GivenUpOnlySo | internal/repository/webhook_delivery_repo.go:76-182 | over any run a delivery is given up only by such a failure or with its payload |
| Pipeline.PurgedWorkIsClosed | internal/repository/webhook_delivery_repo.go:121-182 | in every reachable state work without its payload is in a status nobody claims |
| Pipeline.FinishedWorkStaysFinished | internal/repository/webhook_delivery_repo.go:34-182 | delivered, dispatched, processed, ignored and purged rows keep their status over any run |
| PipelineStore.ReconcileAccepted | internal/repository/delivery_pipeline_repo.go:176-250 | an email in review is accepted if and only if the receipt on offer is confirmed by a correlated, not ignored send or delivery callback, and that receipt is stored |
| RateLimit.SetIsTheWindowOfTheLog | pkg/middleware/ratelimit.go:89-118 | for every call sequence the pruned set is the full admission log restricted to the window |
| RateLimit.NeverMoreThanTheLimit | pkg/middleware/ratelimit.go:89-118 | no window of 1000 ms, wherever it ends, holds more admissions than the limit |
| RateLimit.AdmittedIffBelowTheLimit | pkg/middleware/ratelimit.go:89-118 | for every call sequence, a call is admitted if and only if the last 1000 ms saw fewer admissions than the limit, and its count and wait are exact |
| RateLimit.RetryHintIsExact | pkg/middleware/ratelimit.go:95-106 | alone, a rejected caller is admitted exactly from the hinted time on, and the seconds it is told cover it |
| Usage.ReleaseUndoesReserveIff | internal/queue/usage.go:22-64 | a release undoes a reservation if and only if both fall on one UTC day |
| Usage.RefusalNetsZero | internal/queue/usage.go:22-43 | a refused reservation leaves every counter as it was |
| Sending.OneKeyOneEmail | internal/service/email_service.go:222-238 | under any interleaving, successes under one key answer with one id and one request, and at most one created it |
| Sending.OneRowPerKey | internal/service/email_service.go:372-382 | at most one row per key |
| Sending.RetryAnswersTheSameId | internal/service/email_service.go:222-238 | a successful retry at any later time answers with the same id |
| Sending.QuotaIsConserved | internal/service/email_service.go:310-402 | the counter plus the units given back too early is the recipients of queued emails plus reservations under way; the counter alone is that sum if and only if no queue write landed with an error; every other exit holds nothing |
| Sending.CounterStaysWithinLimits | internal/queue/usage.go:22-43 | the counter never passes the largest limit in force |
| SendFates.ReusedIsQueuedIff | internal/service/email_service.go:222-402 | in every reachable state, an "already exists" answer names a queued email if and only if the call that made the row was told "created" or its queue write took effect with an error |
| SendFates.NeverQueued | internal/service/email_service.go:372-397 | after an insert error, a queue write without effect, or a stop before the queue write, an email with a row is never queued in any continuation |
| SendFates.QueuedOrNeverIff | internal/service/email_service.go:372-402 | and only then: otherwise it is queued, or a step of its own call can still queue it |
| SendFates.OwnRowAnswered | internal/service/email_service.go:372-382 | a run in which a call answers "already exists" for its own, never queued row |
| SendFates.LostInsertAnswered | internal/service/email_service.go:222-238 | a run in which a retry is told "already exists" after an insert that landed with an error |
| SendFates.FailedEnqueueAnswered | internal/service/email_service.go:385-397 | a run in which a retry is told so after a failed queue write |
| SendFates.StoppedCreatorAnswered | internal/service/email_service.go:372-397 | a run in which a retry is told so after a process stopped between its two writes |
| SendFates.ErrorForAQueuedEmail | internal/service/email_service.go:323-331 | a run that reports an error and gives the quota back for an email in the queue |
| Sender.Team.Send | internal/service/email_service.go:222-402 | one call among any others: success names the key's one row, conflict another request's row, created means queued, other exits hold no quota, a failed check writes nothing; undisturbed, the answer, the rows and the counter are given for every key, limit, check and failure of a write |
| Batch.ItemKeysAreDistinct | internal/service/email_service.go:1118-1125 | item keys determine batch key and index, hashed or not |
| Batch.ItemKeysFit | internal/service/email_service.go:1118-1125 | item keys fit 255 bytes |
| Batch.Mailbox.BatchSend | internal/service/email_service.go:1080-1110 | stops exactly at the first item that met a failure or whose key belongs to another request, answers each item before it with the row of its key, and a retried item with its earlier id, whatever other calls insert between the items |
| Billing.BillingConverges | internal/repository/team_repo.go:230-269 | any order and duplication of the calls ends with the fields of the greatest (created, id) |
| Billing.PlanFollowsTheLatestHook | internal/service/billing_service.go:110-187 | whatever the order, a team ends with the plan, status, subscription and period that the latest of its handled webhook calls gives, by kind |
| BillingStream.StreamConvergesIff | internal/service/billing_service.go:129-187 | a webhook stream leaves the same teams in every order and with any duplicates if and only if for each team the greatest event names its customer or no event does |
| BillingStream.UndecidedDiffers | internal/service/billing_service.go:147-149 | otherwise two orders of the same events leave different customers |
| Billing.PaidPlansAreActive | internal/service/billing_service.go:129-187 | in every reachable state a paid plan has an active or trialing status |
| Retention.InboundStore.PurgeBatch | internal/service/retention_service.go:110-129 | object before row for each message; stops only at one that cannot be purged |
| Retention.InboundStore.PurgeInbound | internal/service/retention_service.go:100-134 | terminates; on every exit only expired rows are gone, each after its object, and the count is exact; success leaves none |
| EmailTable.EmailStore.ClaimSendAttempt | internal/repository/email_repo.go:184-193 | in place: claims exactly a queued row, leaves other rows alone, and says whether it did |
| EmailTable.EmailStore.MarkSendStarted | internal/repository/email_repo.go:195-203 | in place: starts only for the owning pair of a leased row |
| EmailTable.EmailStore.MarkSendRetryable | internal/repository/email_repo.go:205-215 | in place: gives back only the owner's row |
| EmailTable.EmailStore.FinalizeAccepted | internal/repository/delivery_pipeline_repo.go:64-83 | in place: accepts only for the owner within its lease, or again for the same receipt |
| EmailTable.EmailStore.FinalizeFailed | internal/repository/delivery_pipeline_repo.go:113-126 | in place: closes only the owner's unfinished attempt |
| EmailTable.EmailStore.FinalizeAmbiguous | internal/repository/delivery_pipeline_repo.go:147-160 | in place: sends to review only the owner's started attempt |
| EmailTable.EmailStore.ApplyProviderEvent | internal/repository/delivery_pipeline_repo.go:331-360 | in place: refuses a row with another receipt, otherwise the callback rule with the attempt closed |
| EmailTable.EmailStore.RecoverExpiredSendAttempts | internal/repository/email_repo.go:229-286 | in place: requeues exactly the rows whose lease ended before the send, quarantines those after it, and lists each requeued id once |
| EmailTable.EmailStore.MarkQueueRecoveryEnqueued | internal/repository/email_repo.go:317-323 | in place: clears one recovery flag and nothing else |
| EmailTable.EmailStore.MarkDeadLetterFailed | internal/repository/email_repo.go:328-351 | in place: closes only a row without attempt, replay or pending recovery |
| EmailTable.EmailStore.PrepareDeadLetterReplay | internal/repository/email_repo.go:353-365 | in place: requeues only a failed row of the team, under the replay token |
| EmailTable.EmailStore.CancelDeadLetterReplay | internal/repository/email_repo.go:367-378 | in place: undoes only the preparation with its token |
| EmailTable.EmailStore.CancelQueuedEmail | internal/repository/email_repo.go:424-430 | in place: cancels only a queued row of the team |
| Acceptance.Ledger.Transact | internal/repository/delivery_pipeline_repo.go:57-104 | in place: row, event and outbox commit together or not at all, and an uncertain commit reports an error |
| RedisQueue.EmailQueue.Dequeue | internal/queue/redis.go:64-93 | in place: hands out the oldest pending id under a leased receipt |
| RedisQueue.EmailQueue.Ack | internal/queue/redis.go:95-112 | in place: gives up the receipt and its lease, only if still owned |
| RedisQueue.EmailQueue.Requeue | internal/queue/redis.go:114-153 | in place: counts the failure if asked to, and dead-letters the fifth or schedules after 1, 2, 4 or 8 seconds, only if still owned |
| RedisQueue.EmailQueue.RescheduleReceipt | internal/queue/redis.go:158-177 | in place: exchanges an owned receipt for a scheduled entry |
| RedisQueue.EmailQueue.ReplayDead | internal/queue/redis.go:189-206 | in place: moves one dead entry back and resets its counter |
| RedisQueue.EmailQueue.Recover | internal/queue/redis.go:215-256 | in place: the rebuilding loop computes the sweep of the processing list |
| RedisQueue.EmailQueue.PromoteScheduled | internal/queue/redis.go:52-62 | in place: moves the earliest due ids, at most 100, the first of them nearest to being handed out |
| RedisQueue.Earliest | internal/queue/redis.go:54-54 | in place: due ids by score, at most 100, none skipped |
| PipelineStore.Store.StoreProviderEvent | internal/repository/delivery_pipeline_repo.go:274-281 | in place: a known event id is not stored again |
| PipelineStore.Store.ClaimProviderEvent | internal/repository/delivery_pipeline_repo.go:283-308 | in place: claims only pending, due work with its payload |
| PipelineStore.Store.RetryProviderEvent | internal/repository/delivery_pipeline_repo.go:310-322 | in place: work in processing is ignored if terminal and else pending at the given time; nothing else changes |
| PipelineStore.Store.RecordProviderEvent | internal/repository/delivery_pipeline_repo.go:377-391 | in place: event and outbox at most once, and only work in processing becomes processed |
| PipelineStore.Store.ClaimDelivery | internal/repository/webhook_delivery_repo.go:34-65 | in place: claims the first due delivery, of an active webhook, with its payload, that nobody has locked |
| PipelineStore.Store.MarkDelivered | internal/repository/webhook_delivery_repo.go:67-74 | in place: only a delivery in flight becomes delivered |
| PipelineStore.Store.MarkFailed | internal/repository/webhook_delivery_repo.go:76-86 | in place: from in flight only, given up from the fifth attempt on, else waiting for the given time |
| PipelineStore.Store.ReplayFailed | internal/repository/webhook_delivery_repo.go:100-117 | in place: reopens only a given-up delivery of the team that still has its payload |
| PipelineStore.Store.RecoverInbox | internal/repository/delivery_pipeline_repo.go:474-482 | in place: afterwards no claim is overdue, and only overdue claims changed, to pending and otherwise as they were |
| PipelineStore.Store.RecoverOutbox | internal/repository/delivery_pipeline_repo.go:483-490 | in place: afterwards no claim is overdue, and only overdue claims changed, to pending and otherwise as they were |
| PipelineStore.Store.RecoverDeliveries | internal/repository/webhook_delivery_repo.go:88-98 | in place: afterwards no delivery in flight is overdue, and only overdue ones changed, to pending and otherwise as they were |
| PipelineStore.Store.PurgeDeliveries | internal/repository/webhook_delivery_repo.go:131-144 | in place: no old delivery of the class keeps its payload; every changed row had one, is closed now, and kept its status if it was closed; the count is exact |
| PipelineStore.Store.PurgeOutbox | internal/repository/webhook_delivery_repo.go:146-158 | in place: the same for the outbox |
| PipelineStore.Store.PurgeInbox | internal/repository/webhook_delivery_repo.go:160-176 | in place: the same for the inbox, which the outbound class purges |
| PipelineStore.Store.PurgeByEventClass | internal/repository/webhook_delivery_repo.go:121-182 | in place: all three together, with the number of rows that lost a payload |
| PipelineStore.Store.DispatchNextOutbox | internal/repository/delivery_pipeline_repo.go:398-472 | in place: picks the first due row nobody has locked, if there is one, closes it, and adds one delivery, due at once, for each active webhook of its team with the event among its own |
| PipelineStore.Store.CollectSubscribers | internal/repository/delivery_pipeline_repo.go:430-449 | in place: collects exactly the active webhooks of the event's team that have the event among their own |
| PipelineStore.InsertDeliveries | internal/repository/delivery_pipeline_repo.go:450-460 | in place: one delivery for each webhook, none replaced |
| RateLimit.Keys.Increment | pkg/middleware/ratelimit.go:89-118 | in place: the script computes one step of the limiter |
| RateLimit.DropOld | pkg/middleware/ratelimit.go:93-93 | in place: removes exactly the entries that left the window |
| Usage.UsageLimiter.ReserveUnits | internal/queue/usage.go:22-43 | in place: counts units only if they fit the limit |
| Usage.UsageLimiter.ReleaseUnits | internal/queue/usage.go:45-64 | in place: gives units back to the counter of the remembered day, never below zero |
| Batch.Mailbox.EnsureBatch | internal/repository/batch_repo.go:19-43 | in place: records a batch key once and refuses another request under it |
| Batch.Mailbox.SendOne | internal/service/email_service.go:222-238 | in place: a known key answers with its row or refuses another request, a fresh one gets the new row unless a check fails |
| Billing.TeamStore.ApplyBillingEvent | internal/repository/team_repo.go:230-269 | in place: once per event id, and only if not older than what the team has |
| Retention.InboundStore.ListExpired | internal/repository/inbound_repo.go:129-156 | in place: the oldest expired rows, fewer than asked only if there are no more |
| Retention.InboundStore.DeleteExpired | internal/repository/inbound_repo.go:158-164 | in place: removes the row only if it is still expired |

## Left out

- The superseded paths (`processFromQueueLegacy`, `processProviderEventLegacy`, `ClaimForSending`, `MarkProviderAccepted`, the id-based `Reschedule`): mixed in, they break the durable path's invariants.
- `MarkSendAmbiguous` exists as a statement of the row model, but no run issues it, because the service finalises ambiguous outcomes in a transaction instead.
- HTTP handlers, configuration, metrics, logging, health flags, the front end and all cryptography.
- Deletion of emails by retention inside the protocol and idempotency models: it only removes rows.
- The suppression merge and the deduplicating loops around it, and `providerRetryIsTerminal`: single-branch claims.
- How a callback is correlated with an email: any callback may reach the modelled row; the unique index on provider receipts across emails is not modelled.
- Timestamps that no guard reads (`sent_at`, `ambiguous_at`, `created_at` of emails), attempt counters of the outbox, error texts, audit events without a state change.
- Building and encoding an event is taken to succeed; a failure there after an acceptance would make the worker requeue the receipt of a row that is still `sending`.
- String trimming and JSON decoding: keys, receipts and event types arrive in canonical form, Stripe objects decoded. In review the code's SQL strips only spaces around an event type where the service strips all white space.
- Pipeline.DeliveriesComeFromDispatches: covers deliveries of outbox events; webhook tests and inbound mail insert a delivery under an event id of their own, in one statement, and it is then claimed and retried like the others.
- Expiry of the Redis attempt counters after a day is a step of `QueueRuns`, at any time, but not of `NoLoss`: a counter that disappears only gives an email more retries.
- Worker.Loop.ListQueueRecoveryPending: leaves out the creation order of the listing, because nothing depends on it.
- SendRun.Email.ProcessFromQueueDurable: does not crash half-way; crashes are steps of the machine it runs on.
- Sending.QuotaIsConserved: within one UTC day and without limiter errors; the day boundary is in `Usage`.
- Batch.ItemKeysAreDistinct: takes the hash not to collide on the two keys compared.
- PipelineStore.ReconcileAccepted: returns the new row instead of writing a table, because it reads two tables and changes one row; the write is the `ReconcileAccepted` statement of `EmailRows`.
- Retention.InboundStore.PurgeInbound: no other process deletes messages meanwhile.
- BillingStream.StreamConvergesIff: events name their team in their metadata; the look-up of a team by customer or subscription is not modelled.
- A queue client that repeats a write on its own: each write takes effect at most once.
