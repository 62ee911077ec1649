# Verified model of the payment simulator's runtime

The repository simulates payments on one serialised SQLite store: a lease-fenced job
scheduler, a payment saga, payments with optimistic concurrency and an event log,
idempotent HTTP commands, audited webhook callbacks, and a deterministic replay engine.
This project models that runtime in Dafny and proves what it promises over every run.

How the model is built:

- A table is a map, a transaction one atomic step. Workers, clients and deliveries are
  handles with their own, possibly stale, copies. A crash drops a handle after any step.
- Each system is a total function `Next(state, step)`; a run is any sequence of steps, and
  steps that are not enabled change nothing. The theorems quantify over all sequences.
- What the source updates in place is a class; each method equals a function of the old
  state, and the theorems are about these functions. Four methods (`JobWorker.Execute`,
  `Orchestrator.Handle`, `OutboundCallback.Execute`, `PaymentRuntime.ExecuteCommand`) tie
  the source's uninterrupted calls to the interleaved steps and transactions.
- Map enumeration (`:|`) and random ids (`*`) are nondeterministic in methods, so a method
  whose result equals a function does not depend on them.

| file | subject |
|---|---|
| `Outcomes.dfy`, `Ordering.dfy` | optional values and results; total orders and the one sorted listing of a set |
| `Decimal.dfy` | the hand-written decimal printer and the ids built from it |
| `RetryPolicy.dfy`, `Jobs.dfy`, `AuditKeys.dfy`, `JobStore.dfy`, `Worker.dfy` | retry policies, job lifecycle, audit keys, job table and audit log, worker |
| `SchedulerRuns.dfy`, `SchedulerTheorems.dfy`, `SchedulerAudit.dfy` | all interleavings of workers over the job table, and what its audit records |
| `SchedulerOutcomes.dfy`, `SchedulerAnswers.dfy` | what each call of a worker leaves of its job, and which answers of its handler a row stands for |
| `Payments.dfy`, `PaymentStore.dfy` | payment aggregate, its table with interleaved clients |
| `PaymentEvents.dfy`, `PaymentEventRuns.dfy` | event log, publication, commands, reconstruction, and all their runs |
| `PaymentCommands.dfy` | what each payment command does to its payment, its event and its deliveries, and what all commands add up to |
| `EventKinds.dfy` | the types and versions that events have in runs, and a run for each |
| `DeliveryIds.dfy`, `DeliveryRuns.dfy`, `DeliveryLoss.dfy` | when delivery job ids collide; commands and workers running over one job table; a run that loses a delivery |
| `Sagas.dfy`, `SagaRuns.dfy`, `SagaOrchestrator.dfy` | saga instances, executor decisions, all interleavings of deliveries, the orchestrator's calls |
| `SagaTheorems.dfy`, `SagaEffects.dfy`, `SagaSerial.dfy` | safety of all interleavings, what was paid for, and what absence of overlap adds |
| `SagaAnswers.dfy` | what each answer of the provider leads to, and that only approvals pay |
| `SagaSchedules.dfy`, `SagaOverlap.dfy`, `SagaStuck.dfy` | exactly when a saga can capture twice, and when it is stranded |
| `Idempotency.dfy`, `IdempotencyScopes.dfy`, `PaymentRequests.dfy` | idempotent transactional requests, which of them share a record, and payment commands behind them |
| `WebhookAudit.dfy`, `CallbackOutcomes.dfy` | callbacks as handlers of the scheduler, their audit, and what its records stand for |
| `Scenarios.dfy`, `DeterministicProvider.dfy`, `Replay.dfy`, `ReplayRunner.dfy`, `ReplayTheorems.dfy`, `ReplayCurrencies.dfy`, `ReplayLimits.dfy` | replay: scenarios, provider, execution, and theorems about all of them |
| `ReplayCommands.dfy`, `ReplaySums.dfy`, `ReplaySagas.dfy` | what each command of a replay does, what its captures and refunds add up to, and how far a saga comes |
| `Comparison.dfy`, `ComparisonContents.dfy` | the comparison of results, and what its differences say |

`dafny verify dfyconfig.toml` checks the whole project.

## Findings

Properties that the code does not have as one might expect them, each with its exact
condition or a witness:

- A payment's version wraps to zero, and the payment becomes invalid, when it accepts enough
  operations: it stays valid under all operations exactly when its version plus the operations
  that its amount still allows is below 2^64 (`Payments.StaysValidIff`). A new payment stays
  valid exactly below the largest 64-bit amount (`Payments.AlwaysValidIff`). Replay starts from
  payments at any version, and has that limit for each of them that has a proper currency, and
  for the amounts of the payments that it creates (`ReplayLimits.ReplaysValidIff`): a pending
  payment of amount 1 at version 2^64 - 1 ends at version zero after one command.
- Rebuilding a payment from its listed events works exactly when the business clock did not
  run backwards between them, because the listing sorts by time first; otherwise the history
  counts as incomplete (`PaymentEventRuns.RebuiltIffClockMovedForward`).
- A second enqueue of a job that nobody acquired overwrites its row. Over a run the audit log of
  a job is a lifecycle exactly when no enqueue overwrote its row with other content
  (`SchedulerAudit.AuditIsLifecycleIff`).
- Audit keys hash texts joined by `|`, so distinct snapshots can share one: exactly when the
  separators are distributed differently over the texts (`AuditKeys.SharedKeyIff`). Then a
  job's creation can be missing from the audit, also when all jobs have one type
  (`SchedulerAudit.SharedKeyHidesCreation`). The ids and aggregates in that input are free text
  at the interface of the job repository. While no two
  snapshots share a key, for example because all jobs are enqueued with equally many
  separators field by field (`SchedulerAudit.EqualCountsSeparate`), the audit is as it should be.
- A saga can capture more than once when deliveries of its capture message overlap: in some run
  exactly when its payment has room for two captures of its amount
  (`SagaOverlap.AtMostOneCaptureIff`). In no run do its captures exceed what the payment captured
  (`SagaEffects.CapturesAreCovered`).
- A crash after a failed authorisation, before the saga is saved, strands the saga
  (`SagaStuck.CrashStrandsAnySaga`); that its payment failed is exactly when nothing can move it
  any more (`SagaStuck.StrandedIffPaymentFailed`). A saga also stops at a capture of improper
  money, and at a cancellation when something of the payment was captured from outside
  (`SagaStuck.RedeliveryMovesIff`).
- Webhook job ids of two endpoints can collide exactly when one endpoint id is the other one
  behind the type and version of an event that payments can have (`DeliveryIds.CollideIff`):
  `payment.created:1:x` and `x` do, `payment.created:7:x` and `x` do not. In every run over a
  set of endpoints each event keeps its own deliveries exactly when no two of them are such
  (`DeliveryLoss.DeliveriesKeptIff`); for any two that are, some run loses a delivery.
- An idempotent replay repeats the first response in full exactly when all its headers are on
  the list of replayable ones (`Idempotency.FullReplayIff`).
- A valid scenario can be saved and not loaded again: the round trip succeeds exactly when all
  initial payments have proper currencies, which validation does not check
  (`Scenarios.SaveAndLoad`).
- The design record docs/architecture/decisions/adr-0012-use-saga-orchestrator-for-payment-workflows.md:32-34
  says that a captured payment is refunded and then cancelled. In the code no saga ever
  compensates after its capture: the refund step is unreachable
  (`SagaTheorems.NoRefundAndFewVersions`). The model follows the code.
- An asynchronous capture can never succeed: the resumed operation carries no amount, and in no
  run is a capture paid for by its message (`SagaEffects.NoAsynchronousCapture`).

## Model

| member | source | states |
|---|---|---|
| RetryPolicy.DecideExponential | internal/scheduler/domain/retry_policy.go:90-109 | the loop yields min(maxDelay, initial * 2^(attempt-1)) below the budget, stays inside 64 bits, and doubles at most 62 times for any 64-bit attempt |
| RetryPolicy.BackoffMonotone | internal/scheduler/domain/retry_policy.go:90-109 | later attempts never wait less; every delay lies between the initial and the largest one |
| RetryPolicy.RetryIffBudgetLeft | internal/scheduler/domain/retry_policy.go:16-109 | all three policies ask for a retry exactly while attempts remain, and then after a positive delay |
| RetryPolicy.DelaysDouble | internal/scheduler/domain/retry_policy.go:90-109 | the first delay is the initial one and each later one twice the last, up to the largest; the fixed policy always waits the same |
| Jobs.Job.Lease | internal/scheduler/domain/job.go:129-148 | the lease transition or its error, with the whole state after it |
| Jobs.Job.Start | internal/scheduler/domain/job.go:150-159 | the start transition counts the attempt, or the error leaves the job alone |
| Jobs.Job.Exhaust | internal/scheduler/domain/job.go:185-193 | exhaustion from a failure or from a lease that already has attempts |
| Jobs.Job.ScheduleRetry | internal/scheduler/domain/job.go:195-208 | a failed job becomes pending at the retry time |
| JobStore.JobRepository.SaveJob | internal/scheduler/adapters/sqlite/repository.go:40-85 | the method equals the function `Save`, whose meaning on rows is `SaveMeans`, with audit and sequence |
| SchedulerOutcomes.SaveMeans | internal/scheduler/adapters/sqlite/repository.go:40-85 | on the fields of row and snapshot: exactly a new job or the open row of the same generation is written, and which refusals are silent |
| JobStore.JobRepository.AcquireJob | internal/scheduler/adapters/sqlite/repository.go:124-144 | the method equals the function `Acquire`, whose meaning is `AcquireIff` |
| SchedulerOutcomes.AcquireIff | internal/scheduler/adapters/sqlite/repository.go:124-144 | on the fields of the row: it can be acquired iff pending, failed, or held under a lease with an expiry not after the check; the acquirer gets owner, expiry and the next generation, everything else stays |
| SchedulerOutcomes.LiveLeaseIsKept | internal/scheduler/adapters/sqlite/repository.go:124-144 | over every run in which nobody asks for the job with a check at or after the expiry, the lease keeps generation, owner and expiry until its holder ends it |
| JobStore.JobRepository.AppendAuditRow | internal/scheduler/adapters/sqlite/repository.go:146-162 | the audit row is inserted unless a row has its key, the joined text of the snapshot; the sequence moves on either way |
| AuditKeys.KeysAgreeIff | internal/scheduler/adapters/sqlite/repository.go:155-156 | two snapshots share an audit key iff their fields, split at every separator, give the same sequence of texts |
| AuditKeys.SharedKeyIff | internal/scheduler/adapters/sqlite/repository.go:155-156 | snapshots with one key are equal iff id, type, aggregate, cause and owner hold equally many separators, field by field |
| JobStore.JobRepository.ListAudit | internal/scheduler/adapters/sqlite/repository.go:165-201 | exactly one job's audit rows, in increasing sequence order |
| JobStore.JobRepository.NextRuntimeSequence | internal/platform/persistence/sqlite/runtime_sequence.go:17-27 | the stored counter grows by one and is returned |
| Worker.JobWorker.Execute | internal/scheduler/application/worker.go:60-99 | the worker's call performs exactly the model's five steps and calls the handler once iff a run is recorded |
| Worker.JobWorker.PersistFailure | internal/scheduler/application/worker.go:101-125 | the method saves what `FinishJob` gives, whose meaning for row, delay and budget is `HandlerOutcome` |
| SchedulerOutcomes.HandlerOutcome | internal/scheduler/application/worker.go:82-125 | on the fields of the row, after a handler returned to the holder of the lease: completed iff it succeeded, pending after the policy's delay while attempts are left, exhausted at the budget, and unchanged only when the retry time is the unset time |
| SchedulerOutcomes.CallOutcome | internal/scheduler/application/worker.go:60-125 | one uninterrupted call: at the budget the job is exhausted without a call, otherwise the handler is called once as the next attempt and its answer decides |
| SchedulerAnswers.OutcomesWereAnswered | internal/scheduler/application/worker.go:82-125 | in every run a completed row had a handler call with its attempt number answered with success, and a row that waits for a retry one answered with failure |
| SchedulerAnswers.AlwaysFailingExhausts | internal/scheduler/application/worker.go:60-125 | a job whose handler always fails is exhausted after exactly as many rounds and calls as its budget has left |
| SchedulerRuns.RunKeepsInv | internal/scheduler/adapters/sqlite/repository.go:40-144 | in every run each row agrees with the in-memory copy of the one holder of its generation, and generations, starts and runs are accounted for |
| SchedulerTheorems.HandlerCallsWithinBudget | internal/scheduler/application/worker.go:60-125 | the handler of a job runs at most as often as the budget, with distinct attempt numbers within it, under crashes, lease expiry and duplicate enqueues |
| SchedulerTheorems.ExhaustedExactlyAtBudget | internal/scheduler/application/worker.go:66-76 | an exhausted row has used its budget exactly, a pending one has not |
| SchedulerTheorems.TerminalIsAbsorbing | internal/scheduler/adapters/sqlite/repository.go:48-56 | completed and exhausted rows and their history never change again, although the guard names only completed |
| SchedulerTheorems.GenerationsHaveOneHolder | internal/scheduler/adapters/sqlite/repository.go:124-144 | generations 1..g of a job were handed out in order, each to exactly one acquirer |
| SchedulerTheorems.StaleWorkerIsFenced | internal/scheduler/adapters/sqlite/repository.go:40-85 | once its lease is taken over, a worker stays superseded through all later steps: none of its saves changes the store, and it never calls the handler unless its start had been committed before |
| SchedulerAudit.EqualCountsSeparate | internal/scheduler/adapters/sqlite/repository.go:155-156 | jobs enqueued with equally many separators in id, type, aggregate and cause, whoever leases them, are a class in which no two snapshots share a key |
| SchedulerAudit.AuditIsLifecycleIff | internal/scheduler/adapters/sqlite/repository.go:40-85 | over every run whose jobs come from a class in which no two snapshots share a key, a job's audit is a path of legal lifecycle steps from its creation to its row iff no enqueue overwrote that row with other content |
| SchedulerAudit.AuditLogIsLifecycle | internal/scheduler/adapters/sqlite/repository.go:146-201 | in particular with repeated content per id, in increasing sequence |
| SchedulerAudit.SharedKeyHidesCreation | internal/scheduler/adapters/sqlite/repository.go:155-157 | for any job type, two enqueues of which one has in its id what the other has in its aggregate leave the second job without any audit row |
| SchedulerAudit.ReenqueueKeepsPathIff | internal/scheduler/adapters/sqlite/repository.go:40-85 | a second enqueue keeps the path iff it repeats the stored job |
| SchedulerAudit.HandlerCallsFollowCommittedStarts | internal/scheduler/application/worker.go:82-95 | for jobs of such a class, every handler call comes after a committed and audited running snapshot with its attempt number |
| Decimal.Itoa | internal/paymentworkflow/application/orchestrator.go:155-168 | the buffer loop prints the canonical decimal of every 64-bit value within its twenty bytes |
| Decimal.PrintRoundTrip | internal/paymentworkflow/application/orchestrator.go:155-168 | the printed text has no leading zero and parses back to the number |
| Decimal.TaggedIdInjective | internal/paymentworkflow/application/orchestrator.go:146-148 | ids of the form prefix:tag:number determine all three parts although prefixes may contain colons |
| Payments.Payment.Authorize | internal/payment/domain/payment.go:104-118 | the transition or its refusal with the whole state unchanged |
| Payments.Payment.Fail | internal/payment/domain/payment.go:120-133 | the transition or its refusal with the whole state unchanged |
| Payments.Payment.Cancel | internal/payment/domain/payment.go:135-148 | the transition or its refusal with the whole state unchanged |
| Payments.Payment.Capture | internal/payment/domain/payment.go:150-184 | a capture of at most the remaining amount, in the payment's currency, or its refusal |
| Payments.Payment.Refund | internal/payment/domain/payment.go:186-220 | a refund of at most the captured amount left, or its refusal |
| Payments.TransitionKeepsValid | internal/payment/domain/payment_state.go:53-134 | a transition of a valid payment is valid iff its version does not wrap |
| Payments.TerminalIffNothingApplies | internal/payment/domain/payment_state.go:42-51 | a status is terminal iff no operation whatever applies |
| Payments.Conservation | internal/payment/domain/payment.go:104-220 | over every operation sequence captured and refunded are the sums of the accepted operations, the state is valid up to its version, and the version counts the accepted operations |
| Payments.VersionBound | internal/payment/domain/payment.go:104-220 | the version is at most 2 + captured + refunded, or 3 when cancelled |
| Payments.OperationsAreBounded | internal/payment/domain/payment.go:104-220 | from any state valid up to its version, each accepted operation adds one to the version modulo 2^64 and uses up at least one of the operations that the amounts still allow |
| Payments.StaysValidIff | internal/payment/domain/payment.go:104-220 | a valid payment stays valid under all operation sequences iff its version plus the operations it can still accept is below 2^64 |
| Payments.AlwaysValidIff | internal/payment/domain/payment.go:17-32 | a new payment stays valid under all operation sequences iff its amount is below the largest 64-bit one |
| PaymentStore.PaymentRepository.SavePayment | internal/payment/adapters/sqlite/repository.go:49-107 | insert, or update guarded by the previous version; a conflict changes nothing |
| PaymentStore.SaveIff | internal/payment/adapters/sqlite/repository.go:49-107 | accepted iff the payment is new or the save is exactly one version further; amount and other rows stay |
| PaymentStore.PaymentRepository.FindByID | internal/payment/adapters/sqlite/repository.go:109-178 | the stored payment, or the error of a missing or unrestorable row |
| PaymentStore.AcceptedSaveSawTheRow | internal/payment/adapters/sqlite/repository.go:49-107 | a client whose save is accepted had read exactly the row that it replaces |
| PaymentStore.ConcurrentSavesAreSequential | internal/payment/adapters/sqlite/repository.go:49-107 | however reads and saves interleave, a stored payment is its creation followed by all committed operations one by one, none lost, counted by the version |
| PaymentStore.CreateNeverOverwrites | internal/payment/application/create_payment.go:46-73 | creating an existing payment changes nothing |
| PaymentEvents.PaymentRuntime.AppendEvent | internal/payment/adapters/sqlite/event_log.go:44-93 | a valid event with a new id is inserted with the next sequence number, others are errors |
| PaymentEvents.PaymentRuntime.ListEvents | internal/payment/adapters/sqlite/event_log.go:95-180 | one aggregate's events sorted by time, version and id, whatever the order of the rows |
| PaymentEvents.CauseIsGreatest | internal/app/payment_events.go:61-68 | the causation search finds the event of the greatest version below the payment's, or none iff there is none |
| PaymentEvents.PaymentRuntime.PublishEvent | internal/app/payment_events.go:42-104 | event and deliveries, or the first error |
| PaymentEvents.FanOutCoversEndpoints | internal/app/payment_events.go:95-126 | each endpoint's job is afterwards the new pending delivery, or the completed job that already had its id; no other job changes |
| PaymentEvents.FanOutOkIff | internal/app/payment_events.go:95-126 | publication succeeds iff every delivery can be built and none of their ids belongs to an open job that was leased |
| EventKinds.EventOccursIff | internal/app/payment_events.go:42-80 | the ids of events in runs are exactly payment, type and version with version 1 for a creation, 2 for an authorisation or failure, 3 for a cancellation, 3 to the largest amount plus 2 for a capture, 4 to 2^64 - 1 for a refund |
| DeliveryIds.CollideIff | internal/app/payment_events.go:117 | for two endpoints some two events that occur share a delivery job id iff one endpoint id is the other one behind `type:version:` or `text:type:version:` of such an event |
| DeliveryIds.DeliveryIdInjective | internal/app/payment_events.go:117 | for endpoints of which neither extends the other so, the job id determines event and endpoint |
| DeliveryIds.SharedIdAtPublication | internal/app/payment_events.go:95-126 | when another job has the id of one delivery, the whole publication fails if that job is open and was leased; otherwise it leaves the job alone if completed and replaces it by the delivery if it was never leased |
| DeliveryRuns.EveryEventKeepsItsDeliveries | internal/app/payment_events.go:81-126 | in every run of commands and workers over one job table, with endpoints that cannot collide, each committed event has its own delivery job, with its content and cause, for every endpoint registered at its publication |
| DeliveryRuns.SagaMessageIsAllowed | internal/replay/application/runner.go:179 | publishing any message of a saga named after its payment takes no delivery's id, whatever the endpoints are |
| DeliveryLoss.ExtendedEndpointLoses | internal/app/payment_events.go:81-126 | for any two endpoints of which one extends the other by the type and version of an event, a run from the empty system ends with an event whose delivery job another event has taken |
| DeliveryLoss.DeliveriesKeptIff | internal/app/payment_events.go:81-126 | over a set of endpoints, every run keeps all deliveries iff no endpoint so extends another |
| PaymentEvents.PaymentRuntime.ExecuteCommand | internal/payment/application/capture_command.go:30-64 | find, change, save and publish as one transaction equal the function `Execute`, whose meaning is `CommandDoes` and `CommandSucceedsIff` |
| PaymentCommands.CommandDoes | internal/payment/application/capture_command.go:30-64 | on the fields of the row, for each kind of command: a capture adds its own amount to the captured sum, a refund to the refunded one, an authorisation authorises the whole amount, failing and cancelling move no money, and the new event has the resulting row, time, version and type |
| PaymentCommands.CommandSucceedsIff | internal/payment/application/capture_command.go:30-64 | while no delivery stands in the way, a command succeeds iff status, currency, amount and version of its payment allow it |
| PaymentCommands.AmountsAreTheSums | internal/payment/application/capture_command.go:30-64 | in every run captured and refunded amounts are the sums of the amounts of the successful captures and refunds |
| PaymentCommands.EndpointIsTold | internal/app/payment_events.go:106-126 | after a command each endpoint's job is due at the event's time, caused by it and with it as payload, unless a job of that id was already completed |
| PaymentEvents.ReconstructFromEvents | internal/payment/application/reconstruct.go:20-50 | the last snapshot of a faultless history, or the first fault in order |
| PaymentEvents.HistoryFaultIff | internal/payment/application/reconstruct.go:26-48 | a history is faultless iff every event fits its position, aggregate and snapshot |
| PaymentEventRuns.LogIsComplete | internal/app/payment_events.go:42-104 | in every reachable state the log holds exactly the events 1..n of a payment at version n, each caused by the one before and announcing a legal transition, the last carrying the row |
| PaymentEventRuns.RebuiltIffClockMovedForward | internal/payment/application/reconstruct.go:20-50 | reconstruction from the listed events yields the stored payment iff event times never decrease, and otherwise reports an incomplete history |
| PaymentEventRuns.RebuiltWhenClockOnlyAdvances | internal/payment/adapters/sqlite/event_log.go:95-112 | with a clock that only advances every stored payment is what its events rebuild |
| PaymentEventRuns.EveryEndpointIsNotified | internal/app/payment_events.go:81-126 | a successful command leaves for every endpoint the new delivery, or the completed job that had its id, and touches no other job; a failed one changes nothing |
| Sagas.Saga.ApplySuccess | internal/paymentworkflow/domain/workflow.go:119-136 | the success transition or its error, with the whole instance after it |
| Sagas.Saga.BeginCompensation | internal/paymentworkflow/domain/workflow.go:138-154 | compensation starts with the steps that undo what was completed, or the saga fails at once |
| Sagas.Saga.ApplyCompensationSuccess | internal/paymentworkflow/domain/workflow.go:156-169 | one compensation step is done; the last one fails the saga |
| Sagas.Saga.Contains | internal/paymentworkflow/domain/workflow.go:171-178 | whether a step is among the completed ones |
| Sagas.Undo | internal/paymentworkflow/domain/workflow.go:180-192 | refund and cancel after a capture, cancel after an authorisation, otherwise nothing |
| Sagas.SagaRepository.Save | internal/paymentworkflow/adapters/sqlite/repository.go:22-51 | insert, or update guarded by the previous version that keeps the payment id |
| Sagas.SaveSagaIff | internal/paymentworkflow/adapters/sqlite/repository.go:22-51 | accepted iff the saga is new or the save is exactly one version further; payment and other rows stay |
| SagaOrchestrator.Orchestrator.StartWithPayload | internal/paymentworkflow/application/orchestrator.go:62-72 | starting equals the model's step, with the error of an invalid instance or a known id |
| SagaOrchestrator.Orchestrator.Execute | internal/paymentworkflow/application/payment_executor.go:37-125 | the execution and the payments after it equal what `Decide`, `OpFor` and `Command` give for the provider's answer, whose meaning is that of the `SagaAnswers` rows |
| SagaAnswers.PaidWasApproved | internal/paymentworkflow/application/payment_executor.go:93-125 | in every run each step carried out on a payment comes after an approval of the provider for the same delivery, saga, step and operation, and no approval serves twice |
| SagaAnswers.AskedIff | internal/paymentworkflow/application/payment_executor.go:37-92 | for a step that the payment does not show yet the provider is asked iff the payment exists, the payload can be read, and an operation has its payload or a capture proper money |
| SagaAnswers.UnavailableChangesNothing | internal/paymentworkflow/application/payment_executor.go:93-95 | an error of the provider ends the delivery and leaves payments, sagas and messages alone |
| SagaAnswers.PendingOnlyPublishes | internal/paymentworkflow/application/orchestrator.go:99-109 | a pending answer changes no payment and no saga and publishes exactly one message per proper operation, at its time |
| SagaAnswers.ApprovalCarriesOut | internal/paymentworkflow/application/payment_executor.go:111-125 | on the fields of the payment: an approval carries the step out with the amount asked if the payment allows it, and otherwise changes nothing |
| SagaAnswers.DeclineOnlyFails | internal/paymentworkflow/application/payment_executor.go:102-109 | a refusal changes no payment except that it fails a pending one at the authorisation |
| SagaAnswers.OutcomeCarriesOn | internal/paymentworkflow/application/orchestrator.go:76-135 | on the fields of the instance: success and failure of its step move the stored saga on, or end it, and a stale copy moves nothing |
| SagaOrchestrator.Orchestrator.Handle | internal/paymentworkflow/application/orchestrator.go:76-135 | one call performs the model's delivery steps in a row, leaves none under way, and ends with the error that payments, sagas, message and answer determine |
| SagaOrchestrator.FailedHandlingKeepsSagas | internal/paymentworkflow/application/orchestrator.go:76-135 | a call that ends with an error leaves every saga as it was |
| SagaRuns.RunKeepsInv | internal/paymentworkflow/application/orchestrator.go:76-135 | every instance has one of six shapes with its evidence in the payment, every message and every stale copy fits its row, in all interleavings |
| SagaRuns.PaidIsDone | internal/paymentworkflow/application/payment_executor.go:111-125 | after the executor's command the payment shows the step or its failure |
| SagaTheorems.SagaIsSafe | internal/paymentworkflow/application/payment_executor.go:37-143 | authorisation completed means fully authorised, completed means captured at least as requested, compensated means cancelled, failed at once means failed |
| SagaTheorems.NoRefundAndFewVersions | internal/paymentworkflow/domain/workflow.go:138-192 | the refund step is never current, scheduled or announced, and versions stay within 1..4 |
| SagaTheorems.MessageIdsIdentify | internal/paymentworkflow/application/orchestrator.go:137-153 | published regular messages with one id are the same message |
| SagaTheorems.FinishedSagaStays | internal/paymentworkflow/application/orchestrator.go:84-89 | a completed or failed saga never changes again |
| SagaEffects.CapturesAreCovered | internal/paymentworkflow/application/payment_executor.go:111-125 | in every run, overlapping or not, the number of captures a saga carried out times its amount is at most what its payment captured, and that at most its total |
| SagaEffects.NoAsynchronousCapture | internal/paymentworkflow/application/payment_executor.go:42-51 | in no run is a capture paid for by the message of an asynchronous operation |
| SagaEffects.CrashAfterPaymentIsRecovered | internal/paymentworkflow/application/orchestrator.go:111-134 | in every run, also after overlapping deliveries: when a step was paid for and its saga not saved, redelivery advances the saga and publishes its next step without a provider request |
| SagaSerial.EachStepOnce | internal/paymentworkflow/application/payment_executor.go:53-55 | without overlapping deliveries each step is carried out at most once and never asked for again, but for a capture's asynchronous operations |
| SagaOverlap.OverlappingDeliveriesCaptureTwice | internal/paymentworkflow/application/payment_executor.go:111-125 | for any saga, payment and currency with room for it, two overlapping deliveries of one capture message capture twice |
| SagaOverlap.AtMostOneCaptureIff | internal/paymentworkflow/application/payment_executor.go:111-125 | a saga over a payment captures at most once in every run iff the payment has no room for two captures of its amount in its currency |
| SagaStuck.FailedAuthorisationIsNotRerun | internal/paymentworkflow/application/payment_executor.go:102-108 | a saga that runs at its authorisation with a failed payment and no outcome under way is never moved by any later steps |
| SagaStuck.CrashStrandsAnySaga | internal/paymentworkflow/application/payment_executor.go:102-108 | a crash between the failed payment and the saga save leads any saga over a new payment into that state |
| SagaStuck.RedeliveryMovesIff | internal/paymentworkflow/application/orchestrator.go:76-135 | at any step of a saga, a redelivery with the provider's best answer moves it iff the payload decodes, the payment exists and: at the authorisation it has not failed; at the capture the money is proper or was captured; at the cancellation it is authorised or cancelled |
| SagaStuck.StrandedIffPaymentFailed | internal/paymentworkflow/application/payment_executor.go:102-108 | some continuation of the run moves such a saga iff its payment has not failed |
| Idempotency.RecordRepository.Reserve | internal/idempotency/adapters/sqlite/repository.go:23-53 | a new processing record, or whether the existing one has another fingerprint |
| Idempotency.RecordRepository.Complete | internal/idempotency/adapters/sqlite/repository.go:76-100 | the record of this fingerprint becomes completed with its response, or is missing |
| Idempotency.RecordRepository.Release | internal/idempotency/adapters/sqlite/repository.go:102-112 | only a processing record of this fingerprint is deleted |
| Idempotency.BufferedWriter.CopyHeaders | internal/payment/adapters/http/handler.go:101-105 | copying value by value, in any order of names, yields the headers that have values |
| Idempotency.Handler.Idempotent | internal/payment/adapters/http/handler.go:132-206 | reserve, replay, conflict, release or complete, with records, tables and response as the function `Inner` says |
| Idempotency.Handler.Transactional | internal/payment/adapters/http/handler.go:85-110 | a server error restores all tables and answers 500, otherwise the response is passed on |
| Idempotency.FingerprintIsTheBody | internal/payment/adapters/http/handler.go:149-150 | requests of one scope have one fingerprint iff their bodies agree |
| IdempotencyScopes.KeyIff | internal/payment/adapters/http/handler.go:132-150 | the key of a request is its header without the white space around it, and nothing else is |
| IdempotencyScopes.RecordsAgreeIff | internal/payment/adapters/http/handler.go:132-150 | requests with methods without spaces share a record iff method and path agree and their trimmed keys do |
| IdempotencyScopes.FingerprintsAgreeIff | internal/payment/adapters/http/handler.go:149-150 | requests with methods without spaces and no line breaks in method and path have one fingerprint iff method, path and body agree |
| Idempotency.AtMostOneExecution | internal/payment/adapters/http/handler.go:132-206 | over all request sequences at most one execution per scope and key is committed |
| IdempotencyScopes.FirstRequestRuns | internal/payment/adapters/http/handler.go:132-206 | after any requests, a keyed one whose method, path and key no committed execution had before runs: effects and response are committed, unless it answers a server error, and then nothing is |
| IdempotencyScopes.OtherRequests | internal/payment/adapters/http/handler.go:132-150 | a request without a key runs without a record; one with too long a key or an unreadable body is refused without effect |
| Idempotency.NeverInProgress | internal/payment/adapters/http/handler.go:166-169 | the in-progress answer is unreachable |
| Idempotency.LaterRequestsAreReplayed | internal/payment/adapters/http/handler.go:152-180 | after a committed execution a request of its scope and key changes nothing and gets the same status, body and replayable headers, or a conflict for another body |
| Idempotency.FullReplayIff | internal/payment/adapters/http/handler.go:24-28 | the replay equals the first response iff all its headers are replayable |
| PaymentRequests.RetriedCommandIsNotRepeated | internal/payment/adapters/http/handler.go:132-206 | a committed command sent again under its key, however much later, changes nothing and repeats status and body |
| WebhookAudit.DeliveryAudit.Record | internal/webhook/adapters/sqlite/delivery_audit.go:21-110 | start markers are inserted once with fixed metadata, results replace only a start marker |
| WebhookAudit.OutboundCallback.Execute | internal/webhook/application/deliver_callback.go:85-159 | start record, at most one call, result record, exactly as the model's three steps |
| CallbackOutcomes.CallbackLeaves | internal/webhook/application/deliver_callback.go:85-159 | one uninterrupted callback leaves one record with its delivery and the result of its call, and called exactly if the endpoint exists |
| CallbackOutcomes.FinalRecordsWereSent | internal/webhook/adapters/sqlite/delivery_audit.go:77-110 | in every run each final record holds what the request of its own attempt came to, for the delivery of that request |
| WebhookAudit.CallsHaveTheirOwnStart | internal/webhook/application/deliver_callback.go:85-131 | in every run of workers and callbacks each HTTP call follows the committed start record of its own attempt, and no attempt is called twice |
| WebhookAudit.RecordsLast | internal/webhook/adapters/sqlite/delivery_audit.go:77-110 | a record keeps its metadata and its outcome changes at most once, from started to final |
| Scenarios.ValidateScenario | internal/replay/domain/scenario.go:64-97 | the first fault in the order of the checks |
| Scenarios.ValidScenarioIff | internal/replay/domain/scenario.go:64-97 | a scenario is valid iff its parts are and its initial payments have distinct ids |
| Scenarios.SaveAndLoad | internal/replay/adapters/sqlite/repository.go:88-120 | saving and loading a valid scenario gives it back iff its initial payments have proper currencies |
| ReplayRunner.Runner.FindExecutable | internal/replay/application/runner.go:442-462 | the first due jobs by time and id up to the limit, whatever the order of the map |
| ReplayCommands.RoundTakesTheEarliest | internal/replay/application/runner.go:442-462 | on the fields of the jobs: a round takes pending jobs whose time has come, each once, by time and id, and leaves one out only when it is full of earlier ones |
| ReplayRunner.Runner.Tick | internal/scheduler/application/scheduler.go:82-115 | one round over the batch, going on after errors and then reporting them |
| ReplayRunner.Runner.Execute | internal/replay/application/runner.go:156-276 | each command reaches the world that its function gives, or fails |
| ReplayCommands.DirectCommand | internal/replay/application/runner.go:189-308 | on the fields of the payment: a direct command succeeds iff the provider serves the payment and its status and amounts allow it; it then does what it asks with its own amount, fails the payment at a declined authorisation, and leaves only one job for its time at a delayed one |
| ReplayCommands.OperationResumes | internal/replay/application/runner.go:310-349 | exactly announced authorisations and cancellations can be executed; a resumed capture or refund never can, because it has no amount |
| ReplaySagas.StartSagaRuns | internal/replay/application/runner.go:171-188 | over a new payment with no other job due: a declining provider fails payment and saga, a delaying one leaves the authorisation for its time, and otherwise the command succeeds iff its amount can be captured, and captures exactly it and completes the saga |
| ReplayRunner.Runner.HandleSaga | internal/replay/application/runner.go:148-154 | one saga message against the in-memory repositories |
| ReplayRunner.Runner.ListStates | internal/replay/application/runner.go:554-576 | the payments sorted by id, whatever the order of the map |
| ReplayRunner.Runner.Run | internal/replay/application/runner.go:49-135 | the result is a function of the scenario alone, for every enumeration order and every choice of correlation ids |
| ReplayTheorems.ReplayResult | internal/replay/application/runner.go:554-576 | payments strictly sorted by id, each reached from its initial or created state by accepted operations and valid iff adding their number does not wrap the version to zero; final time is initial time plus all advances |
| ReplaySums.AmountsAreTheSums | internal/replay/application/runner.go:49-135 | the result lists every payment that no saga is over with its initial captured and refunded amounts and those of the scenario's own commands |
| ReplayCurrencies.ImproperStays | internal/replay/application/runner.go:156-276 | at every moment of a replay a payment without a proper currency is one of the initial payments, unchanged |
| ReplayLimits.FittingScenarioIsValid | internal/replay/application/runner.go:49-135 | if for each initial payment with a proper currency the version plus the operations it can accept is below 2^64, and no creation has the largest amount, all payments of the result are valid |
| ReplayLimits.ReplaysValidIff | internal/replay/application/runner.go:156-276 | for any registered providers, every replay from some initial payments that creates others up to a limit, whatever its commands, profile and seed, ends with valid payments iff that bound holds for each initial payment with a proper currency and the limit is below the largest amount |
| ReplayTheorems.ExecuteAsyncChangesOnePayment | internal/replay/application/runner.go:251-272 | executing a job changes at most the payment that its payload names |
| ReplayTheorems.ReplayTwice | internal/replay/application/runner.go:49-135 | two executions of one scenario compare as equivalent |
| Comparison.Compare | internal/replay/application/comparison.go:35-90 | the sorted list of exactly the differences, in any map order; equivalent iff the results agree |
| Comparison.NoDifferenceIffAgree | internal/replay/application/comparison.go:92-182 | no difference iff times agree, the payments of each id agree in full, and operations of each id agree up to their payloads |
| ComparisonContents.ReportedIff | internal/replay/application/comparison.go:92-182 | a difference is listed iff it tells of a payment, an operation or the time that is missing, unexpected or different, field by field, with path, expected and actual text |
| Comparison.DifferencesAreUnique | internal/replay/application/comparison.go:76-84 | any two sorted lists of the differences are equal |
| Comparison.ReorderedOperationsCompareAlike | internal/replay/application/comparison.go:92-116 | reordering asynchronous operations of distinct ids changes no comparison |
| Comparison.ReorderedPaymentsCompareAlike | internal/replay/application/comparison.go:118-125 | reordering payments of distinct ids changes no comparison |

Lemmas that only unfold one function are helpers and have no row: among them
`JobStore.StaleSaveIsRefused`, `DeliveryRuns.DueIsRegistered`,
`Idempotency.ServerErrorLeavesNoTrace`, `PaymentRequests.RequestIsAtomic` and
`Comparison.EquivalenceRelation`.

## Left out

- SQL text, drivers, migrations and JSON bytes: tables are maps, encodings are values or functions given to the model, and decoding what was encoded gives the value back.
- Integer columns: SQLite's signed 64-bit storage of versions and generations is not modelled; payment and saga versions wrap at 2^64, lease generations and runtime sequences are unbounded.
- Hashes: SHA-256 is taken to be injective, so the audit key is the joined text that the source hashes and the request fingerprint its hashed fields. Times in that text are integers rather than formatted timestamps.
- Legacy rows: generation-0 jobs after leasing, rows without snapshots and sequence 0; every run starts from an empty database.
- FindExecutable and Tick of the durable scheduler: over-approximated by acquisitions of any job at any time, so nothing is claimed about early runs or about recovery after a lease expires.
- Liveness: no theorem says that a job, saga or delivery eventually finishes.
- Workers without a retry policy outside replay, and jobs of unknown types: the latter are handles that are dropped.
- SagaRuns.AfterAsk: reading the payment and asking the provider are one step, since nothing shared happens between them; provider answers are arbitrary.
- PaymentEventRuns.Next: what the scheduler does to the jobs table between commands is arbitrary; `DeliveryRuns` joins it with the scheduler's own steps.
- DeliveryRuns.EveryEventKeepsItsDeliveries: enqueues of other jobs with the id of a delivery are left out; ids that do not begin with `webhook:`, such as those of all messages of sagas named after their payment, are proved to be none, while ids of a provider's asynchronous operations are the provider's choice.
- Sequence numbers of webhook audit rows: a parameter of the step that inserts the row, not tied to the scheduler's counter.
- Callbacks called without execution metadata or without an audit.
- ReplayRunner.Runner.Run: payments, jobs and sagas are values in maps, so pointer identity in the in-memory repositories is not modelled; cancellation of the context is left out.
- Clock overflow: times and durations are unbounded integers.
- Idempotency.Key: white space outside Latin-1 is not trimmed, and keys and bodies are sequences of characters rather than bytes.
- Idempotency.Handler.Transactional: inner handlers are required to write a status, as all payment handlers do.
- HTTP routing, request decoding, authentication, administration, diagnostics, configuration, outbound HTTP, URL checks and the provider registry's locking.
