# Payment processing: lifecycle, gateway guard, metrics

A Dafny model of a payment processor: HTTP submissions claim an idempotency lease in Redis
and queue a job, workers run a reserve / charge / settle saga with compensation and retries,
a guard protects each payment gateway with an adaptive token bucket and a circuit breaker,
and a collector turns finished attempts into metrics and alerts.

`dafny verify dfyconfig.toml` checks the whole project.

## What is modelled

**The payment lifecycle** of one payment id. `Lifecycle.dfy` is a transition system over the
idempotency key, the execution lock, the stored record, the queued job, the audit log, the
settlement ledger, the dead letter entry, and the gateway's charges and refunds. A run is any
interleaving of submissions, submissions that die half way, lease and lock expiries and worker
steps; gateway and ledger answers are arbitrary. `LifecycleInvariant`, `LifecycleSafety`,
`LifecycleStores` and `LifecycleProgress` prove what every run keeps and where it ends,
`LifecycleOrigins` where its amounts and failures come from, and `AttemptOutcomes` what one
attempt comes to for every answer.
`ConcurrentSubmission.dfy`, `ConcurrentProgress.dfy`, `ConcurrentStores.dfy` and
`ConcurrentOrigins.dfy` take submissions apart into their own steps, so that any number of
them overlap, and lift charges, outcomes, progress, the agreement of the stores and the
origin of amounts to that. `PaymentServices.dfy` holds the services in the
form of the code, as methods that update stores in place, each proved to do what the
transition system does when nothing else happens between its writes.
`ExecutionLock.dfy` treats the lock among any number of workers, with a clock.

**Gateway resilience.** `CircuitBreaker.dfy` and `AdaptiveTokenBucket.dfy` hold the two
controls as classes and prove them against references (`SlidingWindow.dfy`, `Counting.dfy`,
`TokenBucket.dfy`, `TokenBucketRuns.dfy`). `GatewayGuard.dfy` interleaves the steps of any
calls over any gateways; `GuardRegistries.dfy` and `GuardService.dfy` hold the registries and
the guard as classes, and play any such interleaving on them.

**Metrics and alerts.** `MetricsWindow.dfy`, `MetricsCollector.dfy` and `Alerts.dfy`.

## Assumptions

- One active delivery per job, no worker crash and no Redis error in the middle of an attempt.
- A ledger settlement that throws has persisted nothing; a submission keeps its gateway.
- Final idempotency records are inside their retention time. Leases and locks may expire anywhere.
- The queue ignores a job whose id it still holds, removes a completed job, and keeps a job whose attempts are spent.
- In `Lifecycle` a whole submission is one step; the four `Concurrent` modules drop that assumption.
- Two Redis writes that no other party can tell apart are one step (a saved record and its audit entry; the lock and the renewed lease).
- Clocks do not run backwards, sleeps last at least as long as asked, and the alert checks of one refresh read one time.
- `amount` and `maxRetries` are not negative, which submission checks before it calls the service.

## What turned out not to hold

Each is kept as the code has it, with a failing input and the exact condition.

- *Concurrent submissions can never double-charge* (src/payments/payment.service.ts:116-120) fails: a submission that finds a lease without a record deletes the key later without looking, and may delete a published outcome. `TwoSubmissionsCanChargeTwice` gives the run; `DeletionIsSafeIff` says which deletions are safe, and `PublishedOutcomeStandsIff` how long a published outcome lasts.
- *The stores agree once a payment is final* fails when a submission saves its record after the terminal one. With overlapping submissions that is the exact condition, as long as no published outcome is deleted: `OverlappingStoresAgreeIff`, and `FinalRecordStandsIff` for how long a final record lasts. `LateSaveDisagrees` gives a run of two submissions in which no lease is claimed over a terminal save: the first claims, loses its lease, and saves after the second one's job is completed. With submissions that are one step, what remains is a submission accepted between the terminal save and the finalize (`StoresAgreeIffNeverOverwritten`), which needs no lease that expires between the two (`StoresCanDisagree`).
- *A half-open breaker is decided by its probe* fails when the gateway only gives permanent rejections to the calls that are out: they are not recorded, and the breaker refuses every later call until it is reset. `HalfOpenEndsIff` says in which runs the breaker leaves HALF_OPEN, `FirstSampleDecides` which answer decides, and `NewGatewayCanJam` that a new gateway can get stuck.
- *A waiter whose timeout covers one token at the floor rate gets it* fails by the time between its last poll and the deadline test after it (`TightTimeoutCanMiss`, `TokenGuaranteedIff`).
- *A circuit alert is active exactly while its breaker is not CLOSED* fails after a reset of a breaker that is not CLOSED, which emits no closed event (`ResetLeavesTheAlert`, `CircuitAlertsAgreeIff`).
- *Notifications of an alert are at least a cooldown apart* fails when an alert clears and returns: it notifies at once (`FlappingIgnoresCooldown`). `NotificationsArePacedIff` says in which runs it holds; within an active episode it always does (`EpisodesArePaced`).

Where documents and code differ, the code is followed: the decrease factor is 0.5
(src/gateway/adaptive-token-bucket.ts:101), while the repository's README.md:38 says 0.7. The failure text of
a failed settlement says that the charge was refunded even when the refund failed
(src/payments/payment-saga.service.ts:147-152); the model keeps the failure code only.

## Model

| member | source | states |
|---|---|---|
| LifecycleInvariant.StepKeepsInv | src/payments/payment.processor.ts:59-217 | Every step of a submission, expiry, attempt or failure handler keeps the control, money and audit invariants |
| LifecycleInvariant.RunKeepsInv | src/payments/payment.processor.ts:59-217 | Every run keeps them |
| LifecycleSafety.AtMostOneCharge | src/payments/payment.processor.ts:64-153 | In every run of submissions, expiries and retried attempts the gateway reports at most one charge, and once it has, the attempt is past its charge or the outcome is final |
| LifecycleSafety.MoneyConserved | src/payments/payment-saga.service.ts:103-153 | Charges are, as a multiset, settlements plus refunds plus critical alerts, except between the gateway's answer and the end of the compensation; settlements are charges for the same amount |
| LifecycleSafety.CompensationIsAccounted | src/payments/payment-saga.service.ts:184-219 | A stored record that says compensated shows its refund, or a critical alert names its charge, and nothing is settled |
| LifecycleSafety.ReservationsBalance | src/payments/payment-saga.service.ts:52-68 | Reservations equal settlements plus releases between attempts and are at most one ahead inside an attempt |
| LifecycleSafety.AuditTellsTheBooks | src/payments/payment-saga.service.ts:103-182 | The audit log counts exactly the charges, settlements, refunds and refused refunds, and records one verdict |
| LifecycleSafety.DeliveryIsNeverSkipped | src/payments/payment.processor.ts:64-78 | Under one delivery at a time the record is stored, the payment open and the lock free whenever an attempt starts |
| LifecycleSafety.FinalForever | src/payments/payment.processor.ts:96-105 | With one-step submissions, a finalized outcome, its record and its money never change in any continuation; for overlapping ones see PublishedOutcomeStandsIff and FinalRecordStandsIff |
| LifecycleStores.StoresAgreeIffNeverOverwritten | src/payments/payment.processor.ts:96-105 | With one-step submissions, completed key with completed record, failed key with dead-lettered record, DLQ entry with failed key: in every run, if and only if no submission was accepted between a terminal save and its finalize |
| LifecycleStores.LeasedSavesAgree | src/payments/payment.processor.ts:157-172 | With one-step submissions, a lease held from the terminal save to the finalize is enough |
| LifecycleStores.StoresCanDisagree | src/payments/payment.service.ts:142-182 | A run without any lease expiry between a terminal save and its finalize that completes and charges a payment and leaves a queued record |
| LifecycleProgress.WorkDecreasesMeasure | src/queue/queue-manager.service.ts:134-146 | Every step of a busy worker brings the verdict closer, and the attempt budget is kept |
| LifecycleProgress.WorkIsBounded | src/queue/queue-manager.service.ts:187-198 | No run works more than thirteen steps for each of maxRetries + 1 attempts, and five for the handler |
| LifecycleProgress.BudgetComesFromASubmission | src/queue/queue-manager.service.ts:187-198 | The budget of a job is maxRetries + 1 of a submission of the run |
| LifecycleProgress.EveryQueuedPaymentEnds | src/payments/payment.processor.ts:128-153 | A queued payment is final in every continuation that lets the worker run often enough, whatever else happens |
| LifecycleProgress.VerdictExplained | src/payments/payment.processor.ts:128-217 | Exhausted retries mean exactly maxRetries + 1 attempts, each of which threw a transient failure, released its reservation and charged nothing, and the verdict names the last one; before any other verdict every attempt but the last threw a transient failure, within the budget |
| LifecycleProgress.PermanentFailureEndsAtOnce | src/payments/payment.processor.ts:128-138 | After a permanent rejection or a failed settlement no run makes another attempt or another charge |
| LifecycleOrigins.ChargedAsRequested | src/payments/payment.service.ts:168-181 | In every run each charge and each settlement is for an amount that a submission asked for, and the stored record has amount and retry limit of one and the same submission |
| LifecycleOrigins.OneRequestIsCharged | src/payments/payment-saga.service.ts:82-129 | A run whose submissions ask for one amount and one retry limit charges, settles and stores exactly those |
| LifecycleOrigins.FailureIsBlamed | src/payments/payment.processor.ts:124-149 | A published failure names a code that the gateway or the ledger gave in the run; at once only one of the seven permanent codes, after exhausted retries only one of the seven others |
| AttemptOutcomes.PassingFailureIsRetried | src/payments/payment.processor.ts:124-153 | An attempt refused with one of seven codes, with attempts left: the job waits with one more attempt made, nothing is charged, the reservation is released, there is no verdict; the whole state is given |
| AttemptOutcomes.PassingFailureExhausts | src/payments/payment.processor.ts:157-217 | The same with no attempts left: dead-lettered for exhausted retries, with record, audit log, DLQ entry and key |
| AttemptOutcomes.LastingFailureEnds | src/payments/payment.processor.ts:136-138 | An attempt refused with one of the other seven codes dead-letters the payment at once; the whole state is given |
| AttemptOutcomes.SettledChargeCompletes | src/payments/payment.processor.ts:94-123 | Charge and settlement accepted: charged and settled for the stored amount, completed, with transaction and reservation in the record; the whole state is given |
| AttemptOutcomes.UnsettledChargeIsUndone | src/payments/payment-saga.service.ts:132-153 | Charge accepted, settlement refused: dead-lettered as compensated, with the refund in record and books or a critical alert for the charge; the whole state is given |
| ConcurrentSubmission.OverlappingSubmissionsChargeOnce | src/payments/payment.service.ts:142-219 | Any number of overlapping, delayed or dying submissions: one charge at most, money conserved, as long as no release deletes the outcome of a charged payment |
| ConcurrentSubmission.DeletionIsSafeIff | src/payments/payment.service.ts:143-149 | A release leaves at most one charge in every careful continuation if and only if the key does not hold the outcome of a charged payment |
| ConcurrentSubmission.TwoSubmissionsCanChargeTwice | src/payments/payment.service.ts:116-149 | A run of two overlapping submissions, and no others, whose payment is charged twice |
| ConcurrentSubmission.UninterruptedSubmission | src/payments/payment.service.ts:134-222 | The steps of a submission that nothing interrupts are the lifecycle's one submission step |
| ConcurrentProgress.PublishedOutcomeStandsIff | src/payments/payment.service.ts:142-219 | Under overlapping submissions a published outcome, completed or failed, stands through a run if and only if no submission deletes the key in it, and no money moves while it stands |
| ConcurrentProgress.OverlappingPaymentsEnd | src/payments/payment.processor.ts:59-217 | Under overlapping submissions that delete no published outcome, a queued payment is final once the worker had the steps its job can still cost, whatever is queued meanwhile; the worker is then idle if no job was queued meanwhile |
| ConcurrentStores.OverlappingStoresAgreeIff | src/payments/payment.service.ts:151-182 | Under overlapping submissions that delete no published outcome, the stores of a final payment agree if and only if no submission saved its record after the terminal one; the stores of an open payment always agree, and a DLQ entry names the published failure |
| ConcurrentStores.FinalRecordStandsIff | src/payments/payment.service.ts:180-182 | The record of a final payment whose stores agree stands through a run that deletes no outcome if and only if no submission saves late in it |
| ConcurrentStores.LateSaveDisagrees | src/payments/payment.service.ts:142-182 | A run of two submissions that deletes no outcome and claims no lease over a terminal save, and leaves a completed payment with a queued record |
| ConcurrentOrigins.ChargedAsArrived | src/payments/payment.service.ts:168-211 | Under overlapping submissions each charge and settlement is for an amount that a submission arrived with, the record has amount and retry limit of one of them, and the job the attempts that one asked for |
| IdempotencyService.Claim | src/payments/idempotency.service.ts:75-95 | New, conflict or replay by what the key held; only a new claim writes the lease |
| IdempotencyService.AcquireExecutionLock | src/payments/idempotency.service.ts:49-67 | Acquired exactly if the lock was free, and then the lease is renewed |
| PaymentService.ClaimLease | src/payments/payment.service.ts:142-149 | A lease is obtained for a free key or a lease without a record; other answers leave the key alone |
| PaymentService.Submit | src/payments/payment.service.ts:134-222 | The code of a submission is one submission step of the lifecycle, wherever the worker stands; a final key replays the stored record, a held lease with a record is refused, and otherwise a queued record of this amount and retry limit is stored |
| PaymentService.ReplayFindsItsRecord | src/payments/payment.service.ts:151-158 | The missing-record answer is never given in a state the lifecycle can reach |
| PaymentSaga.Execute | src/payments/payment-saga.service.ts:49-172 | The saga's code takes the stores through the saga steps of the lifecycle, compensations done before it throws; its outcome is settled exactly if charge and settlement succeeded |
| PaymentSaga.SettleOrCompensate | src/payments/payment-saga.service.ts:123-171 | The same from the settle step on: settled, or refunded or reported and released |
| PaymentSaga.RefundChargeOf | src/payments/payment-saga.service.ts:184-219 | A refund is recorded with its id, a refused one raises a critical alert for the charge |
| PaymentProcessor.ProcessJob | src/payments/payment.processor.ts:59-153 | One delivered attempt is a whole attempt of the lifecycle, and its report is fixed by what it finds and by the answers, code by code |
| PaymentProcessor.FinalizeDeadLetter | src/payments/payment.processor.ts:157-205 | Dead-lettering as in the lifecycle; the answer is skipped exactly if the stored record was completed or dead-lettered already |
| PaymentProcessor.HandleJobFailure | src/payments/payment.processor.ts:208-216 | The failure handler's run of the lifecycle |
| PaymentProcessor.DeliverUntilFinal | src/queue/queue-manager.service.ts:134-146 | The queue's delivery loop over this code ends final after 1 to maxRetries + 1 attempts, exactly maxRetries + 1 when retries are exhausted, with the money accounted for |
| ExecutionLock.MutualExclusionIff | src/payments/idempotency.service.ts:49-72 | Any workers, any timing: never two holders if and only if nobody asks for the lock while its holder has outlived the time to live |
| ExecutionLock.KeyMarksTheOneHolder | src/payments/payment.processor.ts:75-153 | With prompt holders at most one worker is between acquire and release, and the key exists exactly then |
| ExecutionLock.LockIsGrantedIff | src/payments/idempotency.service.ts:49-72 | With prompt holders a worker that asks gets the lock if and only if nobody holds it, and then for the whole time to live |
| Errors.StatusesAreSorted | src/domain/errors.ts:62-84 | The code of every HTTP status; exactly 400, 401 and 402 end a payment without a retry, exactly 429 and 503 throttle, and unclassified failures are retried |
| Errors.EveryCodeIsSorted | src/domain/errors.ts:25-60 | Each of the fourteen codes is one of seven that are retried or one of seven that are not |
| SlidingWindow.Prune | src/gateway/circuit-breaker.ts:147-150 | Shifting stale entries off an ordered queue is filtering it by age |
| SlidingWindow.AgedIsTail | src/gateway/circuit-breaker.ts:147-150 | The young part of an ordered history is its tail from the first young entry |
| CircuitBreaker.CircuitBreaker.AllowCall | src/gateway/circuit-breaker.ts:80-98 | Admitted exactly when CLOSED, OPEN with the cooldown over, or HALF_OPEN without a probe; an admission that is not in CLOSED is a probe in HALF_OPEN |
| CircuitBreaker.CircuitBreaker.RecordOutcome | src/gateway/circuit-breaker.ts:101-131 | In CLOSED it opens exactly when counting the young outcomes of the full history, and the failed among them, says so; in HALF_OPEN the outcome decides; in OPEN nothing changes |
| CircuitBreaker.TripRule | src/gateway/circuit-breaker.ts:121-130 | Recording in CLOSED opens the breaker if and only if at least minSamples outcomes are stamped at or after now - windowMs and at least the threshold's share of them failed, counted as positions in the history; the trip is counted and timed |
| CircuitBreaker.FailuresAreCounted | src/gateway/circuit-breaker.ts:152-156 | The failures of a window are the number of its positions that hold a failure |
| CircuitBreaker.CircuitBreaker.GetState | src/gateway/circuit-breaker.ts:133-145 | Reports the in-window statistics of the full history and changes no state of the reference |
| CircuitBreaker.SnapshotCounts | src/gateway/circuit-breaker.ts:133-156 | Samples and failures shown are counts of positions of the full history, and the failure rate is their quotient, or zero |
| CircuitBreaker.CircuitBreaker.Reset | src/gateway/circuit-breaker.ts:71-77 | Back to a fresh breaker with the same parameters |
| CircuitBreaker.CircuitBreaker.Reconfigure | src/gateway/circuit-breaker.ts:66-69 | Back to a fresh breaker with new parameters |
| CircuitBreaker.Replay | src/gateway/circuit-breaker.ts:80-157 | Over any timed run the class gives the same answers, mode and trip count as the reference, and the same as without the looks of the run, although each look prunes |
| CircuitBreaker.PeeksAreInvisible | src/gateway/circuit-breaker.ts:133-150 | In the reference, looks inserted anywhere change no answer and no state; the class carries this over in Replay |
| CircuitBreaker.HalfOpenIsProbing | src/gateway/circuit-breaker.ts:80-116 | HALF_OPEN exactly when a probe is in flight, in every reachable state |
| CircuitBreaker.AdmissionsNeedCooldowns | src/gateway/circuit-breaker.ts:80-131 | In an unbroken stretch that is not CLOSED, k admissions take at least k cooldowns from the trip, and all but the pending one were followed by a recorded outcome |
| TokenBucketRuns.ReachableIsSound | src/gateway/adaptive-token-bucket.ts:49-119 | Through any events and reconfigurations the rate is between floor and nominal, the burst is its multiple, the tokens are between zero and the burst |
| TokenBucketRuns.ThroughputBound | src/gateway/adaptive-token-bucket.ts:66-119 | In any run and any window of ms milliseconds at most nominalRps * (burstFactor + ms / 1000) tokens are granted |
| TokenBucketRuns.NewBucketGrantsItsBurst | src/gateway/adaptive-token-bucket.ts:49-82 | Of k callers at once a new bucket serves all, or as many as whole tokens fit its burst |
| TokenBucketRuns.ThrottlesHalve | src/gateway/adaptive-token-bucket.ts:99-106 | k throttles from nominal leave max(floor, nominal / 2^k) |
| TokenBucketRuns.SuccessesAdd | src/gateway/adaptive-token-bucket.ts:109-119 | j successes give min(nominal, rate + j steps) |
| TokenBucketRuns.PollingChangesNothing | src/gateway/adaptive-token-bucket.ts:66-82 | Any looks and refused polls leave the bucket as one refill at the end does |
| TokenBucketRuns.SmallBurstStarves | src/gateway/adaptive-token-bucket.ts:66-82 | A burst below one grants nothing until a success |
| AdaptiveTokenBucket.AdaptiveTokenBucket.RefillAt | src/gateway/adaptive-token-bucket.ts:66-71 | The fields follow the reference refill |
| AdaptiveTokenBucket.AdaptiveTokenBucket.TryAcquireAt | src/gateway/adaptive-token-bucket.ts:74-82 | Grant and new fields are those of the reference |
| AdaptiveTokenBucket.AdaptiveTokenBucket.OnThrottled | src/gateway/adaptive-token-bucket.ts:99-106 | Multiplicative decrease of the reference |
| AdaptiveTokenBucket.AdaptiveTokenBucket.OnSuccess | src/gateway/adaptive-token-bucket.ts:109-119 | Additive increase of the reference |
| AdaptiveTokenBucket.AdaptiveTokenBucket.Reconfigure | src/gateway/adaptive-token-bucket.ts:59-64 | A full bucket at the new limits; refill clock and throttle count go on |
| AdaptiveTokenBucket.AdaptiveTokenBucket.WaitForToken | src/gateway/adaptive-token-bucket.ts:85-96 | Every earlier poll was refused in time, the last one was granted or past the deadline, and there are at most ceil(timeout / 5) + 1 polls, whatever throttles, successes, looks and polls of other waiters fall between |
| AdaptiveTokenBucket.SoleWaiterGetsItsToken | src/gateway/adaptive-token-bucket.ts:85-96 | A waiter without rivals is served if the smallest burst holds a token and the timeout less its clock slack yields one at the floor rate, whatever feedback arrives |
| AdaptiveTokenBucket.TokenGuaranteedIff | src/gateway/adaptive-token-bucket.ts:85-96 | Every wait on every sound bucket is served if and only if nominalRps * minRateFactor * burstFactor >= 1 and the floor rate yields a token in the timeout less the slack |
| AdaptiveTokenBucket.TightTimeoutCanMiss | src/gateway/adaptive-token-bucket.ts:85-96 | A timed wait of exactly one token's time, on a new bucket after its first grant, that is not served |
| GatewayGuard.ChargesAreTokens | src/gateway/gateway-guard.ts:71-103 | Every granted token is in hand, was turned away by the breaker or paid for one charge |
| GatewayGuard.GatewayLoadIsBounded | src/gateway/gateway-guard.ts:71-103 | Charges sent to a gateway within ms milliseconds of its first use are at most nominalRps * (burstFactor + ms / 1000); refunds are not gated |
| GatewayGuard.FeedbackIsExact | src/gateway/gateway-guard.ts:103-122 | The throttle count is the number of arrivals with status 429 or 503, and the breaker sampled exactly the ok answers and the seven retryable failures that found it CLOSED since it last closed |
| GatewayGuard.ThrottlesHalveTheRate | src/gateway/gateway-guard.ts:104-112 | As long as no answer is ok, the rate is nominal / 2^k with k the number of 429 and 503 answers, but never below its floor |
| GatewayGuard.JammedForever | src/gateway/circuit-breaker.ts:93-96 | HALF_OPEN with no call at the gateway stays so in every run of calls and looks, which holds no reset, and charges nothing |
| GatewayGuard.HalfOpenEndsIff | src/gateway/gateway-guard.ts:103-116 | From HALF_OPEN with the probe out, a run leaves HALF_OPEN if and only if one of the answers to the calls then at the gateway is ok or transient; until then nothing is charged |
| GatewayGuard.FirstSampleDecides | src/gateway/circuit-breaker.ts:103-116 | The first such answer closes the breaker if ok and opens it again if transient, whichever call it was for |
| GatewayGuard.HalfOpenCanEndIff | src/gateway/gateway-guard.ts:103-116 | HALF_OPEN can end at all if and only if a call is at the gateway |
| GatewayGuard.NewGatewayCanJam | src/gateway/gateway-guard.ts:71-122 | Two calls on a new gateway that leave its breaker stuck in HALF_OPEN |
| GatewayGuard.DeclinedProbeJams | src/gateway/gateway-guard.ts:103-112 | A lone probe that is rejected for good jams the gateway |
| GuardService.Guard.PollToken | src/gateway/gateway-guard.ts:74-75 | Finds or creates this gateway's bucket and polls it; every other gateway's controls stay as they were |
| GuardService.Guard.Gate | src/gateway/gateway-guard.ts:88-101 | Finds or creates this gateway's breaker and asks it; every other gateway's controls stay as they were |
| GuardService.Guard.Respond | src/gateway/gateway-guard.ts:103-116 | The feedback of the guard model into this gateway's two controls; all others stay as they were |
| GuardService.Guard.Health | src/gateway/gateway-guard.ts:155-170 | Finds or creates the controls, reports them, refills the bucket and leaves the breaker's reference state as it was |
| GuardService.PlaySystem | src/gateway/gateway-guard.ts:71-170 | On one guard with its registries, any interleaving of calls over any gateways leaves every gateway's bucket, breaker, pending calls and charges as its own steps alone would |
| GuardRegistries.BucketRegistry.Get | src/gateway/rate-limiter.registry.ts:34-41 | One bucket per gateway, created on first use and never shared, others untouched |
| GuardRegistries.BreakerRegistry.Get | src/gateway/circuit-breaker.registry.ts:20-27 | One breaker per gateway, created on first use and never shared, others untouched |
| GuardRegistries.BucketRegistry.Configure | src/gateway/rate-limiter.registry.ts:43-51 | A known bucket is reconfigured in place, an unknown one is created, others untouched |
| GuardRegistries.BreakerRegistry.Configure | src/gateway/circuit-breaker.registry.ts:29-38 | The same for breakers, which are reset |
| MetricsWindow.PercentileIsNearestRank | src/metrics/metrics-collector.service.ts:33-37 | The percentile of the sorted durations is a duration with fewer than p of them below it and at least p at or below it |
| MetricsWindow.NearestRanksAreOrdered | src/metrics/metrics-collector.service.ts:104-105 | Nearest-rank values are unique and grow with the rank |
| MetricsCollector.BufferAges | src/metrics/metrics-collector.service.ts:86-90 | Filtering the bounded buffer later is bounding the filtered history |
| MetricsCollector.BufferIsTail | src/metrics/metrics-collector.service.ts:81-83 | The buffer is the tail of the ordered history from its first entry in the window or its ten-thousandth last entry |
| MetricsCollector.BufferGrows | src/metrics/metrics-collector.service.ts:78-84 | Push, prune and splice keep the last ten thousand of the young history |
| MetricsCollector.AttemptBuffer.RecordAttempt | src/metrics/metrics-collector.service.ts:78-84 | The buffer is the last min(10000, n) entries of the in-window full history |
| MetricsCollector.AttemptBuffer.TakeSnapshot | src/metrics/metrics-collector.service.ts:86-109 | A snapshot describes those entries of the full history |
| MetricsCollector.SnapshotIsConsistent | src/metrics/metrics-collector.service.ts:86-109 | ok, failed and tps are the numbers of attempts in the window that succeeded, that failed and that came in the last second; the error rate is the share of the failed; percentiles exist exactly when there are attempts and are nearest ranks of their durations, P95 <= P99 |
| Alerts.RefreshAgrees | src/metrics/metrics-collector.service.ts:116-158 | After a refresh the error-rate and latency alerts are active exactly when their condition holds; circuit alerts are as before |
| Alerts.RefreshAgreesOnDepths | src/metrics/metrics-collector.service.ts:133-157 | The same for each gateway's queue depth, and exactly when the alert of an unlisted gateway stays |
| Alerts.EpisodesArePaced | src/metrics/metrics-collector.service.ts:116-191 | In every run of evaluations, drops and refreshes, a repeated notification of an active alert comes at least a cooldown after the one before |
| Alerts.NotificationsArePacedIff | src/metrics/metrics-collector.service.ts:116-191 | In every such run all notifications of every alert are at least a cooldown apart if and only if no evaluation finds an alert inactive, its condition met and its last notification less than a cooldown ago |
| Alerts.NotifiedIffDue | src/metrics/metrics-collector.service.ts:165-191 | In every run an evaluation notifies if and only if the condition holds and the alert is inactive or was last notified a cooldown ago or longer |
| Alerts.RefreshNotifies | src/metrics/metrics-collector.service.ts:116-141 | After a refresh every checked alert whose condition holds was last notified now if it was due, and otherwise as before |
| Alerts.ActiveSinceItsRaise | src/metrics/metrics-collector.service.ts:175-183 | In every run an active alert carries the time at which its episode began |
| Alerts.FlappingIgnoresCooldown | src/metrics/metrics-collector.service.ts:170-183 | An alert that clears and returns notifies twice at the same time, against any positive cooldown |
| Alerts.AlertBoard.EvaluateOne | src/metrics/metrics-collector.service.ts:165-191 | Raise, renew or nothing, as in the reference |
| Alerts.AlertBoard.SetCircuitAlert | src/metrics/metrics-collector.service.ts:193-203 | Raise or drop one gateway's circuit alert |
| Alerts.AlertBoard.Clear | src/metrics/metrics-collector.service.ts:142-157 | Deleting while iterating leaves exactly the alerts whose condition holds |
| Alerts.AlertBoard.RefreshNow | src/metrics/metrics-collector.service.ts:116-158 | The whole refresh of the reference |
| CircuitAlerts.StepKeepsMatch | src/gateway/circuit-breaker.registry.ts:40-57 | A step keeps circuit alert and breaker in agreement exactly if it is not a reset of a breaker that is not CLOSED |
| CircuitAlerts.CircuitAlertsAgreeIff | src/metrics/metrics-collector.service.ts:70-75 | Over every run, alert and breaker agree after every step if and only if no reset hit a breaker that was not CLOSED |
| CircuitAlerts.ResetLeavesTheAlert | src/gateway/circuit-breaker.registry.ts:40-42 | One failed call and a reset leave the alert active over a CLOSED breaker |

## Left out

- PaymentService.Submit: record history, timestamps, priority, currency, customer, metadata, correlation ids and scheduling delays are not modelled; they decide nothing in the lifecycle.
- PaymentProcessor.ProcessJob: records are values, so two references to one record object are not told apart; each worker holds its own copy, as it does after a read from Redis.
- PaymentService.ClaimLease: a submission runs uninterrupted here; `ConcurrentSubmission` interleaves its steps.
- PaymentProcessor.DeliverUntilFinal: takes no submission or expiry between deliveries; `LifecycleProgress.EveryQueuedPaymentEnds` covers those.
- ExecutionLock.MutualExclusionIff: a worker acquires at most once at a time and releases only what it acquired, as the code's try/finally does.
- Alerts.AlertBoard.RefreshNow: needs distinct gateways in a reading, which the map of queue runtimes guarantees; alert ids are a datatype, not strings; messages and severities are dropped.
- GuardService.PlaySystem: plays one policy and no reconfiguration; reconfiguration is covered call by call in `GuardRegistries`. A step of a call looks its bucket up again where the code keeps a reference, which finds the same object.
- AdaptiveTokenBucket.AdaptiveTokenBucket.WaitForToken: no reconfiguration during a wait.
- AdaptiveTokenBucket.TokenGuaranteedIff: its converse uses a drained bucket that is sound; it does not say which drained buckets a run reaches.
- Worker crashes, stalled-job redelivery and two active deliveries of one job: the code promises no single charge there.
- Expiry of final records after their retention time, after which a resubmission is a new payment.
- BullMQ and Redis internals, backoff timing, priorities, and whether two gateway names share a queue name.
- PaymentStore, AuditLogService and SettlementLedger as services with JSON encoding: they are fields and sequences here.
- The mock gateway's scripts, latencies and random answers: arbitrary answers here.
- Input validation, status and dead letter queries, worker pool scaling and graceful shutdown: each is settled by reading its body.
- Tracing, logging, controllers, WebSocket broadcast and configuration parsing.
- IEEE rounding: rates, thresholds and percentiles are exact reals.
