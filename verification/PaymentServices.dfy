/**
 The services as they run: stores that methods update in place, in the order of the code.

 Each method is proved to take the stores where the transition system of the lifecycle
 takes them when nothing else happens meanwhile.  Submissions and expiries between its
 writes are runs of the transition system, and are treated there.
 */
module Stores {
  import opened Options
  import opened PaymentRecords
  import opened Lifecycle

  /** What Redis and the outside world hold for one payment id. */
  class PaymentStores {
    var idem: Idempotency
    var lock: bool
    var record: Option<Record>
    var audit: seq<AuditEvent>
    var books: Books
    var dlq: Option<Reason>

    constructor ()
      ensures At(NoJob, Parked) == INIT
    {
      idem, lock, record, audit := Unclaimed, false, None, [];
      books, dlq := Books([], [], [], []), None;
    }

    /** These stores, together with where the job and its worker stand. */
    ghost function At(job: Job, at: Position): State
      reads this
    {
      State(idem, lock, record, job, at, audit, books, dlq)
    }

    method Save(r: Record)
      modifies this`record
      ensures record == Some(r)
    {
      record := Some(r);
    }

    method Log(event: AuditEvent)
      modifies this`audit
      ensures audit == Append(old(audit), event)
    {
      audit := Append(audit, event);
    }
  }
}

module IdempotencyService {
  import opened PaymentRecords
  import opened Stores

  datatype ClaimResult = New | Conflict | Replayed(outcome: Idempotency)

  /** Phase 1: SET NX of a lease. */
  method Claim(st: PaymentStores) returns (result: ClaimResult)
    modifies st`idem
    ensures result.New? <==> old(st.idem).Unclaimed?
    ensures result.Conflict? <==> old(st.idem).Leased?
    ensures result.Replayed? ==> result.outcome == old(st.idem)
    ensures st.idem == if result.New? then Leased else old(st.idem)
  {
    if st.idem.Unclaimed? {
      st.idem := Leased;
      return New;
    }
    if st.idem.Leased? {
      return Conflict;
    }
    return Replayed(st.idem);
  }

  method Release(st: PaymentStores)
    modifies st`idem
    ensures st.idem == Unclaimed
  {
    st.idem := Unclaimed;
  }

  /** Phase 2: the terminal outcome replaces whatever the key held. */
  method Finalize(st: PaymentStores, outcome: Idempotency)
    modifies st`idem
    ensures st.idem == outcome
  {
    st.idem := outcome;
  }

  /** SET NX of the lock; whoever gets it also renews the lease. */
  method AcquireExecutionLock(st: PaymentStores) returns (acquired: bool)
    modifies st`lock, st`idem
    ensures acquired == !old(st.lock)
    ensures st.lock
    ensures st.idem == if acquired then Leased else old(st.idem)
  {
    if st.lock {
      return false;
    }
    st.lock := true;
    st.idem := Leased;
    return true;
  }

  /** An unconditional DEL. */
  method ReleaseExecutionLock(st: PaymentStores)
    modifies st`lock
    ensures !st.lock
  {
    st.lock := false;
  }
}

module PaymentService {
  import opened Options
  import opened PaymentRecords
  import opened Lifecycle
  import opened Stores
  import Idempotency = IdempotencyService
  import LifecycleInvariant

  datatype SubmitResult =
    | Created(payment: Record)
    | ReplayedPayment(payment: Record)
    | RecordMissing
    | AlreadyProcessing
    | NotQueued

  /** Claim, and claim again after releasing a lease that no stored payment stands behind. */
  method ClaimLease(st: PaymentStores) returns (claim: Idempotency.ClaimResult)
    modifies st`idem
    ensures claim.New? <==> old(st.idem).Unclaimed? || (old(st.idem).Leased? && st.record.None?)
    ensures claim.Conflict? <==> old(st.idem).Leased? && st.record.Some?
    ensures claim.Replayed? <==> old(st.idem).IsFinal()
    ensures st.idem == if claim.New? then Leased else old(st.idem)
  {
    claim := Idempotency.Claim(st);
    if claim.Conflict? && st.record.None? {
      Idempotency.Release(st);
      claim := Idempotency.Claim(st);
    }
  }

  /** What the submitter is told. */
  function Answer(s: State, amount: nat, maxRetries: nat, enqueues: bool): SubmitResult {
    if s.idem.IsFinal() then (if s.store.Some? then ReplayedPayment(s.store.value) else RecordMissing)
    else if !ClaimsLease(s) then AlreadyProcessing
    else if enqueues then Created(CreateRecord(amount, maxRetries))
    else NotQueued
  }

  /** A record as it was submitted: queued, for this amount, and untouched by any attempt. */
  predicate IsNew(record: Option<Record>, amount: nat, maxRetries: nat) {
    && record.Some? && record.value.amount == amount && record.value.maxRetries == maxRetries
    && record.value.status == Queued && record.value.retryCount == 0 && record.value.sagaState == Idle
    && record.value.reservationId.None? && record.value.transactionId.None?
    && record.value.refundId.None? && record.value.failureReason.None?
  }

  /** The fresh record of a submission that holds the lease, and its job. */
  method Create(st: PaymentStores, amount: nat, maxRetries: nat, job: Job, enqueues: bool)
    returns (result: SubmitResult, job': Job)
    requires st.idem == Leased
    modifies st`idem, st`record, st`audit
    ensures st.record == Some(CreateRecord(amount, maxRetries))
    ensures st.audit == Append(old(st.audit), Submitted)
    ensures st.idem == if enqueues then Leased else Unclaimed
    ensures job' == if enqueues then Enqueued(job, maxRetries) else job
    ensures result == if enqueues then Created(CreateRecord(amount, maxRetries)) else NotQueued
  {
    var record := CreateRecord(amount, maxRetries);
    st.Log(Submitted);
    st.Save(record);
    if !enqueues {
      Idempotency.Release(st);
      return NotQueued, job;
    }
    return Created(record), Enqueued(job, maxRetries);
  }

  /** The submission step, field by field. */
  lemma SubmissionFields(s: State, t: State, amount: nat, maxRetries: nat, enqueues: bool)
    requires ClaimsLease(s)
    requires t.store == Some(CreateRecord(amount, maxRetries)) && t.audit == Append(s.audit, Submitted)
    requires t.idem == if enqueues then Leased else Unclaimed
    requires t.job == if enqueues then Enqueued(s.job, maxRetries) else s.job
    requires t.lock == s.lock && t.at == s.at && t.books == s.books && t.dlq == s.dlq
    ensures t == SubmitStep(s, amount, maxRetries, enqueues)
  {
  }

  /** One submission is one submission step of the lifecycle, wherever the worker stands. */
  method Submit(st: PaymentStores, amount: nat, maxRetries: nat, job: Job, enqueues: bool, ghost at: Position)
    returns (result: SubmitResult, job': Job)
    modifies st`idem, st`record, st`audit
    ensures st.At(job', at) == SubmitStep(old(st.At(job, at)), amount, maxRetries, enqueues)
    ensures result == Answer(old(st.At(job, at)), amount, maxRetries, enqueues)
    ensures old(st.idem).IsFinal() && st.record.Some? ==> result == ReplayedPayment(st.record.value)
    ensures old(st.idem).Leased? && old(st.record).Some? <==> result == AlreadyProcessing
    ensures result.Created? || result.NotQueued? <==>
              old(st.idem).Unclaimed? || (old(st.idem).Leased? && old(st.record).None?)
    ensures result.Created? ==> st.record == Some(result.payment) && st.idem == Leased
    ensures result.NotQueued? ==> !enqueues && st.idem == Unclaimed && job' == job
    ensures result.Created? || result.NotQueued? ==> IsNew(st.record, amount, maxRetries)
  {
    ghost var s := st.At(job, at);
    var claim := ClaimLease(st);
    if claim.Replayed? {
      assert st.At(job, at) == s;
      return if st.record.Some? then ReplayedPayment(st.record.value) else RecordMissing, job;
    }
    if claim.Conflict? {
      assert st.At(job, at) == s;
      return AlreadyProcessing, job;
    }
    result, job' := Create(st, amount, maxRetries, job, enqueues);
    SubmissionFields(s, st.At(job', at), amount, maxRetries, enqueues);
  }

  /** A replay finds its record: the missing-record answer is never given. */
  lemma ReplayFindsItsRecord(s: State, amount: nat, maxRetries: nat, enqueues: bool)
    requires LifecycleInvariant.Control(s)
    ensures Answer(s, amount, maxRetries, enqueues) != RecordMissing
  {
    assert s.idem.IsFinal() ==> !s.job.NoJob?;
  }
}

module PaymentSaga {
  import opened Errors
  import opened Options
  import opened PaymentRecords
  import opened Lifecycle
  import opened LifecycleProgress
  import opened Stores

  datatype Outcome = SettledOutcome(transactionId: string, reservationId: string) | Thrown(code: ErrorCode)

  /** Where the attempt stands once the saga has returned or thrown. */
  function ExitOf(record: Record, outcome: Outcome): Position {
    match outcome
    case SettledOutcome(txn, rid) => SettleDone(record, rid, txn)
    case Thrown(code) => AfterFailure(record, code)
  }

  /** All saga steps of an attempt. */
  ghost function RunSaga(s: State, a: Answers): (end: State)
    ensures !InSaga(end.at)
    ensures Rank(end.at) <= Rank(s.at)
    decreases Rank(s.at)
  {
    if InSaga(s.at) then SagaRankDecreases(s, a); RunSaga(SagaStep(s, a), a) else s
  }

  lemma SagaGoesOn(s: State, a: Answers)
    requires InSaga(s.at)
    ensures RunSaga(s, a) == RunSaga(SagaStep(s, a), a)
  {
    SagaRankDecreases(s, a);
  }

  method ReleaseFundsOf(st: PaymentStores)
    modifies st`audit
    ensures st.audit == Append(old(st.audit), ReleaseFunds)
  {
    st.Log(ReleaseFunds);
  }

  /** The refund crosses the gateway ungated; a refusal raises a critical alert instead. */
  method RefundChargeOf(st: PaymentStores, record: Record, transactionId: string, answer: RefundAnswer, ghost job: Job)
    returns (record': Record)
    modifies st`books, st`audit
    ensures st.At(job, RefundTried(record')) == RefundStep(old(st.At(job, SettleFailing(record, transactionId))), answer)
    ensures record'.status == record.status
  {
    match answer
    case RefundErr =>
      st.Log(RefundRefused);
      st.books := st.books.(alerts := st.books.alerts + [transactionId]);
      record' := record;
    case RefundOk(refundId) =>
      st.books := st.books.(refunds := st.books.refunds + [Refund(transactionId, refundId)]);
      record' := record.(refundId := Some(refundId));
      st.Log(RefundDone);
  }

  /** The settle step; if the ledger refuses, the charge is refunded and the funds released. */
  method SettleOrCompensate(st: PaymentStores, record: Record, txn: string, a: Answers, ghost job: Job)
    returns (record': Record, outcome: Outcome)
    modifies st
    ensures st.At(job, ExitOf(record', outcome)) == RunSaga(old(st.At(job, ChargeDone(record, a.reservationId, txn))), a)
    ensures outcome == if a.settled then SettledOutcome(txn, a.reservationId) else Thrown(SettleFailed)
    ensures record'.status == record.status
    ensures outcome.Thrown? ==> st.record == Some(record')
  {
    SagaGoesOn(st.At(job, ChargeDone(record, a.reservationId, txn)), a);
    if !a.settled {
      SagaGoesOn(st.At(job, SettleFailing(record, txn)), a);
      record' := RefundChargeOf(st, record, txn, a.refund, job);
      SagaGoesOn(st.At(job, RefundTried(record')), a);
      ReleaseFundsOf(st);
      record' := record'.(sagaState := Compensated);
      st.Save(record');
      return record', Thrown(SettleFailed);
    }
    st.books := st.books.(ledger := st.books.ledger + [Charge(txn, record.amount)]);
    record' := record.(sagaState := Settled);
    st.Log(SagaSettle);
    return record', SettledOutcome(txn, a.reservationId);
  }

  /** Reserve, charge, settle; on failure the compensations have run before the saga throws. */
  method Execute(st: PaymentStores, record: Record, a: Answers, ghost job: Job)
    returns (record': Record, outcome: Outcome)
    modifies st
    ensures st.At(job, ExitOf(record', outcome)) == RunSaga(old(st.At(job, Started(record))), a)
    ensures outcome == match a.charge
                       case ChargeErr(code) => Thrown(code)
                       case ChargeOk(txn) => if a.settled then SettledOutcome(txn, a.reservationId) else Thrown(SettleFailed)
    ensures record'.status == record.status
    ensures outcome.Thrown? ==> st.record == Some(record')
  {
    ghost var s := st.At(job, Started(record));
    record' := record.(sagaState := Reserved);
    st.Save(record');
    st.Log(SagaReserve);
    assert SagaStep(s, a) == st.At(job, FundsReserved(record', a.reservationId));
    SagaGoesOn(s, a);
    s := SagaStep(s, a);
    SagaGoesOn(s, a);

    if a.charge.ChargeErr? {
      s := st.At(job, ChargeFailed(record', a.charge.code));
      ReleaseFundsOf(st);
      st.Save(record');
      assert SagaStep(s, a) == st.At(job, AfterFailure(record', a.charge.code));
      SagaGoesOn(s, a);
      return record', Thrown(a.charge.code);
    }

    var txn := a.charge.transactionId;
    st.books := st.books.(charges := st.books.charges + [Charge(txn, record'.amount)]);
    record' := record'.(transactionId := Some(txn), reservationId := Some(a.reservationId), sagaState := Charged);
    st.Save(record');
    st.Log(SagaCharge);
    assert SagaStep(s, a) == st.At(job, ChargeDone(record', a.reservationId, txn));
    record', outcome := SettleOrCompensate(st, record', txn, a, job);
  }
}

module PaymentProcessor {
  import opened Errors
  import opened Options
  import opened PaymentRecords
  import opened Lifecycle
  import opened LifecycleInvariant
  import opened LifecycleProgress
  import opened LifecycleSafety
  import opened Stores
  import opened PaymentSaga
  import Idempotency = IdempotencyService

  datatype ProcessResult =
    | CompletedResult(transactionId: string)
    | DeadLetterResult(reason: Reason)
    | Skipped
    | Threw(code: ErrorCode)

  /** Where the job and the worker stand once the queue has seen how an attempt ended. */
  function JobAfter(result: ProcessResult, made: nat, budget: nat): Job {
    if result.Threw? then Active(made, budget) else Removed(budget)
  }

  function PositionAfter(result: ProcessResult): Position {
    if result.Threw? then Failing(result.code) else Parked
  }

  /** Steps of a delivered attempt until the worker gives the job back to the queue. */
  ghost function Continue(s: State, a: Answers): State
    decreases Rank(s.at)
  {
    if s.at.Parked? || s.at.Failing? then s else RankDecreases(s, a); Continue(WorkStep(s, a), a)
  }

  lemma AttemptGoesOn(s: State, a: Answers)
    requires !s.at.Parked? && !s.at.Failing?
    ensures Continue(s, a) == Continue(WorkStep(s, a), a)
  {
    RankDecreases(s, a);
  }

  lemma WorkIsOutcome(s: State, a: Answers)
    requires InOutcome(s.at)
    ensures WorkStep(s, a) == OutcomeStep(s)
  {
    assert !s.at.Parked? && !InIntake(s.at) && !InSaga(s.at);
  }

  lemma WorkIsSaga(s: State, a: Answers)
    requires InSaga(s.at)
    ensures WorkStep(s, a) == SagaStep(s, a)
  {
    assert !s.at.Parked? && !InIntake(s.at);
  }

  lemma OutcomeGoesOn(s: State, s': State, a: Answers)
    requires InOutcome(s.at) && OutcomeStep(s) == s'
    ensures Continue(s, a) == Continue(s', a)
  {
    WorkIsOutcome(s, a);
    AttemptGoesOn(s, a);
  }

  lemma SagaStepGoesOn(s: State, s': State, a: Answers)
    requires InSaga(s.at) && SagaStep(s, a) == s'
    ensures Continue(s, a) == Continue(s', a)
  {
    WorkIsSaga(s, a);
    AttemptGoesOn(s, a);
  }

  lemma FourSteps(s0: State, s1: State, s2: State, s3: State, s4: State, a: Answers)
    requires InOutcome(s0.at) && InOutcome(s1.at) && InOutcome(s2.at) && InOutcome(s3.at)
    requires OutcomeStep(s0) == s1 && OutcomeStep(s1) == s2 && OutcomeStep(s2) == s3 && OutcomeStep(s3) == s4
    ensures Continue(s0, a) == Continue(s4, a)
  {
    OutcomeGoesOn(s0, s1, a);
    OutcomeGoesOn(s1, s2, a);
    OutcomeGoesOn(s2, s3, a);
    OutcomeGoesOn(s3, s4, a);
  }

  /** One delivery of a waiting job. */
  ghost function Attempt(s: State, a: Answers): State {
    Continue(WorkStep(s, a), a)
  }

  /** The saga part of an attempt is the saga's own run. */
  lemma {:induction false} ContinueSaga(s: State, a: Answers)
    ensures Continue(s, a) == Continue(RunSaga(s, a), a)
    decreases Rank(s.at)
  {
    if InSaga(s.at) {
      SagaRankDecreases(s, a);
      SagaStepGoesOn(s, SagaStep(s, a), a);
      ContinueSaga(SagaStep(s, a), a);
    }
  }

  /** All steps of a dead-lettering, from an attempt or from the failure handler. */
  ghost function RunDeadLetter(s: State): (end: State)
    ensures !InDeadLetter(end.at)
    decreases Rank(s.at)
  {
    if InDeadLetter(s.at) then DeadLetterRankDecreases(s); RunDeadLetter(DeadLetterStep(s)) else s
  }

  lemma DeadLetterGoesOn(s: State)
    requires InDeadLetter(s.at)
    ensures RunDeadLetter(s) == RunDeadLetter(DeadLetterStep(s))
  {
    DeadLetterRankDecreases(s);
  }

  lemma {:induction false} ContinueDeadLetter(s: State, a: Answers)
    ensures Continue(s, a) == Continue(RunDeadLetter(s), a)
    decreases Rank(s.at)
  {
    if InDeadLetter(s.at) {
      DeadLetterRankDecreases(s);
      ContinueDeadLetter(DeadLetterStep(s), a);
    }
  }

  /** All that a dead-lettering writes, in one piece. */
  lemma DeadLetterInFull(s: State)
    requires s.at.DeadLettering?
    ensures RunDeadLetter(s) ==
            var latest := Latest(s, s.at.record);
            var s' := s.(at := DeadLetterExit(s.at.handler));
            if latest.IsTerminal() then s'
            else s'.(store := Some(TransitionToDeadLetter(latest, s.at.reason)),
                     idem := Failed(s.at.reason),
                     audit := Append(s.audit, DeadLettered),
                     dlq := if s.dlq.None? then Some(s.at.reason) else s.dlq)
  {
    DeadLetterGoesOn(s);
    if !Latest(s, s.at.record).IsTerminal() {
      var saved := DeadLetterStep(s);
      DeadLetterGoesOn(saved);
      DeadLetterGoesOn(DeadLetterStep(saved));
    }
  }

  /** Dead-letter a payment, unless its stored record is already terminal. */
  method FinalizeDeadLetter(st: PaymentStores, record: Record, reason: Reason, ghost job: Job, ghost handler: bool)
    returns (result: ProcessResult)
    modifies st
    ensures st.At(job, DeadLetterExit(handler)) == RunDeadLetter(old(st.At(job, DeadLettering(record, reason, handler))))
    ensures var latest := if old(st.record).Some? then old(st.record).value else record;
            result == if latest.status in {Succeeded, DeadLetter} then Skipped else DeadLetterResult(reason)
  {
    DeadLetterInFull(st.At(job, DeadLettering(record, reason, handler)));
    var latest := if st.record.Some? then st.record.value else record;
    if latest.IsTerminal() {
      return Skipped;
    }
    st.Save(TransitionToDeadLetter(latest, reason));
    Idempotency.Finalize(st, Failed(reason));
    st.Log(DeadLettered);
    st.dlq := if st.dlq.None? then Some(reason) else st.dlq;
    return DeadLetterResult(reason);
  }

  /** The worker's 'failed' event once the retry budget is spent. */
  method HandleJobFailure(st: PaymentStores, code: ErrorCode, ghost budget: nat)
    modifies st
    ensures st.At(Spent(budget), Parked) == RunDeadLetter(old(st.At(Spent(budget), HandlerDue(code))))
  {
    if st.record.None? || st.record.value.IsTerminal() {
      return;
    }
    var _ := FinalizeDeadLetter(st, st.record.value, RetriesExhausted(code), Spent(budget), true);
  }

  /** The attempt up to the saga: true if the worker got through, with the record it works on. */
  method Begin(st: PaymentStores, made: nat, a: Answers, ghost budget: nat)
    returns (result: ProcessResult, record: Option<Record>)
    modifies st
    ensures record.Some? ==>
              Attempt(old(st.At(Waiting(made, budget), Parked)), a) == Continue(st.At(Active(made, budget), Started(record.value)), a)
    ensures record.Some? <==> old(st.record).Some? && !old(st.idem).IsFinal() && !old(st.lock)
    ensures record.Some? ==> record.value.status == InProgress
    ensures record.None? ==> result == if old(st.record).None? then Threw(Unknown) else Skipped
    ensures record.None? ==>
              && (result == Threw(Unknown) || result.Skipped?)
              && Attempt(old(st.At(Waiting(made, budget), Parked)), a)
                 == st.At(JobAfter(result, made, budget), PositionAfter(result))
  {
    if st.record.None? {
      return Threw(Unknown), None;
    }
    var fetched := st.record.value;
    AttemptGoesOn(st.At(Active(made, budget), Fetched(fetched)), a);
    if st.idem.IsFinal() {
      return Skipped, None;
    }
    AttemptGoesOn(st.At(Active(made, budget), Checked(fetched)), a);
    var locked := Idempotency.AcquireExecutionLock(st);
    if !locked {
      return Skipped, None;
    }
    AttemptGoesOn(st.At(Active(made, budget), Locked(fetched)), a);
    var processing := TransitionToProcessing(fetched, made);
    st.Save(processing);
    st.Log(Processing);
    return Skipped, Some(processing);
  }

  /** The attempt after a settled saga: save, publish, leave. */
  method Complete(st: PaymentStores, record: Record, reservationId: string, txn: string, a: Answers, ghost job: Job)
    requires job.Active?
    modifies st
    ensures st.At(Removed(job.budget), Parked) == Continue(old(st.At(job, SettleDone(record, reservationId, txn))), a)
  {
    ghost var settled := st.At(job, SettleDone(record, reservationId, txn));
    var done := TransitionToCompleted(record, txn)
      .(sagaState := Settled, reservationId := Some(reservationId), failureReason := None);
    st.Save(done);
    ghost var saved := st.At(job, CompletedSaved(txn));
    Idempotency.Finalize(st, Completed(txn));
    ghost var published := st.At(job, CompletedFinal(txn));
    st.Log(PaymentCompleted);
    ghost var leaving := st.At(job, Leaving);
    Idempotency.ReleaseExecutionLock(st);
    FourSteps(settled, saved, published, leaving, st.At(Removed(job.budget), Parked), a);
  }

  /** The attempt after the saga threw: dead-letter for good, or leave the job to a retry. */
  method Fail(st: PaymentStores, record: Record, code: ErrorCode, a: Answers, ghost made: nat, ghost budget: nat)
    returns (result: ProcessResult)
    modifies st
    ensures st.At(JobAfter(result, made, budget), PositionAfter(result))
         == Continue(old(st.At(Active(made, budget), AfterFailure(record, code))), a)
    ensures result.Threw? <==> IsTransient(code)
    ensures result.Threw? ==> result.code == code
    ensures !result.CompletedResult?
    ensures !IsTransient(code) && old(st.record) == Some(record) && record.status == InProgress ==>
              result == DeadLetterResult(Permanent(code))
  {
    ghost var job := Active(made, budget);
    if !IsTransient(code) {
      ContinueDeadLetter(st.At(job, DeadLettering(record, Permanent(code), false)), a);
      result := FinalizeDeadLetter(st, record, Permanent(code), job, false);
      ghost var leaving := st.At(job, Leaving);
      Idempotency.ReleaseExecutionLock(st);
      OutcomeGoesOn(leaving, st.At(Removed(budget), Parked), a);
      return;
    }
    ghost var pending := st.At(job, RetryPending(record, code));
    st.Save(record);
    ghost var throwing := st.At(job, Throwing(code));
    OutcomeGoesOn(pending, throwing, a);
    Idempotency.ReleaseExecutionLock(st);
    OutcomeGoesOn(throwing, st.At(job, Failing(code)), a);
    return Threw(code);
  }

  /** What an attempt reports, by what it finds and by the answers it gets. */
  function Report(record: Option<Record>, final: bool, lock: bool, a: Answers): ProcessResult {
    if record.None? then Threw(Unknown)
    else if final || lock then Skipped
    else
      match a.charge
      case ChargeErr(code) => if MayPass(code) then Threw(code) else DeadLetterResult(Permanent(code))
      case ChargeOk(txn) => if a.settled then CompletedResult(txn) else DeadLetterResult(Permanent(SettleFailed))
  }

  /** One delivered attempt, from reading the record to releasing the lock. */
  method ProcessJob(st: PaymentStores, made: nat, a: Answers, ghost budget: nat) returns (result: ProcessResult)
    modifies st
    ensures st.At(JobAfter(result, made, budget), PositionAfter(result)) == Attempt(old(st.At(Waiting(made, budget), Parked)), a)
    ensures result == Report(old(st.record), old(st.idem).Completed? || old(st.idem).Failed?, old(st.lock), a)
  {
    var record;
    result, record := Begin(st, made, a, budget);
    if record.None? {
      return;
    }
    ContinueSaga(st.At(Active(made, budget), Started(record.value)), a);
    var record', outcome := Execute(st, record.value, a, Active(made, budget));
    match outcome
    case SettledOutcome(txn, rid) =>
      Complete(st, record', rid, txn, a, Active(made, budget));
      return CompletedResult(txn);
    case Thrown(code) =>
      EveryCodeIsSorted(code);
      result := Fail(st, record', code, a, made, budget);
  }

  // ---------- what the lifecycle theorems say about this code ----------

  lemma {:induction false} ContinueKeepsInv(s: State, a: Answers)
    requires Inv(s)
    requires s.job.Active?
    ensures Inv(Continue(s, a))
    ensures TallyOf(Continue(s, a).audit).processing == s.job.made + 1
    decreases Rank(s.at)
  {
    if !s.at.Failing? {
      AttemptGoesOn(s, a);
      RankDecreases(s, a);
      WorkKeepsInv(s, a);
      if !s.at.Leaving? {
        JobStays(s, a);
        ContinueKeepsInv(WorkStep(s, a), a);
      }
    }
  }

  /** A delivered attempt keeps the invariant, and is counted once. */
  lemma AttemptKeepsInv(s: State, a: Answers)
    requires Inv(s)
    requires s.at.Parked? && s.job.Waiting?
    ensures Inv(Attempt(s, a))
    ensures TallyOf(Attempt(s, a).audit).processing == s.job.made + 1
  {
    WorkKeepsInv(s, a);
    ContinueKeepsInv(WorkStep(s, a), a);
  }

  lemma DeadLetterCountsNoAttempt(s: State)
    requires InDeadLetter(s.at)
    ensures TallyOf(DeadLetterStep(s).audit).processing == TallyOf(s.audit).processing
  {
    if s.at.DeadFinal? {
      AppendCounts(s.audit, DeadLettered);
    }
  }

  lemma {:induction false} DeadLetterRunKeepsInv(s: State)
    requires Inv(s)
    ensures Inv(RunDeadLetter(s))
    ensures TallyOf(RunDeadLetter(s).audit).processing == TallyOf(s.audit).processing
    decreases Rank(s.at)
  {
    if InDeadLetter(s.at) {
      DeadLetterRankDecreases(s);
      DeadLetterKeepsInv(s);
      DeadLetterCountsNoAttempt(s);
      DeadLetterRunKeepsInv(DeadLetterStep(s));
    }
  }

  /** The queue's bookkeeping after an attempt that threw, in terms of the invariant. */
  lemma ThrowKeepsInv(s: State)
    requires Inv(s)
    requires s.at.Failing?
    ensures s.job.Active?
    ensures Inv(FailStep(s))
  {
    FailKeepsStanding(s);
    FailKeepsAudit(s);
  }

  lemma RestIsAccounted(s: State)
    requires Inv(s)
    requires s.at.Parked? && (s.job.Spent? || s.job.Removed?)
    ensures s.idem.IsFinal()
    ensures Conserved(s.books) && |s.books.charges| <= 1
    ensures s.idem.Failed? && s.idem.reason.RetriesExhausted? ==> s.job.Spent?
  {
    BalancedBooksConserve(s.books);
  }

  /** One delivery ends final, or leaves a job that the queue counts as failed. */
  method DeliverOnce(st: PaymentStores, made: nat, a: Answers, ghost budget: nat) returns (result: ProcessResult)
    requires Inv(st.At(Waiting(made, budget), Parked))
    modifies st
    ensures TallyOf(st.audit).processing == made + 1
    ensures result.Threw? ==> Inv(FailStep(st.At(Active(made, budget), Failing(result.code))))
    ensures !result.Threw? ==>
              && st.idem.IsFinal() && Conserved(st.books) && |st.books.charges| <= 1
              && !(st.idem.Failed? && st.idem.reason.RetriesExhausted?)
  {
    AttemptKeepsInv(st.At(Waiting(made, budget), Parked), a);
    result := ProcessJob(st, made, a, budget);
    if result.Threw? {
      ThrowKeepsInv(st.At(Active(made, budget), Failing(result.code)));
    } else {
      RestIsAccounted(st.At(Removed(budget), Parked));
    }
  }

  /** The failure handler, called for a job whose budget is spent, finalizes the payment. */
  method GiveUp(st: PaymentStores, code: ErrorCode, ghost budget: nat)
    requires Inv(st.At(Spent(budget), HandlerDue(code)))
    modifies st
    ensures st.idem.IsFinal()
    ensures TallyOf(st.audit).processing == old(TallyOf(st.audit).processing)
    ensures Conserved(st.books) && |st.books.charges| <= 1
  {
    DeadLetterRunKeepsInv(st.At(Spent(budget), HandlerDue(code)));
    HandleJobFailure(st, code, budget);
    RestIsAccounted(st.At(Spent(budget), Parked));
  }

  /**
   The queue's whole treatment of one submitted payment: deliver it, count a throw against
   the budget, and call the failure handler when the budget is spent.  It ends finalized
   after at most maxRetries + 1 attempts, with the money accounted for.
   */
  method DeliverUntilFinal(st: PaymentStores, maxRetries: nat, answers: nat -> Answers) returns (attempts: nat)
    requires Inv(st.At(Waiting(0, maxRetries + 1), Parked))
    modifies st
    ensures st.idem.IsFinal()
    ensures 1 <= attempts <= maxRetries + 1
    ensures TallyOf(st.audit).processing == attempts
    ensures Conserved(st.books) && |st.books.charges| <= 1
    ensures st.idem.Failed? && st.idem.reason.RetriesExhausted? ==> attempts == maxRetries + 1
  {
    var budget := maxRetries + 1;
    attempts := 0;
    while true
      invariant attempts < budget
      invariant Inv(st.At(Waiting(attempts, budget), Parked))
      decreases budget - attempts
    {
      var result := DeliverOnce(st, attempts, answers(attempts), budget);
      attempts := attempts + 1;
      if !result.Threw? {
        return;
      }
      if attempts >= budget {
        GiveUp(st, result.code, budget);
        return;
      }
    }
  }
}
