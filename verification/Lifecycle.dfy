/**
 The lifecycle of one payment id as a transition system.

 The state holds what the services keep outside the worker (idempotency key, execution
 lock, stored record, queued job, audit log, settlement ledger, dead letter entry), what
 the outside world has seen (gateway charges and refunds, critical alerts), and the
 position of the one worker or failure handler that is busy with the payment.  Every
 position that writes a store is followed by its own step, so submissions and lease
 expiries may fall between any two of them.
 */
module Lifecycle {
  import opened Errors
  import opened Options
  import opened PaymentRecords

  /**
   The queued job: `made` attempts have failed so far, out of `budget`.  A job whose
   budget is spent stays in the queue's failed set, where it still blocks its job id;
   a job that completed is removed, and its id is free again.
   */
  datatype Job =
    | NoJob
    | Waiting(made: nat, budget: nat)
    | Active(made: nat, budget: nat)
    | Spent(budget: nat)
    | Removed(budget: nat)

  /** Where the worker stands; positions carry the worker's own copy of the record. */
  datatype Position =
    | Parked
    | Fetched(record: Record)
    | Checked(record: Record)
    | Locked(record: Record)
    | Started(record: Record)
    | FundsReserved(record: Record, reservationId: string)
    | ChargeFailed(record: Record, code: ErrorCode)
    | ChargeDone(record: Record, reservationId: string, transactionId: string)
    | SettleFailing(record: Record, transactionId: string)
    | RefundTried(record: Record)
    | SettleDone(record: Record, reservationId: string, transactionId: string)
    | CompletedSaved(transactionId: string)
    | CompletedFinal(transactionId: string)
    | RetryPending(record: Record, code: ErrorCode)
    | Throwing(code: ErrorCode)
    | Failing(code: ErrorCode)
    | HandlerDue(code: ErrorCode)
    | DeadLettering(record: Record, reason: Reason, handler: bool)
    | DeadSaved(reason: Reason, handler: bool)
    | DeadFinal(reason: Reason, handler: bool)
    | Leaving

  datatype State = State(
    idem: Idempotency,
    lock: bool,
    store: Option<Record>,
    job: Job,
    at: Position,
    audit: seq<AuditEvent>,
    books: Books,
    dlq: Option<Reason>
  )

  const INIT := State(Unclaimed, false, None, NoJob, Parked, [], Books([], [], [], []), None)

  datatype ChargeAnswer = ChargeOk(transactionId: string) | ChargeErr(code: ErrorCode)

  datatype RefundAnswer = RefundOk(refundId: string) | RefundErr

  /** What the world outside the services answers during one step; a step reads only its own part. */
  datatype Answers = Answers(reservationId: string, charge: ChargeAnswer, settled: bool, refund: RefundAnswer)

  datatype Event =
    | Submit(amount: nat, maxRetries: nat, enqueued: bool)
    | SubmitCrash(amount: nat, maxRetries: nat, saved: bool)
    | LeaseExpire
    | LockExpire
    | Work(answers: Answers)

  // ---------- submission ----------

  /**
   Does a submission obtain the lease?  A leased key without a stored record is a lease
   left behind by a crashed submission, so it is released and claimed again.
   */
  predicate ClaimsLease(s: State) {
    s.idem.Unclaimed? || (s.idem.Leased? && s.store.None?)
  }

  function Recorded(s: State, amount: nat, maxRetries: nat): State {
    s.(idem := Leased, audit := Append(s.audit, Submitted), store := Some(CreateRecord(amount, maxRetries)))
  }

  /** The queue ignores a job whose id it still holds. */
  function Enqueued(job: Job, maxRetries: nat): Job {
    if job.NoJob? || job.Removed? then Waiting(0, maxRetries + 1) else job
  }

  function SubmitStep(s: State, amount: nat, maxRetries: nat, enqueued: bool): State {
    if !ClaimsLease(s) then s
    else if enqueued then Recorded(s, amount, maxRetries).(job := Enqueued(s.job, maxRetries))
    else Recorded(s, amount, maxRetries).(idem := Unclaimed)
  }

  /** A submission that dies after claiming the lease, before or after it saved the record. */
  function SubmitCrashStep(s: State, amount: nat, maxRetries: nat, saved: bool): State {
    if !ClaimsLease(s) then s
    else if saved then Recorded(s, amount, maxRetries)
    else s.(idem := Leased)
  }

  // ---------- the worker ----------

  function JobMade(s: State): nat {
    if s.job.Active? then s.job.made else 0
  }

  /** The catch block of an attempt: retry what is transient, dead-letter the rest. */
  function AfterFailure(record: Record, code: ErrorCode): Position {
    if IsTransient(code) then RetryPending(record, code) else DeadLettering(record, Permanent(code), false)
  }

  function JobDone(s: State): State {
    s.(job := if s.job.Active? then Removed(s.job.budget) else s.job, at := Parked)
  }

  function DeadLetterExit(handler: bool): Position {
    if handler then Parked else Leaving
  }

  /** The record that dead-lettering updates: the stored one, or the caller's if none is stored. */
  function Latest(s: State, record: Record): Record {
    if s.store.Some? then s.store.value else record
  }

  // The queue: delivering a job, and bookkeeping after an attempt that threw.

  function DeliverStep(s: State): State
    requires s.at.Parked?
  {
    if !s.job.Waiting? then s
    else
      var s := s.(job := Active(s.job.made, s.job.budget));
      if s.store.None? then s.(at := Failing(Unknown)) else s.(at := Fetched(s.store.value))
  }

  function FailStep(s: State): State
    requires s.at.Failing?
  {
    var code := s.at.code;
    if !s.job.Active? then s.(at := Parked)
    else if s.job.made + 1 >= s.job.budget then s.(job := Spent(s.job.budget), at := HandlerDue(code))
    else s.(job := Waiting(s.job.made + 1, s.job.budget), at := Parked)
  }

  // The attempt, before the saga.

  predicate InIntake(at: Position) {
    at.Fetched? || at.Checked? || at.Locked?
  }

  function IntakeStep(s: State): State
    requires InIntake(s.at)
  {
    match s.at
    case Fetched(r) => if s.idem.IsFinal() then JobDone(s) else s.(at := Checked(r))
    case Checked(r) => if s.lock then JobDone(s) else s.(lock := true, idem := Leased, at := Locked(r))
    case Locked(r) =>
      var r' := TransitionToProcessing(r, JobMade(s));
      s.(store := Some(r'), audit := Append(s.audit, Processing), at := Started(r'))
  }

  // The saga: reserve, charge, settle, and their compensations.

  predicate InSaga(at: Position) {
    at.Started? || at.FundsReserved? || at.ChargeFailed? || at.ChargeDone? || at.SettleFailing? || at.RefundTried?
  }

  function ReserveStep(s: State, reservationId: string): State
    requires s.at.Started?
  {
    var r := s.at.record.(sagaState := Reserved);
    s.(store := Some(r), audit := Append(s.audit, SagaReserve), at := FundsReserved(r, reservationId))
  }

  function ChargeStep(s: State, answer: ChargeAnswer): State
    requires s.at.FundsReserved?
  {
    var r := s.at.record;
    var rid := s.at.reservationId;
    match answer
    case ChargeErr(code) => s.(at := ChargeFailed(r, code))
    case ChargeOk(txn) =>
      var r' := r.(transactionId := Some(txn), reservationId := Some(rid), sagaState := Charged);
      s.(books := s.books.(charges := s.books.charges + [Charge(txn, r.amount)]),
         store := Some(r'),
         audit := Append(s.audit, SagaCharge),
         at := ChargeDone(r', rid, txn))
  }

  function SettleStep(s: State, settled: bool): State
    requires s.at.ChargeDone?
  {
    var r := s.at.record;
    var txn := s.at.transactionId;
    if settled then
      s.(books := s.books.(ledger := s.books.ledger + [Charge(txn, r.amount)]),
         audit := Append(s.audit, SagaSettle),
         at := SettleDone(r.(sagaState := Settled), s.at.reservationId, txn))
    else
      s.(at := SettleFailing(r, txn))
  }

  function RefundStep(s: State, answer: RefundAnswer): State
    requires s.at.SettleFailing?
  {
    var r := s.at.record;
    var txn := s.at.transactionId;
    match answer
    case RefundOk(refundId) =>
      s.(books := s.books.(refunds := s.books.refunds + [Refund(txn, refundId)]),
         audit := Append(s.audit, RefundDone),
         at := RefundTried(r.(refundId := Some(refundId))))
    case RefundErr =>
      s.(books := s.books.(alerts := s.books.alerts + [txn]),
         audit := Append(s.audit, RefundRefused),
         at := RefundTried(r))
  }

  /** Releasing the reservation; `record` is saved and the failure `code` leaves the saga. */
  function ReleaseStep(s: State, record: Record, code: ErrorCode): State {
    s.(audit := Append(s.audit, ReleaseFunds), store := Some(record), at := AfterFailure(record, code))
  }

  function SagaStep(s: State, a: Answers): State
    requires InSaga(s.at)
  {
    match s.at
    case Started(_) => ReserveStep(s, a.reservationId)
    case FundsReserved(_, _) => ChargeStep(s, a.charge)
    case ChargeFailed(r, code) => ReleaseStep(s, r, code)
    case ChargeDone(_, _, _) => SettleStep(s, a.settled)
    case SettleFailing(_, _) => RefundStep(s, a.refund)
    case RefundTried(r) => ReleaseStep(s, r.(sagaState := Compensated), SettleFailed)
  }

  // Dead-lettering, from an attempt or from the failure handler.

  predicate InDeadLetter(at: Position) {
    at.HandlerDue? || at.DeadLettering? || at.DeadSaved? || at.DeadFinal?
  }

  function DeadLetterStep(s: State): State
    requires InDeadLetter(s.at)
  {
    match s.at
    case HandlerDue(code) =>
      if s.store.None? || s.store.value.IsTerminal() then s.(at := Parked)
      else s.(at := DeadLettering(s.store.value, RetriesExhausted(code), true))
    case DeadLettering(r, reason, handler) =>
      var latest := Latest(s, r);
      if latest.IsTerminal() then s.(at := DeadLetterExit(handler))
      else s.(store := Some(TransitionToDeadLetter(latest, reason)), at := DeadSaved(reason, handler))
    case DeadSaved(reason, handler) => s.(idem := Failed(reason), at := DeadFinal(reason, handler))
    case DeadFinal(reason, handler) =>
      s.(audit := Append(s.audit, DeadLettered),
         dlq := if s.dlq.None? then Some(reason) else s.dlq,
         at := DeadLetterExit(handler))
  }

  // The attempt, after the saga.

  predicate InOutcome(at: Position) {
    || at.SettleDone? || at.CompletedSaved? || at.CompletedFinal?
    || at.RetryPending? || at.Throwing? || at.Leaving?
  }

  function OutcomeStep(s: State): State
    requires InOutcome(s.at)
  {
    match s.at
    case SettleDone(r, rid, txn) =>
      var r' := TransitionToCompleted(r, txn).(sagaState := Settled, reservationId := Some(rid), failureReason := None);
      s.(store := Some(r'), at := CompletedSaved(txn))
    case CompletedSaved(txn) => s.(idem := Completed(txn), at := CompletedFinal(txn))
    case CompletedFinal(_) => s.(audit := Append(s.audit, PaymentCompleted), at := Leaving)
    case RetryPending(r, code) => s.(store := Some(r), at := Throwing(code))
    case Throwing(code) => s.(lock := false, at := Failing(code))
    case Leaving => JobDone(s.(lock := false))
  }

  function WorkStep(s: State, a: Answers): State {
    if s.at.Parked? then DeliverStep(s)
    else if InIntake(s.at) then IntakeStep(s)
    else if InSaga(s.at) then SagaStep(s, a)
    else if InOutcome(s.at) then OutcomeStep(s)
    else if InDeadLetter(s.at) then DeadLetterStep(s)
    else FailStep(s)
  }

  // ---------- runs ----------

  function Step(s: State, e: Event): State {
    match e
    case Submit(amount, maxRetries, enqueued) => SubmitStep(s, amount, maxRetries, enqueued)
    case SubmitCrash(amount, maxRetries, saved) => SubmitCrashStep(s, amount, maxRetries, saved)
    case LeaseExpire => if s.idem.Leased? then s.(idem := Unclaimed) else s
    case LockExpire => s.(lock := false)
    case Work(answers) => WorkStep(s, answers)
  }

  function Run(s: State, es: seq<Event>): State {
    if es == [] then s else Step(Run(s, es[..|es| - 1]), es[|es| - 1])
  }

  /** Has the worker anything to do? */
  predicate Busy(s: State) {
    !s.at.Parked? || s.job.Waiting?
  }
}
