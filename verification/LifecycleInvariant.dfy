/**
 What every step of the payment lifecycle keeps.  The invariant is split by subject:
 who may be where, what has happened to the money, and what the audit log has counted.
 */
module LifecycleInvariant {
  import opened Errors
  import opened Options
  import opened PaymentRecords
  import opened Lifecycle

  // ---------- control ----------

  /** Positions between taking the execution lock and releasing it. */
  predicate HoldsLock(at: Position) {
    match at
    case Parked | Fetched(_) | Checked(_) | Failing(_) | HandlerDue(_) => false
    case DeadLettering(_, _, handler) => !handler
    case DeadSaved(_, handler) => !handler
    case DeadFinal(_, handler) => !handler
    case _ => true
  }

  /** Positions of the failure handler, which runs after the job has left the worker. */
  predicate InHandler(at: Position) {
    match at
    case HandlerDue(_) => true
    case DeadLettering(_, _, handler) => handler
    case DeadSaved(_, handler) => handler
    case DeadFinal(_, handler) => handler
    case _ => false
  }

  predicate ReasonFits(reason: Reason, handler: bool) {
    match reason
    case Permanent(code) => !handler && !IsTransient(code)
    case RetriesExhausted(code) => handler && IsTransient(code)
  }

  /** The part of the idempotency key that outlives leases. */
  function Verdict(idem: Idempotency): Idempotency {
    if idem.IsFinal() then idem else Unclaimed
  }

  /** What a position says about the verdict. */
  predicate PositionFits(at: Position, verdict: Idempotency, job: Job) {
    match at
    case Parked => verdict.IsFinal() <==> (job.Spent? || job.Removed?)
    case CompletedFinal(txn) => verdict == Completed(txn)
    case DeadFinal(reason, handler) => verdict == Failed(reason) && ReasonFits(reason, handler)
    case Leaving => verdict.IsFinal()
    case DeadLettering(r, reason, handler) => !verdict.IsFinal() && ReasonFits(reason, handler) && !r.IsTerminal()
    case DeadSaved(reason, handler) => !verdict.IsFinal() && ReasonFits(reason, handler)
    case RetryPending(r, code) => !verdict.IsFinal() && IsTransient(code) && !r.IsTerminal()
    case Throwing(code) => !verdict.IsFinal() && IsTransient(code)
    case Failing(code) => !verdict.IsFinal() && IsTransient(code)
    case HandlerDue(code) => !verdict.IsFinal() && IsTransient(code)
    case CompletedSaved(_) => !verdict.IsFinal()
    case _ => !verdict.IsFinal() && !at.record.IsTerminal()
  }

  /** A terminal record is in the store, but the idempotency key does not know it yet. */
  predicate TerminalSaveOpen(at: Position) {
    at.CompletedSaved? || at.DeadSaved?
  }

  predicate JobFits(at: Position, job: Job) {
    && (if at.Parked? then !job.Active? else if InHandler(at) then job.Spent? else job.Active?)
    && (job.Waiting? || job.Active? ==> job.made < job.budget)
    && (job.Spent? || job.Removed? ==> job.budget >= 1)
  }

  predicate DlqFits(at: Position, verdict: Idempotency, job: Job, dlq: Option<Reason>) {
    && (dlq.Some? ==> verdict == Failed(dlq.value))
    && (verdict.Failed? ==> ReasonFits(verdict.reason, job.Spent?) && (dlq.Some? <==> !at.DeadFinal?))
    && (verdict.Completed? ==> !job.Spent?)
  }

  predicate Control(s: State) {
    && PositionFits(s.at, Verdict(s.idem), s.job)
    && JobFits(s.at, s.job)
    && DlqFits(s.at, Verdict(s.idem), s.job, s.dlq)
    && (s.lock ==> HoldsLock(s.at))
    && (!s.job.NoJob? ==> s.store.Some?)
    && (!s.idem.IsFinal() && !TerminalSaveOpen(s.at) && s.store.Some? ==> !s.store.value.IsTerminal())
  }

  // ---------- money ----------

  predicate NeverCharged(b: Books) {
    b == Books([], [], [], [])
  }

  /** One charge, settled in full. */
  predicate SettledCharge(b: Books, txn: string) {
    && |b.charges| == 1 && b.charges[0].transactionId == txn
    && b.ledger == b.charges && b.refunds == [] && b.alerts == []
  }

  /** One charge, not settled: refunded, or reported by a critical alert. */
  predicate UndoneCharge(b: Books, txn: string) {
    && |b.charges| == 1 && b.charges[0].transactionId == txn
    && b.ledger == []
    && ((|b.refunds| == 1 && b.refunds[0].transactionId == txn && b.alerts == [])
        || (b.refunds == [] && b.alerts == [txn]))
  }

  /** Nothing was charged, or one charge was refunded or reported. */
  predicate NothingKept(b: Books) {
    NeverCharged(b) || (|b.charges| == 1 && UndoneCharge(b, b.charges[0].transactionId))
  }

  /** What a dead letter means for the money: exhausted retries never charged at all. */
  predicate Undone(b: Books, reason: Reason) {
    if reason.RetriesExhausted? then NeverCharged(b) else NothingKept(b)
  }

  /** The record's own account of a compensated charge. */
  predicate CompensationShown(b: Books, r: Record) {
    r.sagaState.Compensated? ==>
      && r.transactionId.Some?
      && UndoneCharge(b, r.transactionId.value)
      && (b.alerts == [] ==> r.refundId == Some(b.refunds[0].refundId))
  }

  predicate HasRecord(at: Position) {
    match at
    case Parked | CompletedSaved(_) | CompletedFinal(_) | Throwing(_) | Failing(_) | HandlerDue(_) => false
    case DeadSaved(_, _) | DeadFinal(_, _) | Leaving => false
    case _ => true
  }

  /** One charge, and nothing decided about it yet. */
  predicate OpenCharge(b: Books, r: Record, txn: string) {
    r.transactionId == Some(txn) && b == Books([Charge(txn, r.amount)], [], [], [])
  }

  predicate PositionPaid(at: Position, verdict: Idempotency, b: Books) {
    match at
    case Parked => verdict.IsFinal() || NeverCharged(b)
    case ChargeDone(r, _, txn) => OpenCharge(b, r, txn)
    case SettleFailing(r, txn) => OpenCharge(b, r, txn)
    case RefundTried(r) => CompensationShown(b, r.(sagaState := Compensated))
    case SettleDone(_, _, txn) => SettledCharge(b, txn)
    case CompletedSaved(txn) => SettledCharge(b, txn)
    case DeadLettering(_, reason, _) => Undone(b, reason)
    case DeadSaved(reason, _) => Undone(b, reason)
    case CompletedFinal(_) | DeadFinal(_, _) | Leaving => true
    case _ => NeverCharged(b)
  }

  predicate Money(s: State) {
    && PositionPaid(s.at, Verdict(s.idem), s.books)
    && (s.idem.Completed? ==> SettledCharge(s.books, s.idem.transactionId))
    && (s.idem.Failed? ==> Undone(s.books, s.idem.reason))
    && (s.store.Some? ==> CompensationShown(s.books, s.store.value))
    && (HasRecord(s.at) ==> CompensationShown(s.books, s.at.record))
  }

  // ---------- audit ----------

  /** Reservations taken and not yet settled or released. */
  function Held(at: Position): nat {
    match at
    case FundsReserved(_, _) | ChargeFailed(_, _) | ChargeDone(_, _, _) | SettleFailing(_, _) | RefundTried(_) => 1
    case _ => 0
  }

  /** Attempts begun since the job was queued, read off the job and the worker's position. */
  predicate AttemptsFit(at: Position, job: Job, begun: nat) {
    match job
    case NoJob => begun == 0
    case Waiting(made, _) => begun == made
    case Active(made, _) => begun == if InIntake(at) then made else made + 1
    case Spent(budget) => begun == budget
    case Removed(budget) => 1 <= begun <= budget
  }

  /** The audit log tells the story of the books, the reservations, the attempts and the verdict. */
  predicate Audit(s: State) {
    var t := TallyOf(s.audit);
    && t.charge == |s.books.charges|
    && t.settle == |s.books.ledger|
    && t.refundDone == |s.books.refunds|
    && t.refundRefused == |s.books.alerts|
    && t.reserve == t.settle + t.release + Held(s.at)
    && t.processing == t.reserve + (if s.at.Started? then 1 else 0)
    && AttemptsFit(s.at, s.job, t.processing)
    && t.completed == (if s.idem.Completed? && !s.at.CompletedFinal? then 1 else 0)
    && t.deadLettered == (if s.idem.Failed? && !s.at.DeadFinal? then 1 else 0)
  }

  predicate Inv(s: State) {
    Control(s) && Money(s) && Audit(s)
  }

  // ---------- every step keeps it ----------

  lemma InitInv()
    ensures Inv(INIT)
  {
  }

  lemma DeliveryKeepsInv(s: State)
    requires Inv(s)
    requires s.at.Parked?
    ensures Inv(DeliverStep(s))
  {
  }

  lemma FailKeepsStanding(s: State)
    requires Inv(s)
    requires s.at.Failing?
    ensures Control(FailStep(s)) && Money(FailStep(s))
  {
  }

  lemma FailKeepsAudit(s: State)
    requires Control(s) && Audit(s)
    requires s.at.Failing?
    ensures Audit(FailStep(s))
  {
  }

  lemma IntakeKeepsStanding(s: State)
    requires Inv(s)
    requires InIntake(s.at)
    ensures Control(IntakeStep(s)) && Money(IntakeStep(s))
  {
  }

  lemma IntakeKeepsAudit(s: State)
    requires Control(s) && Audit(s)
    requires InIntake(s.at)
    ensures Audit(IntakeStep(s))
  {
  }

  lemma ReserveKeepsStanding(s: State, a: Answers)
    requires Inv(s)
    requires s.at.Started? || s.at.ChargeFailed?
    ensures Control(SagaStep(s, a)) && Money(SagaStep(s, a))
  {
  }

  lemma ReserveKeepsAudit(s: State, reservationId: string)
    requires Control(s) && Audit(s)
    requires s.at.Started?
    ensures Audit(ReserveStep(s, reservationId))
  {
    AppendCounts(s.audit, SagaReserve);
  }

  lemma ReleaseKeepsAudit(s: State)
    requires Control(s) && Audit(s)
    requires s.at.ChargeFailed?
    ensures Audit(ReleaseStep(s, s.at.record, s.at.code))
  {
    AppendCounts(s.audit, ReleaseFunds);
  }
  lemma ChargeKeepsStanding(s: State, a: Answers)
    requires Inv(s)
    requires s.at.FundsReserved?
    ensures Control(ChargeStep(s, a.charge)) && Money(ChargeStep(s, a.charge))
  {
  }

  lemma ChargeKeepsAudit(s: State, a: Answers)
    requires Control(s) && Audit(s)
    requires s.at.FundsReserved?
    ensures Audit(ChargeStep(s, a.charge))
  {
    match a.charge
    case ChargeOk(_) => assert ChargeStep(s, a.charge).audit == Append(s.audit, SagaCharge);
    case ChargeErr(_) => assert ChargeStep(s, a.charge).audit == s.audit;
  }

  lemma SettleKeepsStanding(s: State, a: Answers)
    requires Inv(s)
    requires s.at.ChargeDone?
    ensures Control(SettleStep(s, a.settled)) && Money(SettleStep(s, a.settled))
  {
  }

  lemma SettleKeepsAudit(s: State, a: Answers)
    requires Control(s) && Audit(s)
    requires s.at.ChargeDone?
    ensures Audit(SettleStep(s, a.settled))
  {
  }

  lemma RefundKeepsStanding(s: State, a: Answers)
    requires Inv(s)
    requires s.at.SettleFailing?
    ensures Control(RefundStep(s, a.refund)) && Money(RefundStep(s, a.refund))
  {
    match a.refund
    case RefundOk(refundId) => assert RefundStep(s, a.refund).at.record.refundId == Some(refundId);
    case RefundErr => assert RefundStep(s, a.refund).at.record == s.at.record;
  }

  lemma RefundKeepsAudit(s: State, a: Answers)
    requires Control(s) && Audit(s)
    requires s.at.SettleFailing?
    ensures Audit(RefundStep(s, a.refund))
  {
    match a.refund
    case RefundOk(_) => assert RefundStep(s, a.refund).audit == Append(s.audit, RefundDone);
    case RefundErr => assert RefundStep(s, a.refund).audit == Append(s.audit, RefundRefused);
  }

  lemma CompensationKeepsStanding(s: State, a: Answers)
    requires Inv(s)
    requires s.at.RefundTried?
    ensures Control(SagaStep(s, a)) && Money(SagaStep(s, a))
  {
  }

  lemma CompensationKeepsAudit(s: State, a: Answers)
    requires Control(s) && Audit(s)
    requires s.at.RefundTried?
    ensures Audit(SagaStep(s, a))
  {
  }

  lemma CompletionKeepsStanding(s: State)
    requires Inv(s)
    requires s.at.SettleDone? || s.at.CompletedSaved? || s.at.CompletedFinal?
    ensures Control(OutcomeStep(s)) && Money(OutcomeStep(s))
  {
    match s.at
    case SettleDone(_, _, txn) => assert OutcomeStep(s).at == CompletedSaved(txn) && OutcomeStep(s).idem == s.idem;
    case CompletedSaved(txn) => assert OutcomeStep(s) == s.(idem := Completed(txn), at := CompletedFinal(txn));
    case CompletedFinal(_) => assert OutcomeStep(s).at == Leaving && OutcomeStep(s).idem == s.idem;
  }

  lemma CompletionKeepsAudit(s: State)
    requires Control(s) && Audit(s)
    requires s.at.SettleDone? || s.at.CompletedSaved?
    ensures Audit(OutcomeStep(s))
  {
    assert OutcomeStep(s).audit == s.audit && OutcomeStep(s).books == s.books && OutcomeStep(s).job == s.job;
  }

  lemma CompletedKeepsAudit(s: State)
    requires Control(s) && Audit(s)
    requires s.at.CompletedFinal?
    ensures Audit(OutcomeStep(s))
  {
    AppendCounts(s.audit, PaymentCompleted);
    assert OutcomeStep(s) == s.(audit := Append(s.audit, PaymentCompleted), at := Leaving);
  }
  lemma ExitKeepsStanding(s: State)
    requires Inv(s)
    requires s.at.RetryPending? || s.at.Throwing? || s.at.Leaving?
    ensures Control(OutcomeStep(s)) && Money(OutcomeStep(s))
  {
    match s.at
    case RetryPending(r, code) => assert OutcomeStep(s) == s.(store := Some(r), at := Throwing(code));
    case Throwing(code) => assert OutcomeStep(s) == s.(lock := false, at := Failing(code));
    case Leaving => assert OutcomeStep(s) == s.(lock := false, job := Removed(s.job.budget), at := Parked);
  }

  lemma ExitKeepsAudit(s: State)
    requires Control(s) && Audit(s)
    requires s.at.RetryPending? || s.at.Throwing? || s.at.Leaving?
    ensures Audit(OutcomeStep(s))
  {
  }

  lemma DeadLetteringKeepsStanding(s: State)
    requires Inv(s)
    requires s.at.HandlerDue? || s.at.DeadLettering?
    ensures Control(DeadLetterStep(s)) && Money(DeadLetterStep(s))
  {
    match s.at
    case HandlerDue(code) =>
      assert DeadLetterStep(s) == s.(at := DeadLettering(s.store.value, RetriesExhausted(code), true));
    case DeadLettering(r, reason, handler) =>
      assert DeadLetterStep(s)
          == s.(store := Some(TransitionToDeadLetter(Latest(s, r), reason)), at := DeadSaved(reason, handler));
  }

  lemma PublishingKeepsStanding(s: State)
    requires Inv(s)
    requires s.at.DeadSaved? || s.at.DeadFinal?
    ensures Control(DeadLetterStep(s)) && Money(DeadLetterStep(s))
  {
    match s.at
    case DeadSaved(reason, handler) =>
      assert DeadLetterStep(s) == s.(idem := Failed(reason), at := DeadFinal(reason, handler));
    case DeadFinal(reason, handler) =>
      assert DeadLetterStep(s).at == DeadLetterExit(handler) && DeadLetterStep(s).idem == s.idem;
  }

  lemma DeadLetteringKeepsAudit(s: State)
    requires Control(s) && Audit(s)
    requires s.at.HandlerDue? || s.at.DeadLettering?
    ensures Audit(DeadLetterStep(s))
  {
    assert DeadLetterStep(s).audit == s.audit && DeadLetterStep(s).idem == s.idem;
  }

  lemma PublishingKeepsAudit(s: State)
    requires Control(s) && Audit(s)
    requires s.at.DeadSaved? || s.at.DeadFinal?
    ensures Audit(DeadLetterStep(s))
  {
    if s.at.DeadSaved? {
      assert DeadLetterStep(s).audit == s.audit;
    } else {
      assert DeadLetterStep(s).audit == Append(s.audit, DeadLettered);
    }
  }

  lemma DeadLetterKeepsInv(s: State)
    requires Inv(s)
    requires InDeadLetter(s.at)
    ensures Inv(DeadLetterStep(s))
  {
    if s.at.HandlerDue? || s.at.DeadLettering? {
      DeadLetteringKeepsStanding(s);
      DeadLetteringKeepsAudit(s);
    } else {
      PublishingKeepsStanding(s);
      PublishingKeepsAudit(s);
    }
  }

  lemma SagaKeepsInv(s: State, a: Answers)
    requires Inv(s)
    requires InSaga(s.at)
    ensures Inv(SagaStep(s, a))
  {
    match s.at
    case Started(_) =>
      ReserveKeepsStanding(s, a);
      ReserveKeepsAudit(s, a.reservationId);
    case ChargeFailed(_, _) =>
      ReserveKeepsStanding(s, a);
      ReleaseKeepsAudit(s);
    case FundsReserved(_, _) =>
      ChargeKeepsStanding(s, a);
      ChargeKeepsAudit(s, a);
    case ChargeDone(_, _, _) =>
      SettleKeepsStanding(s, a);
      SettleKeepsAudit(s, a);
    case SettleFailing(_, _) =>
      RefundKeepsStanding(s, a);
      RefundKeepsAudit(s, a);
    case RefundTried(_) =>
      CompensationKeepsStanding(s, a);
      CompensationKeepsAudit(s, a);
  }

  lemma OutcomeKeepsInv(s: State)
    requires Inv(s)
    requires InOutcome(s.at)
    ensures Inv(OutcomeStep(s))
  {
    match s.at
    case SettleDone(_, _, _) | CompletedSaved(_) =>
      CompletionKeepsStanding(s);
      CompletionKeepsAudit(s);
    case CompletedFinal(_) =>
      CompletionKeepsStanding(s);
      CompletedKeepsAudit(s);
    case RetryPending(_, _) | Throwing(_) | Leaving =>
      ExitKeepsStanding(s);
      ExitKeepsAudit(s);
  }

  lemma WorkKeepsInv(s: State, a: Answers)
    requires Inv(s)
    ensures Inv(WorkStep(s, a))
  {
    if s.at.Parked? {
      DeliveryKeepsInv(s);
    } else if s.at.Failing? {
      FailKeepsStanding(s);
      FailKeepsAudit(s);
    } else if InIntake(s.at) {
      IntakeKeepsStanding(s);
      IntakeKeepsAudit(s);
    } else if InSaga(s.at) {
      SagaKeepsInv(s, a);
    } else if InOutcome(s.at) {
      OutcomeKeepsInv(s);
    } else {
      DeadLetterKeepsInv(s);
    }
  }

  lemma LeaseFindsNoRemovedJob(s: State)
    requires Control(s)
    requires ClaimsLease(s)
    ensures !s.job.Removed?
    ensures s.job.NoJob? ==> s.at.Parked?
  {
    assert !s.idem.IsFinal();
  }

  /**
   A fresh record under a new lease.  While a payment is open its job is never gone, so
   a job is created only for a payment that has none.
   */
  lemma RecordingKeepsInv(s: State, amount: nat, maxRetries: nat)
    requires Inv(s)
    requires ClaimsLease(s)
    ensures Inv(Recorded(s, amount, maxRetries))
  {
    LeaseFindsNoRemovedJob(s);
  }

  /** The lease of an open payment and the job of a payment without one do not touch the rest. */
  lemma LeaseAndJobKeepInv(s: State, idem: Idempotency, job: Job)
    requires Inv(s)
    requires !s.idem.IsFinal() && !idem.IsFinal()
    requires job == s.job || (s.job.NoJob? && s.at.Parked? && s.store.Some? && job.Waiting? && job.made == 0 < job.budget)
    ensures Inv(s.(idem := idem, job := job))
  {
  }

  lemma SubmitKeepsInv(s: State, e: Event)
    requires Inv(s)
    requires e.Submit? || e.SubmitCrash?
    ensures Inv(Step(s, e))
  {
    if ClaimsLease(s) {
      RecordingKeepsInv(s, e.amount, e.maxRetries);
      LeaseFindsNoRemovedJob(s);
      var r := Recorded(s, e.amount, e.maxRetries);
      LeaseAndJobKeepInv(s, Leased, s.job);
      LeaseAndJobKeepInv(r, Unclaimed, s.job);
      LeaseAndJobKeepInv(r, Leased, Enqueued(s.job, e.maxRetries));
    }
  }

  lemma ExpiryKeepsInv(s: State, e: Event)
    requires Inv(s)
    requires e.LeaseExpire? || e.LockExpire?
    ensures Inv(Step(s, e))
  {
    if e.LeaseExpire? && s.idem.Leased? {
      LeaseAndJobKeepInv(s, Unclaimed, s.job);
      assert Step(s, e) == s.(idem := Unclaimed, job := s.job);
    } else if e.LockExpire? {
      assert Step(s, e) == s.(lock := false);
    }
  }

  lemma StepKeepsInv(s: State, e: Event)
    requires Inv(s)
    ensures Inv(Step(s, e))
  {
    match e
    case Work(a) => WorkKeepsInv(s, a);
    case LeaseExpire => ExpiryKeepsInv(s, e);
    case LockExpire => ExpiryKeepsInv(s, e);
    case _ => SubmitKeepsInv(s, e);
  }

  lemma {:induction false} RunKeepsInv(s: State, es: seq<Event>)
    requires Inv(s)
    ensures Inv(Run(s, es))
  {
    if es != [] {
      RunKeepsInv(s, es[..|es| - 1]);
      StepKeepsInv(Run(s, es[..|es| - 1]), es[|es| - 1]);
    }
  }
}
