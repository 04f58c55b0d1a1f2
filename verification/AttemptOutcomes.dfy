/**
 What one attempt comes to, as a table: for every answer of the gateway and the ledger, the
 whole state after an attempt that nothing interrupts.
 */
module AttemptOutcomes {
  import opened Errors
  import opened Options
  import opened PaymentRecords
  import opened Lifecycle
  import opened LifecycleSafety

  /** n steps of a worker that gets the answers `a`. */
  function Steps(a: Answers, n: nat): seq<Event> {
    seq(n, _ => Work(a))
  }

  lemma FirstStep(s: State, a: Answers, n: nat)
    requires n > 0
    ensures Run(s, Steps(a, n)) == Run(WorkStep(s, a), Steps(a, n - 1))
  {
    assert Steps(a, n) == [Work(a)] + Steps(a, n - 1);
    RunConcat(s, [Work(a)], Steps(a, n - 1));
    assert Run(s, [Work(a)]) == WorkStep(s, a);
  }

  lemma NoStep(s: State, a: Answers)
    ensures Run(s, Steps(a, 0)) == s
  {
  }

  lemma MoreSteps(s: State, a: Answers, n: nat, m: nat)
    ensures Run(s, Steps(a, n + m)) == Run(Run(s, Steps(a, n)), Steps(a, m))
  {
    assert Steps(a, n + m) == Steps(a, n) + Steps(a, m);
    RunConcat(s, Steps(a, n), Steps(a, m));
  }

  /** A job waits for an attempt on an open payment whose record is stored and whose lock is free. */
  predicate Ready(s: State) {
    s.at.Parked? && s.job.Waiting? && s.store.Some? && !s.idem.IsFinal() && !s.lock
  }

  /** The record an attempt works on: in progress, with the attempts made before. */
  function Underway(s: State): Record
    requires Ready(s)
  {
    s.store.value.(status := InProgress, retryCount := s.job.made)
  }

  /** Delivered, checked, locked, reserved: what every attempt does first, in five steps. */
  function Holding(s: State, a: Answers): State
    requires Ready(s)
  {
    var r := Underway(s).(sagaState := Reserved);
    s.(idem := Leased, lock := true, store := Some(r), job := Active(s.job.made, s.job.budget),
       audit := s.audit + [Processing] + [SagaReserve], at := FundsReserved(r, a.reservationId))
  }

  lemma Delivered(s: State, a: Answers)
    requires Ready(s)
    ensures var s3 := WorkStep(WorkStep(WorkStep(s, a), a), a);
            s3 == s.(idem := Leased, lock := true, job := Active(s.job.made, s.job.budget), at := Locked(s.store.value))
  {
    var s1 := WorkStep(s, a);
    assert s1 == s.(job := Active(s.job.made, s.job.budget), at := Fetched(s.store.value));
    var s2 := WorkStep(s1, a);
    assert s2 == s1.(at := Checked(s.store.value));
  }

  lemma Reaches(s: State, a: Answers)
    requires Ready(s)
    ensures Run(s, Steps(a, 5)) == Holding(s, a)
  {
    var s1 := WorkStep(s, a);
    var s2 := WorkStep(s1, a);
    var s3 := WorkStep(s2, a);
    Delivered(s, a);
    var s4 := WorkStep(s3, a);
    assert s4 == s3.(store := Some(Underway(s)), audit := s.audit + [Processing], at := Started(Underway(s)));
    FirstStep(s, a, 5);
    FirstStep(s1, a, 4);
    FirstStep(s2, a, 3);
    FirstStep(s3, a, 2);
    FirstStep(s4, a, 1);
    NoStep(WorkStep(s4, a), a);
  }

  // ---------- a refused charge ----------

  /** The saga has released its reservation after a refused charge. */
  function Refused(s: State, a: Answers, code: ErrorCode): State
    requires Ready(s)
  {
    var h := Holding(s, a);
    h.(audit := h.audit + [ReleaseFunds], at := AfterFailure(h.at.record, code))
  }

  lemma RefusedRun(s: State, a: Answers)
    requires Ready(s) && a.charge.ChargeErr?
    ensures Run(s, Steps(a, 7)) == Refused(s, a, a.charge.code)
  {
    Reaches(s, a);
    MoreSteps(s, a, 5, 2);
    var h := Holding(s, a);
    var failed := WorkStep(h, a);
    assert failed == h.(at := ChargeFailed(h.at.record, a.charge.code));
    FirstStep(h, a, 2);
    FirstStep(failed, a, 1);
    NoStep(WorkStep(failed, a), a);
  }

  /** The record keeps what was asked for, and goes back to the store as it was reserved. */
  function ReservedRecord(s: State): Record
    requires Ready(s)
  {
    Underway(s).(sagaState := Reserved)
  }

  lemma ThreeSteps(s: State, a: Answers)
    ensures Run(s, Steps(a, 3)) == WorkStep(WorkStep(WorkStep(s, a), a), a)
  {
    FirstStep(s, a, 3);
    FirstStep(WorkStep(s, a), a, 2);
    FirstStep(WorkStep(WorkStep(s, a), a), a, 1);
    NoStep(WorkStep(WorkStep(WorkStep(s, a), a), a), a);
  }

  lemma FourSteps(s: State, a: Answers)
    ensures Run(s, Steps(a, 4)) == WorkStep(WorkStep(WorkStep(WorkStep(s, a), a), a), a)
  {
    FirstStep(s, a, 4);
    ThreeSteps(WorkStep(s, a), a);
  }

  /** A failure that may pass leaves the attempt: the lock is released and the queue told. */
  lemma ThrowRun(s: State, a: Answers)
    requires Ready(s) && a.charge.ChargeErr? && MayPass(a.charge.code)
    ensures Run(s, Steps(a, 9))
            == Refused(s, a, a.charge.code).(lock := false, at := Failing(a.charge.code))
  {
    EveryCodeIsSorted(a.charge.code);
    RefusedRun(s, a);
    MoreSteps(s, a, 7, 2);
    var t := Refused(s, a, a.charge.code);
    assert t.at == RetryPending(ReservedRecord(s), a.charge.code) && t.store == Some(ReservedRecord(s));
    FirstStep(t, a, 2);
    var throwing := WorkStep(t, a);
    assert throwing == t.(at := Throwing(a.charge.code));
    FirstStep(throwing, a, 1);
    NoStep(WorkStep(throwing, a), a);
  }

  lemma FailRun(s: State, a: Answers)
    requires s.at.Failing?
    ensures Run(s, Steps(a, 1)) == FailStep(s)
  {
    FirstStep(s, a, 1);
    NoStep(WorkStep(s, a), a);
    assert !InIntake(s.at) && !InSaga(s.at) && !InOutcome(s.at) && !InDeadLetter(s.at);
  }

  /** The queue counts the failure. */
  lemma CountedRun(s: State, a: Answers)
    requires Ready(s) && a.charge.ChargeErr? && MayPass(a.charge.code)
    ensures Run(s, Steps(a, 10))
            == FailStep(Refused(s, a, a.charge.code).(lock := false, at := Failing(a.charge.code)))
  {
    ThrowRun(s, a);
    MoreSteps(s, a, 9, 1);
    FailRun(Refused(s, a, a.charge.code).(lock := false, at := Failing(a.charge.code)), a);
  }

  /**
   A charge refused by one of the seven failures that may pass, with attempts left: the job
   waits for its next attempt, nothing is charged, and there is no verdict.
   */
  lemma PassingFailureIsRetried(s: State, a: Answers)
    requires Ready(s) && a.charge.ChargeErr? && MayPass(a.charge.code)
    requires s.job.made + 1 < s.job.budget
    ensures Run(s, Steps(a, 10))
            == s.(idem := Leased, store := Some(ReservedRecord(s)), job := Waiting(s.job.made + 1, s.job.budget),
                  audit := s.audit + [Processing] + [SagaReserve] + [ReleaseFunds])
  {
    CountedRun(s, a);
  }

  /** The failure handler's four steps. */
  lemma HandlerRun(s: State, a: Answers)
    requires s.at.HandlerDue? && s.store.Some? && !s.store.value.IsTerminal()
    ensures var reason := RetriesExhausted(s.at.code);
            Run(s, Steps(a, 4))
            == s.(idem := Failed(reason), store := Some(s.store.value.(status := DeadLetter, failureReason := Some(reason))),
                  audit := s.audit + [DeadLettered], dlq := if s.dlq.None? then Some(reason) else s.dlq, at := Parked)
  {
    FourSteps(s, a);
    var reason := RetriesExhausted(s.at.code);
    var s1 := WorkStep(s, a);
    assert s1 == s.(at := DeadLettering(s.store.value, reason, true));
    var s2 := WorkStep(s1, a);
    assert s2 == s.(store := Some(s.store.value.(status := DeadLetter, failureReason := Some(reason))),
                    at := DeadSaved(reason, true));
    var s3 := WorkStep(s2, a);
    assert s3 == s2.(idem := Failed(reason), at := DeadFinal(reason, true));
  }

  /** The same without attempts left: the failure handler dead-letters the payment. */
  lemma PassingFailureExhausts(s: State, a: Answers)
    requires Ready(s) && a.charge.ChargeErr? && MayPass(a.charge.code)
    requires s.job.made + 1 >= s.job.budget
    ensures var reason := RetriesExhausted(a.charge.code);
            Run(s, Steps(a, 14))
            == s.(idem := Failed(reason),
                  store := Some(ReservedRecord(s).(status := DeadLetter, failureReason := Some(reason))),
                  job := Spent(s.job.budget),
                  audit := s.audit + [Processing] + [SagaReserve] + [ReleaseFunds] + [DeadLettered],
                  dlq := if s.dlq.None? then Some(reason) else s.dlq)
  {
    CountedRun(s, a);
    MoreSteps(s, a, 10, 4);
    var due := Run(s, Steps(a, 10));
    assert due == Refused(s, a, a.charge.code).(lock := false, job := Spent(s.job.budget), at := HandlerDue(a.charge.code));
    HandlerRun(due, a);
  }

  // ---------- dead-lettering inside an attempt ----------

  /** A job is removed from the queue with its payment dead-lettered for `reason`. */
  function Buried(s: State, r: Record, reason: Reason): State {
    s.(idem := Failed(reason), lock := false, store := Some(r.(status := DeadLetter, failureReason := Some(reason))),
       job := if s.job.Active? then Removed(s.job.budget) else s.job,
       audit := s.audit + [DeadLettered], dlq := if s.dlq.None? then Some(reason) else s.dlq, at := Parked)
  }

  lemma BurialRun(s: State, a: Answers)
    requires s.at.DeadLettering? && !s.at.handler && s.store == Some(s.at.record) && !s.at.record.IsTerminal()
    ensures Run(s, Steps(a, 4)) == Buried(s, s.at.record, s.at.reason)
  {
    FourSteps(s, a);
    var s1 := WorkStep(s, a);
    assert s1 == s.(store := Some(s.at.record.(status := DeadLetter, failureReason := Some(s.at.reason))),
                    at := DeadSaved(s.at.reason, false));
    var s2 := WorkStep(s1, a);
    assert s2 == s1.(idem := Failed(s.at.reason), at := DeadFinal(s.at.reason, false));
  }

  /** A charge refused for good: the payment is dead-lettered at once, whatever attempts are left. */
  lemma LastingFailureEnds(s: State, a: Answers)
    requires Ready(s) && a.charge.ChargeErr? && CannotBeMended(a.charge.code)
    ensures var reason := Permanent(a.charge.code);
            Run(s, Steps(a, 11))
            == s.(idem := Failed(reason),
                  store := Some(ReservedRecord(s).(status := DeadLetter, failureReason := Some(reason))),
                  job := Removed(s.job.budget),
                  audit := s.audit + [Processing] + [SagaReserve] + [ReleaseFunds] + [DeadLettered],
                  dlq := if s.dlq.None? then Some(reason) else s.dlq)
  {
    EveryCodeIsSorted(a.charge.code);
    RefusedRun(s, a);
    MoreSteps(s, a, 7, 4);
    BurialRun(Refused(s, a, a.charge.code), a);
  }

  // ---------- an accepted charge ----------

  /** The record of a charged payment. */
  function ChargedRecord(s: State, a: Answers): Record
    requires Ready(s) && a.charge.ChargeOk?
  {
    Underway(s).(sagaState := Charged, transactionId := Some(a.charge.transactionId), reservationId := Some(a.reservationId))
  }

  /** Seven steps lead past the ledger's answer. */
  function Taken(s: State, a: Answers): State
    requires Ready(s) && a.charge.ChargeOk?
  {
    var h := Holding(s, a);
    h.(store := Some(ChargedRecord(s, a)),
       books := s.books.(charges := s.books.charges + [Charge(a.charge.transactionId, s.store.value.amount)]),
       audit := h.audit + [SagaCharge], at := ChargeDone(ChargedRecord(s, a), a.reservationId, a.charge.transactionId))
  }

  lemma TakenRun(s: State, a: Answers)
    requires Ready(s) && a.charge.ChargeOk?
    ensures Run(s, Steps(a, 6)) == Taken(s, a)
  {
    Reaches(s, a);
    MoreSteps(s, a, 5, 1);
    var h := Holding(s, a);
    FirstStep(h, a, 1);
    NoStep(WorkStep(h, a), a);
  }

  /** After the settlement: save, publish, log, leave. */
  lemma CompletionRun(s: State, a: Answers)
    requires s.at.SettleDone? && s.job.Active?
    ensures var txn := s.at.transactionId;
            Run(s, Steps(a, 4))
            == s.(idem := Completed(txn), lock := false,
                  store := Some(s.at.record.(status := Succeeded, transactionId := Some(txn), sagaState := Settled,
                                             reservationId := Some(s.at.reservationId), failureReason := None)),
                  job := Removed(s.job.budget), audit := s.audit + [PaymentCompleted], at := Parked)
  {
    FourSteps(s, a);
    var txn := s.at.transactionId;
    var s1 := WorkStep(s, a);
    assert s1 == s.(store := Some(s.at.record.(status := Succeeded, transactionId := Some(txn), sagaState := Settled,
                                               reservationId := Some(s.at.reservationId), failureReason := None)),
                    at := CompletedSaved(txn));
    var s2 := WorkStep(s1, a);
    assert s2 == s1.(idem := Completed(txn), at := CompletedFinal(txn));
    var s3 := WorkStep(s2, a);
    assert s3 == s2.(audit := s.audit + [PaymentCompleted], at := Leaving);
  }

  /** Charged and settled: the payment is completed, for the amount that is stored. */
  lemma SettledChargeCompletes(s: State, a: Answers)
    requires Ready(s) && a.charge.ChargeOk? && a.settled
    ensures var txn := a.charge.transactionId;
            var money := [Charge(txn, s.store.value.amount)];
            Run(s, Steps(a, 11))
            == s.(idem := Completed(txn),
                  store := Some(ChargedRecord(s, a).(status := Succeeded, sagaState := Settled, failureReason := None)),
                  job := Removed(s.job.budget),
                  books := s.books.(charges := s.books.charges + money, ledger := s.books.ledger + money),
                  audit := s.audit + [Processing] + [SagaReserve] + [SagaCharge] + [SagaSettle] + [PaymentCompleted])
  {
    TakenRun(s, a);
    MoreSteps(s, a, 6, 1);
    MoreSteps(s, a, 7, 4);
    var t := Taken(s, a);
    FirstStep(t, a, 1);
    NoStep(WorkStep(t, a), a);
    var settled := WorkStep(t, a);
    assert settled
        == t.(books := t.books.(ledger := s.books.ledger + [Charge(a.charge.transactionId, s.store.value.amount)]),
              audit := t.audit + [SagaSettle],
              at := SettleDone(ChargedRecord(s, a).(sagaState := Settled), a.reservationId, a.charge.transactionId));
    CompletionRun(settled, a);
  }

  /** The ledger has refused: the refund is tried, and the reservation released. */
  function Compensating(t: State, refund: RefundAnswer): State
    requires t.at.ChargeDone?
  {
    var txn := t.at.transactionId;
    var r := t.at.record.(sagaState := Compensated);
    match refund
    case RefundOk(refundId) =>
      var r := r.(refundId := Some(refundId));
      t.(books := t.books.(refunds := t.books.refunds + [Refund(txn, refundId)]), store := Some(r),
         audit := t.audit + [RefundDone] + [ReleaseFunds], at := DeadLettering(r, Permanent(SettleFailed), false))
    case RefundErr =>
      t.(books := t.books.(alerts := t.books.alerts + [txn]), store := Some(r),
         audit := t.audit + [RefundRefused] + [ReleaseFunds], at := DeadLettering(r, Permanent(SettleFailed), false))
  }

  lemma RefundTriedRun(t: State, a: Answers)
    requires t.at.SettleFailing?
    ensures WorkStep(t, a) == RefundStep(t, a.refund)
  {
  }

  lemma CompensationRun(t: State, a: Answers)
    requires t.at.ChargeDone? && !a.settled
    ensures Run(t, Steps(a, 3)) == Compensating(t, a.refund)
  {
    ThreeSteps(t, a);
    var failing := WorkStep(t, a);
    assert failing == t.(at := SettleFailing(t.at.record, t.at.transactionId));
    RefundTriedRun(failing, a);
    var tried := WorkStep(failing, a);
    match a.refund
    case RefundOk(refundId) =>
      assert tried == t.(books := t.books.(refunds := t.books.refunds + [Refund(t.at.transactionId, refundId)]),
                         audit := t.audit + [RefundDone], at := RefundTried(t.at.record.(refundId := Some(refundId))));
    case RefundErr =>
      assert tried == t.(books := t.books.(alerts := t.books.alerts + [t.at.transactionId]),
                         audit := t.audit + [RefundRefused], at := RefundTried(t.at.record));
  }

  /**
   Charged, but not settled: dead-lettered.  The refund is in the record and in the books; or,
   if the gateway refuses it, a critical alert names the charge instead.
   */
  lemma UnsettledChargeIsUndone(s: State, a: Answers)
    requires Ready(s) && a.charge.ChargeOk? && !a.settled
    ensures var txn := a.charge.transactionId;
            var reason := Permanent(SettleFailed);
            var undone := s.(idem := Failed(reason), job := Removed(s.job.budget),
                             dlq := if s.dlq.None? then Some(reason) else s.dlq);
            var charges := s.books.charges + [Charge(txn, s.store.value.amount)];
            var log := s.audit + [Processing] + [SagaReserve] + [SagaCharge];
            var r := ChargedRecord(s, a).(status := DeadLetter, sagaState := Compensated, failureReason := Some(reason));
            Run(s, Steps(a, 13)) ==
              match a.refund
              case RefundOk(refundId) =>
                undone.(store := Some(r.(refundId := Some(refundId))),
                        books := s.books.(charges := charges, refunds := s.books.refunds + [Refund(txn, refundId)]),
                        audit := log + [RefundDone] + [ReleaseFunds] + [DeadLettered])
              case RefundErr =>
                undone.(store := Some(r),
                        books := s.books.(charges := charges, alerts := s.books.alerts + [txn]),
                        audit := log + [RefundRefused] + [ReleaseFunds] + [DeadLettered])
  {
    TakenRun(s, a);
    MoreSteps(s, a, 6, 3);
    MoreSteps(s, a, 9, 4);
    CompensationRun(Taken(s, a), a);
    BurialRun(Compensating(Taken(s, a), a.refund), a);
  }
}
