/**
 Progress of the payment lifecycle: the retry budget bounds the work, and a payment whose
 job was queued always reaches its verdict.
 */
module LifecycleProgress {
  import opened Errors
  import opened Options
  import opened PaymentRecords
  import opened Lifecycle
  import opened LifecycleInvariant
  import opened LifecycleSafety

  /** Worker steps left until the current attempt or handler is over, at most. */
  function Rank(at: Position): nat {
    match at
    case Parked => 0
    case Failing(_) | Leaving => 1
    case CompletedFinal(_) | Throwing(_) | DeadFinal(_, _) => 2
    case CompletedSaved(_) | RetryPending(_, _) | DeadSaved(_, _) => 3
    case SettleDone(_, _, _) | DeadLettering(_, _, _) => 4
    case HandlerDue(_) | ChargeFailed(_, _) | RefundTried(_) => 5
    case SettleFailing(_, _) => 6
    case ChargeDone(_, _, _) => 7
    case FundsReserved(_, _) => 8
    case Started(_) => 9
    case Locked(_) => 10
    case Checked(_) => 11
    case Fetched(_) => 12
  }

  function StepsLeft(job: Job, at: Position): nat {
    match job
    case Waiting(made, budget) => if made < budget then 13 * (budget - made) + 5 else 0
    case Active(made, budget) => if made < budget then 13 * (budget - made - 1) + 5 + Rank(at) else 0
    case _ => Rank(at)
  }

  /** Worker steps left until the verdict: attempts still in the budget, then this attempt. */
  function Measure(s: State): nat {
    StepsLeft(s.job, s.at)
  }

  /** The most work a job can ever cost. */
  function Allowance(job: Job): nat {
    if job.NoJob? then 0 else 13 * job.budget + 5
  }

  lemma SagaRankDecreases(s: State, a: Answers)
    requires InSaga(s.at)
    ensures Rank(SagaStep(s, a).at) < Rank(s.at)
    ensures SagaStep(s, a).job == s.job
  {
  }

  lemma DeadLetterRankDecreases(s: State)
    requires InDeadLetter(s.at)
    ensures Rank(DeadLetterStep(s).at) < Rank(s.at)
    ensures DeadLetterStep(s).job == s.job
  {
  }

  /** Inside an attempt or a handler each step moves on ... */
  lemma RankDecreases(s: State, a: Answers)
    requires !s.at.Parked? && !s.at.Failing?
    ensures Rank(WorkStep(s, a).at) < Rank(s.at)
  {
    if InSaga(s.at) {
      SagaRankDecreases(s, a);
    } else if InDeadLetter(s.at) {
      DeadLetterRankDecreases(s);
    }
  }

  /** ... and leaves the job alone until the very last one. */
  lemma JobStays(s: State, a: Answers)
    requires Control(s)
    requires !s.at.Parked? && !s.at.Failing? && !s.at.Leaving?
    ensures WorkStep(s, a).job == s.job
  {
    if InSaga(s.at) {
      SagaRankDecreases(s, a);
    } else if InDeadLetter(s.at) {
      DeadLetterRankDecreases(s);
    }
  }

  /** Every step of a busy worker brings the verdict closer, and the job keeps its budget. */
  lemma WorkDecreasesMeasure(s: State, a: Answers)
    requires JobFits(s.at, s.job)
    requires Busy(s)
    ensures Measure(WorkStep(s, a)) < Measure(s)
    ensures !s.job.NoJob? && !WorkStep(s, a).job.NoJob?
    ensures WorkStep(s, a).job.budget == s.job.budget
  {
    if !s.at.Parked? && !s.at.Failing? {
      RankDecreases(s, a);
      if InSaga(s.at) {
        SagaRankDecreases(s, a);
      } else if InDeadLetter(s.at) {
        DeadLetterRankDecreases(s);
      }
    }
  }

  /** Submissions and expiries leave the worker alone, and only an accepted submission queues a job. */
  lemma EnvironmentWrites(s: State, e: Event)
    requires !e.Work?
    ensures Step(s, e).at == s.at
    ensures Step(s, e).job == if e.Submit? && e.enqueued && ClaimsLease(s) then Enqueued(s.job, e.maxRetries) else s.job
  {
  }

  /** At most, the environment logs a submission. */
  lemma EnvironmentLogs(s: State, e: Event)
    requires !e.Work?
    ensures Step(s, e).audit == s.audit || Step(s, e).audit == Append(s.audit, Submitted)
  {
    match e
    case Submit(amount, maxRetries, enqueued) =>
      assert Step(s, e).audit == SubmitStep(s, amount, maxRetries, enqueued).audit;
    case SubmitCrash(amount, maxRetries, saved) =>
      assert Step(s, e).audit == SubmitCrashStep(s, amount, maxRetries, saved).audit;
    case LeaseExpire | LockExpire =>
      assert Step(s, e).audit == s.audit;
  }

  lemma EnvironmentCountsNoAttempt(s: State, e: Event)
    requires !e.Work?
    ensures TallyOf(Step(s, e).audit).processing == TallyOf(s.audit).processing
  {
    EnvironmentLogs(s, e);
    AppendCounts(s.audit, Submitted);
  }

  lemma EnvironmentDecidesNothing(s: State, e: Event)
    requires !e.Work?
    ensures s.idem.IsFinal() || Step(s, e).idem.IsFinal() ==> Step(s, e).idem == s.idem
  {
  }

  /** Submissions and expiries neither add work to a queued job nor hide it. */
  lemma EnvironmentKeepsMeasure(s: State, e: Event)
    requires Control(s)
    requires !e.Work?
    ensures if s.job.NoJob? && !Step(s, e).job.NoJob? then
              e.Submit? && e.enqueued && Step(s, e).job == Waiting(0, e.maxRetries + 1)
            else
              Step(s, e).job == s.job && Measure(Step(s, e)) == Measure(s)
  {
    EnvironmentWrites(s, e);
    if ClaimsLease(s) {
      LeaseFindsNoRemovedJob(s);
    }
  }

  /** How many worker steps of a run found something to do. */
  function WorkDone(es: seq<Event>): nat {
    if es == [] then 0
    else
      var n := |es| - 1;
      WorkDone(es[..n]) + if es[n].Work? && Busy(Run(INIT, es[..n])) then 1 else 0
  }

  /** How many worker steps a schedule offers. */
  function WorkOffered(es: seq<Event>): nat {
    if es == [] then 0 else WorkOffered(es[..|es| - 1]) + if es[|es| - 1].Work? then 1 else 0
  }

  lemma IdleWork(s: State, a: Answers)
    requires Control(s)
    requires !Busy(s)
    ensures WorkStep(s, a) == s
  {
  }

  /** A step works on the job and spends its measure, or queues a new one, or leaves both alone. */
  lemma StepSpendsWork(s: State, e: Event)
    requires Control(s)
    ensures var next := Step(s, e);
            if e.Work? && Busy(s) then
              Measure(next) < Measure(s) && !s.job.NoJob? && !next.job.NoJob? && next.job.budget == s.job.budget
            else if s.job.NoJob? && !next.job.NoJob? then
              e.Submit? && next.job == Waiting(0, e.maxRetries + 1)
            else
              next.job == s.job && Measure(next) == Measure(s)
  {
    if !e.Work? {
      EnvironmentKeepsMeasure(s, e);
    } else if Busy(s) {
      WorkDecreasesMeasure(s, e.answers);
    } else {
      IdleWork(s, e.answers);
    }
  }

  lemma ReachableControl(es: seq<Event>)
    ensures Control(Run(INIT, es))
  {
    ReachableInv(es);
  }

  /**
   The retry budget bounds the work of every run: thirteen steps for each of the
   maxRetries + 1 attempts and five for the failure handler.
   */
  lemma {:induction false} WorkIsBounded(es: seq<Event>)
    ensures var s := Run(INIT, es);
            WorkDone(es) + Measure(s) <= Allowance(s.job)
  {
    if es != [] {
      var n := |es| - 1;
      var s := Run(INIT, es[..n]);
      WorkIsBounded(es[..n]);
      ReachableControl(es[..n]);
      StepSpendsWork(s, es[n]);
    }
  }

  /** Did a submission of the run ask for this attempt budget? */
  predicate Asked(es: seq<Event>, budget: nat) {
    es != [] &&
    (Asked(es[..|es| - 1], budget) || (es[|es| - 1].Submit? && budget == es[|es| - 1].maxRetries + 1))
  }

  /** The budget of a job is maxRetries + 1 of a submission, and no later step changes it. */
  lemma {:induction false} BudgetComesFromASubmission(es: seq<Event>)
    ensures var s := Run(INIT, es);
            !s.job.NoJob? ==> Asked(es, s.job.budget)
  {
    if es != [] {
      var n := |es| - 1;
      var s := Run(INIT, es[..n]);
      BudgetComesFromASubmission(es[..n]);
      ReachableControl(es[..n]);
      StepSpendsWork(s, es[n]);
    }
  }

  lemma {:induction false} OfferedWorkIsUsed(s: State, more: seq<Event>)
    requires Inv(s)
    requires !s.job.NoJob?
    ensures !Run(s, more).job.NoJob?
    ensures Measure(Run(s, more)) == 0 || Measure(Run(s, more)) + WorkOffered(more) <= Measure(s)
  {
    if more != [] {
      var n := |more| - 1;
      var m := Run(s, more[..n]);
      OfferedWorkIsUsed(s, more[..n]);
      RunKeepsInv(s, more[..n]);
      StepSpendsWork(m, more[n]);
    }
  }

  lemma NoWorkLeftIsFinal(s: State)
    requires Inv(s)
    requires !s.job.NoJob?
    ensures Measure(s) == 0 <==> !Busy(s)
    ensures !Busy(s) ==> s.idem.IsFinal()
  {
  }

  /**
   A queued payment reaches its verdict in every continuation that lets the worker run
   often enough, whatever the gateway answers and whatever is submitted or expires meanwhile.
   */
  lemma EveryQueuedPaymentEnds(es: seq<Event>, more: seq<Event>)
    requires !Run(INIT, es).job.NoJob?
    requires WorkOffered(more) >= Measure(Run(INIT, es))
    ensures Run(INIT, es + more).idem.IsFinal()
    ensures !Busy(Run(INIT, es + more))
  {
    ReachableInv(es);
    RunConcat(INIT, es, more);
    OfferedWorkIsUsed(Run(INIT, es), more);
    ReachableInv(es + more);
    NoWorkLeftIsFinal(Run(INIT, es + more));
  }

  // ---------- the attempts behind a verdict ----------

  /** What a step throws to the queue: an attempt that is leaving with a failure. */
  function ThrownBy(s: State, e: Event): seq<ErrorCode> {
    if e.Work? && s.at.Failing? then [s.at.code] else []
  }

  /** The failures that the attempts of a run threw, in order. */
  function Thrown(es: seq<Event>): seq<ErrorCode> {
    if es == [] then [] else Thrown(es[..|es| - 1]) + ThrownBy(Run(INIT, es[..|es| - 1]), es[|es| - 1])
  }

  predicate AllTransient(codes: seq<ErrorCode>) {
    forall i :: 0 <= i < |codes| ==> IsTransient(codes[i])
  }

  /** The failure that a reason of exhausted retries names. */
  function ExhaustedBy(reason: Reason): Option<ErrorCode> {
    if reason.RetriesExhausted? then Some(reason.code) else None
  }

  /** The failure that the handler or the verdict names. */
  function Named(at: Position, idem: Idempotency): Option<ErrorCode> {
    match at
    case HandlerDue(code) => Some(code)
    case DeadLettering(_, reason, _) => ExhaustedBy(reason)
    case DeadSaved(reason, _) => ExhaustedBy(reason)
    case _ => if idem.Failed? then ExhaustedBy(idem.reason) else None
  }

  /** How many failures were thrown, read off the job. */
  predicate CountsThrown(job: Job, begun: nat, n: nat) {
    match job
    case NoJob => n == 0
    case Waiting(made, _) => n == made
    case Active(made, _) => n == made
    case Spent(budget) => n == budget
    case Removed(_) => n + 1 == begun
  }

  /** `begun` attempts have begun and `thrown` were thrown, as job, handler and verdict have it. */
  predicate ThrownFits(s: State, begun: nat, thrown: seq<ErrorCode>) {
    && AllTransient(thrown)
    && CountsThrown(s.job, begun, |thrown|)
    && (Named(s.at, s.idem).Some? ==> s.job.Spent? && |thrown| > 0 && thrown[|thrown| - 1] == Named(s.at, s.idem).value)
  }

  lemma FailFitsThrown(s: State, begun: nat, thrown: seq<ErrorCode>)
    requires Control(s) && s.at.Failing?
    requires ThrownFits(s, begun, thrown)
    ensures ThrownFits(FailStep(s), begun, thrown + [s.at.code])
  {
  }

  lemma DeadLetterFitsThrown(s: State, begun: nat, thrown: seq<ErrorCode>)
    requires Control(s) && InDeadLetter(s.at)
    requires ThrownFits(s, begun, thrown)
    ensures ThrownFits(DeadLetterStep(s), begun, thrown)
  {
    match s.at
    case HandlerDue(code) =>
      assert DeadLetterStep(s) == s.(at := DeadLettering(s.store.value, RetriesExhausted(code), true));
    case DeadLettering(_, reason, handler) =>
      assert DeadLetterStep(s).at == DeadSaved(reason, handler) && DeadLetterStep(s).job == s.job;
    case DeadSaved(reason, handler) =>
      assert DeadLetterStep(s) == s.(idem := Failed(reason), at := DeadFinal(reason, handler));
    case DeadFinal(_, handler) =>
      assert DeadLetterStep(s).at == DeadLetterExit(handler) && DeadLetterStep(s).job == s.job;
  }

  lemma SagaNamesNothing(s: State, a: Answers)
    requires InSaga(s.at) && !s.idem.IsFinal()
    ensures Named(SagaStep(s, a).at, SagaStep(s, a).idem).None?
  {
  }

  lemma SagaFitsThrown(s: State, a: Answers, begun: nat, thrown: seq<ErrorCode>)
    requires Control(s) && InSaga(s.at)
    requires ThrownFits(s, begun, thrown)
    ensures ThrownFits(SagaStep(s, a), begun, thrown)
  {
    SagaRankDecreases(s, a);
    SagaNamesNothing(s, a);
  }

  lemma OutcomeFitsThrown(s: State, begun: nat, thrown: seq<ErrorCode>)
    requires Control(s) && AttemptsFit(s.at, s.job, begun) && InOutcome(s.at)
    requires ThrownFits(s, begun, thrown)
    ensures ThrownFits(OutcomeStep(s), begun, thrown)
  {
    assert s.job.Active?;
  }

  lemma IntakeFitsThrown(s: State, begun: nat, thrown: seq<ErrorCode>)
    requires Control(s) && (s.at.Parked? || InIntake(s.at))
    requires ThrownFits(s, begun, thrown)
    ensures s.at.Parked? ==> ThrownFits(DeliverStep(s), begun, thrown)
    ensures InIntake(s.at) ==> ThrownFits(IntakeStep(s), begun + One(s.at.Locked?), thrown)
  {
  }

  lemma SubmissionFitsThrown(s: State, e: Event, begun: nat, thrown: seq<ErrorCode>)
    requires Control(s) && !e.Work?
    requires ThrownFits(s, begun, thrown)
    ensures ThrownFits(Step(s, e), begun, thrown)
  {
    EnvironmentDecidesNothing(s, e);
    EnvironmentWrites(s, e);
    EnvironmentKeepsMeasure(s, e);
    assert Named(Step(s, e).at, Step(s, e).idem) == Named(s.at, s.idem);
  }

  /** Does the step begin an attempt? */
  predicate Begins(s: State, e: Event) {
    e.Work? && s.at.Locked?
  }

  lemma StepFitsThrown(s: State, e: Event, begun: nat, thrown: seq<ErrorCode>)
    requires Control(s) && AttemptsFit(s.at, s.job, begun)
    requires ThrownFits(s, begun, thrown)
    ensures ThrownFits(Step(s, e), begun + One(Begins(s, e)), thrown + ThrownBy(s, e))
  {
    if e.Work? && s.at.Failing? {
      FailFitsThrown(s, begun, thrown);
    } else {
      assert thrown + ThrownBy(s, e) == thrown;
      if !e.Work? {
        SubmissionFitsThrown(s, e, begun, thrown);
      } else if s.at.Parked? || InIntake(s.at) {
        IntakeFitsThrown(s, begun, thrown);
      } else if InSaga(s.at) {
        SagaFitsThrown(s, e.answers, begun, thrown);
      } else if InOutcome(s.at) {
        OutcomeFitsThrown(s, begun, thrown);
      } else {
        DeadLetterFitsThrown(s, begun, thrown);
      }
    }
  }

  /** The log is as before, or has one more entry that is not the begin of an attempt. */
  predicate LogsNoAttempt(before: seq<AuditEvent>, after: seq<AuditEvent>) {
    after == before || exists event :: event != Processing && after == Append(before, event)
  }

  lemma NoAttemptLogged(before: seq<AuditEvent>, after: seq<AuditEvent>)
    requires LogsNoAttempt(before, after)
    ensures TallyOf(after).processing == TallyOf(before).processing
  {
    if after != before {
      var event :| event != Processing && after == Append(before, event);
      AppendCounts(before, event);
    }
  }

  lemma SagaLogs(s: State, a: Answers)
    requires InSaga(s.at)
    ensures LogsNoAttempt(s.audit, SagaStep(s, a).audit)
  {
    match s.at
    case Started(_) => assert SagaStep(s, a).audit == Append(s.audit, SagaReserve);
    case FundsReserved(_, _) =>
      assert a.charge.ChargeOk? ==> SagaStep(s, a).audit == Append(s.audit, SagaCharge);
    case ChargeFailed(_, _) | RefundTried(_) => assert SagaStep(s, a).audit == Append(s.audit, ReleaseFunds);
    case ChargeDone(_, _, _) => assert a.settled ==> SagaStep(s, a).audit == Append(s.audit, SagaSettle);
    case SettleFailing(_, _) =>
      if a.refund.RefundOk? {
        assert SagaStep(s, a).audit == Append(s.audit, RefundDone);
      } else {
        assert SagaStep(s, a).audit == Append(s.audit, RefundRefused);
      }
  }

  lemma OtherWorkLogs(s: State, a: Answers)
    requires !InSaga(s.at) && !s.at.Locked?
    ensures LogsNoAttempt(s.audit, WorkStep(s, a).audit)
  {
    if s.at.CompletedFinal? {
      assert WorkStep(s, a).audit == Append(s.audit, PaymentCompleted);
    } else if s.at.DeadFinal? {
      assert WorkStep(s, a).audit == Append(s.audit, DeadLettered);
    } else {
      assert WorkStep(s, a).audit == s.audit;
    }
  }

  lemma StepCountsAttempts(s: State, e: Event)
    ensures TallyOf(Step(s, e).audit).processing == TallyOf(s.audit).processing + One(Begins(s, e))
  {
    if !e.Work? {
      EnvironmentCountsNoAttempt(s, e);
    } else if s.at.Locked? {
      assert Step(s, e).audit == Append(s.audit, Processing);
      AppendCounts(s.audit, Processing);
    } else {
      if InSaga(s.at) {
        SagaLogs(s, e.answers);
      } else {
        OtherWorkLogs(s, e.answers);
      }
      NoAttemptLogged(s.audit, Step(s, e).audit);
    }
  }

  lemma {:induction false} RunFitsThrown(es: seq<Event>)
    ensures ThrownFits(Run(INIT, es), TallyOf(Run(INIT, es).audit).processing, Thrown(es))
  {
    if es != [] {
      var n := |es| - 1;
      var s := Run(INIT, es[..n]);
      RunFitsThrown(es[..n]);
      ReachableInv(es[..n]);
      StepCountsAttempts(s, es[n]);
      StepFitsThrown(s, es[n], TallyOf(s.audit).processing, Thrown(es[..n]));
    }
  }

  /** Exhausted retries: the whole budget was spent on transient failures, and nothing was charged. */
  predicate ExhaustionExplained(s: State, thrown: seq<ErrorCode>) {
    var t := TallyOf(s.audit);
    && s.job.Spent? && s.job.budget == |thrown| > 0 && Named(s.at, s.idem) == Some(thrown[|thrown| - 1])
    && t.processing == s.job.budget == t.reserve == t.release && NeverCharged(s.books)
  }

  /** Any other verdict came within the budget, and every attempt but the last threw. */
  predicate LastAttemptDecided(s: State, thrown: seq<ErrorCode>) {
    !s.job.NoJob? && |thrown| + 1 == TallyOf(s.audit).processing <= s.job.budget
  }

  lemma ExhaustionIsExplained(s: State, thrown: seq<ErrorCode>)
    requires Inv(s) && ThrownFits(s, TallyOf(s.audit).processing, thrown)
    requires s.idem.Failed? && s.idem.reason.RetriesExhausted?
    ensures ExhaustionExplained(s, thrown)
    ensures Named(s.at, s.idem) == Some(s.idem.reason.code)
  {
    assert s.job.Spent?;
  }

  lemma VerdictCameInTime(s: State, thrown: seq<ErrorCode>)
    requires Inv(s) && ThrownFits(s, TallyOf(s.audit).processing, thrown)
    requires s.idem.IsFinal() && !(s.idem.Failed? && s.idem.reason.RetriesExhausted?)
    ensures LastAttemptDecided(s, thrown)
    ensures s.idem.Failed? ==> !IsTransient(s.idem.reason.code)
  {
    assert s.job.Active? || s.job.Removed?;
  }

  /**
   What a verdict says about the attempts behind it.  Exhausted retries took exactly the
   whole budget of maxRetries + 1 attempts: each one reserved, threw a transient failure
   before anything was charged, and released; the verdict names the last failure.  Before a
   permanent failure or a completion, within the budget, every attempt but the last threw a
   transient failure.
   */
  lemma VerdictExplained(es: seq<Event>)
    ensures var s := Run(INIT, es);
            && AllTransient(Thrown(es))
            && (s.idem.Failed? && s.idem.reason.RetriesExhausted? ==>
                  ExhaustionExplained(s, Thrown(es)) && Named(s.at, s.idem) == Some(s.idem.reason.code))
            && (s.idem.Failed? && s.idem.reason.Permanent? ==>
                  LastAttemptDecided(s, Thrown(es)) && !IsTransient(s.idem.reason.code))
            && (s.idem.Completed? ==>
                  LastAttemptDecided(s, Thrown(es)) && SettledCharge(s.books, s.idem.transactionId))
  {
    ReachableInv(es);
    RunFitsThrown(es);
    var s := Run(INIT, es);
    if s.idem.Failed? && s.idem.reason.RetriesExhausted? {
      ExhaustionIsExplained(s, Thrown(es));
    } else if s.idem.IsFinal() {
      VerdictCameInTime(s, Thrown(es));
    }
  }

  /** An attempt that has failed for good, on its way out. */
  predicate EndingForGood(s: State) {
    || s.idem.IsFinal()
    || (s.at.ChargeFailed? && !IsTransient(s.at.code))
    || s.at.SettleFailing? || s.at.RefundTried?
    || (s.at.DeadLettering? && !s.at.handler)
    || (s.at.DeadSaved? && !s.at.handler)
  }

  lemma EndingRelease(s: State, r: Record, code: ErrorCode)
    requires !IsTransient(code)
    ensures EndingForGood(ReleaseStep(s, r, code))
    ensures ReleaseStep(s, r, code).books == s.books
  {
  }

  lemma EndingRefund(s: State, answer: RefundAnswer)
    requires s.at.SettleFailing?
    ensures RefundStep(s, answer).at.RefundTried?
    ensures RefundStep(s, answer).books.charges == s.books.charges
  {
  }

  lemma EndingSaga(s: State, a: Answers)
    requires Control(s)
    requires EndingForGood(s) && InSaga(s.at)
    ensures EndingForGood(SagaStep(s, a))
    ensures SagaStep(s, a).books.charges == s.books.charges
  {
    match s.at
    case ChargeFailed(r, code) => EndingRelease(s, r, code);
    case RefundTried(r) => EndingRelease(s, r.(sagaState := Compensated), SettleFailed);
    case SettleFailing(_, _) => EndingRefund(s, a.refund);
    case _ => assert false;
  }

  lemma EndingDeadLetter(s: State)
    requires Control(s)
    requires EndingForGood(s) && InDeadLetter(s.at)
    ensures EndingForGood(DeadLetterStep(s))
    ensures DeadLetterStep(s).books == s.books
  {
    if s.at.DeadLettering? {
      assert !Latest(s, s.at.record).IsTerminal();
    } else {
      assert DeadLetterStep(s).idem.IsFinal();
    }
  }

  lemma EndingWork(s: State, a: Answers)
    requires Control(s)
    requires EndingForGood(s)
    ensures EndingForGood(WorkStep(s, a))
    ensures WorkStep(s, a).books.charges == s.books.charges
  {
    if InSaga(s.at) {
      EndingSaga(s, a);
    } else if InDeadLetter(s.at) {
      EndingDeadLetter(s);
    } else {
      assert s.at.Parked? || s.at.CompletedFinal? || s.at.Leaving?;
    }
  }

  lemma EndingStep(s: State, e: Event)
    requires Control(s)
    requires EndingForGood(s)
    ensures EndingForGood(Step(s, e))
    ensures TallyOf(Step(s, e).audit).processing == TallyOf(s.audit).processing
    ensures Step(s, e).books.charges == s.books.charges
  {
    StepCountsAttempts(s, e);
    if e.Work? {
      EndingWork(s, e.answers);
    }
  }

  /** After a permanent rejection or a failed settlement there is no further attempt and no further charge. */
  lemma {:induction false} PermanentFailureEndsAtOnce(s: State, more: seq<Event>)
    requires Inv(s)
    requires EndingForGood(s)
    ensures EndingForGood(Run(s, more))
    ensures TallyOf(Run(s, more).audit).processing == TallyOf(s.audit).processing
    ensures Run(s, more).books.charges == s.books.charges
  {
    if more != [] {
      var n := |more| - 1;
      PermanentFailureEndsAtOnce(s, more[..n]);
      RunKeepsInv(s, more[..n]);
      EndingStep(Run(s, more[..n]), more[n]);
    }
  }
}
