/**
 Submissions that overlap.

 A submission is not one step: it claims the lease, may find it taken with no payment behind
 it, releases and claims it again, saves the record, queues the job, and drops the lease if
 that fails.  Here any number of submissions are at any of these points while the worker
 runs.  At most one charge still holds, except for one thing: the two releases delete the
 idempotency key without looking.  A release that deletes the outcome of a charged payment
 is exactly what makes a second charge possible.
 */
module ConcurrentSubmission {
  import opened Options
  import opened PaymentRecords
  import opened Lifecycle
  import opened LifecycleInvariant
  import opened LifecycleSafety
  import opened LifecycleStores

  /** Where a submission stands, with the amount and retries it asks for. */
  datatype Submission =
    | Arrived(amount: nat, maxRetries: nat)
    | Conflicted(amount: nat, maxRetries: nat)
    | Releasing(amount: nat, maxRetries: nat)
    | Reclaiming(amount: nat, maxRetries: nat)
    | Claimed(amount: nat, maxRetries: nat)
    | Saved(maxRetries: nat)
    | Dropping
    | Answered

  datatype World = World(payment: State, submissions: map<nat, Submission>)

  datatype WorldEvent =
    | Base(event: Event)
    | Arrive(id: nat, amount: nat, maxRetries: nat)
    | Advance(id: nat, queued: bool)

  /** One step of a submission: the payment afterwards, and the submission afterwards. */
  function Submitting(s: State, sub: Submission, queued: bool): (State, Submission) {
    match sub
    case Arrived(amount, retries) =>
      if s.idem.Unclaimed? then (s.(idem := Leased), Claimed(amount, retries))
      else if s.idem.Leased? then (s, Conflicted(amount, retries))
      else (s, Answered)
    case Conflicted(amount, retries) => (s, if s.store.None? then Releasing(amount, retries) else Answered)
    case Releasing(amount, retries) => (s.(idem := Unclaimed), Reclaiming(amount, retries))
    case Reclaiming(amount, retries) =>
      if s.idem.Unclaimed? then (s.(idem := Leased), Claimed(amount, retries)) else (s, Answered)
    case Claimed(amount, retries) =>
      (s.(store := Some(CreateRecord(amount, retries)), audit := Append(s.audit, Submitted)), Saved(retries))
    case Saved(retries) => if queued then (s.(job := Enqueued(s.job, retries)), Answered) else (s, Dropping)
    case Dropping => (s.(idem := Unclaimed), Answered)
    case Answered => (s, Answered)
  }

  /** Whole submissions are made of steps here; everything else is as in the lifecycle. */
  predicate IsBase(e: Event) {
    e.Work? || e.LeaseExpire? || e.LockExpire?
  }

  function WorldNext(w: World, e: WorldEvent): World {
    match e
    case Base(event) => if IsBase(event) then w.(payment := Step(w.payment, event)) else w
    case Arrive(id, amount, retries) =>
      if id in w.submissions then w else w.(submissions := w.submissions[id := Arrived(amount, retries)])
    case Advance(id, queued) =>
      if id !in w.submissions then w
      else
        var (payment, sub) := Submitting(w.payment, w.submissions[id], queued);
        World(payment, w.submissions[id := sub])
  }

  function WorldRun(w: World, es: seq<WorldEvent>): World {
    if es == [] then w else WorldNext(WorldRun(w, es[..|es| - 1]), es[|es| - 1])
  }

  const NEW_WORLD := World(INIT, map[])

  // ---------- a submission that nothing interrupts ----------

  /** A submission that takes `steps` steps in a row; seven bring every one to its end. */
  function Finished(s: State, sub: Submission, queued: bool, steps: nat): (State, Submission)
    decreases steps
  {
    if steps == 0 then (s, sub)
    else
      var (s', sub') := Submitting(s, sub, queued);
      Finished(s', sub', queued, steps - 1)
  }

  lemma {:induction false} AnsweredStays(s: State, queued: bool, steps: nat)
    ensures Finished(s, Answered, queued, steps) == (s, Answered)
  {
    if steps > 0 {
      AnsweredStays(s, queued, steps - 1);
    }
  }

  lemma NextStep(s: State, sub: Submission, s': State, sub': Submission, queued: bool, steps: nat)
    requires steps > 0 && Submitting(s, sub, queued) == (s', sub')
    ensures Finished(s, sub, queued, steps) == Finished(s', sub', queued, steps - 1)
  {
  }

  lemma ClaimedFinishes(s: State, amount: nat, maxRetries: nat, queued: bool, steps: nat)
    requires s.idem == Leased && steps >= 3
    ensures var saved := s.(store := Some(CreateRecord(amount, maxRetries)), audit := Append(s.audit, Submitted));
            Finished(s, Claimed(amount, maxRetries), queued, steps)
            == (if queued then saved.(job := Enqueued(s.job, maxRetries)) else saved.(idem := Unclaimed), Answered)
  {
    var saved := s.(store := Some(CreateRecord(amount, maxRetries)), audit := Append(s.audit, Submitted));
    NextStep(s, Claimed(amount, maxRetries), saved, Saved(maxRetries), queued, steps);
    if queued {
      var end := saved.(job := Enqueued(s.job, maxRetries));
      NextStep(saved, Saved(maxRetries), end, Answered, queued, steps - 1);
      AnsweredStays(end, queued, steps - 2);
    } else {
      var end := saved.(idem := Unclaimed);
      NextStep(saved, Saved(maxRetries), saved, Dropping, queued, steps - 1);
      NextStep(saved, Dropping, end, Answered, queued, steps - 2);
      AnsweredStays(end, queued, steps - 3);
    }
  }

  /** Its steps, in one go, are the one step of the lifecycle. */
  lemma UninterruptedSubmission(s: State, amount: nat, maxRetries: nat, queued: bool)
    ensures Finished(s, Arrived(amount, maxRetries), queued, 7) == (SubmitStep(s, amount, maxRetries, queued), Answered)
  {
    var arrived, conflicted := Arrived(amount, maxRetries), Conflicted(amount, maxRetries);
    var claimed := Claimed(amount, maxRetries);
    var leased := s.(idem := Leased);
    if s.idem.Unclaimed? {
      NextStep(s, arrived, leased, claimed, queued, 7);
      ClaimedFinishes(leased, amount, maxRetries, queued, 6);
    } else if s.idem.Leased? {
      NextStep(s, arrived, s, conflicted, queued, 7);
      if s.store.None? {
        var released := s.(idem := Unclaimed);
        NextStep(s, conflicted, s, Releasing(amount, maxRetries), queued, 6);
        NextStep(s, Releasing(amount, maxRetries), released, Reclaiming(amount, maxRetries), queued, 5);
        NextStep(released, Reclaiming(amount, maxRetries), leased, claimed, queued, 4);
        ClaimedFinishes(leased, amount, maxRetries, queued, 3);
      } else {
        NextStep(s, conflicted, s, Answered, queued, 6);
        AnsweredStays(s, queued, 5);
      }
    } else {
      NextStep(s, arrived, s, Answered, queued, 7);
      AnsweredStays(s, queued, 6);
    }
  }

  // ---------- the one unsafe step ----------

  /** A submission deletes the idempotency key of a payment that is finalized and charged. */
  predicate DeletesOutcome(w: World, e: WorldEvent) {
    && e.Advance? && e.id in w.submissions
    && (w.submissions[e.id].Releasing? || w.submissions[e.id].Dropping?)
    && w.payment.idem.IsFinal()
    && w.payment.books.charges != []
  }

  predicate NeverDeletesOutcome(w: World, es: seq<WorldEvent>) {
    es == [] ||
    (var n := |es| - 1;
     NeverDeletesOutcome(w, es[..n]) && !DeletesOutcome(WorldRun(w, es[..n]), es[n]))
  }

  // ---------- what overlapping submissions keep ----------

  /** What each position says about the money, whatever the submissions have done around it. */
  predicate PaidAt(at: Position, final: bool, b: Books) {
    match at
    case Parked | Fetched(_) | CompletedFinal(_) | DeadFinal(_, _) | Leaving => NeverCharged(b) || (final && SettledOrUndone(b))
    case ChargeDone(r, _, txn) => OpenCharge(b, r, txn)
    case SettleFailing(r, txn) => OpenCharge(b, r, txn)
    case RefundTried(_) => NothingKept(b)
    case SettleDone(_, _, txn) => SettledCharge(b, txn)
    case CompletedSaved(txn) => SettledCharge(b, txn)
    case DeadLettering(_, _, handler) => if handler then NeverCharged(b) else NothingKept(b)
    case DeadSaved(_, handler) => if handler then NeverCharged(b) else NothingKept(b)
    case _ => NeverCharged(b)
  }

  /** Positions at which this attempt has saved its own open record. */
  predicate OwnRecord(at: Position) {
    InSaga(at) || at.SettleDone? || at.RetryPending? || (at.DeadLettering? && !at.handler)
  }

  /** Where the worker can be once the outcome is published. */
  predicate AfterVerdict(at: Position) {
    at.Parked? || at.Fetched? || at.CompletedFinal? || at.DeadFinal? || at.Leaving?
  }

  predicate ChargeSafe(s: State) {
    && (s.idem.IsFinal() ==> AfterVerdict(s.at))
    && (s.idem.IsFinal() || s.at.CompletedSaved? || s.at.DeadSaved? ==> s.store.Some?)
    && PaidAt(s.at, s.idem.IsFinal(), s.books)
    && (if s.at.Parked? then !s.job.Active? else if InHandler(s.at) then s.job.Spent? else s.job.Active?)
    && (s.job.Spent? ==> NeverCharged(s.books))
    && (s.books.charges != [] ==> s.store.Some?)
    && (OwnRecord(s.at) ==> s.store.Some? && !s.store.value.IsTerminal())
    && (OwnRecord(s.at) ==> !s.at.record.IsTerminal())
  }

  lemma ReserveAndReleaseKeepChargeSafe(s: State, a: Answers)
    requires ChargeSafe(s)
    requires s.at.Started? || s.at.ChargeFailed? || s.at.RefundTried?
    ensures ChargeSafe(SagaStep(s, a))
  {
  }

  lemma ChargeKeepsChargeSafe(s: State, answer: ChargeAnswer)
    requires ChargeSafe(s)
    requires s.at.FundsReserved?
    ensures ChargeSafe(ChargeStep(s, answer))
  {
  }

  lemma SettleKeepsChargeSafe(s: State, settled: bool)
    requires ChargeSafe(s)
    requires s.at.ChargeDone?
    ensures ChargeSafe(SettleStep(s, settled))
  {
  }

  lemma RefundKeepsChargeSafe(s: State, answer: RefundAnswer)
    requires ChargeSafe(s)
    requires s.at.SettleFailing?
    ensures ChargeSafe(RefundStep(s, answer))
  {
  }

  lemma DeadLetterKeepsChargeSafe(s: State)
    requires ChargeSafe(s)
    requires s.at.HandlerDue? || s.at.DeadLettering?
    ensures ChargeSafe(DeadLetterStep(s))
  {
  }

  lemma DeadVerdictKeepsChargeSafe(s: State)
    requires ChargeSafe(s)
    requires s.at.DeadSaved? || s.at.DeadFinal?
    ensures ChargeSafe(DeadLetterStep(s))
  {
  }

  lemma CompletionKeepsChargeSafe(s: State)
    requires ChargeSafe(s)
    requires s.at.SettleDone? || s.at.CompletedSaved? || s.at.CompletedFinal?
    ensures ChargeSafe(OutcomeStep(s))
  {
    match s.at
    case SettleDone(_, _, txn) => assert OutcomeStep(s).at == CompletedSaved(txn) && OutcomeStep(s).idem == s.idem;
    case CompletedSaved(txn) => assert OutcomeStep(s) == s.(idem := Completed(txn), at := CompletedFinal(txn));
    case CompletedFinal(_) => assert OutcomeStep(s).at == Leaving && OutcomeStep(s).idem == s.idem;
  }

  lemma ExitKeepsChargeSafe(s: State)
    requires ChargeSafe(s)
    requires s.at.RetryPending? || s.at.Throwing? || s.at.Leaving?
    ensures ChargeSafe(OutcomeStep(s))
  {
  }

  lemma IntakeKeepsChargeSafe(s: State)
    requires ChargeSafe(s)
    requires InIntake(s.at)
    ensures ChargeSafe(IntakeStep(s))
  {
  }

  lemma QueueKeepsChargeSafe(s: State)
    requires ChargeSafe(s)
    ensures s.at.Parked? ==> ChargeSafe(DeliverStep(s))
    ensures s.at.Failing? ==> ChargeSafe(FailStep(s))
  {
  }

  lemma WorkKeepsChargeSafe(s: State, a: Answers)
    requires ChargeSafe(s)
    ensures ChargeSafe(WorkStep(s, a))
  {
    match s.at
    case Parked | Failing(_) => QueueKeepsChargeSafe(s);
    case Fetched(_) | Checked(_) | Locked(_) => IntakeKeepsChargeSafe(s);
    case Started(_) | ChargeFailed(_, _) | RefundTried(_) => ReserveAndReleaseKeepChargeSafe(s, a);
    case FundsReserved(_, _) => ChargeKeepsChargeSafe(s, a.charge);
    case ChargeDone(_, _, _) => SettleKeepsChargeSafe(s, a.settled);
    case SettleFailing(_, _) => RefundKeepsChargeSafe(s, a.refund);
    case HandlerDue(_) | DeadLettering(_, _, _) => DeadLetterKeepsChargeSafe(s);
    case DeadSaved(_, _) | DeadFinal(_, _) => DeadVerdictKeepsChargeSafe(s);
    case SettleDone(_, _, _) | CompletedSaved(_) | CompletedFinal(_) => CompletionKeepsChargeSafe(s);
    case RetryPending(_, _) | Throwing(_) | Leaving => ExitKeepsChargeSafe(s);
  }

  lemma SubmittingKeepsChargeSafe(s: State, sub: Submission, queued: bool)
    requires ChargeSafe(s)
    requires (sub.Releasing? || sub.Dropping?) ==> !(s.idem.IsFinal() && s.books.charges != [])
    ensures ChargeSafe(Submitting(s, sub, queued).0)
  {
  }

  lemma WorldStepKeepsChargeSafe(w: World, e: WorldEvent)
    requires ChargeSafe(w.payment)
    requires !DeletesOutcome(w, e)
    ensures ChargeSafe(WorldNext(w, e).payment)
  {
    match e
    case Base(event) =>
      if event.Work? {
        WorkKeepsChargeSafe(w.payment, event.answers);
      }
    case Arrive(_, _, _) =>
    case Advance(id, queued) =>
      if id in w.submissions {
        SubmittingKeepsChargeSafe(w.payment, w.submissions[id], queued);
      }
  }

  lemma {:induction false} WorldRunKeepsChargeSafe(w: World, es: seq<WorldEvent>)
    requires ChargeSafe(w.payment)
    requires NeverDeletesOutcome(w, es)
    ensures ChargeSafe(WorldRun(w, es).payment)
  {
    if es != [] {
      var n := |es| - 1;
      WorldRunKeepsChargeSafe(w, es[..n]);
      WorldStepKeepsChargeSafe(WorldRun(w, es[..n]), es[n]);
    }
  }

  /**
   However many submissions overlap, wherever each of them is delayed or dies, and whatever
   expires: as long as none deletes the outcome of a charged payment, the payment is charged
   at most once, and every charge but one being decided is settled, refunded or reported.
   */
  lemma OverlappingSubmissionsChargeOnce(es: seq<WorldEvent>)
    requires NeverDeletesOutcome(NEW_WORLD, es)
    ensures var s := WorldRun(NEW_WORLD, es).payment;
            && |s.books.charges| <= 1
            && (!ChargeUndecided(s.at) ==> Conserved(s.books))
  {
    WorldRunKeepsChargeSafe(NEW_WORLD, es);
    var s := WorldRun(NEW_WORLD, es).payment;
    if !ChargeUndecided(s.at) {
      BalancedBooksConserve(s.books);
    }
  }

  // ---------- the unsafe step is really unsafe ----------

  lemma {:induction false} WorldConcat(w: World, es: seq<WorldEvent>, more: seq<WorldEvent>)
    ensures WorldRun(w, es + more) == WorldRun(WorldRun(w, es), more)
  {
    if more == [] {
      assert es + more == es;
    } else {
      var n := |more| - 1;
      assert (es + more)[..|es + more| - 1] == es + more[..n];
      WorldConcat(w, es, more[..n]);
    }
  }

  function Lift(es: seq<Event>): seq<WorldEvent> {
    seq(|es|, i requires 0 <= i < |es| => Base(es[i]))
  }

  /** Worker steps and expiries run in the world as they run alone. */
  lemma {:induction false} LiftedRun(w: World, es: seq<Event>)
    requires forall i :: 0 <= i < |es| ==> IsBase(es[i])
    ensures WorldRun(w, Lift(es)) == w.(payment := Run(w.payment, es))
  {
    if es != [] {
      var n := |es| - 1;
      assert Lift(es)[..n] == Lift(es[..n]);
      LiftedRun(w, es[..n]);
    }
  }

  /** From a delivered or waiting open payment with a free lock, one happy attempt adds a charge. */
  lemma HappyAttemptCharges(w: World)
    requires w.payment.at.Parked? && w.payment.job.Waiting? && w.payment.store.Some?
    requires !w.payment.idem.IsFinal() && !w.payment.lock
    ensures |WorldRun(w, Lift(Works(8))).payment.books.charges| == |w.payment.books.charges| + 1
  {
    var s := w.payment;
    IntakeRun(s);
    SagaRun(Run(s, Works(4)));
    RunConcat(s, Works(4), Works(4));
    assert Works(4) + Works(4) == Works(8);
    LiftedRun(w, Works(8));
  }

  lemma {:induction false} NeverDeletesConcat(w: World, es: seq<WorldEvent>, more: seq<WorldEvent>)
    requires NeverDeletesOutcome(w, es) && NeverDeletesOutcome(WorldRun(w, es), more)
    ensures NeverDeletesOutcome(w, es + more)
  {
    if more == [] {
      assert es + more == es;
    } else {
      var n := |more| - 1;
      assert (es + more)[..|es + more| - 1] == es + more[..n];
      NeverDeletesConcat(w, es, more[..n]);
      WorldConcat(w, es, more[..n]);
    }
  }

  lemma {:induction false} LiftNeverDeletes(w: World, es: seq<Event>)
    ensures NeverDeletesOutcome(w, Lift(es))
  {
    if es != [] {
      assert Lift(es)[..|es| - 1] == Lift(es[..|es| - 1]);
      LiftNeverDeletes(w, es[..|es| - 1]);
    }
  }

  /** One more event, with what a run needs to know about it. */
  lemma OneMore(w: World, es: seq<WorldEvent>, e: WorldEvent)
    requires NeverDeletesOutcome(w, es)
    requires !DeletesOutcome(WorldRun(w, es), e)
    ensures WorldRun(w, es + [e]) == WorldNext(WorldRun(w, es), e)
    ensures NeverDeletesOutcome(w, es + [e])
  {
    assert (es + [e])[..|es|] == es;
  }

  /** A new submission that finds the key free and the worker parked queues the payment again. */
  lemma FreshSubmissionQueues(w: World, id: nat) returns (es: seq<WorldEvent>)
    requires w.payment.at.Parked? && w.payment.idem.Unclaimed?
    requires !w.payment.job.Active? && !w.payment.job.Spent?
    requires id !in w.submissions
    ensures NeverDeletesOutcome(w, es)
    ensures var s := WorldRun(w, es).payment;
            && s.at.Parked? && s.job.Waiting? && s.store.Some? && !s.idem.IsFinal() && !s.lock
            && s.books == w.payment.books
  {
    OneMore(w, [], Base(LockExpire));
    es := [] + [Base(LockExpire)];
    OneMore(w, es, Arrive(id, 1, 0));
    es := es + [Arrive(id, 1, 0)];
    assert WorldRun(w, es).submissions[id] == Arrived(1, 0);
    OneMore(w, es, Advance(id, true));
    es := es + [Advance(id, true)];
    assert WorldRun(w, es).submissions[id] == Claimed(1, 0);
    OneMore(w, es, Advance(id, true));
    es := es + [Advance(id, true)];
    assert WorldRun(w, es).submissions[id] == Saved(0);
    OneMore(w, es, Advance(id, true));
    es := es + [Advance(id, true)];
  }

  /** A worker behind its verdict leaves; the job is removed and the key stays as it is. */
  lemma WorkerLeaves(s: State) returns (k: nat)
    requires s.at.Leaving? || s.at.CompletedFinal? || (s.at.DeadFinal? && !s.at.handler)
    requires s.job.Active?
    ensures var s' := Run(s, Works(k));
            s'.at.Parked? && s'.idem == s.idem && s'.books == s.books && s'.job.Removed? && !s'.lock
  {
    if s.at.Leaving? {
      RunWork(s, 1);
      return 1;
    }
    RunWork(s, 2);
    RunWork(WorkStep(s, HAPPY), 1);
    return 2;
  }

  /** A delivery that slipped through: its worker has fetched the record and finds the key free. */
  lemma FetchedCharges(w: World) returns (es: seq<WorldEvent>)
    requires w.payment.at.Fetched? && w.payment.idem.Unclaimed? && w.payment.job.Active?
    ensures NeverDeletesOutcome(w, es)
    ensures |WorldRun(w, es).payment.books.charges| == |w.payment.books.charges| + 1
  {
    var s := w.payment;
    var base := [LockExpire] + Works(3) + Works(4);
    var s0 := Step(s, LockExpire);
    assert Run(s, [LockExpire]) == s0;
    RunConcat(s, [LockExpire], Works(3));
    RunConcat(s, [LockExpire] + Works(3), Works(4));
    var s1 := WorkStep(s0, HAPPY);
    var s2 := WorkStep(s1, HAPPY);
    RunWork(s0, 3);
    RunWork(s1, 2);
    RunWork(s2, 1);
    SagaRun(Run(s0, Works(3)));
    LiftedRun(w, base);
    LiftNeverDeletes(w, base);
    es := Lift(base);
  }

  lemma ParkedCharges(w: World, id: nat) returns (es: seq<WorldEvent>)
    requires w.payment.at.Parked? && w.payment.idem.Unclaimed?
    requires !w.payment.job.Active? && !w.payment.job.Spent?
    requires id !in w.submissions
    ensures NeverDeletesOutcome(w, es)
    ensures |WorldRun(w, es).payment.books.charges| == |w.payment.books.charges| + 1
  {
    var queue := FreshSubmissionQueues(w, id);
    HappyAttemptCharges(WorldRun(w, queue));
    LiftNeverDeletes(WorldRun(w, queue), Works(8));
    WorldConcat(w, queue, Lift(Works(8)));
    NeverDeletesConcat(w, queue, Lift(Works(8)));
    es := queue + Lift(Works(8));
  }

  /** Once the outcome of a charged payment is deleted, an ordinary run charges it again. */
  lemma DeletedOutcomeChargesAgain(w: World, id: nat) returns (es: seq<WorldEvent>)
    requires w.payment.idem.Unclaimed? && |w.payment.books.charges| == 1
    requires AfterVerdict(w.payment.at) && !w.payment.job.Spent?
    requires if w.payment.at.Parked? then !w.payment.job.Active? else !InHandler(w.payment.at) && w.payment.job.Active?
    requires id !in w.submissions
    ensures NeverDeletesOutcome(w, es)
    ensures |WorldRun(w, es).payment.books.charges| == 2
  {
    if w.payment.at.Fetched? {
      es := FetchedCharges(w);
    } else if w.payment.at.Parked? {
      es := ParkedCharges(w, id);
    } else {
      var k := WorkerLeaves(w.payment);
      LiftedRun(w, Works(k));
      LiftNeverDeletes(w, Works(k));
      var w' := WorldRun(w, Lift(Works(k)));
      var more := ParkedCharges(w', id);
      WorldConcat(w, Lift(Works(k)), more);
      NeverDeletesConcat(w, Lift(Works(k)), more);
      es := Lift(Works(k)) + more;
    }
  }

  /**
   The exact border.  A submission about to delete the idempotency key leaves the payment
   charged at most once in every continuation of careful deletions, if and only if the key
   does not hold the outcome of a charged payment at that moment.
   */
  lemma DeletionIsSafeIff(w: World, e: WorldEvent, newId: nat)
    requires ChargeSafe(w.payment)
    requires e.Advance? && e.id in w.submissions && (w.submissions[e.id].Releasing? || w.submissions[e.id].Dropping?)
    requires newId !in w.submissions
    ensures (forall more :: NeverDeletesOutcome(WorldNext(w, e), more) ==>
               |WorldRun(WorldNext(w, e), more).payment.books.charges| <= 1)
       <==> !DeletesOutcome(w, e)
  {
    var w' := WorldNext(w, e);
    if DeletesOutcome(w, e) {
      var more := DeletedOutcomeChargesAgain(w', newId);
      assert NeverDeletesOutcome(w', more) && |WorldRun(w', more).payment.books.charges| == 2;
    } else {
      WorldStepKeepsChargeSafe(w, e);
      forall more | NeverDeletesOutcome(w', more)
        ensures |WorldRun(w', more).payment.books.charges| <= 1
      {
        WorldRunKeepsChargeSafe(w', more);
      }
    }
  }

  // ---------- and it happens ----------

  /** A waiting open payment is completed by one happy attempt, up to publishing the outcome. */
  lemma HappyAttemptCompletes(s: State)
    requires s.at.Parked? && s.job.Waiting? && s.store.Some? && !s.idem.IsFinal() && !s.lock
    ensures var s' := Run(s, Works(9));
            && s'.at == CompletedFinal("t") && s'.idem == Completed("t") && s'.job.Active?
            && |s'.books.charges| == |s.books.charges| + 1
  {
    IntakeRun(s);
    var started := Run(s, Works(4));
    SagaRun(started);
    var saved := Run(started, Works(4));
    RunWork(saved, 1);
    RunConcat(s, Works(4), Works(4));
    RunConcat(s, Works(4) + Works(4), Works(1));
    assert Works(9) == Works(4) + Works(4) + Works(1);
    assert Run(s, Works(9)) == WorkStep(saved, HAPPY);
  }

  /** The submissions that the run knows. */
  predicate OnlySubmissions(es: seq<WorldEvent>, ids: set<nat>) {
    forall i :: 0 <= i < |es| ==> (es[i].Base? || es[i].id in ids)
  }

  /** A submission that takes three steps in a row. */
  const THREE_OF_2 := [Advance(2, true), Advance(2, true), Advance(2, true)]

  lemma ThreeSteps(w: World)
    ensures WorldRun(w, THREE_OF_2)
            == WorldNext(WorldNext(WorldNext(w, Advance(2, true)), Advance(2, true)), Advance(2, true))
  {
    var es := THREE_OF_2;
    assert es[..2][..1] == es[..1] && es[..1][..0] == [];
    assert WorldRun(w, es[..1]) == WorldNext(w, es[0]);
    assert WorldRun(w, es[..2]) == WorldNext(WorldRun(w, es[..1]), es[1]);
  }

  /** A submission that has just released the key claims it, saves and queues the payment again. */
  lemma SecondQueuesAgain(w: World)
    requires w.payment.at.Parked? && w.payment.idem.Unclaimed? && w.payment.job.Removed? && !w.payment.lock
    requires 2 in w.submissions && w.submissions[2].Reclaiming?
    ensures var s := WorldRun(w, THREE_OF_2).payment;
            && s.at.Parked? && s.job.Waiting? && s.store.Some? && !s.idem.IsFinal() && !s.lock
            && s.books == w.payment.books
  {
    ThreeSteps(w);
    var w1 := WorldNext(w, Advance(2, true));
    assert w1.submissions[2].Claimed? && w1.payment == w.payment.(idem := Leased);
    var w2 := WorldNext(w1, Advance(2, true));
    assert w2.submissions[2].Saved? && w2.payment.store.Some? && w2.payment.job.Removed?;
  }

  /** The first submission's payment is completed, the second releases the key, and the worker leaves. */
  lemma SecondReleases(w: World) returns (es: seq<WorldEvent>)
    requires w.payment.at.Parked? && w.payment.job.Waiting? && w.payment.store.Some?
    requires w.payment.idem == Leased && !w.payment.lock && w.payment.books.charges == []
    requires 2 in w.submissions && w.submissions[2].Releasing?
    ensures OnlySubmissions(es, {1, 2})
    ensures var w' := WorldRun(w, es);
            && w'.payment.at.Parked? && w'.payment.idem.Unclaimed? && w'.payment.job.Removed? && !w'.payment.lock
            && 2 in w'.submissions && w'.submissions[2].Reclaiming? && |w'.payment.books.charges| == 1
  {
    HappyAttemptCompletes(w.payment);
    LiftedRun(w, Works(9));
    var done := WorldRun(w, Lift(Works(9)));
    var released := WorldNext(done, Advance(2, true));
    var before := Lift(Works(9)) + [Advance(2, true)];
    assert before[..|before| - 1] == Lift(Works(9));
    var k := WorkerLeaves(released.payment);
    LiftedRun(released, Works(k));
    WorldConcat(w, before, Lift(Works(k)));
    es := before + Lift(Works(k));
  }

  /** Both arrive, the first claims, and the second finds the lease before the record is saved. */
  const RACE := [Arrive(1, 7, 0), Arrive(2, 7, 0), Advance(1, true), Advance(2, true), Advance(2, true),
                 Advance(1, true), Advance(1, true)]

  lemma RaceRun()
    ensures var w := WorldRun(NEW_WORLD, RACE);
            && w.payment.at.Parked? && w.payment.job.Waiting? && w.payment.store.Some?
            && w.payment.idem == Leased && !w.payment.lock && w.payment.books.charges == []
            && 2 in w.submissions && w.submissions[2].Releasing?
  {
    var es := RACE;
    assert es[..6][..5] == es[..5] && es[..5][..4] == es[..4] && es[..4][..3] == es[..3];
    assert es[..3][..2] == es[..2] && es[..2][..1] == es[..1] && es[..1][..0] == [];
    assert WorldRun(NEW_WORLD, es[..1]) == World(INIT, map[1 := Arrived(7, 0)]);
    assert WorldRun(NEW_WORLD, es[..2]) == World(INIT, map[1 := Arrived(7, 0), 2 := Arrived(7, 0)]);
    assert WorldRun(NEW_WORLD, es[..3])
        == World(INIT.(idem := Leased), map[1 := Claimed(7, 0), 2 := Arrived(7, 0)]);
    assert WorldRun(NEW_WORLD, es[..5])
        == World(INIT.(idem := Leased), map[1 := Claimed(7, 0), 2 := Releasing(7, 0)]);
  }

  /**
   Two submissions of the same payment are enough: the second finds the lease of the first
   before the first has saved its record, is delayed until the payment is completed, then
   releases the key, claims it and queues the payment again.  The payment is charged twice.
   */
  lemma TwoSubmissionsCanChargeTwice()
    ensures exists es :: OnlySubmissions(es, {1, 2}) && |WorldRun(NEW_WORLD, es).payment.books.charges| == 2
  {
    RaceRun();
    var w := WorldRun(NEW_WORLD, RACE);
    var release := SecondReleases(w);
    var w1 := WorldRun(w, release);
    SecondQueuesAgain(w1);
    HappyAttemptCharges(WorldRun(w1, THREE_OF_2));
    WorldConcat(NEW_WORLD, RACE, release);
    WorldConcat(NEW_WORLD, RACE + release, THREE_OF_2);
    WorldConcat(NEW_WORLD, RACE + release + THREE_OF_2, Lift(Works(8)));
    var es := RACE + release + THREE_OF_2 + Lift(Works(8));
    assert OnlySubmissions(es, {1, 2});
  }
}
