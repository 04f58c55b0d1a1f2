/**
 How overlapping submissions end.  A published outcome lasts exactly until a submission
 deletes it, and as long as none does, every payment that was queued reaches its outcome.
 */
module ConcurrentProgress {
  import opened Errors
  import opened PaymentRecords
  import opened Lifecycle
  import opened LifecycleInvariant
  import opened LifecycleProgress
  import opened ConcurrentSubmission

  // ---------- how long a published outcome lasts ----------

  /** A submission deletes the idempotency key of a finalized payment, charged or not. */
  predicate DeletesVerdict(w: World, e: WorldEvent) {
    && e.Advance? && e.id in w.submissions
    && (w.submissions[e.id].Releasing? || w.submissions[e.id].Dropping?)
    && w.payment.idem.IsFinal()
  }

  predicate NeverDeletesVerdict(w: World, es: seq<WorldEvent>) {
    es == [] ||
    (var n := |es| - 1;
     NeverDeletesVerdict(w, es[..n]) && !DeletesVerdict(WorldRun(w, es[..n]), es[n]))
  }

  lemma {:induction false} DeletesNoVerdictNoOutcome(w: World, es: seq<WorldEvent>)
    requires NeverDeletesVerdict(w, es)
    ensures NeverDeletesOutcome(w, es)
  {
    if es != [] {
      DeletesNoVerdictNoOutcome(w, es[..|es| - 1]);
    }
  }

  lemma WorkKeepsVerdict(s: State, a: Answers)
    requires s.idem.IsFinal() && AfterVerdict(s.at)
    ensures WorkStep(s, a).idem == s.idem && WorkStep(s, a).books == s.books
  {
    match s.at
    case Parked => assert WorkStep(s, a) == DeliverStep(s);
    case Fetched(_) => assert WorkStep(s, a) == JobDone(s);
    case DeadFinal(_, _) => assert WorkStep(s, a) == DeadLetterStep(s);
    case CompletedFinal(_) | Leaving => assert WorkStep(s, a) == OutcomeStep(s);
    case _ => assert false;
  }

  lemma VerdictStep(w: World, e: WorldEvent)
    requires ChargeSafe(w.payment) && w.payment.idem.IsFinal()
    ensures WorldNext(w, e).payment.idem == w.payment.idem <==> !DeletesVerdict(w, e)
    ensures WorldNext(w, e).payment.books == w.payment.books
  {
    if e.Base? && e.event.Work? {
      WorkKeepsVerdict(w.payment, e.event.answers);
    }
  }

  /** The outcome that was published in `w` is there after every step of the run. */
  predicate OutcomeStands(w: World, es: seq<WorldEvent>) {
    es == [] || (OutcomeStands(w, es[..|es| - 1]) && WorldRun(w, es).payment.idem == w.payment.idem)
  }

  /**
   A published outcome, completed or failed, stands through a run of overlapping submissions,
   workers and expiries if and only if no submission deletes the key in it; and as long as it
   stands no money moves.
   */
  lemma {:induction false} PublishedOutcomeStandsIff(w: World, es: seq<WorldEvent>)
    requires ChargeSafe(w.payment) && w.payment.idem.IsFinal()
    ensures OutcomeStands(w, es) <==> NeverDeletesVerdict(w, es)
    ensures OutcomeStands(w, es) ==> WorldRun(w, es).payment.idem == w.payment.idem
    ensures OutcomeStands(w, es) ==> WorldRun(w, es).payment.books == w.payment.books
  {
    if es != [] {
      var before := es[..|es| - 1];
      PublishedOutcomeStandsIff(w, before);
      if NeverDeletesVerdict(w, before) {
        DeletesNoVerdictNoOutcome(w, before);
        WorldRunKeepsChargeSafe(w, before);
        VerdictStep(WorldRun(w, before), es[|es| - 1]);
      }
    }
  }

  // ---------- a queued payment still ends ----------

  /** Positions that lead to a retry or a dead letter, and need an open record to get there. */
  predicate NeedsOpenRecord(at: Position) {
    at.Throwing? || at.Failing? || at.HandlerDue? || at.DeadLettering?
  }

  /** What overlapping submissions keep of the way to the verdict. */
  predicate OnTrack(s: State) {
    && JobFits(s.at, s.job)
    && (s.lock ==> HoldsLock(s.at))
    && (!s.job.NoJob? ==> s.store.Some?)
    && (NeedsOpenRecord(s.at) ==> s.store.Some? && !s.store.value.IsTerminal())
    && (s.at.Leaving? || s.at.CompletedFinal? || s.at.DeadFinal? ==> s.idem.IsFinal())
    && (s.at.Parked? && (s.job.Spent? || s.job.Removed?) ==> s.idem.IsFinal())
  }

  lemma IntakeKeepsTrack(s: State)
    requires ChargeSafe(s) && OnTrack(s)
    requires InIntake(s.at)
    ensures OnTrack(IntakeStep(s))
  {
  }

  lemma QueueKeepsTrack(s: State)
    requires ChargeSafe(s) && OnTrack(s)
    ensures s.at.Parked? ==> OnTrack(DeliverStep(s))
    ensures s.at.Failing? ==> OnTrack(FailStep(s))
  {
  }

  lemma SagaKeepsTrack(s: State, a: Answers)
    requires ChargeSafe(s) && OnTrack(s)
    requires InSaga(s.at)
    ensures OnTrack(SagaStep(s, a))
  {
    SagaRankDecreases(s, a);
    match s.at
    case ChargeFailed(r, code) => assert SagaStep(s, a) == ReleaseStep(s, r, code);
    case RefundTried(r) => assert SagaStep(s, a) == ReleaseStep(s, r.(sagaState := Compensated), SettleFailed);
    case _ =>
  }

  lemma OutcomeKeepsTrack(s: State)
    requires ChargeSafe(s) && OnTrack(s)
    requires InOutcome(s.at)
    ensures OnTrack(OutcomeStep(s))
  {
  }

  lemma DeadLetterKeepsTrack(s: State)
    requires ChargeSafe(s) && OnTrack(s)
    requires InDeadLetter(s.at)
    ensures OnTrack(DeadLetterStep(s))
  {
    DeadLetterRankDecreases(s);
  }

  lemma WorkKeepsTrack(s: State, a: Answers)
    requires ChargeSafe(s) && OnTrack(s)
    ensures OnTrack(WorkStep(s, a))
  {
    if s.at.Parked? || s.at.Failing? {
      QueueKeepsTrack(s);
    } else if InIntake(s.at) {
      IntakeKeepsTrack(s);
    } else if InSaga(s.at) {
      SagaKeepsTrack(s, a);
    } else if InOutcome(s.at) {
      OutcomeKeepsTrack(s);
    } else {
      DeadLetterKeepsTrack(s);
    }
  }

  /** A submission that is about to queue its job has saved its record. */
  predicate SavedFirst(w: World) {
    forall id :: id in w.submissions && w.submissions[id].Saved? ==> w.payment.store.Some?
  }

  lemma WorkKeepsStored(s: State, a: Answers)
    ensures s.store.Some? ==> WorkStep(s, a).store.Some?
  {
  }

  lemma SubmittingKeepsTrack(s: State, sub: Submission, queued: bool)
    requires OnTrack(s)
    requires sub.Saved? ==> s.store.Some?
    requires (sub.Releasing? || sub.Dropping?) ==> !s.idem.IsFinal()
    ensures var (s', sub') := Submitting(s, sub, queued);
            OnTrack(s') && (s.store.Some? || sub'.Saved? ==> s'.store.Some?)
  {
  }

  lemma WorldStepKeepsTrack(w: World, e: WorldEvent)
    requires ChargeSafe(w.payment) && OnTrack(w.payment) && SavedFirst(w)
    requires !DeletesVerdict(w, e)
    ensures OnTrack(WorldNext(w, e).payment) && SavedFirst(WorldNext(w, e))
  {
    match e
    case Base(event) =>
      if event.Work? {
        WorkKeepsTrack(w.payment, event.answers);
        WorkKeepsStored(w.payment, event.answers);
      }
    case Arrive(_, _, _) =>
    case Advance(id, queued) =>
      if id in w.submissions {
        SubmittingKeepsTrack(w.payment, w.submissions[id], queued);
      }
  }

  lemma {:induction false} WorldRunKeepsTrack(w: World, es: seq<WorldEvent>)
    requires ChargeSafe(w.payment) && OnTrack(w.payment) && SavedFirst(w)
    requires NeverDeletesVerdict(w, es)
    ensures var end := WorldRun(w, es);
            ChargeSafe(end.payment) && OnTrack(end.payment) && SavedFirst(end)
  {
    if es != [] {
      var before := es[..|es| - 1];
      WorldRunKeepsTrack(w, before);
      WorldStepKeepsTrack(WorldRun(w, before), es[|es| - 1]);
      WorldStepKeepsChargeSafe(WorldRun(w, before), es[|es| - 1]);
    }
  }

  /** Does the step queue a job? */
  predicate Queues(w: World, e: WorldEvent) {
    e.Advance? && e.queued && e.id in w.submissions && w.submissions[e.id].Saved?
  }

  predicate QueuesNothing(w: World, es: seq<WorldEvent>) {
    es == [] ||
    (var n := |es| - 1;
     QueuesNothing(w, es[..n]) && !Queues(WorldRun(w, es[..n]), es[n]))
  }

  /** How many worker steps a run offers. */
  function Offered(es: seq<WorldEvent>): nat {
    if es == [] then 0
    else Offered(es[..|es| - 1]) + if es[|es| - 1].Base? && es[|es| - 1].event.Work? then 1 else 0
  }

  lemma QuietStep(w: World, e: WorldEvent)
    requires OnTrack(w.payment)
    requires !Queues(w, e) && !(e.Base? && e.event.Work?)
    ensures WorldNext(w, e).payment.job == w.payment.job && WorldNext(w, e).payment.at == w.payment.at
  {
  }

  lemma IdleStep(s: State, a: Answers)
    requires !Busy(s)
    ensures WorkStep(s, a) == s
  {
    assert WorkStep(s, a) == DeliverStep(s);
  }

  lemma {:induction false} OfferedIsUsed(w: World, more: seq<WorldEvent>)
    requires ChargeSafe(w.payment) && OnTrack(w.payment) && SavedFirst(w) && !w.payment.job.NoJob?
    requires NeverDeletesVerdict(w, more) && QueuesNothing(w, more)
    ensures var s := WorldRun(w, more).payment;
            !s.job.NoJob? && (Measure(s) == 0 || Measure(s) + Offered(more) <= Measure(w.payment))
  {
    if more != [] {
      var before, e := more[..|more| - 1], more[|more| - 1];
      OfferedIsUsed(w, before);
      WorldRunKeepsTrack(w, before);
      var m := WorldRun(w, before);
      if e.Base? && e.event.Work? {
        if Busy(m.payment) {
          WorkDecreasesMeasure(m.payment, e.event.answers);
        } else {
          IdleStep(m.payment, e.event.answers);
        }
      } else {
        QuietStep(m, e);
      }
    }
  }

  lemma NothingLeft(s: State)
    requires OnTrack(s) && !s.job.NoJob? && Measure(s) == 0
    ensures !Busy(s) && s.idem.IsFinal()
  {
  }

  /** Before the verdict a submission that queues its job finds the job id held. */
  lemma OpenStep(w: World, e: WorldEvent)
    requires OnTrack(w.payment) && !w.payment.idem.IsFinal() && !w.payment.job.NoJob?
    requires !(e.Base? && e.event.Work?)
    ensures WorldNext(w, e).payment.job == w.payment.job && WorldNext(w, e).payment.at == w.payment.at
  {
    assert !w.payment.job.Removed?;
  }

  lemma {:induction false} OfferedUntilFinal(w: World, more: seq<WorldEvent>)
    requires ChargeSafe(w.payment) && OnTrack(w.payment) && SavedFirst(w) && !w.payment.job.NoJob?
    requires NeverDeletesVerdict(w, more)
    ensures var s := WorldRun(w, more).payment;
            s.idem.IsFinal() || (!s.job.NoJob? && Measure(s) + Offered(more) <= Measure(w.payment))
  {
    if more != [] {
      var before, e := more[..|more| - 1], more[|more| - 1];
      OfferedUntilFinal(w, before);
      WorldRunKeepsTrack(w, before);
      var m := WorldRun(w, before);
      if m.payment.idem.IsFinal() {
        VerdictStep(m, e);
      } else if e.Base? && e.event.Work? {
        if !Busy(m.payment) {
          NothingLeft(m.payment);
        }
        WorkDecreasesMeasure(m.payment, e.event.answers);
      } else {
        OpenStep(m, e);
      }
    }
  }

  /**
   However submissions overlap, a payment that was queued ends with a published outcome, if no
   submission deletes one: the worker needs no more steps than the measure of what is left,
   whatever is submitted, queued or expires meanwhile.  If no job is queued meanwhile, the
   worker is then idle.
   */
  lemma OverlappingPaymentsEnd(es: seq<WorldEvent>, more: seq<WorldEvent>)
    requires NeverDeletesVerdict(NEW_WORLD, es)
    requires !WorldRun(NEW_WORLD, es).payment.job.NoJob?
    requires NeverDeletesVerdict(WorldRun(NEW_WORLD, es), more)
    requires Offered(more) >= Measure(WorldRun(NEW_WORLD, es).payment)
    ensures WorldRun(NEW_WORLD, es + more).payment.idem.IsFinal()
    ensures QueuesNothing(WorldRun(NEW_WORLD, es), more) ==> !Busy(WorldRun(NEW_WORLD, es + more).payment)
  {
    var w := WorldRun(NEW_WORLD, es);
    WorldRunKeepsTrack(NEW_WORLD, es);
    WorldRunKeepsTrack(w, more);
    WorldConcat(NEW_WORLD, es, more);
    OfferedUntilFinal(w, more);
    var s := WorldRun(w, more).payment;
    if !s.idem.IsFinal() {
      NothingLeft(s);
    }
    if QueuesNothing(w, more) {
      OfferedIsUsed(w, more);
      NothingLeft(s);
    }
  }
}
