/**
 When the stores agree although submissions overlap.

 A submission that has claimed the lease saves its record later, whatever has happened to the
 payment meanwhile: its lease may have run out, and another submission's job may have been
 processed.  The record of a finalized payment is right exactly when no save came too late.
 */
module ConcurrentStores {
  import opened Options
  import opened PaymentRecords
  import opened Lifecycle
  import opened LifecycleInvariant
  import opened LifecycleStores
  import opened ConcurrentSubmission
  import opened ConcurrentProgress

  /** A submission saves its record when the payment has a terminal record, published or not. */
  predicate SavesLate(w: World, e: WorldEvent) {
    && e.Advance? && e.id in w.submissions && w.submissions[e.id].Claimed?
    && (TerminalSaveOpen(w.payment.at) || w.payment.idem.IsFinal())
  }

  predicate NeverSavesLate(w: World, es: seq<WorldEvent>) {
    es == [] ||
    (var n := |es| - 1;
     NeverSavesLate(w, es[..n]) && !SavesLate(WorldRun(w, es[..n]), es[n]))
  }

  // ---------- every step knows whether a save came late ----------

  /** As long as nothing terminal is saved, there is nothing to disagree about. */
  lemma OpenStoresFit(s: State)
    requires !s.idem.IsFinal() && !TerminalSaveOpen(s.at)
    ensures StoresFit(s, true)
  {
  }

  lemma SagaKeepsStores(s: State, a: Answers)
    requires ChargeSafe(s) && InSaga(s.at)
    ensures StoresFit(SagaStep(s, a), true)
  {
    assert SagaStep(s, a).idem == s.idem;
    OpenStoresFit(SagaStep(s, a));
  }

  lemma QueueKeepsStores(s: State, clean: bool)
    requires StoresFit(s, clean) && (s.at.Parked? || s.at.Failing?)
    ensures s.at.Parked? ==> StoresFit(DeliverStep(s), clean)
    ensures s.at.Failing? ==> StoresFit(FailStep(s), clean)
  {
  }

  lemma IntakeKeepsStores(s: State, clean: bool)
    requires ChargeSafe(s) && StoresFit(s, clean) && InIntake(s.at)
    ensures StoresFit(IntakeStep(s), clean)
  {
    if s.idem.IsFinal() {
      assert IntakeStep(s) == JobDone(s);
    } else {
      OpenStoresFit(IntakeStep(s));
    }
  }

  lemma OutcomeKeepsStores(s: State, clean: bool)
    requires ChargeSafe(s) && StoresFit(s, clean) && InOutcome(s.at)
    ensures StoresFit(OutcomeStep(s), clean)
  {
    match s.at
    case SettleDone(_, _, txn) => assert OutcomeStep(s).at == CompletedSaved(txn) && OutcomeStep(s).idem == s.idem;
    case CompletedSaved(txn) => assert OutcomeStep(s) == s.(idem := Completed(txn), at := CompletedFinal(txn));
    case CompletedFinal(_) | Leaving => assert OutcomeStep(s).store == s.store && OutcomeStep(s).idem == s.idem;
    case RetryPending(_, _) | Throwing(_) => OpenStoresFit(OutcomeStep(s));
  }

  lemma DeadLetterKeepsStores(s: State, clean: bool)
    requires ChargeSafe(s) && OnTrack(s) && StoresFit(s, clean) && InDeadLetter(s.at)
    ensures StoresFit(DeadLetterStep(s), clean)
  {
    match s.at
    case HandlerDue(_) => OpenStoresFit(DeadLetterStep(s));
    case DeadLettering(r, reason, handler) =>
      assert DeadLetterStep(s)
          == s.(store := Some(TransitionToDeadLetter(Latest(s, r), reason)), at := DeadSaved(reason, handler));
    case DeadSaved(reason, handler) =>
      assert DeadLetterStep(s) == s.(idem := Failed(reason), at := DeadFinal(reason, handler));
    case DeadFinal(_, _) =>
      assert DeadLetterStep(s).store == s.store && DeadLetterStep(s).idem == s.idem;
  }

  lemma WorkKeepsStores(s: State, a: Answers, clean: bool)
    requires ChargeSafe(s) && OnTrack(s) && StoresFit(s, clean)
    ensures StoresFit(WorkStep(s, a), clean)
  {
    if s.at.Parked? || s.at.Failing? {
      QueueKeepsStores(s, clean);
    } else if InIntake(s.at) {
      IntakeKeepsStores(s, clean);
    } else if InSaga(s.at) {
      SagaKeepsStores(s, a);
    } else if InOutcome(s.at) {
      OutcomeKeepsStores(s, clean);
    } else {
      DeadLetterKeepsStores(s, clean);
    }
  }

  lemma WorldStepKeepsStores(w: World, e: WorldEvent, clean: bool)
    requires ChargeSafe(w.payment) && OnTrack(w.payment) && StoresFit(w.payment, clean)
    requires !DeletesVerdict(w, e)
    ensures StoresFit(WorldNext(w, e).payment, clean && !SavesLate(w, e))
  {
    if e.Base? && e.event.Work? {
      WorkKeepsStores(w.payment, e.event.answers, clean);
    }
  }

  /** The dead letter entry names the published failure, and so does the worker that files it. */
  predicate DeadLetterTells(s: State) {
    && (s.dlq.Some? ==> s.idem == Failed(s.dlq.value))
    && (s.at.DeadFinal? ==> s.idem == Failed(s.at.reason))
  }

  lemma WorkKeepsDeadLetter(s: State, a: Answers)
    requires ChargeSafe(s) && DeadLetterTells(s)
    ensures DeadLetterTells(WorkStep(s, a))
  {
    if s.idem.IsFinal() {
      WorkKeepsVerdict(s, a);
    } else {
      assert s.dlq.None? && !s.at.DeadFinal?;
    }
  }

  lemma WorldStepKeepsDeadLetter(w: World, e: WorldEvent)
    requires ChargeSafe(w.payment) && DeadLetterTells(w.payment)
    requires !DeletesVerdict(w, e)
    ensures DeadLetterTells(WorldNext(w, e).payment)
  {
    if e.Base? && e.event.Work? {
      WorkKeepsDeadLetter(w.payment, e.event.answers);
    } else if w.payment.idem.IsFinal() {
      VerdictStep(w, e);
    }
  }

  lemma {:induction false} WorldRunStoresFit(es: seq<WorldEvent>)
    requires NeverDeletesVerdict(NEW_WORLD, es)
    ensures StoresFit(WorldRun(NEW_WORLD, es).payment, NeverSavesLate(NEW_WORLD, es))
    ensures DeadLetterTells(WorldRun(NEW_WORLD, es).payment)
  {
    if es != [] {
      var before, e := es[..|es| - 1], es[|es| - 1];
      WorldRunStoresFit(before);
      WorldRunKeepsTrack(NEW_WORLD, before);
      WorldStepKeepsStores(WorldRun(NEW_WORLD, before), e, NeverSavesLate(NEW_WORLD, before));
      WorldStepKeepsDeadLetter(WorldRun(NEW_WORLD, before), e);
    }
  }

  /**
   However submissions overlap, if none deletes a published outcome: the stores of a payment
   that is not final agree, and those of a finalized payment agree if and only if no
   submission saved its record after the terminal one.
   */
  lemma OverlappingStoresAgreeIff(es: seq<WorldEvent>)
    requires NeverDeletesVerdict(NEW_WORLD, es)
    ensures var s := WorldRun(NEW_WORLD, es).payment;
            && (!s.idem.IsFinal() ==> Agree(s))
            && (s.idem.IsFinal() ==> (Agree(s) <==> NeverSavesLate(NEW_WORLD, es)))
            && (s.dlq.Some? ==> s.idem == Failed(s.dlq.value))
  {
    WorldRunStoresFit(es);
  }

  // ---------- how long a final record lasts ----------

  lemma WorkKeepsRecord(s: State, a: Answers)
    requires s.idem.IsFinal() && AfterVerdict(s.at)
    ensures WorkStep(s, a).store == s.store
  {
    match s.at
    case Parked => assert WorkStep(s, a) == DeliverStep(s);
    case Fetched(_) => assert WorkStep(s, a) == JobDone(s);
    case DeadFinal(_, _) => assert WorkStep(s, a) == DeadLetterStep(s);
    case CompletedFinal(_) | Leaving => assert WorkStep(s, a) == OutcomeStep(s);
    case _ => assert false;
  }

  lemma RecordStep(w: World, e: WorldEvent)
    requires ChargeSafe(w.payment) && w.payment.idem.IsFinal()
    requires Matches(w.payment.store, w.payment.idem)
    ensures WorldNext(w, e).payment.store == w.payment.store <==> !SavesLate(w, e)
  {
    if e.Base? && e.event.Work? {
      WorkKeepsRecord(w.payment, e.event.answers);
    }
  }

  /** The record stored in `w` is there after every step of the run. */
  predicate RecordStands(w: World, es: seq<WorldEvent>) {
    es == [] || (RecordStands(w, es[..|es| - 1]) && WorldRun(w, es).payment.store == w.payment.store)
  }

  /**
   The record of a finalized payment whose stores agree stands through a run that deletes no
   outcome if and only if no submission saves late in it.
   */
  lemma {:induction false} FinalRecordStandsIff(w: World, es: seq<WorldEvent>)
    requires ChargeSafe(w.payment) && w.payment.idem.IsFinal()
    requires Matches(w.payment.store, w.payment.idem)
    requires NeverDeletesVerdict(w, es)
    ensures RecordStands(w, es) <==> NeverSavesLate(w, es)
    ensures RecordStands(w, es) ==> WorldRun(w, es).payment.store == w.payment.store
  {
    if es != [] {
      var before := es[..|es| - 1];
      FinalRecordStandsIff(w, before);
      if RecordStands(w, before) {
        PublishedOutcomeStandsIff(w, before);
        DeletesNoVerdictNoOutcome(w, before);
        WorldRunKeepsChargeSafe(w, before);
        RecordStep(WorldRun(w, before), es[|es| - 1]);
      }
    }
  }

  // ---------- a late save ----------

  /** A submission obtains the lease between a terminal save and its finalize. */
  predicate ClaimsOverSave(w: World, e: WorldEvent) {
    && e.Advance? && e.id in w.submissions
    && (w.submissions[e.id].Arrived? || w.submissions[e.id].Reclaiming?)
    && w.payment.idem.Unclaimed? && TerminalSaveOpen(w.payment.at)
  }

  predicate NeverClaimsOverSave(w: World, es: seq<WorldEvent>) {
    es == [] ||
    (var n := |es| - 1;
     NeverClaimsOverSave(w, es[..n]) && !ClaimsOverSave(WorldRun(w, es[..n]), es[n]))
  }

  /** A run that neither deletes an outcome nor claims a lease over a terminal save. */
  predicate Careful(w: World, es: seq<WorldEvent>) {
    NeverDeletesVerdict(w, es) && NeverClaimsOverSave(w, es)
  }

  lemma OneMoreCareful(w: World, es: seq<WorldEvent>, e: WorldEvent)
    requires Careful(w, es)
    requires !DeletesVerdict(WorldRun(w, es), e) && !ClaimsOverSave(WorldRun(w, es), e)
    ensures WorldRun(w, es + [e]) == WorldNext(WorldRun(w, es), e)
    ensures Careful(w, es + [e])
  {
    assert (es + [e])[..|es|] == es;
  }

  lemma {:induction false} WorksAreCareful(w: World, es: seq<WorldEvent>, n: nat)
    requires Careful(w, es)
    ensures Careful(w, es + Lift(Works(n)))
  {
    if n == 0 {
      assert es + Lift(Works(0)) == es;
    } else {
      WorksAreCareful(w, es, n - 1);
      OneMoreCareful(w, es + Lift(Works(n - 1)), Base(Work(HAPPY)));
      assert es + Lift(Works(n)) == es + Lift(Works(n - 1)) + [Base(Work(HAPPY))];
    }
  }

  /** The first submission claims, and its lease expires. */
  lemma LeaseExpires() returns (es: seq<WorldEvent>)
    ensures Careful(NEW_WORLD, es) && OnlySubmissions(es, {1, 2})
    ensures WorldRun(NEW_WORLD, es) == World(INIT, map[1 := Claimed(7, 0)])
  {
    OneMoreCareful(NEW_WORLD, [], Arrive(1, 7, 0));
    es := [] + [Arrive(1, 7, 0)];
    OneMoreCareful(NEW_WORLD, es, Advance(1, true));
    es := es + [Advance(1, true)];
    OneMoreCareful(NEW_WORLD, es, Base(LeaseExpire));
    es := es + [Base(LeaseExpire)];
  }

  /** The second submission then claims, saves and queues. */
  lemma LeaseIsLost() returns (es: seq<WorldEvent>)
    ensures Careful(NEW_WORLD, es) && OnlySubmissions(es, {1, 2})
    ensures var w := WorldRun(NEW_WORLD, es);
            && 1 in w.submissions && w.submissions[1] == Claimed(7, 0)
            && w.payment.at.Parked? && w.payment.job.Waiting? && w.payment.store.Some?
            && w.payment.idem == Leased && !w.payment.lock
  {
    es := LeaseExpires();
    OneMoreCareful(NEW_WORLD, es, Arrive(2, 7, 0));
    es := es + [Arrive(2, 7, 0)];
    OneMoreCareful(NEW_WORLD, es, Advance(2, true));
    es := es + [Advance(2, true)];
    assert WorldRun(NEW_WORLD, es) == World(INIT.(idem := Leased), map[1 := Claimed(7, 0), 2 := Claimed(7, 0)]);
    OneMoreCareful(NEW_WORLD, es, Advance(2, true));
    es := es + [Advance(2, true)];
    OneMoreCareful(NEW_WORLD, es, Advance(2, true));
    es := es + [Advance(2, true)];
  }

  /**
   A late save without any lease claimed over a terminal save: the first submission claims
   and its lease expires, the second one's job is completed, and then the first one saves
   its record.  The key says completed, the money is taken, the record is queued for good.
   */
  lemma LateSaveDisagrees()
    ensures exists es :: && Careful(NEW_WORLD, es) && OnlySubmissions(es, {1, 2})
                         && WorldRun(NEW_WORLD, es).payment.idem.Completed?
                         && WorldRun(NEW_WORLD, es).payment.store == Some(CreateRecord(7, 0))
                         && !Agree(WorldRun(NEW_WORLD, es).payment)
  {
    var lost := LeaseIsLost();
    var w := WorldRun(NEW_WORLD, lost);
    HappyAttemptCompletes(w.payment);
    LiftedRun(w, Works(9));
    WorldConcat(NEW_WORLD, lost, Lift(Works(9)));
    WorksAreCareful(NEW_WORLD, lost, 9);
    var published := lost + Lift(Works(9));
    OneMoreCareful(NEW_WORLD, published, Advance(1, true));
    var es := published + [Advance(1, true)];
    assert OnlySubmissions(es, {1, 2});
  }
}
