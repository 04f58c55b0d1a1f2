/**
 When the idempotency key and the stored record tell the same story.

 A worker saves the terminal record first and finalizes the idempotency key after it.  A
 submission accepted between the two puts a fresh record in the store.  With submissions
 that are one step, the stores of a finalized payment agree exactly when none did that.
 */
module LifecycleStores {
  import opened Options
  import opened PaymentRecords
  import opened Lifecycle
  import opened LifecycleInvariant
  import opened LifecycleSafety

  /** The stored record matches the outcome `verdict`. */
  predicate Matches(store: Option<Record>, verdict: Idempotency) {
    match verdict
    case Completed(txn) =>
      && store.Some? && store.value.status == Succeeded
      && store.value.transactionId == Some(txn) && store.value.sagaState == Settled
    case Failed(reason) =>
      store.Some? && store.value.status == DeadLetter && store.value.failureReason == Some(reason)
    case _ => true
  }

  /** The outcome a worker has already saved and is about to publish. */
  function Pending(at: Position): Idempotency {
    match at
    case CompletedSaved(txn) => Completed(txn)
    case DeadSaved(reason, _) => Failed(reason)
    case _ => Unclaimed
  }

  predicate Agree(s: State) {
    && Matches(s.store, s.idem)
    && (s.dlq.Some? ==> s.idem == Failed(s.dlq.value))
  }

  /** A submission that obtains the lease while a terminal save waits for its finalize. */
  predicate Overwrites(s: State, e: Event) {
    && TerminalSaveOpen(s.at)
    && ClaimsLease(s)
    && (e.Submit? || (e.SubmitCrash? && e.saved))
  }

  predicate NeverOverwritten(es: seq<Event>) {
    es == [] ||
    (var n := |es| - 1;
     NeverOverwritten(es[..n]) && !Overwrites(Run(INIT, es[..n]), es[n]))
  }

  /** What a run knows about its stores, given whether a terminal record was overwritten. */
  predicate StoresFit(s: State, clean: bool) {
    && (!clean ==> (TerminalSaveOpen(s.at) || s.idem.IsFinal()) && s.store.Some? && s.store.value.status == Queued)
    && (clean ==> Matches(s.store, s.idem) && Matches(s.store, Pending(s.at)))
  }

  lemma SagaKeepsMatch(s: State, a: Answers)
    requires Control(s)
    requires InSaga(s.at)
    ensures StoresFit(SagaStep(s, a), true)
  {
  }

  lemma OutcomeKeepsMatch(s: State)
    requires Control(s)
    requires InOutcome(s.at)
    requires StoresFit(s, true)
    ensures StoresFit(OutcomeStep(s), true)
  {
  }

  lemma DeadLetterKeepsMatch(s: State)
    requires Control(s)
    requires InDeadLetter(s.at)
    requires StoresFit(s, true)
    ensures StoresFit(DeadLetterStep(s), true)
  {
  }

  lemma WorkKeepsMatch(s: State, a: Answers)
    requires Control(s)
    requires StoresFit(s, true)
    ensures StoresFit(WorkStep(s, a), true)
  {
    if InSaga(s.at) {
      SagaKeepsMatch(s, a);
    } else if InOutcome(s.at) {
      OutcomeKeepsMatch(s);
    } else if InDeadLetter(s.at) {
      DeadLetterKeepsMatch(s);
    }
  }

  lemma WorkKeepsMismatch(s: State, a: Answers)
    requires Control(s)
    requires StoresFit(s, false)
    ensures StoresFit(WorkStep(s, a), false)
  {
    assert s.at.Parked? || TerminalSaveOpen(s.at) || s.at.CompletedFinal? || s.at.DeadFinal? || s.at.Leaving?;
  }

  lemma EnvironmentKeepsStoresFit(s: State, e: Event, clean: bool)
    requires Control(s)
    requires StoresFit(s, clean)
    requires !e.Work?
    ensures StoresFit(Step(s, e), clean && !Overwrites(s, e))
  {
  }

  lemma StepKeepsStoresFit(s: State, e: Event, clean: bool)
    requires Control(s)
    requires StoresFit(s, clean)
    ensures StoresFit(Step(s, e), clean && !Overwrites(s, e))
  {
    if !e.Work? {
      EnvironmentKeepsStoresFit(s, e, clean);
    } else if clean {
      WorkKeepsMatch(s, e.answers);
    } else {
      WorkKeepsMismatch(s, e.answers);
    }
  }

  lemma {:induction false} RunStoresFit(es: seq<Event>)
    ensures StoresFit(Run(INIT, es), NeverOverwritten(es))
  {
    if es != [] {
      var n := |es| - 1;
      RunStoresFit(es[..n]);
      ReachableInv(es[..n]);
      StepKeepsStoresFit(Run(INIT, es[..n]), es[n], NeverOverwritten(es[..n]));
    }
  }

  /**
   In every run: the stores of a payment that is not final agree, a dead letter entry always
   names the published failure, and the stores of a finalized payment agree if and only if
   no submission was accepted between its terminal save and its finalize.
   */
  lemma StoresAgreeIffNeverOverwritten(es: seq<Event>)
    ensures var s := Run(INIT, es);
            && (!s.idem.IsFinal() ==> Agree(s))
            && (s.idem.IsFinal() ==> (Agree(s) <==> NeverOverwritten(es)))
            && (s.dlq.Some? ==> s.idem == Failed(s.dlq.value))
  {
    RunStoresFit(es);
    ReachableInv(es);
  }

  /** The lease is held at every state of the run between a terminal save and its finalize. */
  predicate LeaseCoversSaves(es: seq<Event>) {
    es == [] ||
    (var n := |es| - 1;
     LeaseCoversSaves(es[..n]) && (TerminalSaveOpen(Run(INIT, es[..n]).at) ==> Run(INIT, es[..n]).idem.Leased?))
  }

  lemma LeasedSaveStands(s: State, e: Event)
    requires Control(s)
    requires TerminalSaveOpen(s.at) ==> s.idem.Leased?
    ensures !Overwrites(s, e)
  {
    if TerminalSaveOpen(s.at) {
      assert !s.job.NoJob?;
    }
  }

  lemma {:induction false} LeasedIsNeverOverwritten(es: seq<Event>)
    requires LeaseCoversSaves(es)
    ensures NeverOverwritten(es)
  {
    if es != [] {
      LeasedIsNeverOverwritten(es[..|es| - 1]);
      ReachableInv(es[..|es| - 1]);
      LeasedSaveStands(Run(INIT, es[..|es| - 1]), es[|es| - 1]);
    }
  }

  /** A lease that lasts from the terminal save to the finalize is enough for the stores to agree. */
  lemma LeasedSavesAgree(es: seq<Event>)
    requires LeaseCoversSaves(es)
    ensures Agree(Run(INIT, es))
  {
    LeasedIsNeverOverwritten(es);
    StoresAgreeIffNeverOverwritten(es);
  }

  // ---------- a run that disagrees ----------

  const HAPPY := Answers("r", ChargeOk("t"), true, RefundErr)

  function Works(n: nat): seq<Event> {
    seq(n, _ => Work(HAPPY))
  }

  lemma RunWork(s: State, n: nat)
    requires n > 0
    ensures Run(s, Works(n)) == Run(WorkStep(s, HAPPY), Works(n - 1))
  {
    assert Works(n) == [Work(HAPPY)] + Works(n - 1);
    RunConcat(s, [Work(HAPPY)], Works(n - 1));
    assert Run(s, [Work(HAPPY)]) == WorkStep(s, HAPPY);
  }

  lemma IntakeRun(s: State)
    requires s.at.Parked? && s.job.Waiting? && s.store.Some? && !s.idem.IsFinal() && !s.lock
    ensures Run(s, Works(4)).at == Started(TransitionToProcessing(s.store.value, s.job.made))
    ensures Run(s, Works(4)).books == s.books
    ensures Run(s, Works(4)).job == Active(s.job.made, s.job.budget)
  {
    var s1 := WorkStep(s, HAPPY);
    var s2 := WorkStep(s1, HAPPY);
    var s3 := WorkStep(s2, HAPPY);
    RunWork(s, 4);
    RunWork(s1, 3);
    RunWork(s2, 2);
    RunWork(s3, 1);
    assert s3.at == Locked(s.store.value) && s3.job == Active(s.job.made, s.job.budget) && s3.books == s.books;
  }

  /** The saga's three happy steps, as steps. */
  lemma HappySaga(s: State)
    requires s.at.Started?
    ensures var s' := SagaStep(s, HAPPY);
            s'.at == FundsReserved(s.at.record.(sagaState := Reserved), "r") && s'.job == s.job && s'.books == s.books
  {
  }

  lemma HappyCharge(s: State)
    requires s.at.FundsReserved?
    ensures var s' := SagaStep(s, HAPPY);
            && s'.at.ChargeDone? && s'.at.transactionId == "t" && s'.job == s.job
            && s'.books.charges == s.books.charges + [Charge("t", s.at.record.amount)]
  {
  }

  lemma SettleRun(s: State)
    requires s.at.Started?
    ensures var s' := Run(s, Works(3));
            && s'.at.SettleDone? && s'.at.transactionId == "t" && s'.job == s.job
            && s'.books.charges == s.books.charges + [Charge("t", s.at.record.amount)]
  {
    HappySaga(s);
    var s1 := WorkStep(s, HAPPY);
    HappyCharge(s1);
    var s2 := WorkStep(s1, HAPPY);
    RunWork(s, 3);
    RunWork(s1, 2);
    RunWork(s2, 1);
  }

  lemma SagaRun(s: State)
    requires s.at.Started?
    ensures Run(s, Works(4)).at == CompletedSaved("t")
    ensures Run(s, Works(4)).job == s.job
    ensures Run(s, Works(4)).books.charges == s.books.charges + [Charge("t", s.at.record.amount)]
  {
    SettleRun(s);
    RunConcat(s, Works(3), Works(1));
    assert Works(4) == Works(3) + Works(1);
    RunWork(Run(s, Works(3)), 1);
  }

  /** No lease of the run expires between a terminal save and its finalize. */
  predicate NoExpiryOverSaves(es: seq<Event>) {
    forall i :: 0 <= i < |es| && es[i].LeaseExpire? ==> !TerminalSaveOpen(Run(INIT, es[..i]).at)
  }

  const OVERWRITE := [LeaseExpire, Work(HAPPY), Submit(7, 0, true), Work(HAPPY)]

  /** A payment is submitted, and its worker gets as far as the settlement. */
  lemma SettledRun() returns (es: seq<Event>)
    ensures Inv(Run(INIT, es)) && Run(INIT, es).at.SettleDone?
    ensures forall i :: 0 <= i < |es| ==> !es[i].LeaseExpire?
  {
    var first := [Submit(7, 0, true)];
    var s := Run(INIT, first);
    assert s == SubmitStep(INIT, 7, 0, true);
    IntakeRun(s);
    SettleRun(Run(s, Works(4)));
    RunConcat(INIT, first, Works(4));
    RunConcat(INIT, first + Works(4), Works(3));
    es := first + Works(4) + Works(3);
    ReachableInv(es);
  }

  lemma ExpiredSave(s: State)
    requires Inv(s)
    requires s.at.SettleDone?
    ensures var s' := WorkStep(Step(s, LeaseExpire), HAPPY);
            s'.at.CompletedSaved? && s'.idem.Unclaimed?
  {
  }

  lemma OverwrittenSave(s: State)
    requires s.at.CompletedSaved? && s.idem.Unclaimed?
    ensures var s' := WorkStep(Step(s, Submit(7, 0, true)), HAPPY);
            s'.idem.Completed? && s'.store == Some(CreateRecord(7, 0))
  {
  }

  lemma OverwritingEnd(s: State)
    requires Inv(s)
    requires s.at.SettleDone?
    ensures var end := Run(s, OVERWRITE);
            end.idem.Completed? && end.store == Some(CreateRecord(7, 0))
  {
    var es := OVERWRITE;
    assert es[..3][..2] == es[..2] && es[..2][..1] == es[..1] && es[..1][..0] == [];
    ExpiredSave(s);
    OverwrittenSave(WorkStep(Step(s, LeaseExpire), HAPPY));
    assert Run(s, es[..1]) == Step(s, LeaseExpire);
    assert Run(s, es[..2]) == WorkStep(Step(s, LeaseExpire), HAPPY);
    assert Run(s, es[..3]) == Step(Run(s, es[..2]), Submit(7, 0, true));
  }

  /**
   The overwriting run exists, even if no lease expires between a terminal save and its
   finalize: a lease that runs out just before the save is as bad.  The payment is submitted
   again before its worker publishes the outcome, and ends with the idempotency key
   completed, the money taken, and the stored record queued for good.
   */
  lemma StoresCanDisagree()
    ensures exists es :: && NoExpiryOverSaves(es)
                         && Run(INIT, es).idem.Completed? && Run(INIT, es).store == Some(CreateRecord(7, 0))
                         && !Agree(Run(INIT, es))
  {
    var settled := SettledRun();
    var es := settled + OVERWRITE;
    RunConcat(INIT, settled, OVERWRITE);
    OverwritingEnd(Run(INIT, settled));
    assert es[..|settled|] == settled;
    assert forall i :: 0 <= i < |es| && es[i].LeaseExpire? ==> i == |settled|;
  }
}
