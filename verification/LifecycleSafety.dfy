/**
 Safety of the payment lifecycle, for every run of submissions, crashed submissions,
 lease and lock expiries and worker steps, with arbitrary gateway and ledger answers.
 */
module LifecycleSafety {
  import opened PaymentRecords
  import opened Lifecycle
  import opened LifecycleInvariant

  lemma ReachableInv(es: seq<Event>)
    ensures Inv(Run(INIT, es))
  {
    InitInv();
    RunKeepsInv(INIT, es);
  }

  lemma {:induction false} RunConcat(s: State, es: seq<Event>, more: seq<Event>)
    ensures Run(s, es + more) == Run(Run(s, es), more)
  {
    if more == [] {
      assert es + more == es;
    } else {
      var n := |more| - 1;
      assert (es + more)[..|es + more| - 1] == es + more[..n];
      RunConcat(s, es, more[..n]);
    }
  }

  // ---------- charges ----------

  /** Positions behind the gateway call of the current attempt. */
  predicate PastCharge(at: Position) {
    match at
    case ChargeDone(_, _, _) | SettleFailing(_, _) | RefundTried(_) => true
    case SettleDone(_, _, _) | CompletedSaved(_) | CompletedFinal(_) => true
    case DeadLettering(_, _, handler) => !handler
    case DeadSaved(_, handler) => !handler
    case DeadFinal(_, handler) => !handler
    case Leaving => true
    case _ => false
  }

  /**
   A payment is charged at most once, however often it is submitted, retried or loses its
   lease; and once it is charged, no worker is about to charge it again.
   */
  lemma AtMostOneCharge(es: seq<Event>)
    ensures |Run(INIT, es).books.charges| <= 1
    ensures Run(INIT, es).books.charges != [] ==> PastCharge(Run(INIT, es).at) || Run(INIT, es).idem.IsFinal()
  {
    ReachableInv(es);
  }

  // ---------- conservation ----------

  function ChargeIds(cs: seq<Charge>): seq<string> {
    seq(|cs|, i requires 0 <= i < |cs| => cs[i].transactionId)
  }

  function RefundIds(rs: seq<Refund>): seq<string> {
    seq(|rs|, i requires 0 <= i < |rs| => rs[i].transactionId)
  }

  /**
   Every charge is settled, refunded or reported, exactly one of the three, and every
   settlement is a charge for the same amount.
   */
  predicate Conserved(b: Books) {
    && multiset(ChargeIds(b.charges))
       == multiset(ChargeIds(b.ledger)) + multiset(RefundIds(b.refunds)) + multiset(b.alerts)
    && forall i :: 0 <= i < |b.ledger| ==> b.ledger[i] in b.charges
  }

  predicate SettledOrUndone(b: Books) {
    NothingKept(b) || (|b.charges| == 1 && SettledCharge(b, b.charges[0].transactionId))
  }

  lemma BalancedBooksConserve(b: Books)
    requires SettledOrUndone(b)
    ensures Conserved(b)
  {
    if NeverCharged(b) {
      assert ChargeIds(b.charges) == [] && RefundIds(b.refunds) == [];
    } else {
      var txn := b.charges[0].transactionId;
      assert ChargeIds(b.charges) == [txn];
      if b.ledger == b.charges {
        assert RefundIds(b.refunds) == [];
      } else {
        assert ChargeIds(b.ledger) == [];
        assert RefundIds(b.refunds) == if b.alerts == [] then [txn] else [];
      }
    }
  }

  /** The only positions at which a charge is neither settled, refunded nor reported. */
  predicate ChargeUndecided(at: Position) {
    at.ChargeDone? || at.SettleFailing?
  }

  lemma DecidedChargesBalance(s: State)
    requires Inv(s)
    ensures if ChargeUndecided(s.at) then |s.books.charges| == 1 && s.books == Books(s.books.charges, [], [], [])
            else SettledOrUndone(s.books)
  {
  }

  /**
   Money is conserved: no charge is left unsettled, unrefunded and unreported, except
   between the gateway's answer and the end of its own attempt.
   */
  lemma MoneyConserved(es: seq<Event>)
    ensures var s := Run(INIT, es);
            if ChargeUndecided(s.at) then |s.books.charges| == 1 && s.books == Books(s.books.charges, [], [], [])
            else Conserved(s.books)
  {
    ReachableInv(es);
    DecidedChargesBalance(Run(INIT, es));
    if !ChargeUndecided(Run(INIT, es).at) {
      BalancedBooksConserve(Run(INIT, es).books);
    }
  }

  /** A stored record that claims to be compensated shows the refund, or the alert that replaced it. */
  lemma CompensationIsAccounted(es: seq<Event>)
    ensures var s := Run(INIT, es);
            s.store.Some? && s.store.value.sagaState.Compensated? ==>
              && s.store.value.transactionId.Some?
              && s.books.ledger == []
              && (|| s.books.alerts == [s.store.value.transactionId.value]
                  || (&& s.store.value.refundId.Some?
                      && s.books.refunds == [Refund(s.store.value.transactionId.value, s.store.value.refundId.value)]))
  {
    ReachableInv(es);
  }

  /**
   Reservations balance: between attempts every reservation has been settled or released;
   inside an attempt at most one is open, and exactly while the saga holds it.
   */
  lemma ReservationsBalance(es: seq<Event>)
    ensures var s := Run(INIT, es);
            var m := multiset(s.audit);
            && m[SagaReserve] == m[SagaSettle] + m[ReleaseFunds] + Held(s.at)
            && (s.at.Parked? ==> m[SagaReserve] == m[SagaSettle] + m[ReleaseFunds])
            && Held(s.at) <= 1
  {
    ReachableInv(es);
  }

  /** The audit log counts what the books hold, and every attempt reserves once. */
  lemma AuditTellsTheBooks(es: seq<Event>)
    ensures var s := Run(INIT, es);
            var m := multiset(s.audit);
            && m[SagaCharge] == |s.books.charges|
            && m[SagaSettle] == |s.books.ledger|
            && m[RefundDone] == |s.books.refunds|
            && m[RefundRefused] == |s.books.alerts|
            && (!s.at.Started? ==> m[Processing] == m[SagaReserve])
            && m[PaymentCompleted] + m[DeadLettered] <= 1
            && (s.at.Parked? ==>
                  (m[PaymentCompleted] == 1 <==> s.idem.Completed?) && (m[DeadLettered] == 1 <==> s.idem.Failed?))
  {
    ReachableInv(es);
  }

  // ---------- the worker is never turned away ----------

  /**
   Under one delivery at a time the lock is free at the start of every attempt, the record
   is stored before its job is delivered, and a delivered payment is still open: none of
   the three early exits of an attempt is ever taken.
   */
  lemma DeliveryIsNeverSkipped(es: seq<Event>, a: Answers)
    ensures var s := Run(INIT, es);
            var s' := WorkStep(s, a);
            && (s.at.Parked? || InIntake(s.at) ==> s.lock ==> s.at.Locked?)
            && (s.at.Parked? && s.job.Waiting? ==> s'.at.Fetched?)
            && (s.at.Fetched? ==> s'.at.Checked?)
            && (s.at.Checked? ==> s'.at.Locked? && s'.lock && s'.idem.Leased?)
  {
    ReachableInv(es);
  }

  // ---------- final states ----------

  lemma FinalStepKeeps(s: State, e: Event)
    requires Inv(s)
    requires s.idem.IsFinal()
    ensures Step(s, e).idem == s.idem
    ensures Step(s, e).books == s.books
    ensures Step(s, e).store == s.store
  {
  }

  lemma {:induction false} FinalRunKeeps(s: State, more: seq<Event>)
    requires Inv(s)
    requires s.idem.IsFinal()
    ensures Run(s, more).idem == s.idem
    ensures Run(s, more).books == s.books
    ensures Run(s, more).store == s.store
  {
    if more != [] {
      var n := |more| - 1;
      FinalRunKeeps(s, more[..n]);
      RunKeepsInv(s, more[..n]);
      FinalStepKeeps(Run(s, more[..n]), more[n]);
    }
  }

  /**
   A finalized payment keeps its outcome, its money and its record in every continuation, as
   long as a submission is one step.
   */
  lemma FinalForever(es: seq<Event>, more: seq<Event>)
    requires Run(INIT, es).idem.IsFinal()
    ensures Run(INIT, es + more).idem == Run(INIT, es).idem
    ensures Run(INIT, es + more).books == Run(INIT, es).books
    ensures Run(INIT, es + more).store == Run(INIT, es).store
  {
    ReachableInv(es);
    RunConcat(INIT, es, more);
    FinalRunKeeps(Run(INIT, es), more);
  }
}
