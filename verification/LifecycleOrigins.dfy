/**
 Where amounts, retry limits and failure codes come from.  Whatever a run charges, settles or
 stores is what one of its submissions asked for, and whatever failure a verdict names is one
 that the gateway or the ledger gave.
 */
module LifecycleOrigins {
  import opened Errors
  import opened Options
  import opened PaymentRecords
  import opened Lifecycle
  import opened LifecycleInvariant
  import opened LifecycleSafety

  // ---------- amounts and retry limits ----------

  datatype Request = Request(amount: nat, maxRetries: nat)

  function RequestsOf(e: Event): set<Request> {
    if e.Submit? || e.SubmitCrash? then {Request(e.amount, e.maxRetries)} else {}
  }

  /** What the submissions of a run asked for. */
  function Requests(es: seq<Event>): set<Request> {
    if es == [] then {} else Requests(es[..|es| - 1]) + RequestsOf(es[|es| - 1])
  }

  predicate Asked(q: set<Request>, amount: nat) {
    exists x :: x in q && x.amount == amount
  }

  predicate AllAsked(q: set<Request>, charges: seq<Charge>) {
    forall i :: 0 <= i < |charges| ==> Asked(q, charges[i].amount)
  }

  /** Amount and retry limit of the record are those of one and the same request. */
  predicate IsRequested(q: set<Request>, r: Record) {
    Request(r.amount, r.maxRetries) in q
  }

  predicate FromRequests(s: State, q: set<Request>) {
    && (s.store.Some? ==> IsRequested(q, s.store.value))
    && (HasRecord(s.at) ==> IsRequested(q, s.at.record))
    && AllAsked(q, s.books.charges) && AllAsked(q, s.books.ledger)
  }

  lemma MoreRequests(s: State, q: set<Request>, more: set<Request>)
    requires FromRequests(s, q)
    ensures FromRequests(s, q + more)
  {
    forall amount | Asked(q, amount)
      ensures Asked(q + more, amount)
    {
      var x :| x in q && x.amount == amount;
      assert x in q + more;
    }
  }

  lemma OneMoreAsked(q: set<Request>, charges: seq<Charge>, c: Charge, r: Record)
    requires AllAsked(q, charges) && IsRequested(q, r) && c.amount == r.amount
    ensures AllAsked(q, charges + [c])
  {
    assert Request(r.amount, r.maxRetries) in q;
  }

  lemma SagaFromRequests(s: State, a: Answers, q: set<Request>)
    requires FromRequests(s, q) && InSaga(s.at)
    ensures FromRequests(SagaStep(s, a), q)
  {
    match s.at
    case FundsReserved(r, _) =>
      if a.charge.ChargeOk? {
        OneMoreAsked(q, s.books.charges, Charge(a.charge.transactionId, r.amount), r);
      }
    case ChargeDone(r, _, txn) =>
      if a.settled {
        OneMoreAsked(q, s.books.ledger, Charge(txn, r.amount), r);
      }
    case Started(_) | ChargeFailed(_, _) | RefundTried(_) => assert SagaStep(s, a).books == s.books;
    case SettleFailing(_, _) =>
      assert SagaStep(s, a).books.charges == s.books.charges && SagaStep(s, a).books.ledger == s.books.ledger;
  }

  lemma OutcomeFromRequests(s: State, q: set<Request>)
    requires FromRequests(s, q) && InOutcome(s.at)
    ensures FromRequests(OutcomeStep(s), q)
  {
    assert OutcomeStep(s).books == s.books;
  }

  lemma DeadLetterFromRequests(s: State, q: set<Request>)
    requires FromRequests(s, q) && InDeadLetter(s.at)
    ensures FromRequests(DeadLetterStep(s), q)
  {
    assert DeadLetterStep(s).books == s.books;
  }

  lemma WorkFromRequests(s: State, a: Answers, q: set<Request>)
    requires FromRequests(s, q)
    ensures FromRequests(WorkStep(s, a), q)
  {
    if InSaga(s.at) {
      SagaFromRequests(s, a, q);
    } else if InOutcome(s.at) {
      OutcomeFromRequests(s, q);
    } else if InDeadLetter(s.at) {
      DeadLetterFromRequests(s, q);
    } else {
      assert WorkStep(s, a).books == s.books;
    }
  }

  lemma StepFromRequests(s: State, e: Event, q: set<Request>)
    requires FromRequests(s, q)
    ensures FromRequests(Step(s, e), q + RequestsOf(e))
  {
    MoreRequests(s, q, RequestsOf(e));
    if e.Work? {
      WorkFromRequests(s, e.answers, q + RequestsOf(e));
    } else {
      assert Step(s, e).books == s.books && Step(s, e).at == s.at;
    }
  }

  lemma {:induction false} RunFromRequests(es: seq<Event>)
    ensures FromRequests(Run(INIT, es), Requests(es))
  {
    if es != [] {
      RunFromRequests(es[..|es| - 1]);
      StepFromRequests(Run(INIT, es[..|es| - 1]), es[|es| - 1], Requests(es[..|es| - 1]));
    }
  }

  /**
   In every run each charge and each settlement is for an amount that a submission of the run
   asked for, and the stored record has the amount and the retry limit of one submission.
   */
  lemma ChargedAsRequested(es: seq<Event>)
    ensures var s := Run(INIT, es);
            && AllAsked(Requests(es), s.books.charges) && AllAsked(Requests(es), s.books.ledger)
            && (s.store.Some? ==> IsRequested(Requests(es), s.store.value))
  {
    RunFromRequests(es);
  }

  /** A run that only ever asks for one thing charges, settles and stores exactly that. */
  lemma OneRequestIsCharged(es: seq<Event>, amount: nat, maxRetries: nat)
    requires Requests(es) == {Request(amount, maxRetries)}
    ensures var s := Run(INIT, es);
            && (forall i :: 0 <= i < |s.books.charges| ==> s.books.charges[i].amount == amount)
            && (forall i :: 0 <= i < |s.books.ledger| ==> s.books.ledger[i].amount == amount)
            && (s.store.Some? ==> s.store.value.amount == amount && s.store.value.maxRetries == maxRetries)
  {
    RunFromRequests(es);
    forall x | Asked(Requests(es), x)
      ensures x == amount
    {
      var y :| y in Requests(es) && y.amount == x;
    }
  }

  // ---------- failure codes ----------

  /** The failures a step is given: by the gateway for the charge, by the ledger for the settlement. */
  function RefusalsOf(s: State, e: Event): set<ErrorCode> {
    if e.Work? && s.at.FundsReserved? && e.answers.charge.ChargeErr? then {e.answers.charge.code}
    else if e.Work? && s.at.ChargeDone? && !e.answers.settled then {SettleFailed}
    else {}
  }

  function Refusals(es: seq<Event>): set<ErrorCode> {
    if es == [] then {}
    else Refusals(es[..|es| - 1]) + RefusalsOf(Run(INIT, es[..|es| - 1]), es[|es| - 1])
  }

  /** The failure that a position carries towards a retry or a verdict. */
  function CarriedBy(at: Position): set<ErrorCode> {
    match at
    case ChargeFailed(_, code) => {code}
    case SettleFailing(_, _) | RefundTried(_) => {SettleFailed}
    case RetryPending(_, code) => {code}
    case Throwing(code) => {code}
    case Failing(code) => {code}
    case HandlerDue(code) => {code}
    case DeadLettering(_, reason, _) => {reason.code}
    case DeadSaved(reason, _) => {reason.code}
    case DeadFinal(reason, _) => {reason.code}
    case _ => {}
  }

  predicate Blamed(s: State, codes: set<ErrorCode>) {
    && CarriedBy(s.at) <= codes
    && (s.idem.Failed? ==> s.idem.reason.code in codes)
  }

  lemma SagaBlames(s: State, e: Event, codes: set<ErrorCode>)
    requires Blamed(s, codes) && e.Work? && InSaga(s.at)
    ensures Blamed(SagaStep(s, e.answers), codes + RefusalsOf(s, e))
  {
    match s.at
    case ChargeFailed(r, code) => assert SagaStep(s, e.answers) == ReleaseStep(s, r, code);
    case RefundTried(r) =>
      assert SagaStep(s, e.answers) == ReleaseStep(s, r.(sagaState := Compensated), SettleFailed);
    case _ =>
  }

  lemma OtherWorkBlames(s: State, a: Answers, codes: set<ErrorCode>)
    requires Control(s)
    requires Blamed(s, codes) && !InSaga(s.at)
    ensures Blamed(WorkStep(s, a), codes)
  {
    if s.at.Parked? {
      assert WorkStep(s, a) == DeliverStep(s) && CarriedBy(DeliverStep(s).at) == {};
    } else if InDeadLetter(s.at) {
      assert WorkStep(s, a) == DeadLetterStep(s);
    } else if InOutcome(s.at) {
      assert WorkStep(s, a) == OutcomeStep(s);
    }
  }

  lemma StepBlames(s: State, e: Event, codes: set<ErrorCode>)
    requires Control(s) && Blamed(s, codes)
    ensures Blamed(Step(s, e), codes + RefusalsOf(s, e))
  {
    if e.Work? {
      if InSaga(s.at) {
        SagaBlames(s, e, codes);
      } else {
        OtherWorkBlames(s, e.answers, codes);
      }
    } else {
      assert Step(s, e).at == s.at;
    }
  }

  lemma {:induction false} RunBlames(es: seq<Event>)
    ensures Blamed(Run(INIT, es), Refusals(es))
  {
    if es != [] {
      RunBlames(es[..|es| - 1]);
      ReachableInv(es[..|es| - 1]);
      StepBlames(Run(INIT, es[..|es| - 1]), es[|es| - 1], Refusals(es[..|es| - 1]));
    }
  }

  lemma ReasonIsSorted(s: State)
    requires Control(s) && s.idem.Failed?
    ensures s.idem.reason.Permanent? ==> CannotBeMended(s.idem.reason.code)
    ensures s.idem.reason.RetriesExhausted? ==> MayPass(s.idem.reason.code)
  {
    EveryCodeIsSorted(s.idem.reason.code);
  }

  /**
   A published failure names a failure that the run was given.  It is published at once only
   for the seven codes that no retry can mend, and after exhausted retries only for the seven
   others.
   */
  lemma FailureIsBlamed(es: seq<Event>)
    ensures var s := Run(INIT, es);
            s.idem.Failed? ==>
              && s.idem.reason.code in Refusals(es)
              && (s.idem.reason.Permanent? ==> CannotBeMended(s.idem.reason.code))
              && (s.idem.reason.RetriesExhausted? ==> MayPass(s.idem.reason.code))
  {
    RunBlames(es);
    ReachableInv(es);
    if Run(INIT, es).idem.Failed? {
      ReasonIsSorted(Run(INIT, es));
    }
  }
}
