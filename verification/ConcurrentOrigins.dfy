/**
 Where amounts and retry limits come from when submissions overlap: from submissions that
 arrived, whatever became of them since.
 */
module ConcurrentOrigins {
  import opened Options
  import opened PaymentRecords
  import opened Lifecycle
  import opened LifecycleInvariant
  import opened LifecycleOrigins
  import opened LifecycleProgress
  import opened ConcurrentSubmission

  function ArrivalsOf(e: WorldEvent): set<Request> {
    if e.Arrive? then {Request(e.amount, e.maxRetries)} else {}
  }

  /** What the submissions that arrived in a run asked for. */
  function Arrivals(es: seq<WorldEvent>): set<Request> {
    if es == [] then {} else Arrivals(es[..|es| - 1]) + ArrivalsOf(es[|es| - 1])
  }

  predicate LimitAsked(q: set<Request>, maxRetries: nat) {
    exists x :: x in q && x.maxRetries == maxRetries
  }

  /** A submission still has in hand what it asked for when it arrived. */
  predicate InHand(q: set<Request>, sub: Submission) {
    match sub
    case Saved(maxRetries) => LimitAsked(q, maxRetries)
    case Dropping | Answered => true
    case _ => Request(sub.amount, sub.maxRetries) in q
  }

  predicate AllInHand(q: set<Request>, submissions: map<nat, Submission>) {
    forall id :: id in submissions ==> InHand(q, submissions[id])
  }

  predicate BudgetAsked(q: set<Request>, job: Job) {
    job.NoJob? || (job.budget >= 1 && LimitAsked(q, job.budget - 1))
  }

  predicate FromArrivals(w: World, q: set<Request>) {
    FromRequests(w.payment, q) && BudgetAsked(q, w.payment.job) && AllInHand(q, w.submissions)
  }

  lemma MoreArrivals(w: World, q: set<Request>, more: set<Request>)
    requires FromArrivals(w, q)
    ensures FromArrivals(w, q + more)
  {
    MoreRequests(w.payment, q, more);
    forall m | LimitAsked(q, m)
      ensures LimitAsked(q + more, m)
    {
      var x :| x in q && x.maxRetries == m;
      assert x in q + more;
    }
  }

  lemma SubmittingFromArrivals(s: State, sub: Submission, queued: bool, q: set<Request>)
    requires FromRequests(s, q) && BudgetAsked(q, s.job) && InHand(q, sub)
    ensures var (s', sub') := Submitting(s, sub, queued);
            FromRequests(s', q) && BudgetAsked(q, s'.job) && InHand(q, sub')
  {
    if sub.Claimed? {
      assert Request(sub.amount, sub.maxRetries) in q;
    }
    assert Submitting(s, sub, queued).0.books == s.books && Submitting(s, sub, queued).0.at == s.at;
  }

  lemma BudgetStays(s: State, a: Answers)
    ensures WorkStep(s, a).job.NoJob? <==> s.job.NoJob?
    ensures !s.job.NoJob? ==> WorkStep(s, a).job.budget == s.job.budget
  {
    if InSaga(s.at) {
      SagaRankDecreases(s, a);
    } else if InDeadLetter(s.at) {
      DeadLetterRankDecreases(s);
    }
  }

  lemma WorldStepFromArrivals(w: World, e: WorldEvent, q: set<Request>)
    requires FromArrivals(w, q)
    ensures FromArrivals(WorldNext(w, e), q + ArrivalsOf(e))
  {
    MoreArrivals(w, q, ArrivalsOf(e));
    match e
    case Base(event) =>
      if event.Work? {
        WorkFromRequests(w.payment, event.answers, q + ArrivalsOf(e));
        BudgetStays(w.payment, event.answers);
      }
    case Arrive(_, _, _) =>
    case Advance(id, queued) =>
      if id in w.submissions {
        SubmittingFromArrivals(w.payment, w.submissions[id], queued, q + ArrivalsOf(e));
      }
  }

  lemma {:induction false} WorldRunFromArrivals(es: seq<WorldEvent>)
    ensures FromArrivals(WorldRun(NEW_WORLD, es), Arrivals(es))
  {
    if es != [] {
      WorldRunFromArrivals(es[..|es| - 1]);
      WorldStepFromArrivals(WorldRun(NEW_WORLD, es[..|es| - 1]), es[|es| - 1], Arrivals(es[..|es| - 1]));
    }
  }

  /**
   However submissions overlap, each charge and each settlement is for an amount that a
   submission arrived with, the stored record has the amount and the retry limit of one of
   them, and the job has the attempts that one of them asked for.
   */
  lemma ChargedAsArrived(es: seq<WorldEvent>)
    ensures var s := WorldRun(NEW_WORLD, es).payment;
            && AllAsked(Arrivals(es), s.books.charges) && AllAsked(Arrivals(es), s.books.ledger)
            && (s.store.Some? ==> IsRequested(Arrivals(es), s.store.value))
            && (!s.job.NoJob? ==> exists x :: x in Arrivals(es) && s.job.budget == x.maxRetries + 1)
  {
    WorldRunFromArrivals(es);
  }
}
