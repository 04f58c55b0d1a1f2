/**
 The circuit breaker of one gateway.

 The reference is a breaker that never forgets: it keeps every outcome sampled since it was
 last closed or reset and filters them by age whenever it decides.  The class keeps the
 pruned queue of the code and is proved to decide the same.
 */
module CircuitBreaker {
  import opened Counting
  import opened SlidingWindow

  datatype Mode = CLOSED | OPEN | HALF_OPEN

  datatype Params = Params(windowMs: int, failureThreshold: real, minSamples: int, cooldownMs: int)

  // ---------- the reference ----------

  datatype Breaker = Breaker(
    mode: Mode,
    history: seq<Stamped<bool>>,
    openedAt: int,
    probeInFlight: bool,
    tripCount: nat
  )

  const FRESH := Breaker(CLOSED, [], 0, false, 0)

  function Failures(samples: seq<Stamped<bool>>): nat {
    if samples == [] then 0
    else Failures(samples[..|samples| - 1]) + if samples[|samples| - 1].value then 0 else 1
  }

  function FailureRate(samples: seq<Stamped<bool>>): real {
    if samples == [] then 0.0 else Failures(samples) as real / |samples| as real
  }

  /** Enough samples, and too many of them are failures. */
  predicate Degraded(p: Params, samples: seq<Stamped<bool>>) {
    |samples| >= p.minSamples && FailureRate(samples) >= p.failureThreshold
  }

  /** The outcomes that are young enough show a degraded gateway. */
  predicate Trips(p: Params, history: seq<Stamped<bool>>, now: int) {
    Degraded(p, Aged(history, now - p.windowMs))
  }

  predicate Admits(p: Params, b: Breaker, now: int) {
    match b.mode
    case CLOSED => true
    case OPEN => now - b.openedAt >= p.cooldownMs
    case HALF_OPEN => !b.probeInFlight
  }

  function Allow(p: Params, b: Breaker, now: int): Breaker {
    if b.mode.CLOSED? || !Admits(p, b, now) then b else b.(mode := HALF_OPEN, probeInFlight := true)
  }

  function Opened(b: Breaker, now: int): Breaker {
    b.(mode := OPEN, openedAt := now, tripCount := b.tripCount + 1)
  }

  function Record(p: Params, b: Breaker, now: int, ok: bool): Breaker {
    match b.mode
    case HALF_OPEN =>
      var b := b.(probeInFlight := false);
      if ok then b.(mode := CLOSED, history := []) else Opened(b, now)
    case OPEN => b
    case CLOSED =>
      var b := b.(history := b.history + [Stamped(now, ok)]);
      if Trips(p, b.history, now) then Opened(b, now) else b
  }

  /** What recording does to the history, whether or not it trips the breaker. */
  lemma RecordedHistory(p: Params, b: Breaker, now: int, ok: bool)
    ensures Record(p, b, now, ok).history
            == if b.mode.CLOSED? then b.history + [Stamped(now, ok)]
               else if b.mode.HALF_OPEN? && ok then []
               else b.history
  {
  }

  // ---------- what is counted ----------

  /** Where the failed ones among the young outcomes stand. */
  ghost function YoungFailedAt(h: seq<Stamped<bool>>, cutoff: int): set<int> {
    set i | 0 <= i < |h| && h[i].t >= cutoff && !h[i].value
  }

  predicate TripsAt(p: Params, samples: nat, failures: nat) {
    && samples >= p.minSamples
    && if samples == 0 then 0.0 >= p.failureThreshold else failures as real >= p.failureThreshold * samples as real
  }

  /** Counting shows enough young outcomes, and the threshold's share of them or more has failed. */
  ghost predicate TooManyFail(p: Params, h: seq<Stamped<bool>>, now: int) {
    TripsAt(p, |YoungAt(h, now - p.windowMs)|, |YoungFailedAt(h, now - p.windowMs)|)
  }

  lemma {:induction false} FailuresAreCounted(h: seq<Stamped<bool>>)
    ensures Failures(h) == |set i | 0 <= i < |h| && !h[i].value|
  {
    var failed := (s: Stamped<bool>) => !s.value;
    assert (set i | 0 <= i < |h| && !h[i].value) == Positions(h, failed);
    if h == [] {
      CountNone(h, failed);
    } else {
      var before := h[..|h| - 1];
      FailuresAreCounted(before);
      assert (set i | 0 <= i < |before| && !before[i].value) == Positions(before, failed);
      CountLast(h, failed);
    }
  }

  lemma FailuresOneMore(h: seq<Stamped<bool>>, s: Stamped<bool>)
    ensures Failures(h + [s]) == Failures(h) + if s.value then 0 else 1
  {
    assert (h + [s])[..|h|] == h;
  }

  lemma {:induction false} YoungFailuresAreCounted(h: seq<Stamped<bool>>, cutoff: int)
    ensures Failures(Aged(h, cutoff)) == |YoungFailedAt(h, cutoff)|
  {
    var failed := (s: Stamped<bool>) => s.t >= cutoff && !s.value;
    assert YoungFailedAt(h, cutoff) == Positions(h, failed);
    if h == [] {
      CountNone(h, failed);
    } else {
      var before, last := h[..|h| - 1], h[|h| - 1];
      YoungFailuresAreCounted(before, cutoff);
      assert YoungFailedAt(before, cutoff) == Positions(before, failed);
      CountLast(h, failed);
      if last.t >= cutoff {
        FailuresOneMore(Aged(before, cutoff), last);
      } else {
        assert Aged(h, cutoff) == Aged(before, cutoff);
      }
    }
  }

  lemma RateIsShare(samples: seq<Stamped<bool>>)
    ensures IsShare(FailureRate(samples), Failures(samples), |samples|)
  {
    if samples != [] {
      QuotientTimes(Failures(samples) as real, |samples| as real);
    }
  }

  /** A share is at least another one exactly if the part is. */
  lemma ShareAtLeast(rate: real, part: nat, whole: nat, share: real)
    requires whole > 0 && IsShare(rate, part, whole)
    ensures rate >= share <==> part as real >= share * whole as real
  {
    var n := whole as real;
    if rate >= share {
      assert (rate - share) * n >= 0.0;
    } else {
      assert (share - rate) * n > 0.0;
    }
  }

  lemma DegradedByCounting(p: Params, samples: seq<Stamped<bool>>)
    ensures Degraded(p, samples) <==> TripsAt(p, |samples|, Failures(samples))
  {
    RateIsShare(samples);
    if |samples| > 0 {
      ShareAtLeast(FailureRate(samples), Failures(samples), |samples|, p.failureThreshold);
    }
  }

  lemma TripsByCounting(p: Params, h: seq<Stamped<bool>>, now: int)
    ensures Trips(p, h, now) <==> TooManyFail(p, h, now)
  {
    YoungAreCounted(h, now - p.windowMs);
    YoungFailuresAreCounted(h, now - p.windowMs);
    DegradedByCounting(p, Aged(h, now - p.windowMs));
  }

  /**
   The trip rule.  An outcome recorded in CLOSED opens the breaker if and only if, with it,
   there are enough young outcomes and the threshold's share of them or more has failed; the
   trip is counted and timed, and nothing else changes.
   */
  lemma TripRule(p: Params, b: Breaker, now: int, ok: bool)
    requires b.mode.CLOSED?
    ensures var h := b.history + [Stamped(now, ok)];
            var b' := Record(p, b, now, ok);
            && b'.history == h && b'.probeInFlight == b.probeInFlight
            && (TooManyFail(p, h, now) ==> b'.mode == OPEN && b'.openedAt == now && b'.tripCount == b.tripCount + 1)
            && (!TooManyFail(p, h, now) ==> b'.mode == CLOSED && b'.openedAt == b.openedAt && b'.tripCount == b.tripCount)
  {
    TripsByCounting(p, b.history + [Stamped(now, ok)], now);
  }

  // ---------- the code ----------

  datatype Snapshot = Snapshot(mode: Mode, samples: nat, failures: nat, failureRate: real, tripCount: nat)

  /** What a look shows: the mode, and the statistics of the outcomes that are young enough. */
  function SnapshotOf(p: Params, b: Breaker, now: int): Snapshot {
    var young := Aged(b.history, now - p.windowMs);
    Snapshot(b.mode, |young|, Failures(young), FailureRate(young), b.tripCount)
  }

  lemma SnapshotOfWindow(p: Params, b: Breaker, window: seq<Stamped<bool>>, now: int)
    requires window == Aged(b.history, now - p.windowMs)
    ensures Snapshot(b.mode, |window|, Failures(window), FailureRate(window), b.tripCount) == SnapshotOf(p, b, now)
  {
  }

  lemma SnapshotPositions(p: Params, b: Breaker, now: int)
    ensures SnapshotOf(p, b, now).samples == |YoungAt(b.history, now - p.windowMs)|
    ensures SnapshotOf(p, b, now).failures == |YoungFailedAt(b.history, now - p.windowMs)|
  {
    YoungAreCounted(b.history, now - p.windowMs);
    YoungFailuresAreCounted(b.history, now - p.windowMs);
  }

  /** The statistics a look shows are counts over the whole history, and their quotient. */
  lemma SnapshotCounts(p: Params, b: Breaker, now: int)
    ensures var s := SnapshotOf(p, b, now);
            && s.mode == b.mode && s.tripCount == b.tripCount
            && s.samples == |YoungAt(b.history, now - p.windowMs)|
            && s.failures == |YoungFailedAt(b.history, now - p.windowMs)|
            && IsShare(s.failureRate, s.failures, s.samples)
  {
    SnapshotPositions(p, b, now);
    RateIsShare(Aged(b.history, now - p.windowMs));
  }

  lemma TripsByWindow(p: Params, history: seq<Stamped<bool>>, window: seq<Stamped<bool>>, now: int)
    requires window == Aged(history, now - p.windowMs)
    ensures Degraded(p, window) == Trips(p, history, now)
  {
  }

  lemma SampledFields(p: Params, b: Breaker, b': Breaker, now: int, ok: bool)
    requires b.mode.CLOSED?
    requires b'.history == b.history + [Stamped(now, ok)] && b'.probeInFlight == b.probeInFlight
    requires if Trips(p, b'.history, now) then b'.mode == OPEN && b'.openedAt == now && b'.tripCount == b.tripCount + 1
             else b'.mode == b.mode && b'.openedAt == b.openedAt && b'.tripCount == b.tripCount
    ensures b' == Record(p, b, now, ok)
  {
  }

  lemma PruneAgain(history: seq<Stamped<bool>>, horizon: int, cutoff: int)
    requires Ordered(history)
    requires horizon <= cutoff
    ensures Ordered(Aged(history, horizon))
    ensures Aged(Aged(history, horizon), cutoff) == Aged(history, cutoff)
  {
    AgedKeepsOrder(history, horizon);
    AgedTwice(history, horizon, cutoff);
  }

  lemma YoungKeepsOrder(history: seq<Stamped<bool>>, horizon: int, sample: Stamped<bool>)
    requires Ordered(history) && UpTo(history, sample.t)
    ensures Ordered(Aged(history, horizon) + [sample])
  {
    AgedKeepsOrder(history, horizon);
    PushKeepsOrder(Aged(history, horizon), sample, sample.t);
  }

  /** Pushing onto the pruned queue and pruning again is filtering the longer history. */
  lemma PushAndPrune(history: seq<Stamped<bool>>, horizon: int, sample: Stamped<bool>, cutoff: int)
    requires Ordered(history) && UpTo(history, sample.t)
    requires horizon <= cutoff
    ensures Ordered(Aged(history, horizon) + [sample])
    ensures Aged(Aged(history, horizon) + [sample], cutoff) == Aged(history + [sample], cutoff)
  {
    YoungKeepsOrder(history, horizon, sample);
    AgedTwice(history, horizon, cutoff);
    AgedConcat(Aged(history, horizon), [sample], cutoff);
    AgedConcat(history, [sample], cutoff);
  }

  datatype BreakerEvent = AllowAt(now: int) | RecordAt(now: int, ok: bool) | PeekAt(now: int)

  function Play(p: Params, b: Breaker, e: BreakerEvent): Breaker {
    match e
    case AllowAt(now) => Allow(p, b, now)
    case RecordAt(now, ok) => Record(p, b, now, ok)
    case PeekAt(_) => b
  }

  /** Only a caller that asks for admission is answered. */
  function AnswerTo(p: Params, b: Breaker, e: BreakerEvent): seq<bool> {
    if e.AllowAt? then [Admits(p, b, e.now)] else []
  }

  class CircuitBreaker {
    var params: Params
    var mode: Mode
    var window: seq<Stamped<bool>>
    var openedAt: int
    var probeInFlight: bool
    var tripCount: nat
    ghost var history: seq<Stamped<bool>>  // every outcome sampled since the last close or reset
    ghost var horizon: int                 // the highest cutoff the window was pruned at
    ghost var clock: int                   // the latest reading of the clock

    ghost predicate Valid()
      reads this`history, this`clock, this`window, this`horizon, this`params
    {
      && Ordered(history) && UpTo(history, clock)
      && window == Aged(history, horizon)
      && horizon <= clock - params.windowMs
    }

    ghost function Model(): Breaker
      reads this
    {
      Breaker(mode, history, openedAt, probeInFlight, tripCount)
    }

    constructor (p: Params, ghost now: int)
      ensures Valid() && Model() == FRESH && params == p && clock == now
      ensures mode == CLOSED && window == [] && history == [] && openedAt == 0 && !probeInFlight && tripCount == 0
    {
      params, mode, window, openedAt, probeInFlight, tripCount := p, CLOSED, [], 0, false, 0;
      history, horizon, clock := [], now - p.windowMs, now;
    }

    method Reset()
      requires Valid()
      modifies this
      ensures Valid() && Model() == FRESH && params == old(params) && clock == old(clock)
      ensures mode == CLOSED && window == [] && history == [] && openedAt == 0 && !probeInFlight && tripCount == 0
    {
      mode, window, openedAt, probeInFlight, tripCount := CLOSED, [], 0, false, 0;
      history := [];
    }

    method Reconfigure(p: Params)
      requires Valid()
      modifies this
      ensures Valid() && Model() == FRESH && params == p && clock == old(clock)
      ensures mode == CLOSED && window == [] && history == [] && openedAt == 0 && !probeInFlight && tripCount == 0
    {
      params := p;
      mode, window, openedAt, probeInFlight, tripCount := CLOSED, [], 0, false, 0;
      history, horizon := [], clock - p.windowMs;
    }

    /** The clock was read. */
    ghost method Read(now: int)
      requires Valid() && clock <= now
      modifies this`clock
      ensures Valid() && clock == now
    {
      clock := now;
    }

    /** May the caller invoke the gateway now? */
    method AllowCall(now: int) returns (allowed: bool, seen: Mode)
      requires Valid() && clock <= now
      modifies this
      ensures Valid() && params == old(params) && clock == now
      ensures allowed == Admits(params, old(Model()), now)
      ensures Model() == Allow(params, old(Model()), now)
      ensures seen == mode
      ensures allowed <==> || old(mode) == CLOSED
                           || (old(mode) == OPEN && now - old(openedAt) >= params.cooldownMs)
                           || (old(mode) == HALF_OPEN && !old(probeInFlight))
      ensures if allowed && old(mode) != CLOSED then mode == HALF_OPEN && probeInFlight else Model() == old(Model())
    {
      clock := now;
      match mode
      case CLOSED =>
        return true, mode;
      case OPEN =>
        if now - openedAt >= params.cooldownMs {
          mode := HALF_OPEN;
          probeInFlight := true;
          return true, HALF_OPEN;
        }
        return false, OPEN;
      case HALF_OPEN =>
        if probeInFlight {
          return false, HALF_OPEN;
        }
        probeInFlight := true;
        return true, HALF_OPEN;
    }

    /** Report the outcome of a call that reached the gateway. */
    method RecordOutcome(now: int, ok: bool)
      requires Valid() && clock <= now
      modifies this
      ensures Valid() && params == old(params) && clock == now
      ensures Model() == Record(params, old(Model()), now, ok)
      ensures old(mode) == CLOSED ==>
                && history == old(history) + [Stamped(now, ok)]
                && mode == if TooManyFail(params, history, now) then OPEN else CLOSED
      ensures old(mode) == HALF_OPEN ==> !probeInFlight && mode == if ok then CLOSED else OPEN
      ensures old(mode) == OPEN ==> Model() == old(Model())
      ensures mode == OPEN && old(mode) != OPEN ==> openedAt == now && tripCount == old(tripCount) + 1
    {
      ghost var b := Model();
      Read(now);
      if mode == HALF_OPEN {
        ProbeAnswered(now, ok);
      } else if mode == CLOSED {
        SampleAnswered(now, ok);
        TripRule(params, b, now, ok);
      }
    }

    /** An outcome recorded in HALF_OPEN decides between closing and reopening. */
    method ProbeAnswered(now: int, ok: bool)
      requires Valid() && mode == HALF_OPEN
      modifies `window, `history, `mode, `openedAt, `tripCount, `probeInFlight
      ensures Valid()
      ensures Model() == Record(params, old(Model()), now, ok)
    {
      probeInFlight := false;
      if ok {
        mode := CLOSED;
        window := [];
        history := [];
      } else {
        mode, openedAt, tripCount := OPEN, now, tripCount + 1;
      }
    }

    /** An outcome recorded in CLOSED is sampled and may trip the breaker. */
    method SampleAnswered(now: int, ok: bool)
      requires Valid() && clock == now && mode == CLOSED
      modifies `window, `history, `horizon, `mode, `openedAt, `tripCount
      ensures Valid()
      ensures Model() == Record(params, old(Model()), now, ok)
    {
      ghost var b := Model();
      var trip := Sample(now, ok);
      if trip {
        mode, openedAt, tripCount := OPEN, now, tripCount + 1;
      }
      SampledFields(params, b, Model(), now, ok);
    }

    /** Take a sample, prune, and judge what is left. */
    method Sample(now: int, ok: bool) returns (trip: bool)
      requires Valid() && clock == now
      modifies this`window, this`history, this`horizon
      ensures Valid()
      ensures history == old(history) + [Stamped(now, ok)]
      ensures trip == Trips(params, history, now)
    {
      Push(Stamped(now, ok));
      trip := Degraded(params, window);
      TripsByWindow(params, history, window, now);
    }

    /** The new sample joins the queue, and stale ones leave it. */
    method Push(sample: Stamped<bool>)
      requires Valid() && clock == sample.t
      modifies this`window, this`history, this`horizon
      ensures Valid()
      ensures history == old(history) + [sample]
      ensures window == Aged(history, sample.t - params.windowMs)
    {
      var cutoff := sample.t - params.windowMs;
      PushAndPrune(history, horizon, sample, cutoff);
      PushKeepsOrder(history, sample, sample.t);
      ghost var longer := history + [sample];
      var pruned := Prune(window + [sample], cutoff);
      window, history, horizon := pruned, longer, cutoff;
    }

    method PruneWindow(now: int)
      requires Valid() && clock == now
      modifies this`window, this`horizon
      ensures Valid()
      ensures window == Aged(history, now - params.windowMs)
    {
      PruneAgain(history, horizon, now - params.windowMs);
      window := Prune(window, now - params.windowMs);
      horizon := now - params.windowMs;
    }

    /** A look at the breaker: it prunes, but no later decision can tell. */
    method GetState(now: int) returns (snapshot: Snapshot)
      requires Valid() && clock <= now
      modifies this
      ensures Valid() && params == old(params) && clock == now
      ensures Model() == old(Model())
      ensures snapshot == SnapshotOf(params, Model(), now)
    {
      Read(now);
      PruneWindow(now);
      snapshot := Snapshot(mode, |window|, Failures(window), FailureRate(window), tripCount);
      SnapshotOfWindow(params, Model(), window, now);
    }

    method Handle(e: BreakerEvent) returns (answer: seq<bool>)
      requires Valid() && clock <= e.now
      modifies this
      ensures Valid() && params == old(params) && clock == e.now
      ensures Model() == Play(params, old(Model()), e)
      ensures answer == AnswerTo(params, old(Model()), e)
    {
      match e
      case AllowAt(now) =>
        var allowed, _ := AllowCall(now);
        return [allowed];
      case RecordAt(now, ok) =>
        RecordOutcome(now, ok);
        return [];
      case PeekAt(now) =>
        var _ := GetState(now);
        return [];
    }
  }

  // ---------- runs ----------

  function PlayAll(p: Params, b: Breaker, es: seq<BreakerEvent>): Breaker {
    if es == [] then b else Play(p, PlayAll(p, b, es[..|es| - 1]), es[|es| - 1])
  }

  /** The answers given to the callers of a run, in order. */
  function Answers(p: Params, b: Breaker, es: seq<BreakerEvent>): seq<bool> {
    if es == [] then []
    else
      var n := |es| - 1;
      Answers(p, b, es[..n]) + AnswerTo(p, PlayAll(p, b, es[..n]), es[n])
  }

  function Clock(start: int, es: seq<BreakerEvent>): int {
    if es == [] then start else es[|es| - 1].now
  }

  /** A clock that starts at `start` and never runs backwards. */
  predicate Timed(start: int, es: seq<BreakerEvent>) {
    forall i :: 0 <= i < |es| ==> Clock(start, es[..i]) <= es[i].now
  }

  function WithoutPeeks(es: seq<BreakerEvent>): seq<BreakerEvent> {
    if es == [] then []
    else WithoutPeeks(es[..|es| - 1]) + if es[|es| - 1].PeekAt? then [] else [es[|es| - 1]]
  }

  /** Looking at the breaker, anywhere and any number of times, changes no answer and no state. */
  lemma {:induction false} PeeksAreInvisible(p: Params, b: Breaker, es: seq<BreakerEvent>)
    ensures PlayAll(p, b, es) == PlayAll(p, b, WithoutPeeks(es))
    ensures Answers(p, b, es) == Answers(p, b, WithoutPeeks(es))
  {
    if es != [] {
      var n := |es| - 1;
      PeeksAreInvisible(p, b, es[..n]);
      var kept := WithoutPeeks(es[..n]);
      if es[n].PeekAt? {
        assert WithoutPeeks(es) == kept;
      } else {
        assert WithoutPeeks(es) == kept + [es[n]];
        assert (kept + [es[n]])[..|kept|] == kept;
      }
    }
  }

  /**
   Over any run of a new breaker the pruned implementation gives its callers the same
   answers as the reference that filters the whole history, and trips as often; and the
   same as if nobody had ever looked at it, although every look prunes.
   */
  method Replay(p: Params, start: int, es: seq<BreakerEvent>) returns (answers: seq<bool>, mode: Mode, trips: nat)
    requires Timed(start, es)
    ensures answers == Answers(p, FRESH, es) == Answers(p, FRESH, WithoutPeeks(es))
    ensures var end := PlayAll(p, FRESH, es);
            mode == end.mode && trips == end.tripCount && end == PlayAll(p, FRESH, WithoutPeeks(es))
  {
    var breaker := new CircuitBreaker(p, start);
    answers := [];
    for i := 0 to |es|
      invariant fresh(breaker) && breaker.Valid() && breaker.params == p
      invariant breaker.clock == Clock(start, es[..i])
      invariant breaker.Model() == PlayAll(p, FRESH, es[..i])
      invariant answers == Answers(p, FRESH, es[..i])
    {
      assert es[..i + 1][..i] == es[..i];
      var answer := breaker.Handle(es[i]);
      answers := answers + answer;
    }
    assert es[..|es|] == es;
    PeeksAreInvisible(p, FRESH, es);
    return answers, breaker.mode, breaker.tripCount;
  }

  /** A breaker that judges a single sample trips at the first failure. */
  lemma OneFailureTrips(windowMs: nat, cooldownMs: int, now: int)
    ensures Record(Params(windowMs, 1.0, 1, cooldownMs), FRESH, now, false)
            == Opened(FRESH.(history := [Stamped(now, false)]), now)
  {
    var history := [Stamped(now, false)];
    assert FRESH.history + history == history;
    AgedAll(history, now - windowMs);
    assert Failures(history[..0]) == 0;
    assert Failures(history) == 1;
  }

  // ---------- gating ----------

  /** HALF_OPEN means exactly that a probe is in flight. */
  predicate ProbeMarksHalfOpen(b: Breaker) {
    b.mode.HALF_OPEN? <==> b.probeInFlight
  }

  lemma {:induction false} HalfOpenIsProbing(p: Params, es: seq<BreakerEvent>)
    ensures ProbeMarksHalfOpen(PlayAll(p, FRESH, es))
  {
    if es != [] {
      HalfOpenIsProbing(p, es[..|es| - 1]);
    }
  }

  /** The breaker is never CLOSED in the course of the run. */
  predicate StaysOpen(p: Params, b: Breaker, es: seq<BreakerEvent>) {
    !PlayAll(p, b, es).mode.CLOSED? && (es == [] || StaysOpen(p, b, es[..|es| - 1]))
  }

  function Admitted(p: Params, b: Breaker, es: seq<BreakerEvent>): nat {
    if es == [] then 0
    else
      var n := |es| - 1;
      Admitted(p, b, es[..n]) + if es[n].AllowAt? && Admits(p, PlayAll(p, b, es[..n]), es[n].now) then 1 else 0
  }

  /** After `k` admissions since the trip `b`, at time `clock`, in state `end`. */
  predicate PacedBy(p: Params, b: Breaker, end: Breaker, k: nat, clock: int) {
    && ProbeMarksHalfOpen(end)
    && end.openedAt <= clock
    && k * p.cooldownMs <= clock - b.openedAt
    && (end.mode.OPEN? ==> k * p.cooldownMs <= end.openedAt - b.openedAt)
    && k == (end.tripCount - b.tripCount) + if end.mode.HALF_OPEN? then 1 else 0
  }

  lemma PaceIsKept(p: Params, b: Breaker, end: Breaker, e: BreakerEvent, k: nat, clock: int)
    requires PacedBy(p, b, end, k, clock)
    requires clock <= e.now
    requires !end.mode.CLOSED? && !Play(p, end, e).mode.CLOSED?
    ensures var k' := k + if e.AllowAt? && Admits(p, end, e.now) then 1 else 0;
            PacedBy(p, b, Play(p, end, e), k', e.now)
  {
    assert (k + 1) * p.cooldownMs == k * p.cooldownMs + p.cooldownMs;
  }

  /**
   From a trip on, as long as the breaker does not close, each admission waits a whole
   cooldown after the previous one has failed: k admissions take at least k cooldowns, and
   every admission but one still in flight has been answered by a recorded failure.
   */
  lemma {:induction false} AdmissionsNeedCooldowns(p: Params, b: Breaker, es: seq<BreakerEvent>)
    requires b.mode.OPEN? && !b.probeInFlight
    requires Timed(b.openedAt, es)
    requires StaysOpen(p, b, es)
    ensures PacedBy(p, b, PlayAll(p, b, es), Admitted(p, b, es), Clock(b.openedAt, es))
  {
    if es != [] {
      var n := |es| - 1;
      assert forall i :: 0 <= i < n ==> es[..n][..i] == es[..i];
      AdmissionsNeedCooldowns(p, b, es[..n]);
      PaceIsKept(p, b, PlayAll(p, b, es[..n]), es[n], Admitted(p, b, es[..n]), Clock(b.openedAt, es[..n]));
    }
  }
}
