/**
 The guard between the saga and the gateways: a token, the breaker's gate, the gateway's
 answer, and the feedback of that answer into both controls.  A call is several steps, so
 calls interleave; here a run is any interleaving of their steps over any gateways.
 */
module GatewayGuard {
  import opened Counting
  import opened Errors
  import opened SlidingWindow
  import TB = TokenBucket
  import TR = TokenBucketRuns
  import CB = CircuitBreaker

  datatype Policy = Policy(bucket: TB.Params, breaker: CB.Params)

  datatype Answer = Success | Failure(code: ErrorCode, httpStatus: int)

  /** An answer as it arrived: when, and in which mode it found the breaker. */
  datatype Arrival = Arrival(now: int, answer: Answer, mode: CB.Mode)

  /**
   One gateway: its two controls, the calls between their token and the gate, the calls
   at the gateway, and the history of both.
   */
  datatype Gateway = Gateway(
    bucket: TB.Bucket,
    breaker: CB.Breaker,
    holding: nat,
    inFlight: nat,
    granted: nat,
    turnedAway: nat,
    charges: nat,
    arrivals: seq<Arrival>
  )

  datatype GuardStep =
    | PollToken(now: int)
    | Gate(now: int)
    | Respond(now: int, answer: Answer)
    | Health(now: int)

  function NewGateway(p: Policy, now: int): Gateway {
    Gateway(TB.NewBucket(p.bucket, now), CB.FRESH, 0, 0, 0, 0, 0, [])
  }

  /** Answers that count as a sample of the gateway's health. */
  predicate IsSample(answer: Answer) {
    answer.Success? || IsTransient(answer.code)
  }

  function BreakerFeedback(p: CB.Params, b: CB.Breaker, now: int, answer: Answer): CB.Breaker {
    if IsSample(answer) then CB.Record(p, b, now, answer.Success?) else b
  }

  function BucketFeedback(p: TB.Params, b: TB.Bucket, answer: Answer): TB.Bucket {
    match answer
    case Success => TB.Succeeded(p, b)
    case Failure(_, httpStatus) => if IsThrottle(httpStatus) then TB.Throttled(p, b) else b
  }

  function GuardNext(p: Policy, g: Gateway, e: GuardStep): Gateway {
    match e
    case PollToken(now) =>
      var got := TB.Grants(g.bucket, now);
      g.(bucket := TB.TryAcquire(g.bucket, now),
         holding := g.holding + if got then 1 else 0,
         granted := g.granted + if got then 1 else 0)
    case Gate(now) =>
      if g.holding == 0 then g
      else
        var allowed := CB.Admits(p.breaker, g.breaker, now);
        var g := g.(breaker := CB.Allow(p.breaker, g.breaker, now), holding := g.holding - 1);
        if allowed then g.(inFlight := g.inFlight + 1, charges := g.charges + 1)
        else g.(turnedAway := g.turnedAway + 1)
    case Respond(now, answer) =>
      if g.inFlight == 0 then g
      else g.(inFlight := g.inFlight - 1,
              arrivals := g.arrivals + [Arrival(now, answer, g.breaker.mode)],
              breaker := BreakerFeedback(p.breaker, g.breaker, now, answer),
              bucket := BucketFeedback(p.bucket, g.bucket, answer))
    case Health(now) => g.(bucket := TB.Refill(g.bucket, now))
  }

  function GuardRun(p: Policy, g: Gateway, es: seq<GuardStep>): Gateway {
    if es == [] then g else GuardNext(p, GuardRun(p, g, es[..|es| - 1]), es[|es| - 1])
  }

  // ---------- isolation ----------

  type System = map<string, Gateway>

  datatype SystemStep = SystemStep(gatewayId: string, step: GuardStep)

  /** Controls are created when a gateway is first used. */
  function Lookup(p: Policy, sys: System, id: string, now: int): Gateway {
    if id in sys then sys[id] else NewGateway(p, now)
  }

  function SystemNext(p: Policy, sys: System, e: SystemStep): System {
    sys[e.gatewayId := GuardNext(p, Lookup(p, sys, e.gatewayId, e.step.now), e.step)]
  }

  function SystemRun(p: Policy, es: seq<SystemStep>): System {
    if es == [] then map[] else SystemNext(p, SystemRun(p, es[..|es| - 1]), es[|es| - 1])
  }

  function StepsOf(es: seq<SystemStep>, id: string): seq<GuardStep> {
    if es == [] then []
    else StepsOf(es[..|es| - 1], id) + if es[|es| - 1].gatewayId == id then [es[|es| - 1].step] else []
  }

  /** A gateway's own run, from its own first use. */
  function AloneRun(p: Policy, steps: seq<GuardStep>): Gateway
    requires steps != []
  {
    GuardRun(p, NewGateway(p, steps[0].now), steps)
  }

  lemma AloneOneMore(p: Policy, steps: seq<GuardStep>, step: GuardStep)
    ensures var before := if steps == [] then NewGateway(p, step.now) else AloneRun(p, steps);
            AloneRun(p, steps + [step]) == GuardNext(p, before, step)
  {
    var more := steps + [step];
    assert more[..|more| - 1] == steps;
    var g := NewGateway(p, more[0].now);
    if steps == [] {
      assert GuardRun(p, g, steps) == g;
    } else {
      assert more[0] == steps[0];
    }
    assert GuardRun(p, g, more) == GuardNext(p, GuardRun(p, g, steps), step);
  }

  /** Whatever the other gateways go through, each gateway ends as if it had been alone. */
  lemma {:induction false} GatewaysAreIsolated(p: Policy, es: seq<SystemStep>, id: string)
    ensures id in SystemRun(p, es) <==> StepsOf(es, id) != []
    ensures id in SystemRun(p, es) ==> SystemRun(p, es)[id] == AloneRun(p, StepsOf(es, id))
  {
    if es != [] {
      var n := |es| - 1;
      GatewaysAreIsolated(p, es[..n], id);
      if es[n].gatewayId == id {
        assert StepsOf(es, id) == StepsOf(es[..n], id) + [es[n].step];
        AloneOneMore(p, StepsOf(es[..n], id), es[n].step);
      } else {
        assert StepsOf(es, id) == StepsOf(es[..n], id);
      }
    }
  }

  // ---------- tokens and charges ----------

  /** Every token is in hand, was turned away by the breaker, or paid for one charge. */
  predicate TokensAccounted(g: Gateway) {
    && g.granted == g.holding + g.turnedAway + g.charges
    && g.charges == g.inFlight + |g.arrivals|
  }

  lemma StepKeepsTokens(p: Policy, g: Gateway, e: GuardStep)
    requires TokensAccounted(g)
    ensures TokensAccounted(GuardNext(p, g, e))
  {
  }

  lemma {:induction false} ChargesAreTokens(p: Policy, start: int, es: seq<GuardStep>)
    ensures TokensAccounted(GuardRun(p, NewGateway(p, start), es))
    ensures GuardRun(p, NewGateway(p, start), es).charges <= GuardRun(p, NewGateway(p, start), es).granted
  {
    if es != [] {
      ChargesAreTokens(p, start, es[..|es| - 1]);
      StepKeepsTokens(p, GuardRun(p, NewGateway(p, start), es[..|es| - 1]), es[|es| - 1]);
    }
  }

  function Latest(from: int, es: seq<GuardStep>): int {
    if es == [] then from else es[|es| - 1].now
  }

  predicate StepsTimed(from: int, es: seq<GuardStep>) {
    es == [] ||
    (var n := |es| - 1; StepsTimed(from, es[..n]) && Latest(from, es[..n]) <= es[n].now)
  }

  /** What a guard step does to its bucket: one event or none. */
  function BucketEvent(g: Gateway, e: GuardStep): seq<TR.BucketEvent> {
    match e
    case PollToken(now) => [TR.TryAt(now)]
    case Health(now) => [TR.PeekAt(now)]
    case Gate(_) => []
    case Respond(now, answer) =>
      if g.inFlight == 0 then []
      else match answer
        case Success => [TR.SuccessAt(now)]
        case Failure(_, httpStatus) => if IsThrottle(httpStatus) then [TR.ThrottleAt(now)] else []
  }

  function BucketEvents(p: Policy, g: Gateway, es: seq<GuardStep>): seq<TR.BucketEvent> {
    if es == [] then []
    else
      var n := |es| - 1;
      BucketEvents(p, g, es[..n]) + BucketEvent(GuardRun(p, g, es[..n]), es[n])
  }

  lemma StepPlaysItsBucket(p: Policy, g: Gateway, e: GuardStep)
    ensures var g' := GuardNext(p, g, e);
            var bs := BucketEvent(g, e);
            if bs == [] then g'.bucket == g.bucket && g'.granted == g.granted
            else
              && bs == [bs[0]] && bs[0].now == e.now
              && g'.bucket == TR.Play(p.bucket, g.bucket, bs[0])
              && g'.granted == g.granted + if bs[0].TryAt? && TB.Grants(g.bucket, e.now) then 1 else 0
  {
  }

  lemma {:induction false} PlayOneMore(p: TB.Params, b: TB.Bucket, es: seq<TR.BucketEvent>, e: TR.BucketEvent, s: int, t: int)
    ensures TR.PlayAll(p, b, es + [e]) == TR.Play(p, TR.PlayAll(p, b, es), e)
    ensures TR.GrantedIn(p, b, es + [e], s, t) == TR.GrantedIn(p, b, es, s, t)
            + if e.TryAt? && s <= e.now <= t && TB.Grants(TR.PlayAll(p, b, es), e.now) then 1 else 0
    decreases |es|
  {
    if es == [] {
      assert [e][1..] == [];
    } else {
      assert (es + [e])[0] == es[0] && (es + [e])[1..] == es[1..] + [e];
      PlayOneMore(p, TR.Play(p, b, es[0]), es[1..], e, s, t);
    }
  }

  lemma {:induction false} TimedOneMore(from: int, es: seq<TR.BucketEvent>, e: TR.BucketEvent)
    requires TR.Timed(from, es)
    requires from <= e.now && (es != [] ==> es[|es| - 1].now <= e.now)
    ensures TR.Timed(from, es + [e])
    decreases |es|
  {
    if es == [] {
      assert (es + [e])[1..] == [];
    } else {
      assert (es + [e])[0] == es[0] && (es + [e])[1..] == es[1..] + [e];
      if es[1..] != [] {
        assert es[1..][|es[1..]| - 1] == es[|es| - 1];
        TR.TimesGrow(es[0].now, es[1..]);
      }
      TimedOneMore(es[0].now, es[1..], e);
    }
  }

  /** The guard's bucket is the bucket of its events, and its grants are that bucket's grants. */
  lemma {:induction false} GuardPlaysItsBucket(p: Policy, start: int, es: seq<GuardStep>, t: int)
    requires StepsTimed(start, es) && Latest(start, es) <= t
    ensures var g := NewGateway(p, start);
            var bs := BucketEvents(p, g, es);
            && GuardRun(p, g, es).bucket == TR.PlayAll(p.bucket, g.bucket, bs)
            && GuardRun(p, g, es).granted == TR.GrantedIn(p.bucket, g.bucket, bs, start, t)
            && TR.Timed(start, bs)
            && (bs != [] ==> bs[|bs| - 1].now <= Latest(start, es))
            && start <= Latest(start, es)
  {
    if es != [] {
      var n := |es| - 1;
      var g := NewGateway(p, start);
      GuardPlaysItsBucket(p, start, es[..n], t);
      var bs := BucketEvents(p, g, es[..n]);
      var before := GuardRun(p, g, es[..n]);
      StepPlaysItsBucket(p, before, es[n]);
      if BucketEvent(before, es[n]) == [] {
        assert BucketEvents(p, g, es) == bs;
      } else {
        var e := BucketEvent(before, es[n])[0];
        assert BucketEvents(p, g, es) == bs + [e];
        PlayOneMore(p.bucket, g.bucket, bs, e, start, t);
        TimedOneMore(start, bs, e);
      }
    }
  }

  /**
   The provider's limit at the provider's door: by any time t, a gateway has been charged at
   most for one full burst and what the nominal rate yields, however the calls interleave.
   */
  lemma GatewayLoadIsBounded(p: Policy, start: int, es: seq<GuardStep>, t: int)
    requires TB.Sane(p.bucket)
    requires StepsTimed(start, es) && Latest(start, es) <= t
    ensures GuardRun(p, NewGateway(p, start), es).charges as real
            <= TR.ProviderLimit(p.bucket, t - start)
  {
    ChargesAreTokens(p, start, es);
    GuardPlaysItsBucket(p, start, es, t);
    TR.ThroughputBound(p.bucket, start, BucketEvents(p, NewGateway(p, start), es), start, t);
  }

  // ---------- feedback ----------

  /** Where the arrivals stand that ask the caller to slow down: status 429 or 503. */
  ghost function ThrottledAt(arrivals: seq<Arrival>): set<int> {
    set i | 0 <= i < |arrivals| && arrivals[i].answer.Failure? && arrivals[i].answer.httpStatus in {429, 503}
  }

  /** Answers that tell about the gateway's health: ok, and the failures that are not business rejections. */
  predicate TellsHealth(answer: Answer) {
    answer.Success? || MayPass(answer.code)
  }

  /** What an arrival leaves of the samples before it, and adds to them. */
  function SampledBy(before: seq<Stamped<bool>>, a: Arrival): seq<Stamped<bool>> {
    if a.mode.HALF_OPEN? && a.answer.Success? then []
    else if a.mode.CLOSED? && TellsHealth(a.answer) then before + [Stamped(a.now, a.answer.Success?)]
    else before
  }

  /**
   The samples the arrivals amount to: ok and transient answers that found the breaker
   CLOSED, since the last ok answer that found it HALF_OPEN.
   */
  function SamplesOf(arrivals: seq<Arrival>): seq<Stamped<bool>> {
    if arrivals == [] then []
    else
      SampledBy(SamplesOf(arrivals[..|arrivals| - 1]), arrivals[|arrivals| - 1])
  }

  lemma SamplesOneMore(arrivals: seq<Arrival>, a: Arrival)
    ensures SamplesOf(arrivals + [a]) == SampledBy(SamplesOf(arrivals), a)
  {
    var more := arrivals + [a];
    assert more[..|more| - 1] == arrivals;
  }

  lemma FeedbackSamples(p: CB.Params, b: CB.Breaker, now: int, answer: Answer)
    ensures BreakerFeedback(p, b, now, answer).history == SampledBy(b.history, Arrival(now, answer, b.mode))
  {
    if answer.Failure? {
      EveryCodeIsSorted(answer.code);
    }
    if IsSample(answer) {
      CB.RecordedHistory(p, b, now, answer.Success?);
    }
  }

  lemma ThrottledOneMore(arrivals: seq<Arrival>, a: Arrival)
    ensures |ThrottledAt(arrivals + [a])|
            == |ThrottledAt(arrivals)| + if a.answer.Failure? && a.answer.httpStatus in {429, 503} then 1 else 0
  {
    var throttled := (x: Arrival) => x.answer.Failure? && x.answer.httpStatus in {429, 503};
    assert ThrottledAt(arrivals) == Positions(arrivals, throttled);
    assert ThrottledAt(arrivals + [a]) == Positions(arrivals + [a], throttled);
    CountOneMore(arrivals, a, throttled);
  }

  lemma StepKeepsFeedback(p: Policy, g: Gateway, e: GuardStep)
    requires g.bucket.throttleCount == |ThrottledAt(g.arrivals)|
    requires g.breaker.history == SamplesOf(g.arrivals)
    ensures GuardNext(p, g, e).bucket.throttleCount == |ThrottledAt(GuardNext(p, g, e).arrivals)|
    ensures GuardNext(p, g, e).breaker.history == SamplesOf(GuardNext(p, g, e).arrivals)
  {
    if e.Respond? {
      FeedbackSamples(p.breaker, g.breaker, e.now, e.answer);
      SamplesOneMore(g.arrivals, Arrival(e.now, e.answer, g.breaker.mode));
      ThrottledOneMore(g.arrivals, Arrival(e.now, e.answer, g.breaker.mode));
    }
  }

  /**
   Feedback is exact over interleaved calls: the bucket has been throttled once for each 429
   or 503 the gateway gave, and the breaker has sampled exactly the ok and transient answers
   that arrived while it was CLOSED.  Permanent rejections and the guard's own refusals
   leave no trace in either.
   */
  lemma {:induction false} FeedbackIsExact(p: Policy, start: int, es: seq<GuardStep>)
    ensures var g := GuardRun(p, NewGateway(p, start), es);
            && g.bucket.throttleCount == |ThrottledAt(g.arrivals)|
            && g.breaker.history == SamplesOf(g.arrivals)
  {
    if es == [] {
      assert ThrottledAt([]) == {};
    } else {
      FeedbackIsExact(p, start, es[..|es| - 1]);
      StepKeepsFeedback(p, GuardRun(p, NewGateway(p, start), es[..|es| - 1]), es[|es| - 1]);
    }
  }

  predicate NoSuccess(arrivals: seq<Arrival>) {
    forall i :: 0 <= i < |arrivals| ==> arrivals[i].answer.Failure?
  }

  /** The nominal rate halved k times, but never below its floor. */
  function RateAfter(p: TB.Params, k: nat): real {
    TB.Max(p.nominalRps * p.minRateFactor, p.nominalRps / TR.Pow2(k))
  }

  lemma StepKeepsHalving(p: Policy, g: Gateway, e: GuardStep)
    requires TB.Sane(p.bucket)
    requires NoSuccess(GuardNext(p, g, e).arrivals)
    requires g.bucket.rate == RateAfter(p.bucket, |ThrottledAt(g.arrivals)|)
    ensures var g' := GuardNext(p, g, e);
            g'.bucket.rate == RateAfter(p.bucket, |ThrottledAt(g'.arrivals)|)
  {
    if e.Respond? && g.inFlight > 0 {
      var a := Arrival(e.now, e.answer, g.breaker.mode);
      assert GuardNext(p, g, e).arrivals == g.arrivals + [a];
      assert (g.arrivals + [a])[|g.arrivals|] == a;
      ThrottledOneMore(g.arrivals, a);
      TR.HalvingStep(p.bucket, g.bucket.rate, |ThrottledAt(g.arrivals)|);
    }
  }

  lemma ArrivalsGrow(p: Policy, g: Gateway, e: GuardStep)
    requires NoSuccess(GuardNext(p, g, e).arrivals)
    ensures NoSuccess(g.arrivals)
  {
    var after := GuardNext(p, g, e).arrivals;
    assert |g.arrivals| <= |after| && after[..|g.arrivals|] == g.arrivals;
    assert forall i :: 0 <= i < |g.arrivals| ==> g.arrivals[i] == after[i];
  }

  /** As long as no answer is ok, each 429 and each 503 has halved the rate, and nothing else has moved it. */
  lemma {:induction false} ThrottlesHalveTheRate(p: Policy, start: int, es: seq<GuardStep>)
    requires TB.Sane(p.bucket)
    requires NoSuccess(GuardRun(p, NewGateway(p, start), es).arrivals)
    ensures var g := GuardRun(p, NewGateway(p, start), es);
            g.bucket.rate == RateAfter(p.bucket, |ThrottledAt(g.arrivals)|)
  {
    if es == [] {
      assert ThrottledAt([]) == {};
      TB.FloorsArePositive(p.bucket);
    } else {
      var before := GuardRun(p, NewGateway(p, start), es[..|es| - 1]);
      ArrivalsGrow(p, before, es[|es| - 1]);
      ThrottlesHalveTheRate(p, start, es[..|es| - 1]);
      StepKeepsHalving(p, before, es[|es| - 1]);
    }
  }

  // ---------- the probe that never answers ----------

  /** HALF_OPEN, and no call is left at the gateway to decide it. */
  predicate Jammed(g: Gateway) {
    g.breaker.mode.HALF_OPEN? && g.breaker.probeInFlight && g.inFlight == 0
  }

  /** Only a reset, which is no step of a call, gets a jammed gateway out. */
  lemma {:induction false} JammedForever(p: Policy, g: Gateway, es: seq<GuardStep>)
    requires Jammed(g)
    ensures Jammed(GuardRun(p, g, es))
    ensures GuardRun(p, g, es).charges == g.charges
  {
    if es != [] {
      JammedForever(p, g, es[..|es| - 1]);
    }
  }

  /** HALF_OPEN with its probe out. */
  predicate Probing(g: Gateway) {
    g.breaker.mode.HALF_OPEN? && g.breaker.probeInFlight
  }

  function Responses(es: seq<GuardStep>): nat {
    if es == [] then 0 else Responses(es[..|es| - 1]) + if es[|es| - 1].Respond? then 1 else 0
  }

  /** One of the first `calls` answers of the run is ok or transient. */
  predicate BringsASample(es: seq<GuardStep>, calls: nat) {
    es != [] &&
    (var n := |es| - 1;
     || BringsASample(es[..n], calls)
     || (es[n].Respond? && IsSample(es[n].answer) && Responses(es[..n]) < calls))
  }

  /** The breaker is out of HALF_OPEN after some step of the run. */
  predicate LeavesHalfOpen(p: Policy, g: Gateway, es: seq<GuardStep>) {
    es != [] && (LeavesHalfOpen(p, g, es[..|es| - 1]) || !GuardRun(p, g, es).breaker.mode.HALF_OPEN?)
  }

  /** A gateway that still waits for its probe: `answered` answers came, and nothing was let through. */
  predicate StillProbing(g: Gateway, g': Gateway, answered: nat) {
    && Probing(g') && g'.charges == g.charges
    && g'.inFlight == if answered < g.inFlight then g.inFlight - answered else 0
  }

  lemma ProbingStep(p: Policy, g: Gateway, g': Gateway, e: GuardStep, answered: nat)
    requires StillProbing(g, g', answered)
    ensures var decided := e.Respond? && IsSample(e.answer) && answered < g.inFlight;
            var next := GuardNext(p, g', e);
            && (decided ==> next.breaker.mode == if e.answer.Success? then CB.CLOSED else CB.OPEN)
            && (!decided ==> StillProbing(g, next, answered + if e.Respond? then 1 else 0))
  {
  }

  /**
   How a probe is decided.  From HALF_OPEN with the probe out, the breaker leaves HALF_OPEN in
   a run if and only if one of the answers to the calls that are at the gateway is ok or
   transient.  The gate lets nothing through before, so no later call can help, and as long as
   only permanent rejections arrive the gateway is neither closed nor opened nor charged.
   */
  lemma {:induction false} HalfOpenEndsIff(p: Policy, g: Gateway, es: seq<GuardStep>)
    requires Probing(g)
    ensures LeavesHalfOpen(p, g, es) <==> BringsASample(es, g.inFlight)
    ensures !BringsASample(es, g.inFlight) ==> StillProbing(g, GuardRun(p, g, es), Responses(es))
  {
    if es != [] {
      var n := |es| - 1;
      HalfOpenEndsIff(p, g, es[..n]);
      if !BringsASample(es[..n], g.inFlight) {
        ProbingStep(p, g, GuardRun(p, g, es[..n]), es[n], Responses(es[..n]));
      }
    }
  }

  /** The first such answer decides, whoever it was for: ok closes the breaker, transient opens it again. */
  lemma FirstSampleDecides(p: Policy, g: Gateway, es: seq<GuardStep>, now: int, answer: Answer)
    requires Probing(g)
    requires !BringsASample(es, g.inFlight) && Responses(es) < g.inFlight && IsSample(answer)
    ensures GuardRun(p, g, es + [Respond(now, answer)]).breaker.mode == if answer.Success? then CB.CLOSED else CB.OPEN
  {
    HalfOpenEndsIff(p, g, es);
    assert (es + [Respond(now, answer)])[..|es|] == es;
    ProbingStep(p, g, GuardRun(p, g, es), Respond(now, answer), Responses(es));
  }

  /** So HALF_OPEN can end at all if and only if some call is at the gateway. */
  lemma HalfOpenCanEndIff(p: Policy, g: Gateway)
    requires Probing(g)
    ensures (exists es :: !GuardRun(p, g, es).breaker.mode.HALF_OPEN?) <==> g.inFlight > 0
  {
    if g.inFlight > 0 {
      FirstSampleDecides(p, g, [], 0, Success);
      assert !GuardRun(p, g, [] + [Respond(0, Success)]).breaker.mode.HALF_OPEN?;
    } else {
      forall es
        ensures GuardRun(p, g, es).breaker.mode.HALF_OPEN?
      {
        JammedForever(p, g, es);
      }
    }
  }

  /** The way into the jam: a lone probe and a declined card. */
  lemma DeclinedProbeJams(p: Policy, g: Gateway, now: int, code: ErrorCode, httpStatus: int, more: seq<GuardStep>)
    requires g.breaker.mode.HALF_OPEN? && g.breaker.probeInFlight && g.inFlight == 1
    requires !IsTransient(code)
    ensures var g' := GuardNext(p, g, Respond(now, Failure(code, httpStatus)));
            Jammed(GuardRun(p, g', more)) && GuardRun(p, g', more).charges == g.charges
  {
    JammedForever(p, GuardNext(p, g, Respond(now, Failure(code, httpStatus))), more);
  }

  const STRICT := Policy(TB.Params(5.0, 1.0, 0.5, 1.0), CB.Params(60000, 1.0, 1, 1000))

  /** A call that goes through: a token, the gate, and the answer. */
  function Served(now: int, answer: Answer): seq<GuardStep> {
    [PollToken(now), Gate(now), Respond(now, answer)]
  }

  lemma ServedRun(p: Policy, g: Gateway, now: int, answer: Answer)
    requires TB.Grants(g.bucket, now) && g.holding == 0 && g.inFlight == 0
    requires CB.Admits(p.breaker, g.breaker, now)
    ensures var g' := GuardRun(p, g, Served(now, answer));
            && g'.breaker == BreakerFeedback(p.breaker, CB.Allow(p.breaker, g.breaker, now), now, answer)
            && g'.bucket == BucketFeedback(p.bucket, TB.TryAcquire(g.bucket, now), answer)
            && g'.holding == 0 && g'.inFlight == 0
  {
    var es := Served(now, answer);
    assert es[..2][..1] == es[..1] && es[..1][..0] == [];
    var g1 := GuardNext(p, g, es[0]);
    var g2 := GuardNext(p, g1, es[1]);
    assert GuardRun(p, g, es[..1]) == g1 && GuardRun(p, g, es[..2]) == g2;
    assert g1.holding == 1 && g2.inFlight == 1;
  }

  lemma {:induction false} GuardRunConcat(p: Policy, g: Gateway, es: seq<GuardStep>, more: seq<GuardStep>)
    ensures GuardRun(p, g, es + more) == GuardRun(p, GuardRun(p, g, es), more)
  {
    if more == [] {
      assert es + more == es;
    } else {
      var n := |more| - 1;
      assert (es + more)[..|es + more| - 1] == es + more[..n];
      GuardRunConcat(p, g, es, more[..n]);
    }
  }

  const FAILED := Failure(ServerError, 500)

  const DECLINED := Failure(CardDeclined, 400)

  /** The first call fails and opens the breaker. */
  lemma FailedCallTrips()
    ensures var g := GuardRun(STRICT, NewGateway(STRICT, 0), Served(0, FAILED));
            && g.breaker.mode.OPEN? && g.breaker.openedAt == 0
            && g.bucket == TB.Bucket(5.0, 5.0, 4.0, 0, 0) && g.holding == 0 && g.inFlight == 0
  {
    CB.OneFailureTrips(60000, 1000, 0);
    ServedRun(STRICT, NewGateway(STRICT, 0), 0, FAILED);
  }

  /** The second, after the cooldown, is the probe, and is declined. */
  lemma DeclinedCallJams(g: Gateway)
    requires g.breaker.mode.OPEN? && g.breaker.openedAt == 0
    requires g.bucket == TB.Bucket(5.0, 5.0, 4.0, 0, 0) && g.holding == 0 && g.inFlight == 0
    ensures Jammed(GuardRun(STRICT, g, Served(1000, DECLINED)))
  {
    assert TB.Refill(g.bucket, 1000).tokens == 5.0;
    ServedRun(STRICT, g, 1000, DECLINED);
  }

  /** A new gateway jams in two calls. */
  lemma NewGatewayCanJam()
    ensures exists p: Policy, es :: TB.Sane(p.bucket) && Jammed(GuardRun(p, NewGateway(p, 0), es))
  {
    var g := NewGateway(STRICT, 0);
    FailedCallTrips();
    DeclinedCallJams(GuardRun(STRICT, g, Served(0, FAILED)));
    GuardRunConcat(STRICT, g, Served(0, FAILED), Served(1000, DECLINED));
  }
}
