/**
 What the token bucket promises over whole runs: bounds on throughput, the shape of its
 adaptation, and what a caller who waits for a token can count on.
 */
module TokenBucketRuns {
  import opened TokenBucket

  datatype BucketEvent =
    | TryAt(now: int)
    | PeekAt(now: int)
    | ThrottleAt(now: int)
    | SuccessAt(now: int)

  function Play(p: Params, b: Bucket, e: BucketEvent): Bucket {
    match e
    case TryAt(now) => TryAcquire(b, now)
    case PeekAt(now) => Refill(b, now)
    case ThrottleAt(_) => Throttled(p, b)
    case SuccessAt(_) => Succeeded(p, b)
  }

  function PlayAll(p: Params, b: Bucket, es: seq<BucketEvent>): Bucket
    decreases |es|
  {
    if es == [] then b else PlayAll(p, Play(p, b, es[0]), es[1..])
  }

  /** Times never run backwards, starting from `from`. */
  predicate Timed(from: int, es: seq<BucketEvent>)
    decreases |es|
  {
    es == [] || (from <= es[0].now && Timed(es[0].now, es[1..]))
  }

  lemma PlayKeepsSound(p: Params, b: Bucket, e: BucketEvent)
    requires Sane(p) && Sound(p, b)
    ensures Sound(p, Play(p, b, e))
  {
    match e
    case TryAt(now) => RefillKeepsSound(p, b, now);
    case PeekAt(now) => RefillKeepsSound(p, b, now);
    case ThrottleAt(_) => ThrottleKeepsSound(p, b);
    case SuccessAt(_) => SuccessKeepsSound(p, b);
  }

  lemma {:induction false} RunKeepsSound(p: Params, b: Bucket, es: seq<BucketEvent>)
    requires Sane(p) && Sound(p, b)
    ensures Sound(p, PlayAll(p, b, es))
    decreases |es|
  {
    if es != [] {
      PlayKeepsSound(p, b, es[0]);
      RunKeepsSound(p, Play(p, b, es[0]), es[1..]);
    }
  }

  /** A stretch of a bucket's life between two reconfigurations. */
  datatype Stage = Stage(params: Params, events: seq<BucketEvent>)

  /** A bucket created at `start`, and reconfigured at the beginning of each later stage. */
  function Life(start: int, stages: seq<Stage>): Bucket
    requires stages != []
  {
    var n := |stages| - 1;
    var p := stages[n].params;
    var b := if n == 0 then NewBucket(p, start) else Reconfigured(p, Life(start, stages[..n]));
    PlayAll(p, b, stages[n].events)
  }

  /**
   Every reachable bucket runs between the floor and the nominal rate of its last
   configuration, never overfull, through any events and reconfigurations.
   */
  lemma ReachableIsSound(start: int, stages: seq<Stage>)
    requires stages != [] && Sane(stages[|stages| - 1].params)
    ensures Sound(stages[|stages| - 1].params, Life(start, stages))
    ensures var p, b := stages[|stages| - 1].params, Life(start, stages);
            && p.nominalRps * p.minRateFactor <= b.rate <= p.nominalRps
            && b.burst == b.rate * p.burstFactor
            && 0.0 <= b.tokens <= b.burst
  {
    var n := |stages| - 1;
    var p := stages[n].params;
    var from := if n == 0 then start else Life(start, stages[..n]).lastRefill;
    NewIsSound(p, from);
    var b := if n == 0 then NewBucket(p, start) else Reconfigured(p, Life(start, stages[..n]));
    RunKeepsSound(p, b, stages[n].events);
  }

  // ---------- throughput ----------

  /** How many tokens a run grants at times in [s, t]. */
  function GrantedIn(p: Params, b: Bucket, es: seq<BucketEvent>, s: int, t: int): nat
    decreases |es|
  {
    if es == [] then 0
    else
      (if es[0].TryAt? && s <= es[0].now <= t && Grants(b, es[0].now) then 1 else 0)
      + GrantedIn(p, Play(p, b, es[0]), es[1..], s, t)
  }

  lemma {:induction false} NothingAfter(p: Params, b: Bucket, es: seq<BucketEvent>, from: int, s: int, t: int)
    requires Timed(from, es) && t < from
    ensures GrantedIn(p, b, es, s, t) == 0
    decreases |es|
  {
    if es != [] {
      NothingAfter(p, Play(p, b, es[0]), es[1..], es[0].now, s, t);
    }
  }

  lemma YieldSplits(rate: real, a: int, b: int, c: int)
    ensures Yield(rate, c - a) == Yield(rate, b - a) + Yield(rate, c - b)
  {
    var x, y := (b - a) as real / 1000.0, (c - b) as real / 1000.0;
    assert (c - a) as real / 1000.0 == x + y;
    assert (x + y) * rate == x * rate + y * rate;
  }

  lemma YieldGrows(low: real, high: real, ms: int)
    requires low <= high && ms >= 0
    ensures Yield(low, ms) <= Yield(high, ms)
  {
    Scale(ms as real / 1000.0, low, high);
  }

  /** One step spends at most what it grants and gains at most what the nominal rate yields. */
  lemma StepSpends(p: Params, b: Bucket, e: BucketEvent)
    requires Sane(p) && Sound(p, b)
    requires b.lastRefill <= e.now
    ensures var b' := Play(p, b, e);
            && b.lastRefill <= b'.lastRefill <= e.now
            && b'.tokens + (if e.TryAt? && Grants(b, e.now) then 1.0 else 0.0)
               <= b.tokens + Yield(p.nominalRps, b'.lastRefill - b.lastRefill)
  {
    YieldGrows(b.rate, p.nominalRps, e.now - b.lastRefill);
    assert Yield(p.nominalRps, 0) == 0.0;
  }

  /** From any sound bucket: what is in it now, plus what the nominal rate yields. */
  lemma {:induction false} GrantsAreBacked(p: Params, b: Bucket, es: seq<BucketEvent>, from: int, s: int, t: int)
    requires Sane(p) && Sound(p, b)
    requires b.lastRefill <= from && b.lastRefill <= t && Timed(from, es)
    ensures GrantedIn(p, b, es, s, t) as real <= b.tokens + Yield(p.nominalRps, t - b.lastRefill)
    decreases |es|
  {
    YieldIsPositive(p.nominalRps, t - b.lastRefill);
    if es != [] {
      var b' := Play(p, b, es[0]);
      if es[0].now > t {
        NothingAfter(p, b', es[1..], es[0].now, s, t);
      } else {
        StepSpends(p, b, es[0]);
        PlayKeepsSound(p, b, es[0]);
        GrantsAreBacked(p, b', es[1..], es[0].now, s, t);
        YieldSplits(p.nominalRps, b.lastRefill, b'.lastRefill, t);
      }
    }
  }

  /**
   The throughput bound: in any run, whatever throttles and successes it holds, and in any
   window [s, t], at most a full burst plus what the nominal rate yields in the window.
   */
  lemma {:induction false} ThroughputFrom(p: Params, b: Bucket, es: seq<BucketEvent>, from: int, s: int, t: int)
    requires Sane(p) && Sound(p, b)
    requires b.lastRefill <= from && Timed(from, es) && s <= t
    ensures GrantedIn(p, b, es, s, t) as real <= MaxBurst(p) + Yield(p.nominalRps, t - s)
    decreases |es|
  {
    YieldIsPositive(p.nominalRps, t - s);
    FloorsArePositive(p);
    if es != [] {
      var b' := Play(p, b, es[0]);
      PlayKeepsSound(p, b, es[0]);
      StepSpends(p, b, es[0]);
      if es[0].TryAt? && s <= es[0].now <= t {
        var full := Refill(b, es[0].now);
        RefillKeepsSound(p, b, es[0].now);
        assert TryAcquire(full, es[0].now) == b' && Grants(full, es[0].now) == Grants(b, es[0].now);
        assert GrantedIn(p, b, es, s, t) == GrantedIn(p, full, es, s, t);
        GrantsAreBacked(p, full, es, es[0].now, s, t);
        YieldSplits(p.nominalRps, s, es[0].now, t);
        YieldIsPositive(p.nominalRps, es[0].now - s);
      } else {
        ThroughputFrom(p, b', es[1..], es[0].now, s, t);
      }
    }
  }

  /** What a provider allows in a span: a full burst at the nominal rate, and that rate for the span. */
  function ProviderLimit(p: Params, ms: int): real {
    p.nominalRps * (p.burstFactor + ms as real / 1000.0)
  }

  lemma LimitInParts(p: Params, ms: int)
    ensures MaxBurst(p) + Yield(p.nominalRps, ms) == ProviderLimit(p, ms)
  {
    var x := ms as real / 1000.0;
    assert p.nominalRps * (p.burstFactor + x) == p.nominalRps * p.burstFactor + x * p.nominalRps;
  }

  lemma ThroughputBound(p: Params, start: int, es: seq<BucketEvent>, s: int, t: int)
    requires Sane(p) && Timed(start, es) && s <= t
    ensures GrantedIn(p, NewBucket(p, start), es, s, t) as real <= ProviderLimit(p, t - s)
  {
    NewIsSound(p, start);
    ThroughputFrom(p, NewBucket(p, start), es, start, s, t);
    LimitInParts(p, t - s);
  }

  // ---------- the burst ----------

  /** k callers ask at the same instant. */
  function AtOnce(now: int, k: nat): seq<BucketEvent> {
    seq(k, _ => TryAt(now))
  }

  lemma {:induction false} GrantedAtOnce(p: Params, b: Bucket, k: nat)
    requires b.tokens >= 0.0
    ensures GrantedIn(p, b, AtOnce(b.lastRefill, k), b.lastRefill, b.lastRefill)
            == if k as real <= b.tokens then k else b.tokens.Floor
    decreases k
  {
    var es := AtOnce(b.lastRefill, k);
    if k > 0 {
      assert es[0] == TryAt(b.lastRefill) && es[1..] == AtOnce(b.lastRefill, k - 1);
      var b' := Play(p, b, es[0]);
      assert Refill(b, b.lastRefill) == b;
      GrantedAtOnce(p, b', k - 1);
    }
  }

  /** A new bucket serves as many callers at once as whole tokens fit its burst, and no more. */
  lemma NewBucketGrantsItsBurst(p: Params, start: int, k: nat)
    requires Sane(p)
    ensures GrantedIn(p, NewBucket(p, start), AtOnce(start, k), start, start)
            == if k as real <= p.nominalRps * p.burstFactor then k else (p.nominalRps * p.burstFactor).Floor
  {
    NewIsSound(p, start);
    GrantedAtOnce(p, NewBucket(p, start), k);
  }

  // ---------- AIMD ----------

  function Repeat(p: Params, b: Bucket, e: BucketEvent, k: nat): Bucket {
    if k == 0 then b else Play(p, Repeat(p, b, e, k - 1), e)
  }

  function Pow2(k: nat): (r: real)
    ensures r >= 1.0
  {
    if k == 0 then 1.0 else 2.0 * Pow2(k - 1)
  }

  lemma HalfOfAShare(x: real, d: real)
    requires d >= 1.0
    ensures x / (2.0 * d) == x / d * 0.5
  {
  }

  lemma HalvingStep(p: Params, rate: real, k: nat)
    requires Sane(p) && rate == Max(p.nominalRps * p.minRateFactor, p.nominalRps / Pow2(k))
    ensures Max(FloorRate(p), rate * 0.5) == Max(p.nominalRps * p.minRateFactor, p.nominalRps / Pow2(k + 1))
  {
    FloorsArePositive(p);
    HalfOfAShare(p.nominalRps, Pow2(k));
  }

  /** k throttles from the nominal rate leave nominal / 2^k, but never less than the floor. */
  lemma {:induction false} ThrottlesHalve(p: Params, b: Bucket, now: int, k: nat)
    requires Sane(p) && b.rate == p.nominalRps
    ensures Repeat(p, b, ThrottleAt(now), k).rate == Max(p.nominalRps * p.minRateFactor, p.nominalRps / Pow2(k))
    ensures Repeat(p, b, ThrottleAt(now), k).throttleCount == b.throttleCount + k
  {
    FloorsArePositive(p);
    if k > 0 {
      ThrottlesHalve(p, b, now, k - 1);
      HalvingStep(p, Repeat(p, b, ThrottleAt(now), k - 1).rate, k - 1);
    }
  }

  /** j successes add j steps, but never more than the nominal rate. */
  lemma {:induction false} SuccessesAdd(p: Params, b: Bucket, now: int, j: nat)
    requires Sane(p) && b.rate <= p.nominalRps
    ensures Repeat(p, b, SuccessAt(now), j).rate == Min(p.nominalRps, b.rate + j as real * p.aiStepRps)
  {
    if j > 0 {
      SuccessesAdd(p, b, now, j - 1);
      assert j as real * p.aiStepRps == (j - 1) as real * p.aiStepRps + p.aiStepRps;
      Scale(p.aiStepRps, 0.0, (j - 1) as real);
    }
  }

  // ---------- polling ----------

  /** Two refills with the same rate and burst are one. */
  lemma RefillTwice(b: Bucket, t1: int, t2: int)
    requires b.rate >= 0.0 && b.tokens <= b.burst && t1 <= t2
    ensures Refill(Refill(b, t1), t2) == Refill(b, t2)
  {
    if b.lastRefill < t1 < t2 {
      YieldSplits(b.rate, b.lastRefill, t1, t2);
      YieldIsPositive(b.rate, t2 - t1);
    }
  }

  /** Looks and refused polls only. */
  predicate OnlyPolls(p: Params, b: Bucket, es: seq<BucketEvent>)
    decreases |es|
  {
    es == [] ||
    (&& (es[0].PeekAt? || (es[0].TryAt? && !Grants(b, es[0].now)))
     && OnlyPolls(p, Play(p, b, es[0]), es[1..]))
  }

  lemma {:induction false} TimesGrow(from: int, es: seq<BucketEvent>)
    requires Timed(from, es) && es != []
    ensures from <= es[|es| - 1].now
    decreases |es|
  {
    if |es| > 1 {
      TimesGrow(es[0].now, es[1..]);
    }
  }

  /** However often a bucket is looked at or polled in vain, it ends as after one refill at the end. */
  lemma {:induction false} PollingChangesNothing(p: Params, b: Bucket, es: seq<BucketEvent>, from: int)
    requires b.rate >= 0.0 && b.tokens <= b.burst
    requires Timed(from, es) && OnlyPolls(p, b, es) && es != []
    ensures PlayAll(p, b, es) == Refill(b, es[|es| - 1].now)
    decreases |es|
  {
    var b' := Refill(b, es[0].now);
    assert Play(p, b, es[0]) == b';
    assert PlayAll(p, b, es) == PlayAll(p, b', es[1..]);
    if |es| > 1 {
      PollingChangesNothing(p, b', es[1..], es[0].now);
      TimesGrow(es[0].now, es[1..]);
      RefillTwice(b, es[0].now, es[|es| - 1].now);
    }
  }

  /** A bucket too small for one token grants nothing until a success raises it. */
  lemma {:induction false} SmallBurstStarves(p: Params, b: Bucket, es: seq<BucketEvent>, s: int, t: int)
    requires Sane(p) && Sound(p, b) && b.burst < 1.0
    requires forall i :: 0 <= i < |es| ==> !es[i].SuccessAt?
    ensures GrantedIn(p, b, es, s, t) == 0
    decreases |es|
  {
    if es != [] {
      PlayKeepsSound(p, b, es[0]);
      match es[0] {
        case TryAt(now) => RefillKeepsSound(p, b, now);
        case PeekAt(now) => RefillKeepsSound(p, b, now);
        case ThrottleAt(_) => ThrottleKeepsSound(p, b);
        case SuccessAt(_) =>
      }
      SmallBurstStarves(p, Play(p, b, es[0]), es[1..], s, t);
    }
  }
}
