/**
 The adaptive token bucket of one gateway: refill, acquire, and AIMD feedback.  Rates are
 exact reals; times are milliseconds.
 */
module TokenBucket {

  datatype Params = Params(nominalRps: real, burstFactor: real, minRateFactor: real, aiStepRps: real)

  datatype Bucket = Bucket(rate: real, burst: real, tokens: real, lastRefill: int, throttleCount: nat)

  function Min(x: real, y: real): real { if x <= y then x else y }

  function Max(x: real, y: real): real { if x >= y then x else y }

  function MaxBurst(p: Params): real { p.nominalRps * p.burstFactor }

  function FloorRate(p: Params): real { p.nominalRps * p.minRateFactor }

  function FloorBurst(p: Params): real { p.nominalRps * p.minRateFactor * p.burstFactor }

  function NewBucket(p: Params, now: int): Bucket {
    Bucket(p.nominalRps, MaxBurst(p), MaxBurst(p), now, 0)
  }

  /** New limits refill the bucket; the refill clock and the throttle count go on. */
  function Reconfigured(p: Params, b: Bucket): Bucket {
    NewBucket(p, b.lastRefill).(throttleCount := b.throttleCount)
  }

  /** What a rate yields in a span of milliseconds. */
  function Yield(rate: real, ms: int): real { ms as real / 1000.0 * rate }

  function Refill(b: Bucket, now: int): Bucket {
    if now <= b.lastRefill then b
    else b.(tokens := Min(b.burst, b.tokens + Yield(b.rate, now - b.lastRefill)), lastRefill := now)
  }

  predicate Grants(b: Bucket, now: int) {
    Refill(b, now).tokens >= 1.0
  }

  function TryAcquire(b: Bucket, now: int): Bucket {
    var r := Refill(b, now);
    if r.tokens >= 1.0 then r.(tokens := r.tokens - 1.0) else r
  }

  /** Multiplicative decrease, on a 429 or 503. */
  function Throttled(p: Params, b: Bucket): Bucket {
    var rate := Max(FloorRate(p), b.rate * 0.5);
    var burst := Max(FloorBurst(p), b.burst * 0.5);
    b.(rate := rate, burst := burst, tokens := Min(b.tokens, burst), throttleCount := b.throttleCount + 1)
  }

  /** Additive increase, on every success. */
  function Succeeded(p: Params, b: Bucket): Bucket {
    var rate := if b.rate < p.nominalRps then Min(p.nominalRps, b.rate + p.aiStepRps) else b.rate;
    var burst := if b.burst < MaxBurst(p) then Min(MaxBurst(p), b.burst + p.aiStepRps * p.burstFactor) else b.burst;
    b.(rate := rate, burst := burst, tokens := Min(b.tokens, burst))
  }

  // ---------- the invariant ----------

  predicate Sane(p: Params) {
    p.nominalRps > 0.0 && 0.0 < p.minRateFactor <= 1.0 && p.burstFactor > 0.0 && p.aiStepRps >= 0.0
  }

  predicate Sound(p: Params, b: Bucket) {
    && FloorRate(p) <= b.rate <= p.nominalRps
    && b.burst == b.rate * p.burstFactor
    && FloorBurst(p) <= b.burst <= MaxBurst(p)
    && 0.0 <= b.tokens <= b.burst
  }

  lemma Scale(c: real, x: real, y: real)
    requires c >= 0.0
    ensures x <= y ==> x * c <= y * c
    ensures c > 0.0 && x < y ==> x * c < y * c
    ensures Min(x, y) * c == Min(x * c, y * c)
    ensures Max(x, y) * c == Max(x * c, y * c)
  {
  }

  lemma Portion(c: real, x: real, y: real)
    requires c > 0.0 && 0.0 < x <= y
    ensures 0.0 < x * c <= y * c
  {
    assert (y - x) * c >= 0.0;
  }

  lemma FloorsArePositive(p: Params)
    requires Sane(p)
    ensures 0.0 < FloorRate(p) <= p.nominalRps
    ensures 0.0 < FloorBurst(p) <= MaxBurst(p)
  {
    Portion(p.nominalRps, p.minRateFactor, 1.0);
    assert FloorRate(p) == p.minRateFactor * p.nominalRps && 1.0 * p.nominalRps == p.nominalRps;
    Portion(p.burstFactor, FloorRate(p), p.nominalRps);
  }

  lemma NewIsSound(p: Params, now: int)
    requires Sane(p)
    ensures Sound(p, NewBucket(p, now))
  {
    FloorsArePositive(p);
  }

  lemma YieldIsPositive(rate: real, ms: int)
    requires rate >= 0.0 && ms >= 0
    ensures Yield(rate, ms) >= 0.0
  {
    Scale(rate, 0.0, ms as real / 1000.0);
  }

  lemma RefillKeepsSound(p: Params, b: Bucket, now: int)
    requires Sane(p) && Sound(p, b)
    ensures Sound(p, Refill(b, now)) && Sound(p, TryAcquire(b, now))
    ensures Refill(b, now).tokens >= b.tokens
  {
    FloorsArePositive(p);
    if now > b.lastRefill {
      YieldIsPositive(b.rate, now - b.lastRefill);
    }
  }

  lemma ThrottleKeepsSound(p: Params, b: Bucket)
    requires Sane(p) && Sound(p, b)
    ensures Sound(p, Throttled(p, b))
    ensures Throttled(p, b).burst <= b.burst
  {
    FloorsArePositive(p);
    Scale(p.burstFactor, FloorRate(p), b.rate * 0.5);
    assert b.rate * 0.5 * p.burstFactor == b.burst * 0.5;
  }

  /** An increased rate, scaled, is the increased burst. */
  lemma IncreaseScales(c: real, rate: real, nominal: real, step: real)
    requires c > 0.0 && step >= 0.0
    ensures rate < nominal <==> rate * c < nominal * c
    ensures Min(nominal, rate + step) * c == Min(nominal * c, rate * c + step * c)
    ensures step * c >= 0.0
  {
    Scale(c, rate, nominal);
    Scale(c, nominal, rate);
    Scale(c, nominal, rate + step);
    Scale(c, 0.0, step);
    assert (rate + step) * c == rate * c + step * c;
  }

  lemma SuccessKeepsSound(p: Params, b: Bucket)
    requires Sane(p) && Sound(p, b)
    ensures Sound(p, Succeeded(p, b))
    ensures b.burst <= Succeeded(p, b).burst
  {
    FloorsArePositive(p);
    IncreaseScales(p.burstFactor, b.rate, p.nominalRps, p.aiStepRps);
  }
}
