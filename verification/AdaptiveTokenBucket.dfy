/**
 The token bucket as it runs: fields updated in place, and a caller that polls for a token
 while the clock moves and other calls feed back into the same bucket.
 */
module AdaptiveTokenBucket {
  import opened TokenBucket
  import opened TokenBucketRuns

  /**
   One round of a waiter: the clock when it tries for a token, the clock when it compares
   with its deadline, and what the rest of the system does to the bucket while it sleeps.
   */
  datatype Poll = Poll(acquireAt: int, checkAt: int, during: seq<BucketEvent>)

  /** Between five and fifteen milliseconds, and what is left if that is between. */
  function SleepMs(left: int): (ms: int)
    ensures 5 <= ms <= 15 && (5 <= left <= 15 ==> ms == left)
    ensures left < 5 ==> ms == 5
  {
    if left <= 5 then 5 else if left >= 15 then 15 else left
  }

  /** The clock does not run backwards, and a sleep lasts at least as long as asked. */
  predicate Awakes(env: nat -> Poll, i: nat, deadline: int) {
    && env(i).acquireAt <= env(i).checkAt
    && env(i).checkAt + SleepMs(deadline - env(i).checkAt) <= env(i + 1).acquireAt
  }

  ghost predicate KeepsTime(env: nat -> Poll, deadline: int) {
    forall i: nat :: Awakes(env, i, deadline)
  }

  /** The bucket as the waiter finds it at its n-th poll, if all polls before were in vain. */
  function BeforePoll(p: Params, b: Bucket, env: nat -> Poll, n: nat): Bucket {
    if n == 0 then b
    else PlayAll(p, TryAcquire(BeforePoll(p, b, env, n - 1), env(n - 1).acquireAt), env(n - 1).during)
  }

  predicate PollGrants(p: Params, b: Bucket, env: nat -> Poll, n: nat) {
    Grants(BeforePoll(p, b, env, n), env(n).acquireAt)
  }

  /** Poll number i was refused, and in good time to try again. */
  predicate InVain(p: Params, b: Bucket, env: nat -> Poll, deadline: int, i: nat) {
    !PollGrants(p, b, env, i) && env(i).checkAt < deadline
  }

  predicate Refused(p: Params, b: Bucket, env: nat -> Poll, deadline: int, n: nat) {
    forall i: nat :: i < n ==> InVain(p, b, env, deadline, i)
  }

  /** The n-th poll, counting from zero, is at most number ceil(timeout / 5). */
  predicate PollsInTime(n: nat, timeoutMs: nat) {
    5 * n < timeoutMs + 5
  }

  /** A wait that ends with poll number `last`: every poll before was refused in good time. */
  predicate WaitEnds(p: Params, b: Bucket, env: nat -> Poll, deadline: int, last: nat, got: bool) {
    && Refused(p, b, env, deadline, last)
    && got == PollGrants(p, b, env, last)
    && (!got ==> deadline <= env(last).checkAt)
  }

  /** Polls are five milliseconds apart at least. */
  lemma {:induction false} PollsAreSpaced(env: nat -> Poll, start: int, deadline: int, n: nat)
    requires KeepsTime(env, deadline) && start <= env(0).acquireAt
    ensures start + 5 * n <= env(n).acquireAt <= env(n).checkAt
  {
    assert Awakes(env, n, deadline);
    if n > 0 {
      PollsAreSpaced(env, start, deadline, n - 1);
      assert Awakes(env, n - 1, deadline);
    }
  }

  lemma OneMoreRefused(p: Params, b: Bucket, env: nat -> Poll, start: int, timeoutMs: nat, n: nat)
    requires KeepsTime(env, start + timeoutMs) && start <= env(0).acquireAt
    requires Refused(p, b, env, start + timeoutMs, n)
    requires !PollGrants(p, b, env, n) && env(n).checkAt < start + timeoutMs
    ensures Refused(p, b, env, start + timeoutMs, n + 1)
    ensures PollsInTime(n + 1, timeoutMs)
  {
    PollsAreSpaced(env, start, start + timeoutMs, n);
  }

  class AdaptiveTokenBucket {
    var params: Params
    var rate: real
    var burst: real
    var tokens: real
    var lastRefill: int
    var throttleCount: nat

    ghost function Model(): Bucket
      reads this
    {
      Bucket(rate, burst, tokens, lastRefill, throttleCount)
    }

    constructor (p: Params, now: int)
      ensures params == p && Model() == NewBucket(p, now)
      ensures rate == p.nominalRps && tokens == burst == p.nominalRps * p.burstFactor
      ensures lastRefill == now && throttleCount == 0
    {
      params, rate, burst, tokens := p, p.nominalRps, p.nominalRps * p.burstFactor, p.nominalRps * p.burstFactor;
      lastRefill, throttleCount := now, 0;
    }

    /** A new limit refills the bucket; the refill clock and the throttle count go on. */
    method Reconfigure(p: Params)
      modifies this
      ensures params == p
      ensures Model() == Reconfigured(p, old(Model()))
      ensures rate == p.nominalRps && tokens == burst == p.nominalRps * p.burstFactor
      ensures lastRefill == old(lastRefill) && throttleCount == old(throttleCount)
    {
      params, rate, burst, tokens := p, p.nominalRps, p.nominalRps * p.burstFactor, p.nominalRps * p.burstFactor;
    }

    method RefillAt(now: int)
      modifies `tokens, `lastRefill
      ensures Model() == Refill(old(Model()), now)
      ensures now <= old(lastRefill) ==> tokens == old(tokens) && lastRefill == old(lastRefill)
      ensures now > old(lastRefill) ==>
                && lastRefill == now
                && tokens == Min(burst, old(tokens) + (now - old(lastRefill)) as real / 1000.0 * rate)
    {
      if now <= lastRefill {
        return;
      }
      var elapsedSeconds := (now - lastRefill) as real / 1000.0;
      tokens := Min(burst, tokens + elapsedSeconds * rate);
      lastRefill := now;
    }

    method TryAcquireAt(now: int) returns (granted: bool)
      modifies `tokens, `lastRefill
      ensures granted == Grants(old(Model()), now)
      ensures Model() == TryAcquire(old(Model()), now)
    {
      RefillAt(now);
      if tokens >= 1.0 {
        tokens := tokens - 1.0;
        return true;
      }
      return false;
    }

    method OnThrottled()
      modifies `rate, `burst, `tokens, `throttleCount
      ensures Model() == Throttled(params, old(Model()))
      ensures rate == Max(params.nominalRps * params.minRateFactor, old(rate) * 0.5)
      ensures tokens == Min(old(tokens), burst) && throttleCount == old(throttleCount) + 1
    {
      rate := Max(params.nominalRps * params.minRateFactor, rate * 0.5);
      burst := Max(params.nominalRps * params.minRateFactor * params.burstFactor, burst * 0.5);
      tokens := Min(tokens, burst);
      throttleCount := throttleCount + 1;
    }

    method OnSuccess()
      modifies `rate, `burst, `tokens
      ensures Model() == Succeeded(params, old(Model()))
      ensures old(rate) < params.nominalRps ==> rate == Min(params.nominalRps, old(rate) + params.aiStepRps)
      ensures old(rate) >= params.nominalRps ==> rate == old(rate)
      ensures tokens == Min(old(tokens), burst)
    {
      ghost var b := Model();
      var maxBurst := params.nominalRps * params.burstFactor;
      if rate < params.nominalRps {
        rate := Min(params.nominalRps, rate + params.aiStepRps);
      }
      assert rate == Succeeded(params, b).rate;
      if burst < maxBurst {
        burst := Min(maxBurst, burst + params.aiStepRps * params.burstFactor);
      }
      assert burst == Succeeded(params, b).burst;
      tokens := Min(tokens, burst);
    }

    method Handle(e: BucketEvent) returns (granted: bool)
      modifies `rate, `burst, `tokens, `lastRefill, `throttleCount
      ensures Model() == Play(params, old(Model()), e)
      ensures granted == (e.TryAt? && Grants(old(Model()), e.now))
    {
      granted := false;
      match e
      case TryAt(now) => granted := TryAcquireAt(now);
      case PeekAt(now) => RefillAt(now);
      case ThrottleAt(_) => OnThrottled();
      case SuccessAt(_) => OnSuccess();
    }

    /** The rest of the system, while the waiter sleeps. */
    method Sleep(during: seq<BucketEvent>)
      modifies `rate, `burst, `tokens, `lastRefill, `throttleCount
      ensures Model() == PlayAll(params, old(Model()), during)
    {
      for i := 0 to |during|
        invariant PlayAll(params, Model(), during[i..]) == PlayAll(params, old(Model()), during)
      {
        assert during[i..][1..] == during[i + 1..];
        var _ := Handle(during[i]);
      }
    }

    /**
     Poll until a token is granted or the deadline has passed.  The polls are bounded by the
     timeout, whatever the clock and the rest of the system do.
     */
    method WaitForToken(start: int, timeoutMs: nat, env: nat -> Poll) returns (got: bool, ghost last: nat)
      requires start <= env(0).acquireAt
      requires KeepsTime(env, start + timeoutMs)
      modifies `rate, `burst, `tokens, `lastRefill, `throttleCount
      ensures WaitEnds(params, old(Model()), env, start + timeoutMs, last, got)
      ensures Model() == TryAcquire(BeforePoll(params, old(Model()), env, last), env(last).acquireAt)
      ensures PollsInTime(last, timeoutMs)
    {
      var deadline := start + timeoutMs;
      ghost var b := Model();
      var i: nat := 0;
      while true
        invariant Model() == BeforePoll(params, b, env, i)
        invariant Refused(params, b, env, deadline, i)
        invariant PollsInTime(i, timeoutMs)
        decreases timeoutMs + 5 - 5 * i
      {
        got := TryAcquireAt(env(i).acquireAt);
        if got {
          return true, i;
        }
        if env(i).checkAt >= deadline {
          return false, i;
        }
        Sleep(env(i).during);
        OneMoreRefused(params, b, env, start, timeoutMs, i);
        i := i + 1;
      }
    }
  }

  // ---------- what a waiter can count on ----------

  /** Nobody else polls the bucket while the waiter sleeps. */
  predicate NoRival(during: seq<BucketEvent>) {
    forall i :: 0 <= i < |during| ==> !during[i].TryAt?
  }

  predicate AloneAfter(env: nat -> Poll, i: nat) {
    NoRival(env(i).during)
  }

  /** A token accrued at the floor rate since `start`, up to one whole token. */
  predicate Accrued(p: Params, b: Bucket, start: int) {
    b.tokens >= Min(1.0, Yield(FloorRate(p), b.lastRefill - start))
  }

  lemma RefillKeepsAccrual(p: Params, b: Bucket, now: int, start: int)
    requires Sane(p) && Sound(p, b) && FloorBurst(p) >= 1.0
    requires Accrued(p, b, start)
    ensures Sound(p, Refill(b, now)) && Accrued(p, Refill(b, now), start)
  {
    RefillKeepsSound(p, b, now);
    if now > b.lastRefill {
      YieldSplits(FloorRate(p), start, b.lastRefill, now);
      YieldGrows(FloorRate(p), b.rate, now - b.lastRefill);
      FloorsArePositive(p);
      YieldIsPositive(FloorRate(p), now - b.lastRefill);
    }
  }

  lemma {:induction false} FeedbackKeepsAccrual(p: Params, b: Bucket, es: seq<BucketEvent>, start: int)
    requires Sane(p) && Sound(p, b) && FloorBurst(p) >= 1.0
    requires Accrued(p, b, start) && NoRival(es)
    ensures Sound(p, PlayAll(p, b, es)) && Accrued(p, PlayAll(p, b, es), start)
    decreases |es|
  {
    if es != [] {
      match es[0] {
        case ThrottleAt(_) => ThrottleKeepsSound(p, b);
        case SuccessAt(_) => SuccessKeepsSound(p, b);
        case PeekAt(now) => RefillKeepsAccrual(p, b, now, start);
        case TryAt(_) => assert false;
      }
      FeedbackKeepsAccrual(p, Play(p, b, es[0]), es[1..], start);
    }
  }

  /** While polls are refused, the bucket fills at least at the floor rate. */
  lemma {:induction false} WaitingAccrues(p: Params, b: Bucket, env: nat -> Poll, start: int, n: nat)
    requires Sane(p) && Sound(p, b) && FloorBurst(p) >= 1.0
    requires b.lastRefill <= start
    requires forall i: nat :: i < n ==> !PollGrants(p, b, env, i) && AloneAfter(env, i)
    ensures Sound(p, BeforePoll(p, b, env, n)) && Accrued(p, BeforePoll(p, b, env, n), start)
  {
    if n == 0 {
      FloorsArePositive(p);
      YieldIsPositive(FloorRate(p), start - b.lastRefill);
      YieldSplits(FloorRate(p), start, b.lastRefill, start);
    } else {
      WaitingAccrues(p, b, env, start, n - 1);
      var b' := BeforePoll(p, b, env, n - 1);
      assert !PollGrants(p, b, env, n - 1) && AloneAfter(env, n - 1);
      RefillKeepsAccrual(p, b', env(n - 1).acquireAt, start);
      FeedbackKeepsAccrual(p, Refill(b', env(n - 1).acquireAt), env(n - 1).during, start);
    }
  }

  /** Once the floor rate has yielded a token since `start`, the next poll is granted. */
  lemma RipePollIsGranted(p: Params, b: Bucket, env: nat -> Poll, start: int, ripe: int, n: nat)
    requires Sane(p) && Sound(p, b) && FloorBurst(p) >= 1.0
    requires b.lastRefill <= start
    requires forall i: nat :: i < n ==> !PollGrants(p, b, env, i) && AloneAfter(env, i)
    requires Yield(FloorRate(p), ripe - start) >= 1.0
    requires ripe <= env(n).acquireAt
    ensures PollGrants(p, b, env, n)
  {
    WaitingAccrues(p, b, env, start, n);
    var b' := BeforePoll(p, b, env, n);
    RefillKeepsAccrual(p, b', env(n).acquireAt, start);
    var r := Refill(b', env(n).acquireAt);
    FloorsArePositive(p);
    YieldSplits(FloorRate(p), start, ripe, r.lastRefill);
    YieldIsPositive(FloorRate(p), r.lastRefill - ripe);
  }

  /**
   A sole waiter gets its token, if the smallest burst holds one and its timeout covers both
   the time the floor rate takes for one token and the time that passes between the last
   poll and the deadline test after it.
   */
  lemma SoleWaiterGetsItsToken(p: Params, b: Bucket, env: nat -> Poll, start: int, timeoutMs: nat, last: nat, got: bool, slackMs: nat)
    requires Sane(p) && Sound(p, b) && FloorBurst(p) >= 1.0
    requires b.lastRefill <= start
    requires WaitEnds(p, b, env, start + timeoutMs, last, got)
    requires forall i: nat :: i < last ==> AloneAfter(env, i)
    requires env(last).checkAt - env(last).acquireAt <= slackMs <= timeoutMs
    requires Yield(FloorRate(p), timeoutMs - slackMs) >= 1.0
    ensures got
  {
    if !got {
      forall i: nat | i < last
        ensures !PollGrants(p, b, env, i) && AloneAfter(env, i)
      {
        assert InVain(p, b, env, start + timeoutMs, i);
      }
      RipePollIsGranted(p, b, env, start, start + timeoutMs - slackMs, last);
    }
  }

  /** A whole wait of a sole waiter whose clock moves at most `slackMs` between its two readings. */
  ghost predicate SoleWait(p: Params, b: Bucket, env: nat -> Poll, start: int, timeoutMs: nat, slackMs: nat, last: nat, got: bool) {
    && Sound(p, b) && b.lastRefill <= start <= env(0).acquireAt
    && KeepsTime(env, start + timeoutMs)
    && WaitEnds(p, b, env, start + timeoutMs, last, got)
    && (forall i: nat :: i < last ==> AloneAfter(env, i))
    && env(last).checkAt - env(last).acquireAt <= slackMs
  }

  ghost predicate AlwaysServed(p: Params, timeoutMs: nat, slackMs: nat) {
    forall b, env, start, last, got :: SoleWait(p, b, env, start, timeoutMs, slackMs, last, got) ==> got
  }

  // ---------- and what it cannot ----------

  /** One poll `slackMs` before the deadline, whose deadline test comes right on it. */
  function LastMoment(timeoutMs: nat, slackMs: nat, i: nat): Poll {
    if i == 0 then Poll(timeoutMs - slackMs, timeoutMs, [])
    else Poll(timeoutMs + 20 * i, timeoutMs + 20 * i, [])
  }

  function Drained(p: Params): Bucket {
    Bucket(FloorRate(p), FloorBurst(p), 0.0, 0, 0)
  }

  lemma LastMomentKeepsTime(timeoutMs: nat, slackMs: nat, env: nat -> Poll)
    requires forall i: nat :: env(i) == LastMoment(timeoutMs, slackMs, i)
    ensures KeepsTime(env, timeoutMs)
  {
    forall i: nat
      ensures Awakes(env, i, timeoutMs)
    {
      assert env(i) == LastMoment(timeoutMs, slackMs, i) && env(i + 1) == LastMoment(timeoutMs, slackMs, i + 1);
    }
  }

  lemma DrainedGrantsNothing(p: Params, now: nat)
    requires Sane(p)
    requires FloorBurst(p) < 1.0 || Yield(FloorRate(p), now) < 1.0
    ensures Sound(p, Drained(p)) && !Grants(Drained(p), now)
  {
    FloorsArePositive(p);
  }

  lemma LastMomentMisses(p: Params, timeoutMs: nat, slackMs: nat)
    requires Sane(p) && slackMs <= timeoutMs
    requires FloorBurst(p) < 1.0 || Yield(FloorRate(p), timeoutMs - slackMs) < 1.0
    ensures !AlwaysServed(p, timeoutMs, slackMs)
  {
    var env := (i: nat) => LastMoment(timeoutMs, slackMs, i);
    LastMomentKeepsTime(timeoutMs, slackMs, env);
    DrainedGrantsNothing(p, timeoutMs - slackMs);
    assert SoleWait(p, Drained(p), env, 0, timeoutMs, slackMs, 0, false);
  }

  /**
   The exact condition: every wait on every sound bucket is served, if and only if the
   smallest burst holds a token and the floor rate yields one within the timeout less the
   time that may pass between the last poll and its deadline test.
   */
  lemma TokenGuaranteedIff(p: Params, timeoutMs: nat, slackMs: nat)
    requires Sane(p) && slackMs <= timeoutMs
    ensures AlwaysServed(p, timeoutMs, slackMs)
       <==> && p.nominalRps * p.minRateFactor * p.burstFactor >= 1.0
            && (timeoutMs - slackMs) as real / 1000.0 * (p.nominalRps * p.minRateFactor) >= 1.0
  {
    if FloorBurst(p) >= 1.0 && Yield(FloorRate(p), timeoutMs - slackMs) >= 1.0 {
      forall b, env, start, last, got | SoleWait(p, b, env, start, timeoutMs, slackMs, last, got)
        ensures got
      {
        SoleWaiterGetsItsToken(p, b, env, start, timeoutMs, last, got, slackMs);
      }
    } else {
      LastMomentMisses(p, timeoutMs, slackMs);
    }
  }

  const ONE_PER_SECOND := Params(1.0, 1.0, 1.0, 0.0)

  function LatePolls(i: nat): Poll {
    if i == 0 then Poll(0, 0, [])
    else if i == 1 then Poll(999, 1000, [])
    else Poll(1000 + 20 * i, 1000 + 20 * i, [])
  }

  /**
   The slack is needed: with a timeout of exactly one token's time, a poll just before the
   deadline and a deadline test just after it, a sole waiter that has just spent the only
   token of a new bucket leaves empty-handed.
   */
  lemma TightTimeoutCanMiss()
    ensures var b := TryAcquire(NewBucket(ONE_PER_SECOND, 0), 0);
            && Sane(ONE_PER_SECOND) && Sound(ONE_PER_SECOND, b) && FloorBurst(ONE_PER_SECOND) >= 1.0
            && Yield(FloorRate(ONE_PER_SECOND), 1000) >= 1.0
            && KeepsTime(LatePolls, 1000)
            && WaitEnds(ONE_PER_SECOND, b, LatePolls, 1000, 1, false)
  {
    var b := TryAcquire(NewBucket(ONE_PER_SECOND, 0), 0);
    assert b == NewBucket(ONE_PER_SECOND, 0).(tokens := 0.0);
    assert BeforePoll(ONE_PER_SECOND, b, LatePolls, 0) == b;
    assert BeforePoll(ONE_PER_SECOND, b, LatePolls, 1) == b;
    assert Refill(b, 999).tokens == 0.999;
    assert !PollGrants(ONE_PER_SECOND, b, LatePolls, 0);
  }
}
