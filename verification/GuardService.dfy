/**
 The guard as it runs: the steps of a call look up their gateway's controls in the
 registries and update them in place.  Played in any interleaving over any gateways, every
 gateway's controls end as if it had been alone.
 */
module GuardService {
  import opened Errors
  import opened Options
  import opened GatewayGuard
  import opened GuardRegistries

  class Guard {
    const rateLimiters: BucketRegistry
    const breakers: BreakerRegistry

    ghost predicate Valid()
      reads rateLimiters, breakers, breakers.Repr()
    {
      rateLimiters.Valid() && breakers.Valid() && rateLimiters.Repr() !! breakers.Repr()
    }

    constructor (p: Policy, ghost now: int)
      ensures Valid() && fresh(rateLimiters.Repr()) && fresh(breakers.Repr())
      ensures rateLimiters.defaults == p.bucket && breakers.defaults == p.breaker && breakers.clock == now
      ensures rateLimiters.buckets == map[] && breakers.breakers == map[]
    {
      rateLimiters := new BucketRegistry(p.bucket);
      breakers := new BreakerRegistry(p.breaker, now);
    }

    /** One poll of a call's wait for a token. */
    method PollToken(id: string, now: int) returns (granted: bool)
      requires Valid()
      modifies rateLimiters.Repr()
      ensures Valid() && fresh(rateLimiters.Repr() - old(rateLimiters.Repr()))
      ensures var found := old(rateLimiters.Found(id, now));
              && granted == TB.Grants(found.state, now)
              && rateLimiters.View(id) == Some(found.(state := TB.TryAcquire(found.state, now)))
      ensures forall x :: x != id ==> rateLimiters.View(x) == old(rateLimiters.View(x))
      ensures forall x :: breakers.View(x) == old(breakers.View(x))
    {
      var _ := rateLimiters.Get(id, now);
      granted := rateLimiters.Use(id, TR.TryAt(now));
    }

    /** The breaker's gate for a call that holds a token. */
    method Gate(id: string, now: int) returns (admitted: bool)
      requires Valid() && breakers.clock <= now
      modifies breakers.Repr()
      ensures Valid() && fresh(breakers.Repr() - old(breakers.Repr())) && breakers.clock == now
      ensures var found := old(breakers.Found(id));
              && admitted == CB.Admits(found.params, found.state, now)
              && breakers.View(id) == Some(found.(state := CB.Allow(found.params, found.state, now)))
      ensures forall x :: x != id ==> breakers.View(x) == old(breakers.View(x))
      ensures forall x :: rateLimiters.View(x) == old(rateLimiters.View(x))
    {
      var _ := breakers.Get(id);
      var answer := breakers.Use(id, CB.AllowAt(now));
      admitted := answer[0];
    }

    /** The feedback of an answer into the breaker: ok and transient answers only. */
    method Report(id: string, now: int, answer: Answer)
      requires Valid() && breakers.clock <= now && id in breakers.breakers
      modifies breakers`clock, breakers.breakers[id]
      ensures Valid() && breakers.clock <= now
      ensures var was := old(breakers.View(id)).value;
              breakers.View(id) == Some(was.(state := BreakerFeedback(was.params, was.state, now, answer)))
      ensures forall x :: x != id ==> breakers.View(x) == old(breakers.View(x))
      ensures forall x :: rateLimiters.View(x) == old(rateLimiters.View(x))
    {
      if answer.Success? || IsTransient(answer.code) {
        var _ := breakers.Use(id, CB.RecordAt(now, answer.Success?));
      }
    }

    /** The feedback of an answer into the bucket: successes and throttles only. */
    method Adapt(id: string, now: int, answer: Answer)
      requires Valid() && id in rateLimiters.buckets
      modifies rateLimiters.buckets[id]
      ensures Valid()
      ensures var was := old(rateLimiters.View(id)).value;
              rateLimiters.View(id) == Some(was.(state := BucketFeedback(was.params, was.state, answer)))
      ensures forall x :: x != id ==> rateLimiters.View(x) == old(rateLimiters.View(x))
      ensures forall x :: breakers.View(x) == old(breakers.View(x))
    {
      match answer
      case Failure(_, httpStatus) =>
        if httpStatus == 429 || httpStatus == 503 {
          var _ := rateLimiters.Use(id, TR.ThrottleAt(now));
        }
      case Success =>
        var _ := rateLimiters.Use(id, TR.SuccessAt(now));
    }

    /** The gateway's answer: feedback into the two controls of this gateway. */
    method Respond(id: string, now: int, answer: Answer)
      requires Valid() && breakers.clock <= now
      requires id in rateLimiters.buckets && id in breakers.breakers
      modifies breakers`clock, rateLimiters.buckets[id], breakers.breakers[id]
      ensures Valid() && breakers.clock <= now
      ensures var was := old(breakers.View(id)).value;
              breakers.View(id) == Some(was.(state := BreakerFeedback(was.params, was.state, now, answer)))
      ensures var was := old(rateLimiters.View(id)).value;
              rateLimiters.View(id) == Some(was.(state := BucketFeedback(was.params, was.state, answer)))
      ensures forall x :: x != id ==> breakers.View(x) == old(breakers.View(x))
      ensures forall x :: x != id ==> rateLimiters.View(x) == old(rateLimiters.View(x))
    {
      if answer.Success? {
        Report(id, now, answer);
        Adapt(id, now, answer);
      } else {
        Adapt(id, now, answer);
        Report(id, now, answer);
      }
    }

    /** Looking at a gateway's health refills its bucket and leaves its breaker as it was. */
    method Health(id: string, now: int) returns (breaker: CB.Snapshot, bucket: TB.Bucket)
      requires Valid() && breakers.clock <= now
      modifies rateLimiters.Repr(), breakers.Repr()
      ensures Valid() && breakers.clock == now
      ensures fresh(rateLimiters.Repr() - old(rateLimiters.Repr())) && fresh(breakers.Repr() - old(breakers.Repr()))
      ensures var found := old(breakers.Found(id));
              breaker == CB.SnapshotOf(found.params, found.state, now) && breakers.View(id) == Some(found)
      ensures var found := old(rateLimiters.Found(id, now));
              bucket == TB.Refill(found.state, now) && rateLimiters.View(id) == Some(found.(state := bucket))
      ensures forall x :: x != id ==> breakers.View(x) == old(breakers.View(x))
      ensures forall x :: x != id ==> rateLimiters.View(x) == old(rateLimiters.View(x))
    {
      breaker := LookAtBreaker(id, now);
      bucket := LookAtBucket(id, now);
    }

    method LookAtBreaker(id: string, now: int) returns (breaker: CB.Snapshot)
      requires Valid() && breakers.clock <= now
      modifies breakers.Repr()
      ensures Valid() && fresh(breakers.Repr() - old(breakers.Repr())) && breakers.clock == now
      ensures var found := old(breakers.Found(id));
              breaker == CB.SnapshotOf(found.params, found.state, now) && breakers.View(id) == Some(found)
      ensures forall x :: x != id ==> breakers.View(x) == old(breakers.View(x))
      ensures forall x :: rateLimiters.View(x) == old(rateLimiters.View(x))
    {
      var _ := breakers.Get(id);
      breaker := breakers.Look(id, now);
    }

    method LookAtBucket(id: string, now: int) returns (bucket: TB.Bucket)
      requires Valid()
      modifies rateLimiters.Repr()
      ensures Valid() && fresh(rateLimiters.Repr() - old(rateLimiters.Repr()))
      ensures var found := old(rateLimiters.Found(id, now));
              bucket == TB.Refill(found.state, now) && rateLimiters.View(id) == Some(found.(state := bucket))
      ensures forall x :: x != id ==> rateLimiters.View(x) == old(rateLimiters.View(x))
      ensures forall x :: breakers.View(x) == old(breakers.View(x))
    {
      var tb := rateLimiters.Get(id, now);
      var _ := rateLimiters.Use(id, TR.PeekAt(now));
      bucket := TB.Bucket(tb.rate, tb.burst, tb.tokens, tb.lastRefill, tb.throttleCount);
    }
  }

  // ---------- any interleaving of calls ----------

  /** The calls of a gateway that wait behind their token or at the gateway, and the charges so far. */
  datatype Calls = Calls(holding: nat, inFlight: nat, charges: nat)

  const NO_CALLS := Calls(0, 0, 0)

  function CallsOf(g: Gateway): Calls {
    Calls(g.holding, g.inFlight, g.charges)
  }

  /** What the guard holds for a gateway is what the model says, or nothing if it was never used. */
  predicate Fits(p: Policy, bucket: Option<BucketView>, breaker: Option<BreakerView>, calls: Calls, g: Option<Gateway>) {
    match g
    case None => bucket.None? && breaker.None? && calls == NO_CALLS
    case Some(g) =>
      && bucket == Some(Control(p.bucket, g.bucket))
      && (if breaker.Some? then breaker.value else Control(p.breaker, CB.FRESH)) == Control(p.breaker, g.breaker)
      && (g.inFlight > 0 ==> breaker.Some?)
      && calls == CallsOf(g)
  }

  function Known(sys: System, id: string): Option<Gateway> {
    if id in sys then Some(sys[id]) else None
  }

  function CallsAt(calls: map<string, Calls>, id: string): Calls {
    if id in calls then calls[id] else NO_CALLS
  }

  ghost function PolicyOf(guard: Guard): Policy {
    Policy(guard.rateLimiters.defaults, guard.breakers.defaults)
  }

  ghost predicate Mirrors(guard: Guard, calls: Calls, g: Option<Gateway>, id: string)
    reads guard.rateLimiters, guard.breakers, guard.rateLimiters.Repr(), guard.breakers.Repr()
  {
    Fits(PolicyOf(guard), guard.rateLimiters.View(id), guard.breakers.View(id), calls, g)
  }

  ghost predicate MirrorsAll(guard: Guard, calls: map<string, Calls>, sys: System)
    reads guard.rateLimiters, guard.breakers, guard.rateLimiters.Repr(), guard.breakers.Repr()
  {
    forall id :: Mirrors(guard, CallsAt(calls, id), Known(sys, id), id)
  }

  /** A call begins, or goes on, by having its gateway's bucket looked up. */
  method Enter(guard: Guard, id: string, now: int, calls: map<string, Calls>, ghost sys: System)
    requires guard.Valid() && MirrorsAll(guard, calls, sys)
    modifies guard.rateLimiters
    ensures guard.Valid() && fresh(guard.rateLimiters.Repr() - old(guard.rateLimiters.Repr()))
    ensures MirrorsAll(guard, calls, sys[id := Lookup(PolicyOf(guard), sys, id, now)])
  {
    assert Mirrors(guard, CallsAt(calls, id), Known(sys, id), id);
    var _ := guard.rateLimiters.Get(id, now);
    ghost var entered := sys[id := Lookup(PolicyOf(guard), sys, id, now)];
    forall x
      ensures Mirrors(guard, CallsAt(calls, x), Known(entered, x), x)
    {
      assert old(Mirrors(guard, CallsAt(calls, x), Known(sys, x), x));
    }
  }

  /** Where a call that holds a token stands behind the gate: at the gateway, or turned away. */
  function Gated(at: Calls, admitted: bool): Calls
    requires at.holding > 0
  {
    if admitted then Calls(at.holding - 1, at.inFlight + 1, at.charges + 1) else at.(holding := at.holding - 1)
  }

  lemma GateFits(p: Policy, bucket: Option<BucketView>, breaker: Option<BreakerView>, at: Calls, g: Gateway, now: int)
    requires Fits(p, bucket, breaker, at, Some(g)) && at.holding > 0
    ensures Fits(p, bucket, Some(Control(p.breaker, CB.Allow(p.breaker, g.breaker, now))),
                 Gated(at, CB.Admits(p.breaker, g.breaker, now)), Some(GuardNext(p, g, Gate(now))))
  {
  }

  method GateOf(guard: Guard, id: string, now: int, at: Calls, ghost g: Gateway) returns (at': Calls)
    requires guard.Valid() && guard.breakers.clock <= now
    requires Mirrors(guard, at, Some(g), id)
    modifies guard.breakers.Repr()
    ensures guard.Valid() && guard.breakers.clock <= now
    ensures fresh(guard.breakers.Repr() - old(guard.breakers.Repr()))
    ensures Mirrors(guard, at', Some(GuardNext(PolicyOf(guard), g, Gate(now))), id)
    ensures forall x :: guard.rateLimiters.View(x) == old(guard.rateLimiters.View(x))
    ensures forall x :: x != id ==> guard.breakers.View(x) == old(guard.breakers.View(x))
  {
    if at.holding == 0 {
      return at;
    }
    var admitted := guard.Gate(id, now);
    at' := Gated(at, admitted);
    GateFits(PolicyOf(guard), guard.rateLimiters.View(id), old(guard.breakers.View(id)), at, g, now);
  }

  /** One step of a call, with the guard's methods and the call's own place. */
  method StepOf(guard: Guard, id: string, step: GuardStep, at: Calls, ghost g: Gateway) returns (at': Calls)
    requires guard.Valid() && guard.breakers.clock <= step.now
    requires Mirrors(guard, at, Some(g), id)
    modifies guard.rateLimiters.Repr(), guard.breakers.Repr()
    ensures guard.Valid() && guard.breakers.clock <= step.now
    ensures fresh(guard.rateLimiters.Repr() - old(guard.rateLimiters.Repr()))
    ensures fresh(guard.breakers.Repr() - old(guard.breakers.Repr()))
    ensures Mirrors(guard, at', Some(GuardNext(PolicyOf(guard), g, step)), id)
    ensures forall x :: x != id ==> guard.rateLimiters.View(x) == old(guard.rateLimiters.View(x))
    ensures forall x :: x != id ==> guard.breakers.View(x) == old(guard.breakers.View(x))
  {
    at' := at;
    match step
    case PollToken(now) =>
      var granted := guard.PollToken(id, now);
      if granted {
        at' := at.(holding := at.holding + 1);
      }
    case Gate(now) =>
      at' := GateOf(guard, id, now, at, g);
    case Respond(now, answer) =>
      if at.inFlight > 0 {
        guard.Respond(id, now, answer);
        at' := at.(inFlight := at.inFlight - 1);
      }
    case Health(now) =>
      var _, _ := guard.Health(id, now);
  }

  method PlayStep(guard: Guard, e: SystemStep, calls: map<string, Calls>, ghost sys: System)
    returns (calls': map<string, Calls>)
    requires guard.Valid() && guard.breakers.clock <= e.step.now
    requires MirrorsAll(guard, calls, sys)
    modifies guard.rateLimiters.Repr(), guard.breakers.Repr()
    ensures guard.Valid() && guard.breakers.clock <= e.step.now
    ensures fresh(guard.rateLimiters.Repr() - old(guard.rateLimiters.Repr()))
    ensures fresh(guard.breakers.Repr() - old(guard.breakers.Repr()))
    ensures MirrorsAll(guard, calls', SystemNext(PolicyOf(guard), sys, e))
  {
    var id := e.gatewayId;
    Enter(guard, id, e.step.now, calls, sys);
    ghost var g := Lookup(PolicyOf(guard), sys, id, e.step.now);
    ghost var entered := sys[id := g];
    assert Mirrors(guard, CallsAt(calls, id), Known(entered, id), id);
    label before:
    var at := StepOf(guard, id, e.step, CallsAt(calls, id), g);
    calls' := calls[id := at];
    ghost var next := SystemNext(PolicyOf(guard), sys, e);
    forall x
      ensures Mirrors(guard, CallsAt(calls', x), Known(next, x), x)
    {
      if x != id {
        assert old@before(Mirrors(guard, CallsAt(calls, x), Known(entered, x), x));
      }
    }
  }

  function SystemClock(from: int, es: seq<SystemStep>): int {
    if es == [] then from else es[|es| - 1].step.now
  }

  /** One clock for the whole system, and it does not run backwards. */
  predicate SystemTimed(from: int, es: seq<SystemStep>) {
    es == [] ||
    (var n := |es| - 1; SystemTimed(from, es[..n]) && SystemClock(from, es[..n]) <= es[n].step.now)
  }

  lemma {:induction false} TimedPrefix(from: int, es: seq<SystemStep>, i: nat)
    requires SystemTimed(from, es) && i < |es|
    ensures SystemClock(from, es[..i]) <= es[i].step.now
  {
    var n := |es| - 1;
    if i < n {
      TimedPrefix(from, es[..n], i);
      assert es[..n][..i] == es[..i];
    }
  }

  /** The gateway as it would be had nobody used another one; None if it was never used. */
  function Alone(p: Policy, es: seq<SystemStep>, id: string): Option<Gateway> {
    if StepsOf(es, id) == [] then None else Some(AloneRun(p, StepsOf(es, id)))
  }

  lemma KnownIsAlone(p: Policy, es: seq<SystemStep>, id: string)
    ensures Known(SystemRun(p, es), id) == Alone(p, es, id)
  {
    GatewaysAreIsolated(p, es, id);
  }

  /**
   Any interleaving of the steps of any calls over any gateways, on one guard with its
   registries: afterwards every gateway's bucket and breaker, and the calls it has let
   through, are those of its own steps alone.
   */
  method PlaySystem(p: Policy, start: int, es: seq<SystemStep>) returns (guard: Guard, calls: map<string, Calls>)
    requires SystemTimed(start, es)
    ensures guard.Valid()
    ensures forall id :: Fits(p, guard.rateLimiters.View(id), guard.breakers.View(id), CallsAt(calls, id), Alone(p, es, id))
  {
    guard := new Guard(p, start);
    calls := map[];
    for i := 0 to |es|
      invariant fresh(guard.rateLimiters.Repr()) && fresh(guard.breakers.Repr())
      invariant guard.Valid() && PolicyOf(guard) == p
      invariant guard.breakers.clock <= SystemClock(start, es[..i])
      invariant MirrorsAll(guard, calls, SystemRun(p, es[..i]))
    {
      TimedPrefix(start, es, i);
      assert es[..i + 1][..i] == es[..i];
      calls := PlayStep(guard, es[i], calls, SystemRun(p, es[..i]));
    }
    assert es[..|es|] == es;
    forall id
      ensures Fits(p, guard.rateLimiters.View(id), guard.breakers.View(id), CallsAt(calls, id), Alone(p, es, id))
    {
      assert Mirrors(guard, CallsAt(calls, id), Known(SystemRun(p, es), id), id);
      KnownIsAlone(p, es, id);
    }
  }
}
