/**
 The registries: a bucket and a breaker per gateway, created on first use.  A registered
 control belongs to one gateway, so whatever a call does to its own control, every other
 gateway's stays as it was.
 */
module GuardRegistries {
  import opened Options
  import TB = TokenBucket
  import TR = TokenBucketRuns
  import CB = CircuitBreaker
  import AB = AdaptiveTokenBucket

  /** A control with its limits. */
  datatype Control<P, S> = Control(params: P, state: S)

  type BucketView = Control<TB.Params, TB.Bucket>

  type BreakerView = Control<CB.Params, CB.Breaker>

  class BucketRegistry {
    const defaults: TB.Params
    var buckets: map<string, AB.AdaptiveTokenBucket>

    /** No two gateways share a bucket. */
    ghost predicate Valid()
      reads this
    {
      forall x, y :: x in buckets && y in buckets && buckets[x] == buckets[y] ==> x == y
    }

    ghost function Repr(): set<object>
      reads this
    {
      {this} + buckets.Values
    }

    ghost function View(id: string): Option<BucketView>
      reads this, if id in buckets then {buckets[id]} else {}
    {
      if id in buckets then Some(Control(buckets[id].params, buckets[id].Model())) else None
    }

    /** The bucket a call at `now` finds: the registered one, or a new one. */
    ghost function Found(id: string, now: int): BucketView
      reads this, if id in buckets then {buckets[id]} else {}
    {
      if id in buckets then View(id).value else Control(defaults, TB.NewBucket(defaults, now))
    }

    constructor (p: TB.Params)
      ensures Valid() && defaults == p && buckets == map[]
    {
      defaults, buckets := p, map[];
    }

    method Get(id: string, now: int) returns (bucket: AB.AdaptiveTokenBucket)
      requires Valid()
      modifies this
      ensures Valid() && buckets == old(buckets)[id := bucket]
      ensures if id in old(buckets) then bucket == old(buckets[id]) else fresh(bucket)
      ensures fresh(Repr() - old(Repr()))
      ensures View(id) == Some(old(Found(id, now)))
      ensures forall x :: x != id ==> View(x) == old(View(x))
    {
      if id in buckets {
        return buckets[id];
      }
      bucket := new AB.AdaptiveTokenBucket(defaults, now);
      buckets := buckets[id := bucket];
    }

    /** A call uses the bucket of its gateway. */
    method Use(id: string, e: TR.BucketEvent) returns (granted: bool)
      requires Valid() && id in buckets
      modifies buckets[id]
      ensures var was := old(View(id)).value;
              && View(id) == Some(was.(state := TR.Play(was.params, was.state, e)))
              && granted == (e.TryAt? && TB.Grants(was.state, e.now))
      ensures forall x :: x != id ==> View(x) == old(View(x))
    {
      granted := buckets[id].Handle(e);
    }

    /** New limits for a bucket: a known one is refilled and keeps its refill clock and throttle count. */
    method Configure(id: string, p: TB.Params, now: int)
      requires Valid()
      modifies this, if id in buckets then {buckets[id]} else {}
      ensures Valid()
      ensures View(id) == Some(Control(p, TB.Reconfigured(p, old(Found(id, now)).state)))
      ensures forall x :: x != id ==> View(x) == old(View(x))
    {
      if id in buckets {
        buckets[id].Reconfigure(p);
      } else {
        var bucket := new AB.AdaptiveTokenBucket(p, now);
        buckets := buckets[id := bucket];
      }
    }
  }

  class BreakerRegistry {
    const defaults: CB.Params
    var breakers: map<string, CB.CircuitBreaker>
    ghost var clock: int

    /** No two gateways share a breaker, and none has seen a later time than the registry. */
    ghost predicate Valid()
      reads this, breakers.Values
    {
      && (forall x, y :: x in breakers && y in breakers && breakers[x] == breakers[y] ==> x == y)
      && (forall x :: x in breakers ==> breakers[x].Valid() && breakers[x].clock <= clock)
    }

    ghost function Repr(): set<object>
      reads this
    {
      {this} + breakers.Values
    }

    ghost function View(id: string): Option<BreakerView>
      reads this, if id in breakers then {breakers[id]} else {}
    {
      if id in breakers then Some(Control(breakers[id].params, breakers[id].Model())) else None
    }

    ghost function Found(id: string): BreakerView
      reads this, if id in breakers then {breakers[id]} else {}
    {
      if id in breakers then View(id).value else Control(defaults, CB.FRESH)
    }

    constructor (p: CB.Params, ghost now: int)
      ensures Valid() && defaults == p && breakers == map[] && clock == now
    {
      defaults, breakers, clock := p, map[], now;
    }

    method Get(id: string) returns (breaker: CB.CircuitBreaker)
      requires Valid()
      modifies `breakers
      ensures Valid() && breakers == old(breakers)[id := breaker]
      ensures if id in old(breakers) then breaker == old(breakers[id]) else fresh(breaker)
      ensures fresh(Repr() - old(Repr()))
      ensures View(id) == Some(old(Found(id)))
      ensures forall x :: x != id ==> View(x) == old(View(x))
    {
      if id in breakers {
        return breakers[id];
      }
      breaker := new CB.CircuitBreaker(defaults, clock);
      breakers := breakers[id := breaker];
    }

    /** A call uses the breaker of its gateway: it asks for admission or reports an outcome. */
    method Use(id: string, e: CB.BreakerEvent) returns (answer: seq<bool>)
      requires Valid() && id in breakers && clock <= e.now
      modifies `clock, breakers[id]
      ensures Valid() && clock == e.now
      ensures var was := old(View(id)).value;
              && View(id) == Some(was.(state := CB.Play(was.params, was.state, e)))
              && answer == CB.AnswerTo(was.params, was.state, e)
      ensures forall x :: x != id ==> View(x) == old(View(x))
    {
      clock := e.now;
      answer := breakers[id].Handle(e);
    }

    method Look(id: string, now: int) returns (snapshot: CB.Snapshot)
      requires Valid() && id in breakers && clock <= now
      modifies `clock, breakers[id]
      ensures Valid() && clock == now
      ensures snapshot == CB.SnapshotOf(old(View(id)).value.params, old(View(id)).value.state, now)
      ensures forall x :: View(x) == old(View(x))
    {
      clock := now;
      snapshot := breakers[id].GetState(now);
    }

    /** New limits for a breaker: a known one is reset. */
    method Configure(id: string, p: CB.Params)
      requires Valid()
      modifies `breakers, if id in breakers then {breakers[id]} else {}
      ensures Valid()
      ensures View(id) == Some(Control(p, CB.FRESH))
      ensures forall x :: x != id ==> View(x) == old(View(x))
    {
      if id in breakers {
        breakers[id].Reconfigure(p);
      } else {
        var breaker := new CB.CircuitBreaker(p, clock);
        breakers := breakers[id := breaker];
      }
    }
  }
}
