/**
 The execution lock among any number of workers: SET NX with a time to live, released by
 an unconditional DEL.  Deleting without looking is safe exactly as long as nobody tries
 to acquire the lock while its holder has outlived the time to live.
 */
module ExecutionLock {
  import opened Options

  type Worker = nat

  /** The key with its expiry time, and the workers between acquire and release. */
  datatype LockState = LockState(now: int, expiry: Option<int>, holders: map<Worker, int>)

  datatype LockEvent = Tick(elapsed: nat) | Acquire(worker: Worker) | Release(worker: Worker)

  predicate KeyExists(s: LockState) {
    s.expiry.Some? && s.now < s.expiry.value
  }

  /** A worker acquires at most once at a time, and releases only what it acquired. */
  function LockStep(s: LockState, e: LockEvent, ttl: nat): LockState {
    match e
    case Tick(elapsed) => s.(now := s.now + elapsed)
    case Acquire(w) =>
      if w in s.holders || KeyExists(s) then s
      else s.(expiry := Some(s.now + ttl), holders := s.holders[w := s.now])
    case Release(w) =>
      if w in s.holders then s.(expiry := None, holders := s.holders - {w}) else s
  }

  function LockRun(start: int, es: seq<LockEvent>, ttl: nat): LockState {
    if es == [] then LockState(start, None, map[])
    else LockStep(LockRun(start, es[..|es| - 1], ttl), es[|es| - 1], ttl)
  }

  /** No two workers hold the lock. */
  predicate Exclusive(s: LockState) {
    forall v, w :: v in s.holders && w in s.holders ==> v == w
  }

  /** Some worker holds the lock past its time to live. */
  predicate Overstayed(s: LockState, ttl: nat) {
    exists w :: w in s.holders && s.now >= s.holders[w] + ttl
  }

  /** Exclusive after every step of the run. */
  predicate AlwaysExclusive(start: int, es: seq<LockEvent>, ttl: nat) {
    Exclusive(LockRun(start, es, ttl)) && (es == [] || AlwaysExclusive(start, es[..|es| - 1], ttl))
  }

  /** Nobody new ever asks for the lock while its holder overstays. */
  predicate NeverOvertaken(start: int, es: seq<LockEvent>, ttl: nat) {
    es == [] ||
    (var s := LockRun(start, es[..|es| - 1], ttl);
     var e := es[|es| - 1];
     && NeverOvertaken(start, es[..|es| - 1], ttl)
     && (e.Acquire? && e.worker !in s.holders ==> !Overstayed(s, ttl)))
  }

  /** Nobody holds the lock and the key is gone or expired, or its one holder wrote the key. */
  predicate Owned(s: LockState, ttl: nat) {
    || (s.holders == map[] && !KeyExists(s))
    || exists w :: w in s.holders && s.holders == map[w := s.holders[w]] && s.expiry == Some(s.holders[w] + ttl)
  }

  lemma OwnedIsExclusive(s: LockState, ttl: nat)
    requires Owned(s, ttl)
    ensures Exclusive(s)
    ensures KeyExists(s) <==> s.holders != map[] && !Overstayed(s, ttl)
  {
    if s.holders != map[] {
      var w :| w in s.holders && s.holders == map[w := s.holders[w]] && s.expiry == Some(s.holders[w] + ttl);
      assert forall v :: v in s.holders ==> v == w;
    }
  }

  /** One step either keeps the lock owned, or lets a second worker in. */
  lemma StepOwnedOrShared(s: LockState, e: LockEvent, ttl: nat)
    requires ttl > 0
    requires Owned(s, ttl)
    ensures if e.Acquire? && e.worker !in s.holders && Overstayed(s, ttl)
            then !Exclusive(LockStep(s, e, ttl))
            else Owned(LockStep(s, e, ttl), ttl)
  {
    OwnedIsExclusive(s, ttl);
    var t := LockStep(s, e, ttl);
    if s.holders == map[] {
      if e.Acquire? {
        assert t.holders == map[e.worker := s.now];
      }
    } else {
      var w :| w in s.holders && s.holders == map[w := s.holders[w]] && s.expiry == Some(s.holders[w] + ttl);
      if e.Release? && e.worker in s.holders {
        assert t.holders == map[];
      } else if e.Acquire? && e.worker !in s.holders && Overstayed(s, ttl) {
        assert e.worker in t.holders && w in t.holders;
      } else {
        assert t.holders == s.holders && w in t.holders;
      }
    }
  }

  lemma {:induction false} RunOwnedOrShared(start: int, es: seq<LockEvent>, ttl: nat)
    requires ttl > 0
    ensures NeverOvertaken(start, es, ttl) ==> Owned(LockRun(start, es, ttl), ttl)
    ensures NeverOvertaken(start, es, ttl) <==> AlwaysExclusive(start, es, ttl)
  {
    if es != [] {
      var before := es[..|es| - 1];
      RunOwnedOrShared(start, before, ttl);
      if NeverOvertaken(start, before, ttl) {
        StepOwnedOrShared(LockRun(start, before, ttl), es[|es| - 1], ttl);
      }
    }
    if NeverOvertaken(start, es, ttl) {
      OwnedIsExclusive(LockRun(start, es, ttl), ttl);
    }
  }

  /**
   Mutual exclusion holds after every step of a run if and only if no worker asks for the
   lock while its holder has outlived the time to live.
   */
  lemma MutualExclusionIff(start: int, es: seq<LockEvent>, ttl: nat)
    requires ttl > 0
    ensures AlwaysExclusive(start, es, ttl) <==> NeverOvertaken(start, es, ttl)
  {
    RunOwnedOrShared(start, es, ttl);
  }

  /** No holder outlives the time to live at any state of the run. */
  predicate Prompt(start: int, es: seq<LockEvent>, ttl: nat) {
    !Overstayed(LockRun(start, es, ttl), ttl) && (es == [] || Prompt(start, es[..|es| - 1], ttl))
  }

  lemma {:induction false} PromptIsNeverOvertaken(start: int, es: seq<LockEvent>, ttl: nat)
    requires Prompt(start, es, ttl)
    ensures NeverOvertaken(start, es, ttl)
  {
    if es != [] {
      PromptIsNeverOvertaken(start, es[..|es| - 1], ttl);
    }
  }

  /** With prompt holders, at most one worker works and the key exists exactly while one does. */
  lemma KeyMarksTheOneHolder(start: int, es: seq<LockEvent>, ttl: nat)
    requires ttl > 0
    requires Prompt(start, es, ttl)
    ensures Exclusive(LockRun(start, es, ttl))
    ensures KeyExists(LockRun(start, es, ttl)) <==> LockRun(start, es, ttl).holders != map[]
  {
    PromptIsNeverOvertaken(start, es, ttl);
    RunOwnedOrShared(start, es, ttl);
    OwnedIsExclusive(LockRun(start, es, ttl), ttl);
  }

  /** Does the event hand the lock to its worker? */
  predicate Obtains(s: LockState, e: LockEvent, ttl: nat) {
    e.Acquire? && e.worker !in s.holders && e.worker in LockStep(s, e, ttl).holders
  }

  /**
   Who gets the lock.  In a run with prompt holders a worker that asks for it gets it if and
   only if nobody holds it; it then has it for the time to live from now on, and until it
   releases it nobody else does.
   */
  lemma LockIsGrantedIff(start: int, es: seq<LockEvent>, ttl: nat, worker: Worker)
    requires ttl > 0
    requires Prompt(start, es, ttl)
    ensures var s := LockRun(start, es, ttl);
            var s' := LockStep(s, Acquire(worker), ttl);
            && (Obtains(s, Acquire(worker), ttl) <==> s.holders == map[])
            && (s.holders == map[] ==> s'.holders == map[worker := s.now] && s'.expiry == Some(s.now + ttl))
            && (s.holders != map[] ==> s' == s)
            && LockStep(s', Release(worker), ttl).holders == s'.holders - {worker}
  {
    KeyMarksTheOneHolder(start, es, ttl);
  }
}
