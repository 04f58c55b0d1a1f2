/**
 The metrics collector's buffer as it runs, against the full history of attempts.
 */
module MetricsCollector {
  import opened Counting
  import opened Options
  import opened SlidingWindow
  import opened MetricsWindow

  datatype Snapshot = Snapshot(tps: nat, ok: nat, failed: int, total: nat, errorRate: real, p95Ms: Option<int>, p99Ms: Option<int>)

  function Succeeded(h: seq<Stamped<Attempt>>): nat {
    if h == [] then 0 else Succeeded(h[..|h| - 1]) + if h[|h| - 1].value.ok then 1 else 0
  }

  function Durations(h: seq<Stamped<Attempt>>): seq<int> {
    seq(|h|, i requires 0 <= i < |h| => h[i].value.durationMs)
  }

  function Rate(part: int, whole: nat): real {
    if whole == 0 then 0.0 else part as real / whole as real
  }

  /** What a snapshot says about the attempts in its window. */
  function Summary(inWindow: seq<Stamped<Attempt>>, now: int): Snapshot {
    var ok, total := Succeeded(inWindow), |inWindow|;
    var durations := Sort(Durations(inWindow));
    Snapshot(|Aged(inWindow, now - 1000)|, ok, total - ok, total, Rate(total - ok, total),
             Percentile(durations, 0.95), Percentile(durations, 0.99))
  }

  /** The attempts a snapshot at `now` should describe: the young ones, the last ten thousand of them. */
  function InWindow(history: seq<Stamped<Attempt>>, cutoff: int): seq<Stamped<Attempt>> {
    LastN(Aged(history, cutoff), MAX_SAMPLES)
  }

  // ---------- the buffer ----------

  lemma LastNOfTail<T>(h: seq<T>, k: nat, n: nat)
    requires k <= |h|
    ensures LastN(h[k..], n) == h[if |h| - n > k then |h| - n else k..]
  {
  }

  /** The young part of a tail of an ordered history is the shorter of the two tails. */
  lemma AgedOfTail(h: seq<Stamped<Attempt>>, m: nat, cutoff: int) returns (k: nat)
    requires Ordered(h) && m <= |h|
    ensures k <= |h| && Aged(h, cutoff) == h[k..]
    ensures Aged(h[m..], cutoff) == h[if k > m then k else m..]
    ensures forall i :: 0 <= i < |h| ==> (h[i].t >= cutoff <==> i >= k)
  {
    k := AgedIsTail(h, cutoff);
    var j := AgedIsTail(h[m..], cutoff);
    if k > m {
      assert h[m..][k - m - 1] == h[k - 1];
      if k < |h| {
        assert h[m..][k - m] == h[k];
      }
      assert j == k - m;
    } else {
      if m < |h| {
        assert h[m..][0] == h[m];
      }
      assert j == 0;
    }
  }

  /** The buffer is a tail of the history: from its first young entry, or its last ten thousand. */
  lemma BufferIsTail(h: seq<Stamped<Attempt>>, cutoff: int) returns (k: nat, m: nat)
    requires Ordered(h)
    ensures k <= m <= |h| && Aged(h, cutoff) == h[k..] && InWindow(h, cutoff) == h[m..]
    ensures m == if |h| - 10000 > k then |h| - 10000 else k
    ensures forall i :: 0 <= i < |h| ==> (h[i].t >= cutoff <==> i >= k)
  {
    k := AgedIsTail(h, cutoff);
    LastNOfTail(h, k, MAX_SAMPLES);
    m := if |h| - MAX_SAMPLES > k then |h| - MAX_SAMPLES else k;
  }

  /** Filtering the bounded buffer later is bounding the filtered history. */
  lemma BufferAges(h: seq<Stamped<Attempt>>, low: int, high: int)
    requires Ordered(h) && low <= high
    ensures Aged(InWindow(h, low), high) == InWindow(h, high)
  {
    var k0, m0 := BufferIsTail(h, low);
    var k1, m1 := BufferIsTail(h, high);
    var k := AgedOfTail(h, m0, high);
    if k1 < |h| {
      assert h[k1].t >= high;
    }
  }

  /** Bounding a longer tail of the young history changes nothing. */
  lemma TailIsBounded(h: seq<Stamped<Attempt>>, m: nat, cutoff: int)
    requires Ordered(h) && m <= |h|
    requires m <= |h| - MAX_SAMPLES || forall i :: 0 <= i < m ==> h[i].t < cutoff
    ensures LastN(Aged(h[m..], cutoff), MAX_SAMPLES) == InWindow(h, cutoff)
  {
    var k := AgedOfTail(h, m, cutoff);
    if k < m {
      assert h[k].t >= cutoff;
    }
    LastNOfTail(h, k, MAX_SAMPLES);
    LastNOfTail(h, if k > m then k else m, MAX_SAMPLES);
  }

  /** Push, prune, bound: the buffer again holds the last of the young history. */
  lemma BufferGrows(h: seq<Stamped<Attempt>>, low: int, s: Stamped<Attempt>, high: int)
    requires Ordered(h) && UpTo(h, s.t) && low <= high
    ensures Ordered(InWindow(h, low) + [s])
    ensures LastN(Aged(InWindow(h, low) + [s], high), MAX_SAMPLES) == InWindow(h + [s], high)
  {
    var k, m := BufferIsTail(h, low);
    assert InWindow(h, low) + [s] == (h + [s])[m..];
    TailIsBounded(h + [s], m, high);
  }

  class AttemptBuffer {
    const windowMs: int
    var samples: seq<Stamped<Attempt>>
    ghost var history: seq<Stamped<Attempt>>  // every attempt ever recorded
    ghost var cutoff: int                     // where the buffer was last pruned
    ghost var clock: int

    ghost predicate Valid()
      reads this
    {
      && Ordered(history) && UpTo(history, clock)
      && samples == InWindow(history, cutoff)
      && cutoff <= clock - windowMs
    }

    constructor (windowMs: int, ghost now: int)
      ensures Valid() && this.windowMs == windowMs && history == [] && clock == now
    {
      this.windowMs, samples := windowMs, [];
      history, cutoff, clock := [], now - windowMs, now;
    }

    /** One attempt completes: stamped at one reading of the clock, pruned at a second one. */
    method RecordAttempt(now: int, later: int, attempt: Attempt)
      requires Valid() && clock <= now <= later
      modifies this
      ensures Valid() && clock == later
      ensures history == old(history) + [Stamped(now, attempt)]
      ensures samples == InWindow(history, later - windowMs)
    {
      var sample := Stamped(now, attempt);
      BufferGrows(history, cutoff, sample, later - windowMs);
      PushKeepsOrder(history, sample, later);
      ghost var longer := history + [sample];
      var pruned := Prune(samples + [sample], later - windowMs);
      samples, history, cutoff, clock := LastN(pruned, MAX_SAMPLES), longer, later - windowMs, later;
    }

    /** A snapshot describes the last ten thousand attempts of the whole history that are in its window. */
    method TakeSnapshot(now: int) returns (snapshot: Snapshot)
      requires Valid() && clock <= now
      ensures snapshot == Summary(InWindow(history, now - windowMs), now)
    {
      BufferAges(history, cutoff, now - windowMs);
      snapshot := Summary(Aged(samples, now - windowMs), now);
    }
  }

  // ---------- what a snapshot says ----------

  lemma {:induction false} SucceededAreSome(h: seq<Stamped<Attempt>>)
    ensures Succeeded(h) <= |h|
  {
    if h != [] {
      SucceededAreSome(h[..|h| - 1]);
    }
  }

  /** Where the attempts that succeeded, and those that failed, stand. */
  ghost function OkAt(h: seq<Stamped<Attempt>>): set<int> {
    set i | 0 <= i < |h| && h[i].value.ok
  }

  ghost function FailedAt(h: seq<Stamped<Attempt>>): set<int> {
    set i | 0 <= i < |h| && !h[i].value.ok
  }

  lemma {:induction false} AttemptsAreCounted(h: seq<Stamped<Attempt>>)
    ensures Succeeded(h) == |OkAt(h)|
    ensures |h| - Succeeded(h) == |FailedAt(h)|
  {
    var ok, failed := (s: Stamped<Attempt>) => s.value.ok, (s: Stamped<Attempt>) => !s.value.ok;
    assert OkAt(h) == Positions(h, ok) && FailedAt(h) == Positions(h, failed);
    if h == [] {
      CountNone(h, ok);
      CountNone(h, failed);
    } else {
      var before := h[..|h| - 1];
      AttemptsAreCounted(before);
      assert OkAt(before) == Positions(before, ok) && FailedAt(before) == Positions(before, failed);
      CountLast(h, ok);
      CountLast(h, failed);
    }
  }

  lemma RateIsShare(part: nat, whole: nat)
    ensures IsShare(Rate(part, whole), part, whole)
  {
    if whole > 0 {
      QuotientTimes(part as real, whole as real);
    }
  }

  /**
   The counts of a snapshot are counts: of the attempts in its window that succeeded, that
   failed, and that came in its last second; its error rate is the share of the failed ones.
   */
  lemma SnapshotCounts(inWindow: seq<Stamped<Attempt>>, now: int)
    ensures var s := Summary(inWindow, now);
            && s.total == |inWindow| && s.ok == |OkAt(inWindow)| && s.failed == |FailedAt(inWindow)|
            && s.tps == |YoungAt(inWindow, now - 1000)|
            && IsShare(s.errorRate, |FailedAt(inWindow)|, |inWindow|)
  {
    AttemptsAreCounted(inWindow);
    YoungAreCounted(inWindow, now - 1000);
    RateIsShare(|FailedAt(inWindow)|, |inWindow|);
  }

  lemma {:induction false} AgedIsShorter(h: seq<Stamped<Attempt>>, cutoff: int)
    ensures |Aged(h, cutoff)| <= |h|
  {
    if h != [] {
      AgedIsShorter(h[..|h| - 1], cutoff);
    }
  }

  /**
   A snapshot adds up, has percentiles exactly when it has attempts, and these are the
   nearest-rank durations of its window, in order.
   */
  lemma SnapshotIsConsistent(inWindow: seq<Stamped<Attempt>>, now: int)
    ensures var s := Summary(inWindow, now);
            && s.ok + s.failed == s.total == |inWindow| && 0 <= s.failed
            && s.tps <= s.total
            && s.ok == |OkAt(inWindow)| && s.failed == |FailedAt(inWindow)|
            && s.tps == |YoungAt(inWindow, now - 1000)|
            && IsShare(s.errorRate, |FailedAt(inWindow)|, |inWindow|)
            && (forall i :: 0 <= i < |inWindow| ==> Durations(inWindow)[i] == inWindow[i].value.durationMs)
            && (s.p95Ms.Some? <==> s.total > 0) && (s.p99Ms.Some? <==> s.total > 0)
            && (s.total > 0 ==>
                  && NearestRank(Durations(inWindow), s.p95Ms.value, 0.95)
                  && NearestRank(Durations(inWindow), s.p99Ms.value, 0.99)
                  && s.p95Ms.value <= s.p99Ms.value)
  {
    SnapshotCounts(inWindow, now);
    SucceededAreSome(inWindow);
    AgedIsShorter(inWindow, now - 1000);
    var d := Durations(inWindow);
    if d != [] {
      PercentileIsNearestRank(d, 0.95);
      PercentileIsNearestRank(d, 0.99);
      NearestRanksAreOrdered(d, Percentile(Sort(d), 0.95).value, 0.95, Percentile(Sort(d), 0.99).value, 0.99);
    }
  }
}
