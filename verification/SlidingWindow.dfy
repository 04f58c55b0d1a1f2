/**
 Time-stamped histories and the part of them that is young enough.  The circuit breaker
 and the metrics collector both keep a queue they prune from the front; here is why, for
 a clock that never runs backwards, that is the same as filtering the whole history.
 */
module SlidingWindow {
  import opened Counting

  datatype Stamped<+T> = Stamped(t: int, value: T)

  predicate Ordered<T>(h: seq<Stamped<T>>) {
    forall i, j :: 0 <= i < j < |h| ==> h[i].t <= h[j].t
  }

  /** No entry is later than `now`. */
  predicate UpTo<T>(h: seq<Stamped<T>>, now: int) {
    forall i :: 0 <= i < |h| ==> h[i].t <= now
  }

  /** A new entry that is no earlier than the others keeps the order. */
  lemma PushKeepsOrder<T>(h: seq<Stamped<T>>, s: Stamped<T>, now: int)
    requires Ordered(h) && UpTo(h, s.t) && s.t <= now
    ensures Ordered(h + [s]) && UpTo(h + [s], now)
  {
  }

  /** The entries stamped at or after `cutoff`. */
  function Aged<T>(h: seq<Stamped<T>>, cutoff: int): seq<Stamped<T>> {
    if h == [] then []
    else
      var n := |h| - 1;
      Aged(h[..n], cutoff) + if h[n].t >= cutoff then [h[n]] else []
  }

  /** Where the entries stamped at or after `cutoff` stand. */
  ghost function YoungAt<T>(h: seq<Stamped<T>>, cutoff: int): set<int> {
    set i | 0 <= i < |h| && h[i].t >= cutoff
  }

  lemma {:induction false} YoungAreCounted<T>(h: seq<Stamped<T>>, cutoff: int)
    ensures |Aged(h, cutoff)| == |YoungAt(h, cutoff)|
  {
    var young := (s: Stamped<T>) => s.t >= cutoff;
    assert YoungAt(h, cutoff) == Positions(h, young);
    if h == [] {
      CountNone(h, young);
    } else {
      var before := h[..|h| - 1];
      YoungAreCounted(before, cutoff);
      assert YoungAt(before, cutoff) == Positions(before, young);
      CountLast(h, young);
    }
  }

  lemma {:induction false} AgedConcat<T>(a: seq<Stamped<T>>, b: seq<Stamped<T>>, cutoff: int)
    ensures Aged(a + b, cutoff) == Aged(a, cutoff) + Aged(b, cutoff)
  {
    if b == [] {
      assert a + b == a;
    } else {
      var n := |b| - 1;
      assert (a + b)[..|a + b| - 1] == a + b[..n];
      AgedConcat(a, b[..n], cutoff);
    }
  }

  /** Pruning at a cutoff and later at a higher one is pruning once at the higher one. */
  lemma {:induction false} AgedTwice<T>(h: seq<Stamped<T>>, low: int, high: int)
    requires low <= high
    ensures Aged(Aged(h, low), high) == Aged(h, high)
  {
    if h != [] {
      var n := |h| - 1;
      AgedTwice(h[..n], low, high);
      AgedConcat(Aged(h[..n], low), if h[n].t >= low then [h[n]] else [], high);
    }
  }

  lemma {:induction false} AgedAll<T>(h: seq<Stamped<T>>, cutoff: int)
    requires forall i :: 0 <= i < |h| ==> h[i].t >= cutoff
    ensures Aged(h, cutoff) == h
  {
    if h != [] {
      AgedAll(h[..|h| - 1], cutoff);
      assert h == h[..|h| - 1] + [h[|h| - 1]];
    }
  }

  lemma AgedTail<T>(h: seq<Stamped<T>>, cutoff: int)
    requires h != [] && h[0].t < cutoff
    ensures Aged(h, cutoff) == Aged(h[1..], cutoff)
  {
    assert h == h[..1] + h[1..];
    AgedConcat(h[..1], h[1..], cutoff);
  }

  lemma {:induction false} AgedKeepsOrder<T>(h: seq<Stamped<T>>, cutoff: int)
    requires Ordered(h)
    ensures Ordered(Aged(h, cutoff))
    ensures forall i :: 0 <= i < |Aged(h, cutoff)| ==> cutoff <= Aged(h, cutoff)[i].t
    ensures forall i :: 0 <= i < |Aged(h, cutoff)| ==> |h| > 0 && Aged(h, cutoff)[i].t <= h[|h| - 1].t
  {
    if h != [] {
      AgedKeepsOrder(h[..|h| - 1], cutoff);
    }
  }

  /** The aged part of an ordered history is its tail, from the first entry that is young enough. */
  lemma {:induction false} AgedIsTail<T>(h: seq<Stamped<T>>, cutoff: int) returns (k: nat)
    requires Ordered(h)
    ensures k <= |h| && Aged(h, cutoff) == h[k..]
    ensures forall i :: 0 <= i < |h| ==> (h[i].t >= cutoff <==> i >= k)
  {
    if h == [] || h[0].t >= cutoff {
      AgedAll(h, cutoff);
      return 0;
    }
    AgedTail(h, cutoff);
    var k' := AgedIsTail(h[1..], cutoff);
    assert forall i :: 1 <= i < |h| ==> h[i] == h[1..][i - 1];
    return k' + 1;
  }

  /** Dropping stale entries from the front of a queue, one at a time. */
  method Prune<T>(queue: seq<Stamped<T>>, cutoff: int) returns (pruned: seq<Stamped<T>>)
    requires Ordered(queue)
    ensures pruned == Aged(queue, cutoff)
  {
    pruned := queue;
    while pruned != [] && pruned[0].t < cutoff
      invariant Ordered(pruned)
      invariant Aged(pruned, cutoff) == Aged(queue, cutoff)
      decreases |pruned|
    {
      AgedTail(pruned, cutoff);
      pruned := pruned[1..];
    }
    AgedAll(pruned, cutoff);
  }
}
