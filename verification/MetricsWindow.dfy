/**
 The rolling window of attempts: a bounded buffer that agrees with the full history, and
 percentiles that are what their name says.
 */
module MetricsWindow {
  import opened Options

  datatype Attempt = Attempt(gatewayId: string, ok: bool, durationMs: int)

  const MAX_SAMPLES := 10000

  /** The last n entries, or all if there are fewer. */
  function LastN<T>(h: seq<T>, n: nat): seq<T> {
    if |h| <= n then h else h[|h| - n..]
  }

  // ---------- nearest-rank percentiles ----------

  function CountLess(xs: seq<int>, v: int): nat {
    if xs == [] then 0 else CountLess(xs[..|xs| - 1], v) + if xs[|xs| - 1] < v then 1 else 0
  }

  predicate Sorted(xs: seq<int>) {
    forall i, j :: 0 <= i <= j < |xs| ==> xs[i] <= xs[j]
  }

  function Insert(x: int, xs: seq<int>): seq<int> {
    if xs == [] || xs[|xs| - 1] <= x then xs + [x]
    else Insert(x, xs[..|xs| - 1]) + [xs[|xs| - 1]]
  }

  function Sort(xs: seq<int>): seq<int> {
    if xs == [] then [] else Insert(xs[|xs| - 1], Sort(xs[..|xs| - 1]))
  }

  lemma {:induction false} InsertKeepsValues(x: int, xs: seq<int>)
    ensures multiset(Insert(x, xs)) == multiset(xs) + multiset{x}
  {
    if xs != [] && xs[|xs| - 1] > x {
      var n := |xs| - 1;
      InsertKeepsValues(x, xs[..n]);
      assert xs == xs[..n] + [xs[n]];
    }
  }

  /** The largest entry of an insertion is the larger of the last entry and the new one. */
  lemma {:induction false} InsertSorts(x: int, xs: seq<int>)
    requires Sorted(xs)
    ensures Sorted(Insert(x, xs))
    ensures |Insert(x, xs)| == |xs| + 1
    ensures Insert(x, xs)[|xs|] == if xs == [] || xs[|xs| - 1] <= x then x else xs[|xs| - 1]
  {
    if xs != [] && xs[|xs| - 1] > x {
      InsertSorts(x, xs[..|xs| - 1]);
    }
  }

  lemma {:induction false} SortSorts(xs: seq<int>)
    ensures Sorted(Sort(xs))
    ensures |Sort(xs)| == |xs|
  {
    if xs != [] {
      var n := |xs| - 1;
      SortSorts(xs[..n]);
      InsertSorts(xs[n], Sort(xs[..n]));
    }
  }

  lemma {:induction false} SortKeepsValues(xs: seq<int>)
    ensures multiset(Sort(xs)) == multiset(xs)
  {
    if xs != [] {
      var n := |xs| - 1;
      SortKeepsValues(xs[..n]);
      InsertKeepsValues(xs[n], Sort(xs[..n]));
      assert xs == xs[..n] + [xs[n]];
    }
  }

  function Ceil(x: real): int {
    -((-x).Floor)
  }

  function RankIndex(n: nat, p: real): int {
    var i := Ceil(p * n as real) - 1;
    var i := if i < 0 then 0 else i;
    if n - 1 < i then n - 1 else i
  }

  /** The percentile of a sorted sequence; none of an empty one. */
  function Percentile(sorted: seq<int>, p: real): Option<int> {
    if sorted == [] then None
    else
      var i := RankIndex(|sorted|, p);
      if 0 <= i < |sorted| then Some(sorted[i]) else None
  }

  lemma {:induction false} CountLessOfConcat(a: seq<int>, b: seq<int>, v: int)
    ensures CountLess(a + b, v) == CountLess(a, v) + CountLess(b, v)
  {
    if b == [] {
      assert a + b == a;
    } else {
      var n := |b| - 1;
      assert (a + b)[..|a + b| - 1] == a + b[..n];
      CountLessOfConcat(a, b[..n], v);
    }
  }

  /** Counting does not depend on the order. */
  lemma {:induction false} CountLessOfInsert(x: int, xs: seq<int>, v: int)
    ensures CountLess(Insert(x, xs), v) == CountLess(xs, v) + if x < v then 1 else 0
  {
    if xs == [] || xs[|xs| - 1] <= x {
      CountLessOfConcat(xs, [x], v);
    } else {
      var n := |xs| - 1;
      CountLessOfInsert(x, xs[..n], v);
      CountLessOfConcat(Insert(x, xs[..n]), [xs[n]], v);
    }
  }

  lemma {:induction false} CountLessOfSort(xs: seq<int>, v: int)
    ensures CountLess(Sort(xs), v) == CountLess(xs, v)
  {
    if xs != [] {
      CountLessOfSort(xs[..|xs| - 1], v);
      CountLessOfInsert(xs[|xs| - 1], Sort(xs[..|xs| - 1]), v);
    }
  }

  /** In a sorted sequence the entries below v come first, so counting them finds their border. */
  lemma {:induction false} SortedCount(xs: seq<int>, v: int)
    requires Sorted(xs)
    ensures CountLess(xs, v) <= |xs|
    ensures forall i :: 0 <= i < |xs| ==> (xs[i] < v <==> i < CountLess(xs, v))
  {
    if xs != [] {
      var n := |xs| - 1;
      SortedCount(xs[..n], v);
      if xs[n] < v && n > 0 {
        assert xs[n - 1] < v;
      }
    }
  }

  predicate Brackets(below: nat, upTo: nat, n: nat, p: real) {
    below as real < p * n as real <= upTo as real
  }

  /** v has nearest rank p among the values: fewer than p of them are below v, and at least p are at most v. */
  predicate NearestRank(xs: seq<int>, v: int, p: real) {
    v in xs && Brackets(CountLess(xs, v), CountLess(xs, v + 1), |xs|, p)
  }

  lemma BracketsWiden(below: nat, upTo: nat, i: nat, n: nat, p: real)
    requires Brackets(i, i + 1, n, p)
    requires below <= i < upTo
    ensures Brackets(below, upTo, n, p)
  {
  }

  lemma BracketsExclude(below: nat, upTo: nat, n: nat, p: real, below': nat, upTo': nat, q: real)
    requires Brackets(below, upTo, n, p) && Brackets(below', upTo', n, q) && p <= q
    ensures below < upTo'
  {
    assert p * n as real <= q * n as real;
  }

  lemma RankIndexIsTheRank(n: nat, p: real)
    requires n > 0 && 0.0 < p <= 1.0
    ensures var i := RankIndex(n, p);
            0 <= i < n && Brackets(i, i + 1, n, p)
  {
    var x := p * n as real;
    assert 0.0 < x <= n as real;
  }

  lemma BordersOfAnEntry(xs: seq<int>, i: int)
    requires Sorted(xs) && 0 <= i < |xs|
    ensures CountLess(xs, xs[i]) <= i < CountLess(xs, xs[i] + 1)
  {
    SortedCount(xs, xs[i]);
    SortedCount(xs, xs[i] + 1);
  }

  lemma SortedEntry(durations: seq<int>, i: nat)
    requires i < |durations|
    ensures |Sort(durations)| == |durations|
    ensures Sort(durations)[i] in durations
  {
    SortSorts(durations);
    SortKeepsValues(durations);
    assert Sort(durations)[i] in multiset(Sort(durations));
  }

  lemma BordersAfterSorting(durations: seq<int>, i: nat)
    requires i < |Sort(durations)|
    ensures var v := Sort(durations)[i];
            CountLess(Sort(durations), v) <= i < CountLess(Sort(durations), v + 1)
  {
    SortSorts(durations);
    BordersOfAnEntry(Sort(durations), i);
  }

  lemma BordersInAnyOrder(durations: seq<int>, i: nat, v: int)
    requires i < |durations| == |Sort(durations)| && v == Sort(durations)[i]
    ensures CountLess(durations, v) <= i < CountLess(durations, v + 1)
  {
    CountLessOfSort(durations, v);
    CountLessOfSort(durations, v + 1);
    BordersAfterSorting(durations, i);
  }

  lemma EntryHasItsRank(durations: seq<int>, i: nat, v: int, p: real)
    requires i < |durations| == |Sort(durations)| && v == Sort(durations)[i] && v in durations
    requires Brackets(i, i + 1, |durations|, p)
    ensures NearestRank(durations, v, p)
  {
    BordersInAnyOrder(durations, i, v);
    BracketsWiden(CountLess(durations, v), CountLess(durations, v + 1), i, |durations|, p);
  }

  /** Each percentile is the nearest-rank value of the durations, in whatever order they came. */
  lemma PercentileIsNearestRank(durations: seq<int>, p: real)
    requires durations != [] && 0.0 < p <= 1.0
    ensures Percentile(Sort(durations), p).Some?
    ensures NearestRank(durations, Percentile(Sort(durations), p).value, p)
  {
    RankIndexIsTheRank(|durations|, p);
    var i := RankIndex(|durations|, p);
    SortedEntry(durations, i);
    EntryHasItsRank(durations, i, Sort(durations)[i], p);
  }

  lemma {:induction false} CountLessGrows(xs: seq<int>, v: int, w: int)
    requires v <= w
    ensures CountLess(xs, v) <= CountLess(xs, w)
  {
    if xs != [] {
      CountLessGrows(xs[..|xs| - 1], v, w);
    }
  }

  /** A value is determined by its nearest rank, and a higher rank never gives a lower value. */
  lemma NearestRanksAreOrdered(xs: seq<int>, v: int, p: real, w: int, q: real)
    requires NearestRank(xs, v, p) && NearestRank(xs, w, q) && p <= q
    ensures v <= w
  {
    BracketsExclude(CountLess(xs, v), CountLess(xs, v + 1), |xs|, p, CountLess(xs, w), CountLess(xs, w + 1), q);
    if w < v {
      CountLessGrows(xs, w + 1, v);
    }
  }
}
