/**
 How many entries of a sequence have a property, as the size of a set of positions.  This is
 what the counting loops and filters of the services are measured against.
 */
module Counting {

  ghost function Positions<T>(h: seq<T>, p: T -> bool): set<int> {
    set i | 0 <= i < |h| && p(h[i])
  }

  /** Counting goes entry by entry. */
  lemma CountOneMore<T>(h: seq<T>, x: T, p: T -> bool)
    ensures |Positions(h + [x], p)| == |Positions(h, p)| + if p(x) then 1 else 0
  {
    var longer := h + [x];
    assert forall i :: 0 <= i < |h| ==> longer[i] == h[i];
    if p(x) {
      assert Positions(longer, p) == Positions(h, p) + {|h|};
    } else {
      assert Positions(longer, p) == Positions(h, p);
    }
  }

  lemma CountLast<T>(h: seq<T>, p: T -> bool)
    requires h != []
    ensures |Positions(h, p)| == |Positions(h[..|h| - 1], p)| + if p(h[|h| - 1]) then 1 else 0
  {
    CountOneMore(h[..|h| - 1], h[|h| - 1], p);
    assert h[..|h| - 1] + [h[|h| - 1]] == h;
  }

  lemma CountNone<T>(h: seq<T>, p: T -> bool)
    requires h == []
    ensures |Positions(h, p)| == 0
  {
    assert Positions(h, p) == {};
  }

  /** `rate` is the share of `part` in `whole`; nothing of nothing is zero. */
  predicate IsShare(rate: real, part: nat, whole: nat) {
    if whole == 0 then rate == 0.0 else rate * whole as real == part as real
  }

  lemma QuotientTimes(x: real, n: real)
    requires n > 0.0
    ensures x / n * n == x
  {
  }
}
