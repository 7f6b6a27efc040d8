/** Weighted sums over sequences: the bookkeeping shared by the memory bound,
    the reader counts and the dispatcher's two counters. */
module Sums {

  function SumOf<T>(items: seq<T>, weight: T -> int): int {
    if items == [] then 0
    else SumOf(items[..|items| - 1], weight) + weight(items[|items| - 1])
  }

  lemma {:induction false} Append<T>(items: seq<T>, item: T, weight: T -> int)
    ensures SumOf(items + [item], weight) == SumOf(items, weight) + weight(item)
  {
    assert (items + [item])[..|items|] == items;
  }

  /** Replacing one element moves the sum by the difference of the two weights. */
  lemma {:induction false} Update<T>(items: seq<T>, i: nat, item: T, weight: T -> int)
    requires i < |items|
    ensures SumOf(items[i := item], weight) == SumOf(items, weight) - weight(items[i]) + weight(item)
  {
    var last := |items| - 1;
    if i == last {
      assert items[i := item][..last] == items[..last];
    } else {
      Update(items[..last], i, item, weight);
      assert items[i := item][..last] == items[..last][i := item];
    }
  }

  /** A pointwise bound between two sequences of the same length bounds their sums. */
  lemma {:induction false} Pointwise<T, U>(a: seq<T>, v: T -> int, b: seq<U>, w: U -> int)
    requires |a| == |b|
    requires forall i :: 0 <= i < |a| ==> v(a[i]) <= w(b[i])
    ensures SumOf(a, v) <= SumOf(b, w)
  {
    if a != [] {
      Pointwise(a[..|a| - 1], v, b[..|b| - 1], w);
    }
  }

  /** Pointwise, and strictly so at one place. */
  lemma {:induction false} PointwiseStrict<T>(a: seq<T>, v: T -> int, w: T -> int, i: nat)
    requires i < |a| && v(a[i]) < w(a[i])
    requires forall k :: 0 <= k < |a| ==> v(a[k]) <= w(a[k])
    ensures SumOf(a, v) < SumOf(a, w)
  {
    if i == |a| - 1 {
      Pointwise(a[..i], v, a[..i], w);
    } else {
      PointwiseStrict(a[..|a| - 1], v, w, i);
    }
  }

  lemma {:induction false} NonNegative<T>(items: seq<T>, weight: T -> int)
    requires forall i :: 0 <= i < |items| ==> weight(items[i]) >= 0
    ensures SumOf(items, weight) >= 0
    ensures SumOf(items, weight) > 0 ==> exists i :: 0 <= i < |items| && weight(items[i]) > 0
    ensures forall i :: 0 <= i < |items| ==> weight(items[i]) <= SumOf(items, weight)
  {
    if items != [] {
      var last := |items| - 1;
      NonNegative(items[..last], weight);
      forall i | 0 <= i < |items| ensures weight(items[i]) <= SumOf(items, weight) {
        if i < last { assert items[..last][i] == items[i]; }
      }
      if SumOf(items, weight) > 0 && weight(items[last]) == 0 {
        var i :| 0 <= i < last && weight(items[..last][i]) > 0;
        assert weight(items[i]) > 0;
      }
    }
  }
}
