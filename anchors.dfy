/** Anchor averaging: this frame's measured edge is the plain mean of the y
    coordinates of the blobs seen in an anchor band, or nothing when none was seen. */
module Anchors {
  import opened Wrappers
  import Ratios

  /** Sum of the values, added from the left starting at 0. */
  function Sum(ys: seq<real>): real
  {
    if ys == [] then 0.0 else Sum(ys[..|ys| - 1]) + ys[|ys| - 1]
  }

  /** The unweighted mean, absent exactly when there is nothing to average. */
  function Mean(ys: seq<real>): (m: Option<real>)
    ensures m.None? <==> ys == []
    ensures m.Some? ==> m.value * (|ys| as real) == Sum(ys)
  {
    if |ys| > 0 then Some(Sum(ys) / (|ys| as real)) else None
  }

  lemma {:induction false} SumBounds(ys: seq<real>, lo: real, hi: real)
    requires forall k :: 0 <= k < |ys| ==> lo <= ys[k] < hi
    ensures (|ys| as real) * lo <= Sum(ys) <= (|ys| as real) * hi
    ensures ys != [] ==> Sum(ys) < (|ys| as real) * hi
  {
    if ys != [] {
      var front := ys[..|ys| - 1];
      SumBounds(front, lo, hi);
      assert (|ys| as real) * lo == (|front| as real) * lo + lo;
      assert (|ys| as real) * hi == (|front| as real) * hi + hi;
    }
  }

  /** The mean of values that all lie in a band [lo, hi) lies in that band too. */
  lemma MeanWithin(ys: seq<real>, lo: real, hi: real)
    requires ys != []
    requires forall k :: 0 <= k < |ys| ==> lo <= ys[k] < hi
    ensures lo <= Mean(ys).value < hi
  {
    var n := |ys| as real;
    SumBounds(ys, lo, hi);
    Ratios.QuotientBound(Sum(ys), n, lo);
    Ratios.QuotientBound(Sum(ys), n, hi);
  }
}
