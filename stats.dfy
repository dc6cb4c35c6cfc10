/**
 * The numeric built-ins the strategies lean on: Python's `sum`, `max` and
 * `min` over a sequence, and numpy's `mean`. Reals are exact here.
 */
module Stats {

  /** Sum of a sequence, accumulated left to right. */
  function Sum(xs: seq<real>): real
  {
    if xs == [] then 0.0 else Sum(xs[..|xs| - 1]) + xs[|xs| - 1]
  }

  /** Arithmetic mean of a non-empty sequence (numpy.mean). */
  function Mean(xs: seq<real>): real
    requires |xs| > 0
  {
    Sum(xs) / |xs| as real
  }

  /** The largest element of a non-empty sequence (Python's max). */
  function SeqMax(xs: seq<real>): real
    requires |xs| > 0
  {
    if |xs| == 1 then xs[0]
    else
      var m := SeqMax(xs[..|xs| - 1]);
      if xs[|xs| - 1] > m then xs[|xs| - 1] else m
  }

  /** The smallest element of a non-empty sequence (Python's min). */
  function SeqMin(xs: seq<real>): real
    requires |xs| > 0
  {
    if |xs| == 1 then xs[0]
    else
      var m := SeqMin(xs[..|xs| - 1]);
      if xs[|xs| - 1] < m then xs[|xs| - 1] else m
  }

  /** `max` returns an element, and no element exceeds it. */
  lemma {:induction false} SeqMaxIsMaximum(xs: seq<real>)
    requires |xs| > 0
    ensures exists i :: 0 <= i < |xs| && xs[i] == SeqMax(xs)
    ensures forall i :: 0 <= i < |xs| ==> xs[i] <= SeqMax(xs)
  {
    if |xs| > 1 {
      var init := xs[..|xs| - 1];
      SeqMaxIsMaximum(init);
      var j :| 0 <= j < |init| && init[j] == SeqMax(init);
      assert xs[j] == init[j];
      assert forall i :: 0 <= i < |init| ==> xs[i] == init[i];
    } else {
      assert xs[0] == SeqMax(xs);
    }
  }

  /** `min` returns an element, and no element is below it. */
  lemma {:induction false} SeqMinIsMinimum(xs: seq<real>)
    requires |xs| > 0
    ensures exists i :: 0 <= i < |xs| && xs[i] == SeqMin(xs)
    ensures forall i :: 0 <= i < |xs| ==> SeqMin(xs) <= xs[i]
  {
    if |xs| > 1 {
      var init := xs[..|xs| - 1];
      SeqMinIsMinimum(init);
      var j :| 0 <= j < |init| && init[j] == SeqMin(init);
      assert xs[j] == init[j];
      assert forall i :: 0 <= i < |init| ==> xs[i] == init[i];
    } else {
      assert xs[0] == SeqMin(xs);
    }
  }

  predicate Between(xs: seq<real>, lo: real, hi: real)
  {
    forall i :: 0 <= i < |xs| ==> lo <= xs[i] <= hi
  }

  predicate NonDecreasing(xs: seq<real>)
  {
    forall i, j :: 0 <= i < j < |xs| ==> xs[i] <= xs[j]
  }

  /** A sum of n terms that all lie in [lo, hi] lies in [n*lo, n*hi]. */
  lemma {:induction false} SumBounds(xs: seq<real>, lo: real, hi: real)
    requires Between(xs, lo, hi)
    ensures lo * |xs| as real <= Sum(xs) <= hi * |xs| as real
  {
    if xs != [] {
      var init := xs[..|xs| - 1];
      assert Between(init, lo, hi);
      SumBounds(init, lo, hi);
      assert lo * |xs| as real == lo * |init| as real + lo;
      assert hi * |xs| as real == hi * |init| as real + hi;
    }
  }

  /** The mean of values that all lie in [lo, hi] lies in [lo, hi]. */
  lemma MeanBounds(xs: seq<real>, lo: real, hi: real)
    requires |xs| > 0 && Between(xs, lo, hi)
    ensures lo <= Mean(xs) <= hi
  {
    SumBounds(xs, lo, hi);
    var n := |xs| as real;
    assert Mean(xs) * n == Sum(xs);
  }

  /**
   * The relative-change test `(x - base) / base * 100 < tol` multiplied out:
   * a rise below tol% of a positive base, or above tol% of a negative one.
   */
  lemma RelativeGapBelow(x: real, base: real, tol: real)
    requires base != 0.0
    ensures (x - base) / base * 100.0 < tol <==>
      (base > 0.0 && x - base < tol * base / 100.0) || (base < 0.0 && x - base > tol * base / 100.0)
  {
    var q := (x - base) / base;
    assert q * base == x - base;
    if base > 0.0 {
      if q * 100.0 < tol {
        assert q * base * 100.0 < tol * base;
      } else {
        assert q * base * 100.0 >= tol * base;
      }
    } else {
      if q * 100.0 < tol {
        assert q * base * 100.0 > tol * base;
      } else {
        assert q * base * 100.0 <= tol * base;
      }
    }
  }

  /** The sum of a concatenation is the sum of the parts. */
  lemma {:induction false} SumAppend(xs: seq<real>, ys: seq<real>)
    ensures Sum(xs + ys) == Sum(xs) + Sum(ys)
  {
    if ys == [] {
      assert xs + ys == xs;
    } else {
      var init := ys[..|ys| - 1];
      assert (xs + ys)[..|xs + ys| - 1] == xs + init;
      SumAppend(xs, init);
    }
  }
}
