/**
 * Support and resistance levels from a candle series (`find_support_resistance`
 * and its nested `cluster_levels` in strategies.py).
 *
 * A resistance is a high that is the maximum of the highs within `window`
 * candles on either side; a support is a low that is the minimum of the
 * matching lows. Each list of levels is then sorted and chained into clusters:
 * a level joins the current cluster when its rise over the previous level is
 * below `tolerance_percent` of that previous level; otherwise the cluster's
 * mean is emitted and a new cluster starts.
 */
module Levels {
  import opened Stats
  import Sorting

  /** Default `tolerance_percent` of `cluster_levels`. */
  const ClusterTolerancePercent: real := 0.5

  /** `high[i] == max(high[i-window:i+window+1])`. */
  predicate IsResistance(high: seq<real>, i: int, window: nat)
    requires window <= i < |high| - window
  {
    high[i] == SeqMax(high[i - window..i + window + 1])
  }

  /** `low[i] == min(low[i-window:i+window+1])`. */
  predicate IsSupport(low: seq<real>, i: int, window: nat)
    requires window <= i < |low| - window
  {
    low[i] == SeqMin(low[i - window..i + window + 1])
  }

  /** Index i is examined and holds a resistance. */
  predicate ResistanceAt(high: seq<real>, window: nat, i: int)
  {
    window <= i < |high| - window && IsResistance(high, i, window)
  }

  /** Index i is examined and holds a support. */
  predicate SupportAt(low: seq<real>, window: nat, i: int)
  {
    window <= i < |low| - window && IsSupport(low, i, window)
  }

  /** The values `xs[i]` at the indices window <= i < n that `pivot` marks, in index order. */
  function Recorded(xs: seq<real>, window: nat, n: int, pivot: int -> bool): seq<real>
    requires n <= |xs| - window
    decreases n
  {
    if n <= window then []
    else Recorded(xs, window, n - 1, pivot) + (if pivot(n - 1) then [xs[n - 1]] else [])
  }

  /** The resistances recorded for the indices window <= i < n. */
  function Resistances(high: seq<real>, window: nat, n: int): seq<real>
    requires n <= |high| - window
  {
    Recorded(high, window, n, i => ResistanceAt(high, window, i))
  }

  /** The supports recorded for the indices window <= i < n. */
  function Supports(low: seq<real>, window: nat, n: int): seq<real>
    requires n <= |low| - window
  {
    Recorded(low, window, n, i => SupportAt(low, window, i))
  }

  /** Examining index i appends high[i] exactly when it is a resistance. */
  lemma ResistancesStep(high: seq<real>, window: nat, i: int)
    requires window <= i < |high| - window
    ensures Resistances(high, window, i + 1)
      == Resistances(high, window, i) + if IsResistance(high, i, window) then [high[i]] else []
  {
  }

  /** Examining index i appends low[i] exactly when it is a support. */
  lemma SupportsStep(low: seq<real>, window: nat, i: int)
    requires window <= i < |low| - window
    ensures Supports(low, window, i + 1)
      == Supports(low, window, i) + if IsSupport(low, i, window) then [low[i]] else []
  {
  }

  /**
   * Whether `level` joins the cluster whose last level is `prev`. With a zero
   * `prev` numpy's division yields inf or nan, and the comparison is false.
   */
  predicate Joins(level: real, prev: real, tolerancePercent: real)
    ensures Joins(level, prev, tolerancePercent) <==>
      || (prev > 0.0 && level - prev < tolerancePercent * prev / 100.0)
      || (prev < 0.0 && level - prev > tolerancePercent * prev / 100.0)
  {
    prev != 0.0 && (RelativeGapBelow(level, prev, tolerancePercent); (level - prev) / prev * 100.0 < tolerancePercent)
  }

  /** The cluster means emitted while scanning `rest`, the open cluster being `current`. */
  function ClusterFrom(rest: seq<real>, tolerancePercent: real, current: seq<real>): seq<real>
    requires |current| > 0
    decreases |rest|
  {
    if rest == [] then [Mean(current)]
    else if Joins(rest[0], current[|current| - 1], tolerancePercent) then
      ClusterFrom(rest[1..], tolerancePercent, current + [rest[0]])
    else
      [Mean(current)] + ClusterFrom(rest[1..], tolerancePercent, [rest[0]])
  }

  function Ascending(levels: seq<real>): seq<real>
  {
    Sorting.Sort(levels, x => x)
  }

  /** What `cluster_levels(levels, tolerancePercent)` returns. */
  function Clustered(levels: seq<real>, tolerancePercent: real): seq<real>
  {
    if levels == [] then []
    else
      var sorted := Ascending(levels);
      ClusterFrom(sorted[1..], tolerancePercent, [sorted[0]])
  }

  /** The supports `find_support_resistance` returns for candles of these highs and lows. */
  function SupportLevels(high: seq<real>, low: seq<real>, window: nat): seq<real>
    requires |low| == |high|
  {
    Clustered(Supports(low, window, |high| - window), ClusterTolerancePercent)
  }

  /** The resistances `find_support_resistance` returns for candles of these highs and lows. */
  function ResistanceLevels(high: seq<real>, low: seq<real>, window: nat): seq<real>
    requires |low| == |high|
  {
    Clustered(Resistances(high, window, |high| - window), ClusterTolerancePercent)
  }

  // ---------------------------------------------------------------------------
  // The imperative code
  // ---------------------------------------------------------------------------

  /** `cluster_levels`: sort, then chain neighbouring levels into clusters. */
  method ClusterLevels(levels: seq<real>, tolerancePercent: real) returns (clustered: seq<real>)
    ensures clustered == Clustered(levels, tolerancePercent)
  {
    if levels == [] {
      return [];
    }
    var sorted := Ascending(levels);
    ghost var target := ClusterFrom(sorted[1..], tolerancePercent, [sorted[0]]);
    assert target == Clustered(levels, tolerancePercent);
    clustered := [];
    var current := [sorted[0]];
    var k := 1;
    while k < |sorted|
      invariant 1 <= k <= |sorted|
      invariant |current| > 0
      invariant clustered + ClusterFrom(sorted[k..], tolerancePercent, current) == target
    {
      var level := sorted[k];
      ghost var rest := sorted[k..];
      assert rest[0] == level && rest[1..] == sorted[k + 1..];
      if Joins(level, current[|current| - 1], tolerancePercent) {
        assert ClusterFrom(rest, tolerancePercent, current)
          == ClusterFrom(sorted[k + 1..], tolerancePercent, current + [level]);
        current := current + [level];
      } else {
        assert ClusterFrom(rest, tolerancePercent, current)
          == [Mean(current)] + ClusterFrom(sorted[k + 1..], tolerancePercent, [level]);
        clustered := clustered + [Mean(current)];
        current := [level];
      }
      k := k + 1;
    }
    assert sorted[k..] == [];
    clustered := clustered + [Mean(current)];
  }

  /** The scan of `find_support_resistance` over the indices window <= i < |high| - window. */
  method ScanPivots(high: seq<real>, low: seq<real>, window: nat)
    returns (lows: seq<real>, highs: seq<real>)
    requires |low| == |high|
    requires 2 * window < |high|
    ensures lows == Supports(low, window, |high| - window)
    ensures highs == Resistances(high, window, |high| - window)
  {
    lows, highs := [], [];
    var i := window;
    while i < |high| - window
      invariant window <= i <= |high| - window
      invariant lows == Supports(low, window, i)
      invariant highs == Resistances(high, window, i)
    {
      if high[i] == SeqMax(high[i - window..i + window + 1]) {
        highs := highs + [high[i]];
      }
      if low[i] == SeqMin(low[i - window..i + window + 1]) {
        lows := lows + [low[i]];
      }
      ResistancesStep(high, window, i);
      SupportsStep(low, window, i);
      i := i + 1;
    }
  }

  /** `find_support_resistance(high, low, window)`. */
  method FindSupportResistance(high: seq<real>, low: seq<real>, window: nat)
    returns (supports: seq<real>, resistances: seq<real>)
    requires |low| == |high|
    ensures supports == SupportLevels(high, low, window)
    ensures resistances == ResistanceLevels(high, low, window)
  {
    if |high| < 2 * window + 1 {
      assert Supports(low, window, |high| - window) == [];
      assert Resistances(high, window, |high| - window) == [];
      return [], [];
    }
    var lows, highs := ScanPivots(high, low, window);
    if lows == [] && highs == [] {
      assert Clustered([], ClusterTolerancePercent) == [];
      return [], [];
    }
    supports := ClusterLevels(lows, ClusterTolerancePercent);
    resistances := ClusterLevels(highs, ClusterTolerancePercent);
  }

  // ---------------------------------------------------------------------------
  // Properties
  // ---------------------------------------------------------------------------

  /** Fewer than 2*window+1 candles give no levels at all. */
  lemma ShortSeriesHasNoLevels(high: seq<real>, low: seq<real>, window: nat)
    requires |low| == |high| && |high| < 2 * window + 1
    ensures SupportLevels(high, low, window) == [] && ResistanceLevels(high, low, window) == []
  {
  }

  /** A resistance is exactly a high no lower than any high within `window` candles of it. */
  lemma ResistanceIsWindowMaximum(high: seq<real>, i: int, window: nat)
    requires window <= i < |high| - window
    ensures IsResistance(high, i, window) <==> forall j :: i - window <= j <= i + window ==> high[j] <= high[i]
  {
    var w := high[i - window..i + window + 1];
    SeqMaxIsMaximum(w);
    assert w[window] == high[i];
    assert forall j :: i - window <= j <= i + window ==> w[j - (i - window)] == high[j];
  }

  /** A support is exactly a low no higher than any low within `window` candles of it. */
  lemma SupportIsWindowMinimum(low: seq<real>, i: int, window: nat)
    requires window <= i < |low| - window
    ensures IsSupport(low, i, window) <==> forall j :: i - window <= j <= i + window ==> low[i] <= low[j]
  {
    var w := low[i - window..i + window + 1];
    SeqMinIsMinimum(w);
    assert w[window] == low[i];
    assert forall j :: i - window <= j <= i + window ==> w[j - (i - window)] == low[j];
  }

  /** A value is recorded iff some index window <= i < n that `pivot` marks holds it. */
  lemma {:induction false} RecordedMembership(xs: seq<real>, window: nat, n: int, pivot: int -> bool, x: real)
    requires n <= |xs| - window
    ensures x in Recorded(xs, window, n, pivot) <==> exists i :: window <= i < n && pivot(i) && xs[i] == x
  {
    if n > window {
      RecordedMembership(xs, window, n - 1, pivot, x);
      if pivot(n - 1) && xs[n - 1] == x {
        assert window <= n - 1 < n && pivot(n - 1) && xs[n - 1] == x;
      }
    }
  }

  /** A value is recorded as a resistance iff some examined index window <= i < |high|-window holds it as one. */
  lemma ResistancesRecorded(high: seq<real>, window: nat, x: real)
    requires 2 * window < |high|
    ensures x in Resistances(high, window, |high| - window) <==>
      exists i :: window <= i < |high| - window && IsResistance(high, i, window) && high[i] == x
  {
    var n := |high| - window;
    var pivot := i => ResistanceAt(high, window, i);
    assert Resistances(high, window, n) == Recorded(high, window, n, pivot);
    RecordedMembership(high, window, n, pivot, x);
    if x in Resistances(high, window, n) {
      var i :| window <= i < n && pivot(i) && high[i] == x;
      assert ResistanceAt(high, window, i);
    } else {
      forall i | window <= i < n && IsResistance(high, i, window)
        ensures high[i] != x
      {
        assert ResistanceAt(high, window, i) && pivot(i);
      }
    }
  }

  /** A value is recorded as a support iff some examined index window <= i < |low|-window holds it as one. */
  lemma SupportsRecorded(low: seq<real>, window: nat, x: real)
    requires 2 * window < |low|
    ensures x in Supports(low, window, |low| - window) <==>
      exists i :: window <= i < |low| - window && IsSupport(low, i, window) && low[i] == x
  {
    var n := |low| - window;
    var pivot := i => SupportAt(low, window, i);
    assert Supports(low, window, n) == Recorded(low, window, n, pivot);
    RecordedMembership(low, window, n, pivot, x);
    if x in Supports(low, window, n) {
      var i :| window <= i < n && pivot(i) && low[i] == x;
      assert SupportAt(low, window, i);
    } else {
      forall i | window <= i < n && IsSupport(low, i, window)
        ensures low[i] != x
      {
        assert SupportAt(low, window, i) && pivot(i);
      }
    }
  }

  /** At most one level per examined index. */
  lemma {:induction false} RecordedCountBound(xs: seq<real>, window: nat, n: int, pivot: int -> bool)
    requires n <= |xs| - window
    ensures |Recorded(xs, window, n, pivot)| <= if n <= window then 0 else n - window
  {
    if n > window {
      RecordedCountBound(xs, window, n - 1, pivot);
    }
  }

  /**
   * The clusters emitted from a sorted run are non-decreasing, one per run at
   * most, and each lies between the run's first and last level.
   */
  lemma {:induction false} ClusterFromShape(rest: seq<real>, tolerancePercent: real, current: seq<real>)
    requires |current| > 0
    requires NonDecreasing(current + rest)
    ensures var out := ClusterFrom(rest, tolerancePercent, current);
      && 0 < |out| <= |rest| + 1
      && NonDecreasing(out)
      && Between(out, current[0], (current + rest)[|current + rest| - 1])
  {
    var all := current + rest;
    var hi := all[|all| - 1];
    assert all[0] == current[0];
    assert Between(current, current[0], current[|current| - 1]) by {
      forall i | 0 <= i < |current| ensures current[0] <= current[i] <= current[|current| - 1] {
        assert all[i] == current[i] && all[|current| - 1] == current[|current| - 1];
      }
    }
    MeanBounds(current, current[0], current[|current| - 1]);
    if rest == [] {
      assert all == current;
    } else if Joins(rest[0], current[|current| - 1], tolerancePercent) {
      assert (current + [rest[0]]) + rest[1..] == all;
      ClusterFromShape(rest[1..], tolerancePercent, current + [rest[0]]);
    } else {
      assert [rest[0]] + rest[1..] == rest;
      var tail := ClusterFrom(rest[1..], tolerancePercent, [rest[0]]);
      assert NonDecreasing([rest[0]] + rest[1..]) by {
        forall i, j | 0 <= i < j < |rest| ensures rest[i] <= rest[j] {
          assert all[|current| + i] == rest[i] && all[|current| + j] == rest[j];
        }
      }
      ClusterFromShape(rest[1..], tolerancePercent, [rest[0]]);
      assert ([rest[0]] + rest[1..])[|rest| - 1] == hi;
      assert current[|current| - 1] <= rest[0] by {
        assert all[|current| - 1] == current[|current| - 1] && all[|current|] == rest[0];
      }
      assert current[0] <= rest[0] by {
        assert all[|current|] == rest[0];
      }
      PrependBelow(Mean(current), tail, current[0], rest[0], hi);
    }
  }

  /** A value between lo and mid, put before a non-decreasing run within [mid, hi], keeps the run non-decreasing within [lo, hi]. */
  lemma PrependBelow(m: real, tail: seq<real>, lo: real, mid: real, hi: real)
    requires lo <= m <= mid <= hi
    requires NonDecreasing(tail) && Between(tail, mid, hi)
    ensures NonDecreasing([m] + tail) && Between([m] + tail, lo, hi)
  {
    var out := [m] + tail;
    forall i, j | 0 <= i < j < |out| ensures out[i] <= out[j] {
      if i > 0 {
        assert out[i] == tail[i - 1] && out[j] == tail[j - 1];
      } else {
        assert out[j] == tail[j - 1];
      }
    }
    forall i | 0 <= i < |out| ensures lo <= out[i] <= hi {
      if i > 0 {
        assert out[i] == tail[i - 1];
      }
    }
  }

  lemma SortedIsNonDecreasing(s: seq<real>)
    requires Sorting.SortedBy(s, x => x)
    ensures NonDecreasing(s)
  {
    forall i, j | 0 <= i < j < |s| ensures s[i] <= s[j] {
      assert (x => x)(s[i]) <= (x => x)(s[j]);
    }
  }

  /**
   * `cluster_levels`: empty in, empty out; no more clusters than levels; the
   * clusters come out non-decreasing; each lies between the smallest and the
   * largest input level.
   */
  lemma ClusteredShape(levels: seq<real>, tolerancePercent: real)
    ensures var out := Clustered(levels, tolerancePercent);
      && (out == [] <==> levels == [])
      && |out| <= |levels|
      && NonDecreasing(out)
      && (levels != [] ==> Between(out, SeqMin(levels), SeqMax(levels)))
  {
    if levels != [] {
      var sorted := Ascending(levels);
      SortedIsNonDecreasing(sorted);
      assert [sorted[0]] + sorted[1..] == sorted;
      ClusterFromShape(sorted[1..], tolerancePercent, [sorted[0]]);
      assert sorted[0] in multiset(levels) && sorted[|sorted| - 1] in multiset(levels) by {
        assert sorted[0] in multiset(sorted) && sorted[|sorted| - 1] in multiset(sorted);
      }
      assert SeqMin(levels) <= sorted[0] && sorted[|sorted| - 1] <= SeqMax(levels) by {
        SeqMinIsMinimum(levels);
        SeqMaxIsMaximum(levels);
        assert sorted[0] in levels && sorted[|sorted| - 1] in levels;
      }
    }
  }

  /** How many neighbouring pairs along `rest` (starting after `prev`) fail to join. */
  function Breaks(rest: seq<real>, tolerancePercent: real, prev: real): nat
    decreases |rest|
  {
    if rest == [] then 0
    else (if Joins(rest[0], prev, tolerancePercent) then 0 else 1) + Breaks(rest[1..], tolerancePercent, rest[0])
  }

  /**
   * The number of clusters is one more than the number of sorted neighbours
   * whose gap is not below the tolerance.
   */
  lemma {:induction false} ClusterCount(rest: seq<real>, tolerancePercent: real, current: seq<real>)
    requires |current| > 0
    ensures |ClusterFrom(rest, tolerancePercent, current)| == 1 + Breaks(rest, tolerancePercent, current[|current| - 1])
  {
    if rest != [] {
      if Joins(rest[0], current[|current| - 1], tolerancePercent) {
        ClusterCount(rest[1..], tolerancePercent, current + [rest[0]]);
      } else {
        ClusterCount(rest[1..], tolerancePercent, [rest[0]]);
      }
    }
  }
}
