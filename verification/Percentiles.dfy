/** Interpolated percentiles over exact reals. */
module Percentiles {
  import opened Rounding
  import opened Sorting

  predicate AtMost(x: real, y: real) {
    x <= y
  }

  function Ordered(values: seq<real>): (s: seq<real>)
    ensures |s| == |values|
  {
    Sort(AtMost, values)
  }

  /** The point a fraction `w` of the way from `a` to `b`. */
  function Mix(a: real, b: real, w: real): real {
    a * (1.0 - w) + b * w
  }

  function Min(a: int, b: int): int {
    if a < b then a else b
  }

  /** The piecewise linear curve through `s[0]`, `s[1]`, ... at a position between the first and the last index. */
  function Curve(s: seq<real>, position: real): real
    requires |s| > 0 && 0.0 <= position <= (|s| - 1) as real
  {
    var lower := position.Floor;
    var upper := Min(lower + 1, |s| - 1);
    Mix(s[lower], s[upper], position - lower as real)
  }

  function Share(top: real, q: real): real {
    top * q
  }

  lemma ShareMonotone(top: real, p: real, q: real)
    requires 0.0 <= top && p <= q
    ensures Share(top, p) <= Share(top, q)
  {
    Scaled(top, p, q);
  }

  lemma ShareRange(top: real, q: real)
    requires 0.0 <= top && 0.0 <= q <= 1.0
    ensures 0.0 <= Share(top, q) <= top
  {
    assert Share(top, 0.0) == 0.0 && Share(top, 1.0) == top;
    hide Share;
    ShareMonotone(top, 0.0, q);
    ShareMonotone(top, q, 1.0);
  }

  function Position(count: int, q: real): (p: real)
    requires count > 0 && 0.0 <= q <= 1.0
    ensures 0.0 <= p <= (count - 1) as real
  {
    ShareRange((count - 1) as real, q);
    Share((count - 1) as real, q)
  }

  function Percentile(values: seq<real>, q: real): real
    requires 0.0 <= q <= 1.0
  {
    if values == [] then 0.0
    else if |values| == 1 then Round6(Ordered(values)[0])
    else Round6(Curve(Ordered(values), Position(|values|, q)))
  }

  lemma PositionMonotone(count: int, p: real, q: real)
    requires count > 0 && 0.0 <= p <= q <= 1.0
    ensures Position(count, p) <= Position(count, q)
  {
    hide Share;
    ShareMonotone((count - 1) as real, p, q);
  }

  lemma MixIsAffine(a: real, b: real, w: real)
    ensures Mix(a, b, w) == a + (b - a) * w
  {
  }

  lemma MixMonotone(a: real, b: real, v: real, w: real)
    requires a <= b && v <= w
    ensures Mix(a, b, v) <= Mix(a, b, w)
  {
    hide Mix;
    MixIsAffine(a, b, v);
    MixIsAffine(a, b, w);
    Scaled(b - a, v, w);
  }

  lemma MixBetween(a: real, b: real, w: real)
    requires a <= b && 0.0 <= w <= 1.0
    ensures a <= Mix(a, b, w) <= b
  {
    assert Mix(a, b, 0.0) == a && Mix(a, b, 1.0) == b;
    MixMonotone(a, b, 0.0, w);
    MixMonotone(a, b, w, 1.0);
  }

  lemma WeightedPointwise(a: real, b: real, c: real, d: real, v: real, w: real)
    requires a <= c && b <= d && 0.0 <= v && 0.0 <= w
    ensures a * v + b * w <= c * v + d * w
  {
  }

  lemma MixPointwise(a: real, b: real, c: real, d: real, w: real)
    requires a <= c && b <= d && 0.0 <= w <= 1.0
    ensures Mix(a, b, w) <= Mix(c, d, w)
  {
    WeightedPointwise(a, b, c, d, 1.0 - w, w);
  }

  lemma OrderedIsSorted(values: seq<real>)
    ensures Sorted(AtMost, Ordered(values))
    ensures multiset(Ordered(values)) == multiset(values)
  {
    SortSorts(AtMost, values);
  }

  /** The curve of an ordered sequence lies between the knots around the position. */
  lemma CurveBetweenKnots(s: seq<real>, position: real)
    requires |s| > 0 && 0.0 <= position <= (|s| - 1) as real
    requires Sorted(AtMost, s)
    ensures s[position.Floor] <= Curve(s, position) <= s[Min(position.Floor + 1, |s| - 1)]
  {
    var lower := position.Floor;
    var upper := Min(lower + 1, |s| - 1);
    assert lower == upper || AtMost(s[lower], s[upper]);
    MixBetween(s[lower], s[upper], position - lower as real);
  }

  /** It never falls, across segment boundaries too. */
  lemma CurveMonotone(s: seq<real>, p: real, q: real)
    requires |s| > 0 && 0.0 <= p <= q <= (|s| - 1) as real
    requires Sorted(AtMost, s)
    ensures Curve(s, p) <= Curve(s, q)
  {
    var lower := p.Floor;
    var upper := Min(lower + 1, |s| - 1);
    if q.Floor == lower {
      assert lower == upper || AtMost(s[lower], s[upper]);
      MixMonotone(s[lower], s[upper], p - lower as real, q - lower as real);
    } else {
      CurveBetweenKnots(s, p);
      CurveBetweenKnots(s, q);
      assert upper == q.Floor || AtMost(s[upper], s[q.Floor]);
    }
  }

  /** Only the values matter, not their order. */
  lemma PercentileIgnoresOrder(v: seq<real>, w: seq<real>, q: real)
    requires 0.0 <= q <= 1.0
    requires multiset(v) == multiset(w)
    ensures Percentile(v, q) == Percentile(w, q)
  {
    OrderedIsSorted(v);
    OrderedIsSorted(w);
    SortedIsUnique(AtMost, Ordered(v), Ordered(w));
  }

  /** A percentile lies between the rounded least and greatest value, and meets them at the ends of the range. */
  lemma PercentileWithinRange(values: seq<real>, q: real, low: real, high: real)
    requires 0.0 <= q <= 1.0
    requires low in values && high in values
    requires forall x :: x in values ==> low <= x <= high
    ensures Round6(low) <= Percentile(values, q) <= Round6(high)
    ensures Percentile(values, 0.0) == Round6(low)
    ensures Percentile(values, 1.0) == Round6(high)
  {
    var s := Ordered(values);
    OrderedIsSorted(values);
    OrderedEnds(values, low, high);
    if |values| > 1 {
      var last := (|s| - 1) as real;
      assert Position(|s|, 0.0) == 0.0 && Position(|s|, 1.0) == last;
      assert Curve(s, 0.0) == s[0];
      assert Curve(s, last) == s[|s| - 1];
      CurveMonotone(s, 0.0, Position(|s|, q));
      CurveMonotone(s, Position(|s|, q), last);
      RoundMonotone(s[0], Curve(s, Position(|s|, q)));
      RoundMonotone(Curve(s, Position(|s|, q)), s[|s| - 1]);
    }
  }

  lemma OrderedEnds(values: seq<real>, low: real, high: real)
    requires low in values && high in values
    requires forall x :: x in values ==> low <= x <= high
    ensures Ordered(values)[0] == low && Ordered(values)[|values| - 1] == high
  {
    var s := Ordered(values);
    OrderedIsSorted(values);
    assert low in multiset(s) && high in multiset(s);
    assert s[0] in multiset(s) && s[|s| - 1] in multiset(s);
    assert s[0] in multiset(values) && s[|s| - 1] in multiset(values);
    assert s[0] in values && s[|s| - 1] in values;
    var i :| 0 <= i < |s| && s[i] == low;
    var j :| 0 <= j < |s| && s[j] == high;
    assert i == 0 || AtMost(s[0], s[i]);
    assert j == |s| - 1 || AtMost(s[j], s[|s| - 1]);
    assert low <= s[0] && s[|s| - 1] <= high;
  }

  /** The ordered values stand at even steps of the quantile. */
  function Knot(count: int, k: int): real
    requires count > 1
  {
    k as real / (count - 1) as real
  }

  lemma KnotRange(count: int, k: int)
    requires count > 1 && 0 <= k < count
    ensures 0.0 <= Knot(count, k) <= 1.0
  {
  }

  lemma MixRange(a: real, b: real, w: real)
    requires 0.0 <= a <= 1.0 && 0.0 <= b <= 1.0 && 0.0 <= w <= 1.0
    ensures 0.0 <= Mix(a, b, w) <= 1.0
  {
    if a <= b {
      MixBetween(a, b, w);
    } else {
      assert Mix(a, b, w) == Mix(b, a, 1.0 - w);
      MixBetween(b, a, 1.0 - w);
    }
  }

  lemma PositionBetween(count: int, k: int, w: real)
    requires count > 1 && 0 <= k < count - 1 && 0.0 <= w <= 1.0
    requires 0.0 <= Mix(Knot(count, k), Knot(count, k + 1), w) <= 1.0
    ensures Position(count, Mix(Knot(count, k), Knot(count, k + 1), w)) == k as real + w
  {
    var top := (count - 1) as real;
    MixIsAffine(Knot(count, k), Knot(count, k + 1), w);
    assert Knot(count, k + 1) - Knot(count, k) == 1.0 / top;
    assert top * (k as real / top + 1.0 / top * w) == k as real + w;
  }

  lemma CurveBetween(s: seq<real>, k: int, w: real)
    requires 0 <= k < |s| - 1 && 0.0 <= w <= 1.0
    ensures Curve(s, k as real + w) == Mix(s[k], s[k + 1], w)
  {
    hide Mix;
    MixEnds(s[k], s[k + 1]);
    if w < 1.0 {
      assert (k as real + w).Floor == k;
    } else {
      assert (k as real + w).Floor == k + 1;
      MixEnds(s[k + 1], s[Min(k + 2, |s| - 1)]);
    }
  }

  lemma MixEnds(a: real, b: real)
    ensures Mix(a, b, 0.0) == a && Mix(a, b, 1.0) == b
  {
  }

  lemma PercentileMixes(values: seq<real>, s: seq<real>, k: int, w: real)
    requires multiset(s) == multiset(values) && Sorted(AtMost, s)
    requires |s| == |values| > 1 && 0 <= k < |s| - 1 && 0.0 <= w <= 1.0
    ensures var q := Mix(Knot(|s|, k), Knot(|s|, k + 1), w);
            0.0 <= q <= 1.0 && Percentile(values, q) == Round6(Mix(s[k], s[k + 1], w))
  {
    hide Mix, Knot, Position;
    KnotRange(|s|, k);
    KnotRange(|s|, k + 1);
    MixRange(Knot(|s|, k), Knot(|s|, k + 1), w);
    PositionBetween(|s|, k, w);
    CurveBetween(s, k, w);
    OrderedIsSorted(values);
    SortedIsUnique(AtMost, Ordered(values), s);
  }

  /**
   Between the quantiles of two neighbouring ordered values the result is the same mixture of the two, rounded.
   */
  lemma PercentileInterpolates(values: seq<real>, s: seq<real>, k: int, w: real)
    requires multiset(s) == multiset(values) && Sorted(AtMost, s)
    requires |s| == |values| && 0 <= k < |s| - 1 && 0.0 <= w <= 1.0
    ensures var q := (1.0 - w) * Knot(|s|, k) + w * Knot(|s|, k + 1);
            0.0 <= q <= 1.0 && Percentile(values, q) == Round6((1.0 - w) * s[k] + w * s[k + 1])
  {
    hide Knot, Percentile, Round6;
    PercentileMixes(values, s, k, w);
    MixCommutes(Knot(|s|, k), Knot(|s|, k + 1), w);
    MixCommutes(s[k], s[k + 1], w);
  }

  lemma MixCommutes(a: real, b: real, w: real)
    ensures Mix(a, b, w) == (1.0 - w) * a + w * b
  {
  }

  /** At the quantile k / (n - 1) the result is the rounded k-th of the ordered values. */
  lemma PercentileAtKnot(values: seq<real>, s: seq<real>, k: int)
    requires multiset(s) == multiset(values) && Sorted(AtMost, s)
    requires |s| == |values| > 1 && 0 <= k < |s|
    ensures 0.0 <= Knot(|s|, k) <= 1.0 && Percentile(values, Knot(|s|, k)) == Round6(s[k])
  {
    hide Knot, Percentile, Mix, Round6;
    if k < |s| - 1 {
      PercentileMixes(values, s, k, 0.0);
      MixEnds(s[k], s[k + 1]);
      MixEnds(Knot(|s|, k), Knot(|s|, k + 1));
    } else {
      PercentileMixes(values, s, k - 1, 1.0);
      MixEnds(s[k - 1], s[k]);
      MixEnds(Knot(|s|, k - 1), Knot(|s|, k));
    }
  }

  /** Of no values the percentile is zero, and of one it is that value, rounded. */
  lemma PercentileOfFew(x: real, q: real)
    requires 0.0 <= q <= 1.0
    ensures Percentile([], q) == 0.0 && Percentile([x], q) == Round6(x)
  {
    OrderedIsSorted([x]);
    assert Ordered([x])[0] in multiset(Ordered([x]));
  }

  /** A higher quantile never gives a smaller result. */
  lemma PercentileMonotoneInQ(values: seq<real>, p: real, q: real)
    requires 0.0 <= p <= q <= 1.0
    ensures Percentile(values, p) <= Percentile(values, q)
  {
    if |values| > 1 {
      var s := Ordered(values);
      OrderedIsSorted(values);
      PositionMonotone(|values|, p, q);
      CurveMonotone(s, Position(|s|, p), Position(|s|, q));
      RoundMonotone(Curve(s, Position(|s|, p)), Curve(s, Position(|s|, q)));
    }
  }

  ghost predicate Pointwise(v: seq<real>, w: seq<real>) {
    |v| == |w| && forall i :: 0 <= i < |v| ==> v[i] <= w[i]
  }

  lemma PointwiseCons(x: real, s: seq<real>, y: real, t: seq<real>)
    requires x <= y && Pointwise(s, t)
    ensures Pointwise([x] + s, [y] + t)
  {
  }

  lemma InsertOfFirst(s: seq<real>)
    requires s != [] && Sorted(AtMost, s)
    ensures Sorted(AtMost, s[1..]) && Insert(AtMost, s[0], s[1..]) == s
  {
  }

  /** Inserting a larger value into a pointwise larger ordered sequence gives a pointwise larger one. */
  lemma {:induction false} InsertPointwise(x: real, s: seq<real>, y: real, t: seq<real>)
    requires x <= y && Pointwise(s, t)
    requires Sorted(AtMost, s) && Sorted(AtMost, t)
    ensures Pointwise(Insert(AtMost, x, s), Insert(AtMost, y, t))
    decreases s
  {
    if s == [] {
    } else if x <= s[0] && y <= t[0] {
      PointwiseCons(x, s, y, t);
    } else {
      InsertOfFirst(s);
      InsertOfFirst(t);
      var u, v := if x <= s[0] then s[0] else x, if y <= t[0] then t[0] else y;
      var a, b := if x <= s[0] then x else s[0], if y <= t[0] then y else t[0];
      InsertPointwise(u, s[1..], v, t[1..]);
      PointwiseCons(a, Insert(AtMost, u, s[1..]), b, Insert(AtMost, v, t[1..]));
    }
  }

  lemma {:induction false} OrderedPointwise(v: seq<real>, w: seq<real>)
    requires Pointwise(v, w)
    ensures Pointwise(Ordered(v), Ordered(w))
  {
    if v != [] {
      OrderedPointwise(v[1..], w[1..]);
      OrderedIsSorted(v[1..]);
      OrderedIsSorted(w[1..]);
      InsertPointwise(v[0], Ordered(v[1..]), w[0], Ordered(w[1..]));
    }
  }

  /** Raising values pointwise never lowers a percentile. */
  lemma PercentileMonotoneInValues(v: seq<real>, w: seq<real>, q: real)
    requires 0.0 <= q <= 1.0
    requires Pointwise(v, w)
    ensures Percentile(v, q) <= Percentile(w, q)
  {
    OrderedPointwise(v, w);
    if v != [] {
      var s, t, position := Ordered(v), Ordered(w), Position(|v|, q);
      var lower := position.Floor;
      var upper := Min(lower + 1, |s| - 1);
      MixPointwise(s[lower], s[upper], t[lower], t[upper], position - lower as real);
      RoundMonotone(s[0], t[0]);
      RoundMonotone(Curve(s, position), Curve(t, position));
    }
  }
}
