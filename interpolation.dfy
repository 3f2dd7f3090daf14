/**
  Sampling a field between grid points: a `bisect_left` search for the two
  coordinates that bracket a value, and the distance-weighted average of the
  two samples at those coordinates.
*/
module Interpolation {
  import opened Basics

  predicate Sorted(s: seq<real>) {
    forall i, j :: 0 <= i <= j < |s| ==> s[i] <= s[j]
  }

  predicate StrictlyIncreasing(s: seq<real>) {
    forall i, j :: 0 <= i < j < |s| ==> s[i] < s[j]
  }

  /** `bisect_left`: the first index whose element is not below `v`. */
  method BisectLeft(s: seq<real>, v: real) returns (k: nat)
    requires Sorted(s)
    ensures k <= |s|
    ensures forall i :: 0 <= i < k ==> s[i] < v
    ensures forall i :: k <= i < |s| ==> v <= s[i]
  {
    var lo, hi := 0, |s|;
    while lo < hi
      invariant 0 <= lo <= hi <= |s|
      invariant forall i :: 0 <= i < lo ==> s[i] < v
      invariant forall i :: hi <= i < |s| ==> v <= s[i]
      decreases hi - lo
    {
      var mid := (lo + hi) / 2;
      if s[mid] < v {
        lo := mid + 1;
      } else {
        hi := mid;
      }
    }
    k := lo;
  }

  /** The pair of indices the search returns; `None` stands for Python's `None`. */
  datatype Bracket = Bracket(lower: Option<int>, upper: Option<int>)

  /** Index i and its predecessor straddle `v`: s[i-1] < v <= s[i]. */
  predicate Straddles(s: seq<real>, v: real, i: int) {
    0 < i < |s| && s[i - 1] < v <= s[i]
  }

  /**
    `trouver_encadrement`: `(None, 0)` when `v` would be inserted first (the
    empty list and `v == s[0]` included), `(len - 1, None)` when it would be
    inserted last, and otherwise the two indices that straddle it.
  */
  method FindBracket(v: real, s: seq<real>) returns (b: Bracket)
    requires Sorted(s)
    ensures b == Bracket(None, Some(0)) <==> (|s| == 0 || v <= s[0])
    ensures b == Bracket(Some(|s| - 1), None) <==> (|s| > 0 && s[|s| - 1] < v)
    ensures b.lower.Some? && b.upper.Some? ==>
      b.lower.value == b.upper.value - 1 && Straddles(s, v, b.upper.value)
    ensures b.lower.Some? && b.upper.Some? <==> (|s| > 0 && s[0] < v <= s[|s| - 1])
    ensures b.lower.Some? || b.upper.Some?
  {
    var index := BisectLeft(s, v);
    if index == 0 {
      return Bracket(None, Some(0));
    } else if index == |s| {
      return Bracket(Some(|s| - 1), None);
    }
    assert Straddles(s, v, index);
    return Bracket(Some(index - 1), Some(index));
  }

  /** The weights of the two samples: each falls linearly with the distance to its coordinate. */
  function Weights(x1: real, x2: real, v: real): (w: (real, real))
    requires x1 != x2
    ensures x1 < x2 && x1 <= v <= x2 ==> 0.0 <= w.0 && 0.0 <= w.1 && w.0 + w.1 == 1.0
    ensures v == x1 ==> w == (1.0, 0.0)
    ensures v == x2 ==> w == (0.0, 1.0)
  {
    var d := x2 - x1;
    var w1 := (x2 - v) / d;
    var w2 := (v - x1) / d;
    QuotientsSum(x2 - v, v - x1, d);
    QuotientNonnegative(x2 - v, d);
    QuotientNonnegative(v - x1, d);
    (w1, w2)
  }

  lemma QuotientsSum(p: real, q: real, d: real)
    requires d != 0.0
    ensures p / d + q / d == (p + q) / d
    ensures (p + q) == d ==> p / d + q / d == 1.0
    ensures p == 0.0 ==> p / d == 0.0
  {
    assert (p / d) * d == p;
    assert (q / d) * d == q;
    assert (p / d + q / d) * d == p + q;
  }

  /**
    `moyenne_ponderee`: rejects indices out of range or out of order, then a
    value outside the bracket; a zero-width bracket divides by zero and a
    sample list shorter than the coordinates raises an index error.
  */
  function WeightedAverage(i1: int, i2: int, y: seq<real>, x: seq<real>, v: real): (r: Result<real>)
    ensures r == Err(InvalidIndices) <==> (i1 < 0 || i2 >= |x| || i1 >= i2)
    ensures 0 <= i1 < i2 < |x| ==> (r == Err(NotBracketed) <==> !(x[i1] <= v <= x[i2]))
    ensures 0 <= i1 < i2 < |x| && x[i1] <= v <= x[i2] ==>
      (r == Err(DivisionByZero) <==> x[i1] == x[i2])
    ensures 0 <= i1 < i2 < |x| && x[i1] < x[i2] && x[i1] <= v <= x[i2] ==>
      (r == Err(IndexOutOfRange) <==> i2 >= |y|)
    ensures r.Ok? <==> 0 <= i1 < i2 < |x| && i2 < |y| && x[i1] < x[i2] && x[i1] <= v <= x[i2]
    ensures r.Ok? ==> Between(r.value, y[i1], y[i2])
    ensures r.Ok? && v == x[i1] ==> r.value == y[i1]
    ensures r.Ok? && v == x[i2] ==> r.value == y[i2]
  {
    if i1 < 0 || i2 >= |x| || i1 >= i2 then Err(InvalidIndices)
    else if !(x[i1] <= v <= x[i2]) then Err(NotBracketed)
    else if x[i2] == x[i1] then Err(DivisionByZero)
    else if i2 >= |y| then Err(IndexOutOfRange)
    else
      var w := Weights(x[i1], x[i2], v);
      ConvexCombinationBetween(w.0, w.1, y[i1], y[i2]);
      Ok(w.0 * y[i1] + w.1 * y[i2])
  }

  predicate Between(r: real, a: real, b: real) {
    (a <= r <= b) || (b <= r <= a)
  }

  lemma ConvexCombinationBetween(w1: real, w2: real, a: real, b: real)
    requires 0.0 <= w1 && 0.0 <= w2 && w1 + w2 == 1.0
    ensures Between(w1 * a + w2 * b, a, b)
  {
    var c := w1 * a + w2 * b;
    assert w1 == 1.0 - w2;
    assert (1.0 - w2) * a == a - w2 * a;
    assert c - a == w2 * (b - a);
    assert (1.0 - w1) * b == b - w1 * b;
    assert b - c == w1 * (b - a);
    if a <= b {
      NonNegativeProduct(w2, b - a);
      NonNegativeProduct(w1, b - a);
    } else {
      NonNegativeProduct(w2, a - b);
      NonNegativeProduct(w1, a - b);
      assert w2 * (b - a) == -(w2 * (a - b));
      assert w1 * (b - a) == -(w1 * (a - b));
    }
  }

  /** The linear interpolation through (x1, y1) and (x2, y2), written independently. */
  function Lerp(x1: real, y1: real, x2: real, y2: real, v: real): real
    requires x1 != x2
  {
    y1 + (v - x1) * (y2 - y1) / (x2 - x1)
  }

  /** The weighted average is the straight line through the two samples. */
  lemma WeightedAverageIsLerp(i1: int, i2: int, y: seq<real>, x: seq<real>, v: real)
    requires WeightedAverage(i1, i2, y, x, v).Ok?
    ensures WeightedAverage(i1, i2, y, x, v).value == Lerp(x[i1], y[i1], x[i2], y[i2], v)
  {
    var d := x[i2] - x[i1];
    var w1, w2 := (x[i2] - v) / d, (v - x[i1]) / d;
    assert w1 == 1.0 - w2;
    assert w1 * y[i1] + w2 * y[i2] == y[i1] + w2 * (y[i2] - y[i1]);
    assert w2 * (y[i2] - y[i1]) == (v - x[i1]) * (y[i2] - y[i1]) / d;
  }

  /**
    Every interior bracket the search can return is accepted by the weighted
    average, whenever there is one sample per coordinate.
  */
  lemma StraddlingBracketAccepted(x: seq<real>, y: seq<real>, v: real, i: int)
    requires Straddles(x, v, i) && |y| >= |x|
    ensures WeightedAverage(i - 1, i, y, x, v).Ok?
  {
  }
}
