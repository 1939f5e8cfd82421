/** The reductions the report applies to a column of prices or returns:
    maximum and minimum with the index of their first occurrence (pandas
    `max`, `min`, `idxmax`, `idxmin`), the mean (`mean`), and the sample
    variance, whose square root is pandas `std` (delta degrees of freedom 1).
    `Sum` is the helper that defines the mean. */
module Stats {

  function Sum(s: seq<real>): real
  {
    if |s| == 0 then 0.0 else Sum(s[..|s| - 1]) + s[|s| - 1]
  }

  /** The arithmetic mean: |s| copies of it add up to the sum. */
  function Mean(s: seq<real>): (m: real)
    requires |s| > 0
    ensures (|s| as real) * m == Sum(s)
  {
    Sum(s) / (|s| as real)
  }

  predicate AllEqual(s: seq<real>, v: real) {
    forall k :: 0 <= k < |s| ==> s[k] == v
  }

  /** The largest element. */
  function MaxOf(s: seq<real>): (m: real)
    requires |s| > 0
    ensures exists k :: 0 <= k < |s| && s[k] == m
    ensures forall k :: 0 <= k < |s| ==> s[k] <= m
  {
    if |s| == 1 then s[0]
    else
      var m' := MaxOf(s[..|s| - 1]);
      if s[|s| - 1] > m' then s[|s| - 1] else m'
  }

  /** The smallest element. */
  function MinOf(s: seq<real>): (m: real)
    requires |s| > 0
    ensures exists k :: 0 <= k < |s| && s[k] == m
    ensures forall k :: 0 <= k < |s| ==> m <= s[k]
  {
    if |s| == 1 then s[0]
    else
      var m' := MinOf(s[..|s| - 1]);
      if s[|s| - 1] < m' then s[|s| - 1] else m'
  }

  /** The index of the first occurrence of the largest element (pandas `idxmax`). */
  function ArgMax(s: seq<real>): (k: nat)
    requires |s| > 0
    ensures k < |s|
    ensures forall j :: 0 <= j < |s| ==> s[j] <= s[k]
    ensures forall j :: 0 <= j < k ==> s[j] < s[k]
  {
    if |s| == 1 then 0
    else
      var k' := ArgMax(s[..|s| - 1]);
      if s[|s| - 1] > s[k'] then |s| - 1 else k'
  }

  /** The index of the first occurrence of the smallest element (pandas `idxmin`). */
  function ArgMin(s: seq<real>): (k: nat)
    requires |s| > 0
    ensures k < |s|
    ensures forall j :: 0 <= j < |s| ==> s[k] <= s[j]
    ensures forall j :: 0 <= j < k ==> s[k] < s[j]
  {
    if |s| == 1 then 0
    else
      var k' := ArgMin(s[..|s| - 1]);
      if s[|s| - 1] < s[k'] then |s| - 1 else k'
  }

  /** `max` and `idxmax` are computed separately in the source; they agree. */
  lemma {:induction false} MaxAtArgMax(s: seq<real>)
    requires |s| > 0
    ensures s[ArgMax(s)] == MaxOf(s)
  {
  }

  lemma {:induction false} MinAtArgMin(s: seq<real>)
    requires |s| > 0
    ensures s[ArgMin(s)] == MinOf(s)
  {
  }

  lemma {:induction false} SumFront(s: seq<real>)
    requires |s| > 0
    ensures Sum(s) == s[0] + Sum(s[1..])
  {
    if |s| > 1 {
      SumFront(s[..|s| - 1]);
      assert s[..|s| - 1][1..] == s[1..][..|s| - 2];
    }
  }

  /** Bounds on every element bound the sum. */
  lemma {:induction false} SumBounds(s: seq<real>, lo: real, hi: real)
    requires forall k :: 0 <= k < |s| ==> lo <= s[k] <= hi
    ensures (|s| as real) * lo <= Sum(s) <= (|s| as real) * hi
  {
    if |s| > 0 {
      SumBounds(s[..|s| - 1], lo, hi);
      assert (|s| as real) * lo == ((|s| - 1) as real) * lo + lo;
      assert (|s| as real) * hi == ((|s| - 1) as real) * hi + hi;
    }
  }

  lemma {:induction false} QuotientBounds(x: real, n: real, lo: real, hi: real)
    requires n > 0.0 && n * lo <= x <= n * hi
    ensures lo <= x / n <= hi
  {
  }

  lemma {:induction false} PositiveQuotient(x: real, n: real)
    requires x > 0.0 && n > 0.0
    ensures x / n > 0.0
  {
  }

  /** The mean lies between the minimum and the maximum. */
  lemma {:induction false} MeanBetween(s: seq<real>)
    requires |s| > 0
    ensures MinOf(s) <= Mean(s) <= MaxOf(s)
  {
    var lo, hi, t, n := MinOf(s), MaxOf(s), Sum(s), |s| as real;
    SumBounds(s, lo, hi);
    QuotientBounds(t, n, lo, hi);
    assert Mean(s) == t / n;
  }

  /** A constant sequence has that constant as mean, maximum and minimum. */
  lemma {:induction false} ConstantStatistics(s: seq<real>, v: real)
    requires |s| > 0 && AllEqual(s, v)
    ensures Mean(s) == v && MaxOf(s) == v && MinOf(s) == v
  {
    var t, n := Sum(s), |s| as real;
    SumBounds(s, v, v);
    QuotientBounds(t, n, v, v);
    assert Mean(s) == t / n;
  }

  /** Multiplication, with the sign facts the variance proofs rely on. Naming
      the product keeps the solver away from nonlinear reasoning about real
      squares: the variance proofs use only these two facts. */
  function Product(x: real, y: real): (r: real)
    ensures (x > 0.0 && y > 0.0) || (x < 0.0 && y < 0.0) ==> r > 0.0
    ensures x == 0.0 || y == 0.0 ==> r == 0.0
  {
    x * y
  }

  function Square(x: real): (r: real)
    ensures r >= 0.0
    ensures r == 0.0 <==> x == 0.0
  {
    Product(x, x)
  }

  /** The sum of squared deviations of the elements from `m`. */
  function SquaredDeviations(s: seq<real>, m: real): real
  {
    if |s| == 0 then 0.0
    else SquaredDeviations(s[..|s| - 1], m) + Square(s[|s| - 1] - m)
  }

  /** The sample variance: squared deviations from the mean over |s| - 1. */
  function SampleVariance(s: seq<real>): (v: real)
    requires |s| >= 2
    ensures ((|s| - 1) as real) * v == SquaredDeviations(s, Mean(s))
  {
    SquaredDeviations(s, Mean(s)) / ((|s| - 1) as real)
  }

  lemma {:induction false} SquaredDeviationsNonNegative(s: seq<real>, m: real)
    ensures SquaredDeviations(s, m) >= 0.0
  {
    if |s| > 0 {
      SquaredDeviationsNonNegative(s[..|s| - 1], m);
    }
  }

  /** Some element differs from `m`: the squared deviations are positive. */
  lemma {:induction false} SquaredDeviationsPositive(s: seq<real>, m: real)
    requires !AllEqual(s, m)
    ensures SquaredDeviations(s, m) > 0.0
  {
    var p := s[..|s| - 1];
    var d := s[|s| - 1] - m;
    SquaredDeviationsNonNegative(p, m);
    if d == 0.0 {
      assert !AllEqual(p, m) by {
        var k :| 0 <= k < |s| && s[k] != m;
        assert k < |s| - 1 && p[k] == s[k];
      }
      SquaredDeviationsPositive(p, m);
    }
  }

  lemma {:induction false} SquaredDeviationsZeroWhenEqual(s: seq<real>, m: real)
    requires AllEqual(s, m)
    ensures SquaredDeviations(s, m) == 0.0
  {
    if |s| > 0 {
      assert AllEqual(s[..|s| - 1], m);
      SquaredDeviationsZeroWhenEqual(s[..|s| - 1], m);
    }
  }

  lemma {:induction false} SampleVarianceNonNegative(s: seq<real>)
    requires |s| >= 2
    ensures SampleVariance(s) >= 0.0
  {
    SquaredDeviationsNonNegative(s, Mean(s));
  }

  /** The sample variance is zero exactly when all elements are equal. */
  lemma {:induction false} SampleVarianceZeroIff(s: seq<real>)
    requires |s| >= 2
    ensures SampleVariance(s) == 0.0 <==> AllEqual(s, s[0])
  {
    if AllEqual(s, s[0]) {
      ConstantStatistics(s, s[0]);
      SquaredDeviationsZeroWhenEqual(s, s[0]);
    } else {
      assert !AllEqual(s, Mean(s));
      SquaredDeviationsPositive(s, Mean(s));
      PositiveQuotient(SquaredDeviations(s, Mean(s)), (|s| - 1) as real);
    }
  }
}
