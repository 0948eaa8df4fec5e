/** The statistics of BidAskSpread/StatsUtils.h over exact reals. */
module Statistics {

  // ---------------------------------------------------------------- sorting

  predicate Ascending(s: seq<real>) {
    forall i, j | 0 <= i <= j < |s| :: s[i] <= s[j]
  }

  function Insert(x: real, s: seq<real>): (r: seq<real>)
    requires Ascending(s)
    ensures Ascending(r) && multiset(r) == multiset{x} + multiset(s)
    ensures |r| == |s| + 1 && (r[0] == x || (|s| > 0 && r[0] == s[0]))
  {
    if |s| == 0 then [x]
    else if x <= s[0] then [x] + s
    else
      assert s == [s[0]] + s[1..];
      [s[0]] + Insert(x, s[1..])
  }

  /** What `std::sort` leaves. */
  function Sort(s: seq<real>): (r: seq<real>)
    ensures Ascending(r) && multiset(r) == multiset(s) && |r| == |s|
  {
    if |s| == 0 then []
    else
      assert s == [s[0]] + s[1..];
      Insert(s[0], Sort(s[1..]))
  }

  lemma FirstIsLeast(a: seq<real>, b: seq<real>)
    requires Ascending(a) && multiset(a) == multiset(b) && |b| > 0
    ensures |a| > 0 && a[0] <= b[0]
  {
    assert b[0] in multiset(a);
    var j :| 0 <= j < |a| && a[j] == b[0];
  }

  /** However the library sorts, an ascending rearrangement is this one. */
  lemma {:induction false} SortUnique(a: seq<real>, b: seq<real>)
    requires Ascending(a) && Ascending(b) && multiset(a) == multiset(b)
    ensures a == b
    decreases |a|
  {
    if |a| == 0 {
      assert |multiset(b)| == 0;
    } else {
      assert |multiset(b)| == |a|;
      FirstIsLeast(a, b);
      FirstIsLeast(b, a);
      RestSame(a, b);
      SortUnique(a[1..], b[1..]);
    }
  }

  lemma RestSame(a: seq<real>, b: seq<real>)
    requires |a| > 0 && |b| > 0 && a[0] == b[0] && multiset(a) == multiset(b)
    ensures multiset(a[1..]) == multiset(b[1..])
  {
    assert a == [a[0]] + a[1..] && b == [b[0]] + b[1..];
    assert multiset(a[1..]) == multiset(a) - multiset{a[0]};
  }

  lemma SortOrderBlind(s: seq<real>, t: seq<real>)
    requires multiset(s) == multiset(t)
    ensures Sort(s) == Sort(t)
  {
    SortUnique(Sort(s), Sort(t));
  }

  lemma SortKeepsAll(s: seq<real>, i: nat)
    requires i < |s|
    ensures Sort(s)[i] in s
  {
    assert Sort(s)[i] in multiset(Sort(s));
  }

  // ---------------------------------------------------------------- sums and means

  function Sum(s: seq<real>): real {
    if |s| == 0 then 0.0 else Sum(s[..|s| - 1]) + s[|s| - 1]
  }

  function Mean(s: seq<real>): real
    requires |s| > 0
  {
    Sum(s) / (|s| as real)
  }

  lemma {:induction false} SumBetween(s: seq<real>, lo: real, hi: real)
    requires forall i | 0 <= i < |s| :: lo <= s[i] <= hi
    ensures (|s| as real) * lo <= Sum(s) <= (|s| as real) * hi
  {
    if |s| > 0 {
      var n := |s| - 1;
      SumBetween(s[..n], lo, hi);
      assert (|s| as real) * lo == (n as real) * lo + lo && (|s| as real) * hi == (n as real) * hi + hi;
    }
  }

  /** A mean lies between any bounds on its values. */
  lemma MeanBetween(s: seq<real>, lo: real, hi: real)
    requires |s| > 0 && forall i | 0 <= i < |s| :: lo <= s[i] <= hi
    ensures lo <= Mean(s) <= hi
  {
    SumBetween(s, lo, hi);
    Quotient(Sum(s), |s| as real, lo, hi);
  }

  lemma Quotient(a: real, n: real, lo: real, hi: real)
    requires n > 0.0 && n * lo <= a <= n * hi
    ensures lo <= a / n <= hi
  {
    var q := a / n;
    assert n * q == a;
  }

  lemma Positive(a: real, b: real)
    requires a > 0.0 && b > 0.0
    ensures a * b > 0.0
  {
  }

  /** The loop of `mean`. */
  method ComputeMean(values: seq<real>) returns (mean: real)
    requires |values| > 0
    ensures mean == Mean(values)
  {
    var sum := 0.0;
    for i := 0 to |values|
      invariant sum == Sum(values[..i])
    {
      assert values[..i + 1][..i] == values[..i];
      sum := sum + values[i];
    }
    assert values[..|values|] == values;
    mean := sum / (|values| as real);
  }

  // ---------------------------------------------------------------- trimmed mean

  /** `round`, on what is not negative: halves go up. */
  function Round(x: real): int {
    (x + 0.5).Floor
  }

  /** Values dropped at each end by a trimming factor of a tenth. */
  function Skip(n: nat): int
    requires n > 0
  {
    Round((n - 1) as real * 0.1)
  }

  /** The trimming never uses up the values. */
  lemma SkipLeavesSome(n: nat)
    requires n > 0
    ensures 0 <= Skip(n) && n - 2 * Skip(n) >= 1
    ensures Skip(n) == (n + 4) / 10
  {
    var k := Skip(n);
    var x := (n - 1) as real * 0.1 + 0.5;
    assert k as real <= x < k as real + 1.0;
    assert 10.0 * x == n as real + 4.0;
    assert 10 * k <= n + 4 < 10 * k + 10;
  }

  /** What is left of ascending values. */
  function Trimmed(sorted: seq<real>): (r: seq<real>)
    requires |sorted| > 0
    ensures 0 <= Skip(|sorted|) && 0 < |r| == |sorted| - 2 * Skip(|sorted|)
    ensures forall i | 0 <= i < |r| :: r[i] == sorted[i + Skip(|sorted|)]
  {
    SkipLeavesSome(|sorted|);
    hide Skip;
    sorted[Skip(|sorted|)..|sorted| - Skip(|sorted|)]
  }

  function TrimmedMean(sorted: seq<real>): real
    requires |sorted| > 0
  {
    Mean(Trimmed(sorted))
  }

  /** The loop of `trimmedMean`. */
  method ComputeTrimmedMean(values: seq<real>) returns (mean: real)
    requires |values| > 0
    ensures mean == TrimmedMean(values)
  {
    SkipLeavesSome(|values|);
    var n, skip := |values|, Skip(|values|);
    var sum := 0.0;
    for i := skip to n - skip
      invariant sum == Sum(values[skip..i])
    {
      assert values[skip..i + 1][..i - skip] == values[skip..i];
      sum := sum + values[i];
    }
    mean := sum / ((n - 2 * skip) as real);
  }

  /** The trimmed mean lies between the least and the greatest value. */
  lemma TrimmedMeanWithin(values: seq<real>)
    requires |values| > 0
    ensures var sorted := Sort(values);
            && sorted[0] <= TrimmedMean(sorted) <= sorted[|sorted| - 1]
            && forall x | x in values :: sorted[0] <= x <= sorted[|sorted| - 1]
  {
    hide Skip;
    var sorted := Sort(values);
    SkipLeavesSome(|sorted|);
    MeanBetween(Trimmed(sorted), sorted[0], sorted[|sorted| - 1]);
    forall x | x in values ensures sorted[0] <= x <= sorted[|sorted| - 1] {
      assert x in multiset(sorted);
    }
  }

  // ---------------------------------------------------------------- spread of the values

  function Square(x: real): (r: real)
    ensures r >= 0.0
  {
    x * x
  }

  /** Squared distances from `mean`. */
  function Squares(s: seq<real>, mean: real): (r: seq<real>)
    ensures |r| == |s| && forall i | 0 <= i < |s| :: r[i] == Square(s[i] - mean)
  {
    seq(|s|, i requires 0 <= i < |s| => Square(s[i] - mean))
  }

  /** The square of `sampleSD`. */
  function Variance(s: seq<real>, mean: real): real
    requires |s| > 1
  {
    Sum(Squares(s, mean)) / ((|s| - 1) as real)
  }

  /** The values' distances from their mean cancel out. */
  lemma MeanBalances(s: seq<real>)
    requires |s| > 0
    ensures Sum(s) == Times(Mean(s), |s| as real)
  {
    assert Sum(s) / (|s| as real) * (|s| as real) == Sum(s);
  }

  lemma {:induction false} SumOfSquares(s: seq<real>, m: real)
    ensures Sum(Squares(s, m)) == Sum(Squares(s, 0.0)) - Times(Times(2.0, m), Sum(s)) + Times(|s| as real, Square(m))
  {
    if |s| > 0 {
      var n := |s| - 1;
      SumOfSquares(s[..n], m);
      assert Squares(s, m)[..n] == Squares(s[..n], m) && Squares(s, 0.0)[..n] == Squares(s[..n], 0.0);
      SquareOut(s[n], m, Sum(s[..n]), n as real);
      hide Square, Times, Squares;
    }
  }

  lemma SquareOut(x: real, m: real, sum: real, n: real)
    ensures Square(x - m) == Square(x - 0.0) - 2.0 * m * x + Square(m)
    ensures Times(Times(2.0, m), sum + x) == Times(Times(2.0, m), sum) + 2.0 * m * x
    ensures Times(n + 1.0, Square(m)) == Times(n, Square(m)) + Square(m)
  {
  }

  /** The sample variance, n - 1 in its denominator, from the sums of the values and of their squares. */
  lemma VarianceFromSums(s: seq<real>)
    requires |s| > 1
    ensures var n := |s| as real;
            Times(Times(n, n - 1.0), Variance(s, Mean(s))) == Times(n, Sum(Squares(s, 0.0))) - Square(Sum(s))
  {
    hide *;
    var n, m := |s| as real, Mean(s);
    VarianceTimes(s, m);
    MeanBalances(s);
    SumOfSquares(s, m);
    Regroup(n, n - 1.0, Variance(s, m));
    Expand(Sum(Squares(s, 0.0)), m, n);
  }

  lemma VarianceTimes(s: seq<real>, m: real)
    requires |s| > 1
    ensures Times(|s| as real - 1.0, Variance(s, m)) == Sum(Squares(s, m))
  {
    assert Sum(Squares(s, m)) / ((|s| - 1) as real) * ((|s| - 1) as real) == Sum(Squares(s, m));
  }

  lemma Regroup(a: real, b: real, c: real)
    ensures Times(Times(a, b), c) == Times(a, Times(b, c))
  {
  }

  lemma Expand(squares: real, m: real, n: real)
    ensures Times(n, squares - Times(Times(2.0, m), Times(m, n)) + Times(n, Square(m))) == Times(n, squares) - Square(Times(m, n))
  {
    var mn := m * n;
    assert (2.0 * m) * mn == 2.0 * (m * mn) && n * (Square(m)) == m * mn;
    assert n * (m * mn) == mn * mn;
    assert n * (squares - m * mn) == n * squares - n * (m * mn);
  }

  /** The loop of `sampleSD`, before its square root. */
  method ComputeVariance(values: seq<real>, mean: real) returns (variance: real)
    requires |values| > 1
    ensures variance == Variance(values, mean)
  {
    hide Square;
    variance := 0.0;
    for i := 0 to |values|
      invariant variance == Sum(Squares(values[..i], mean))
    {
      assert Squares(values[..i + 1], mean)[..i] == Squares(values[..i], mean);
      variance := variance + Square(values[i] - mean);
    }
    assert values[..|values|] == values;
    variance := variance / ((|values| - 1) as real);
  }

  /** Comparing squares is comparing with the standard deviation. */
  lemma BeyondThreeDeviations(distance: real, sd: real, variance: real)
    requires sd >= 0.0 && sd * sd == variance
    ensures ((if distance >= 0.0 then distance else -distance) > 3.0 * sd) <==> distance * distance > 9.0 * variance
  {
    var d := if distance >= 0.0 then distance else -distance;
    assert d * d == distance * distance;
    assert (3.0 * sd) * (3.0 * sd) == 9.0 * variance;
    if d > 3.0 * sd {
      SquareGrows(3.0 * sd, d);
    } else {
      assert d * d <= d * (3.0 * sd) <= (3.0 * sd) * (3.0 * sd);
    }
  }

  lemma SquareGrows(a: real, b: real)
    requires 0.0 <= a < b
    ensures a * a < b * b
  {
    assert b * b - a * a == (b - a) * (b + a);
    Positive(b - a, b + a);
  }

  // ---------------------------------------------------------------- median

  function Median(sorted: seq<real>): (m: real)
    requires |sorted| > 0 && Ascending(sorted)
    ensures sorted[0] <= m <= sorted[|sorted| - 1]
  {
    var h := |sorted| / 2;
    if |sorted| % 2 == 0 then (sorted[h - 1] + sorted[h]) / 2.0 else sorted[h]
  }

  /** It is the middle value, or half-way between the two middle ones: half the values are not above it and half are not
      below it. */
  lemma MedianIsMiddle(sorted: seq<real>)
    requires |sorted| > 0 && Ascending(sorted)
    ensures var n, m := |sorted|, Median(sorted);
            && 2.0 * m == sorted[(n - 1) / 2] + sorted[n / 2]
            && (forall i | 0 <= i <= (n - 1) / 2 :: sorted[i] <= m)
            && (forall i | n / 2 <= i < n :: sorted[i] >= m)
  {
    var n := |sorted|;
    assert sorted[(n - 1) / 2] <= sorted[n / 2];
    assert n % 2 == 1 ==> (n - 1) / 2 == n / 2;
    assert n % 2 == 0 ==> (n - 1) / 2 == n / 2 - 1;
  }

  // ---------------------------------------------------------------- scale

  type Factor = k: real | k > 0.0 witness 1.0

  function Times(k: real, x: real): real { k * x }

  function Scaled(k: real, s: seq<real>): (r: seq<real>)
    ensures |r| == |s| && forall i | 0 <= i < |s| :: r[i] == Times(k, s[i])
  {
    seq(|s|, i requires 0 <= i < |s| => Times(k, s[i]))
  }

  lemma ScaleOrder(k: Factor, a: real, b: real)
    ensures a <= b <==> Times(k, a) <= Times(k, b)
  {
  }

  lemma ScaledAscending(k: Factor, s: seq<real>)
    requires Ascending(s)
    ensures Ascending(Scaled(k, s))
  {
    hide Times;
    forall i, j | 0 <= i <= j < |s| ensures Scaled(k, s)[i] <= Scaled(k, s)[j] { ScaleOrder(k, s[i], s[j]); }
  }

  lemma {:induction false} InsertScaled(k: Factor, x: real, s: seq<real>)
    requires Ascending(s)
    ensures Ascending(Scaled(k, s)) && Insert(Times(k, x), Scaled(k, s)) == Scaled(k, Insert(x, s))
  {
    hide Times;
    ScaledAscending(k, s);
    if |s| > 0 {
      ScaleOrder(k, x, s[0]);
      ScaledFirst(k, s);
      if x > s[0] {
        InsertScaled(k, x, s[1..]);
        ScaledFirst(k, [s[0]] + Insert(x, s[1..]));
      } else {
        ScaledFirst(k, [x] + s);
      }
      hide Scaled;
    } else {
      assert Scaled(k, [x]) == [Times(k, x)];
    }
  }

  lemma ScaledFirst(k: real, s: seq<real>)
    requires |s| > 0
    ensures Scaled(k, s) == [Times(k, s[0])] + Scaled(k, s[1..])
    ensures Scaled(k, s)[0] == Times(k, s[0]) && Scaled(k, s)[1..] == Scaled(k, s[1..])
  {
  }

  lemma {:induction false} SortScaled(k: Factor, s: seq<real>)
    ensures Sort(Scaled(k, s)) == Scaled(k, Sort(s))
  {
    hide Times, Insert;
    if |s| > 0 {
      SortScaled(k, s[1..]);
      assert Scaled(k, s)[1..] == Scaled(k, s[1..]);
      InsertScaled(k, s[0], Sort(s[1..]));
    }
  }

  lemma {:induction false} SumScaled(k: real, s: seq<real>)
    ensures Sum(Scaled(k, s)) == Times(k, Sum(s))
  {
    if |s| > 0 {
      var n := |s| - 1;
      SumScaled(k, s[..n]);
      SumEnds(Scaled(k, s), Scaled(k, s[..n]), Times(k, s[n]));
    }
  }

  lemma SumEnds(s: seq<real>, start: seq<real>, last: real)
    requires s == start + [last]
    ensures Sum(s) == Sum(start) + last
  {
    assert s[..|start|] == start;
  }

  lemma MeanScaled(k: real, s: seq<real>)
    requires |s| > 0
    ensures Mean(Scaled(k, s)) == Times(k, Mean(s))
  {
    SumScaled(k, s);
    QuotientScaled(k, Sum(s), |s| as real);
  }

  lemma QuotientScaled(k: real, a: real, n: real)
    requires n > 0.0
    ensures Times(k, a) / n == Times(k, a / n)
  {
    var q := a / n;
    assert q * n == a;
    assert (k * q) * n == k * a;
  }

  lemma TrimmedMeanScaled(k: real, sorted: seq<real>)
    requires |sorted| > 0
    ensures TrimmedMean(Scaled(k, sorted)) == Times(k, TrimmedMean(sorted))
  {
    hide Times, Skip;
    var t := Trimmed(sorted);
    assert Trimmed(Scaled(k, sorted)) == Scaled(k, t);
    MeanScaled(k, t);
  }

  lemma VarianceScaled(k: real, s: seq<real>, mean: real)
    requires |s| > 1
    ensures Variance(Scaled(k, s), Times(k, mean)) == Times(Square(k), Variance(s, mean))
  {
    hide Times, Square;
    var kk := Square(k);
    forall i | 0 <= i < |s| ensures Square(Times(k, s[i]) - Times(k, mean)) == Times(kk, Square(s[i] - mean)) {
      SquareScaled(k, s[i], mean);
    }
    assert Squares(Scaled(k, s), Times(k, mean)) == Scaled(kk, Squares(s, mean));
    SumScaled(kk, Squares(s, mean));
    QuotientScaled(kk, Sum(Squares(s, mean)), (|s| - 1) as real);
  }

  lemma SquareScaled(k: real, a: real, b: real)
    ensures Square(Times(k, a) - Times(k, b)) == Times(Square(k), Square(a - b))
  {
    var d := a - b;
    assert (k * d) * (k * d) == (k * k) * (d * d);
  }

  lemma MedianScaled(k: Factor, sorted: seq<real>)
    requires |sorted| > 0 && Ascending(sorted)
    ensures Ascending(Scaled(k, sorted)) && Median(Scaled(k, sorted)) == Times(k, Median(sorted))
  {
    ScaledAscending(k, sorted);
    var h := |sorted| / 2;
    if |sorted| % 2 == 0 {
      QuotientScaled(k, sorted[h - 1] + sorted[h], 2.0);
    }
  }
}
