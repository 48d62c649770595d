/**
  Scoring an experiment's variants against its control: quantiles, means, a paired bootstrap
  interval and the winner it names.  Arithmetic is exact.
 */
module Scorecard {
  import opened Prelude
  import opened Lexicographic
  import opened Reals
  import Sorting

  // ----- means -----

  function Sum(values: seq<real>): real {
    if values == [] then 0.0 else Sum(values[..|values| - 1]) + values[|values| - 1]
  }

  function Average(values: seq<real>): real {
    if values == [] then 0.0 else Sum(values) / |values| as real
  }

  method Mean(values: seq<real>) returns (r: real)
    ensures r == Average(values)
  {
    if |values| == 0 { return 0.0; }
    var total := 0.0;
    for i := 0 to |values|
      invariant total == Sum(values[..i])
    {
      assert values[..i + 1][..i] == values[..i];
      total := total + values[i];
    }
    assert values[..|values|] == values;
    return total / |values| as real;
  }

  ghost predicate Within(values: seq<real>, low: real, high: real) {
    forall i :: 0 <= i < |values| ==> low <= values[i] <= high
  }

  lemma {:induction false} SumWithin(values: seq<real>, low: real, high: real)
    requires Within(values, low, high)
    ensures low * |values| as real <= Sum(values) <= high * |values| as real
  {
    if values != [] {
      var n := |values| - 1;
      SumWithin(values[..n], low, high);
      assert low * |values| as real == low * n as real + low;
      assert high * |values| as real == high * n as real + high;
    }
  }

  lemma Divide(low: real, sum: real, high: real, n: real)
    requires n > 0.0 && low * n <= sum <= high * n
    ensures low <= sum / n <= high
  {
    var q := sum / n;
    assert q * n == sum;
    if q < low {
      ProductKeepsStrictOrder(n, q, low);
    } else if q > high {
      ProductKeepsStrictOrder(n, high, q);
    }
  }

  /** A mean lies in every range that holds all the values. */
  lemma AverageWithin(values: seq<real>, low: real, high: real)
    requires values != [] && Within(values, low, high)
    ensures low <= Average(values) <= high
  {
    SumWithin(values, low, high);
    Divide(low, Sum(values), high, |values| as real);
  }

  // ----- quantiles -----

  predicate AtMost(x: real, y: real) { x <= y }

  function ByValue(): (real, real) -> bool { (x: real, y: real) => AtMost(x, y) }

  ghost predicate Ordered(values: seq<real>) { Sorting.Sorted(ByValue(), values) }

  lemma OrderedAt(values: seq<real>, i: nat, j: nat)
    requires Ordered(values) && i <= j < |values|
    ensures values[i] <= values[j]
  {
    if i < j { assert ByValue()(values[i], values[j]); }
  }

  function Ceiling(x: real): int { -((-x).Floor) }

  function Percentile(ordered: seq<real>, quantile: real): real
    requires 0.0 <= quantile <= 1.0
  {
    if ordered == [] then 0.0
    else
      PositionsGrow(|ordered| - 1, quantile, quantile);
      Interpolate(ordered, Position(|ordered| - 1, quantile))
  }

  function Position(n: nat, quantile: real): real { quantile * n as real }

  lemma PositionsGrow(n: nat, p: real, q: real)
    requires 0.0 <= p <= q <= 1.0
    ensures 0.0 <= Position(n, p) <= Position(n, q) <= n as real
    ensures Position(n, 0.0) == 0.0 && Position(n, 1.0) == n as real
  {
    ProductKeepsOrder(n as real, 0.0, p);
    ProductKeepsOrder(n as real, p, q);
    ProductKeepsOrder(n as real, q, 1.0);
  }

  function Interpolate(ordered: seq<real>, position: real): real
    requires 0.0 <= position <= (|ordered| - 1) as real
  {
    var lower, upper := position.Floor, Ceiling(position);
    if lower == upper then ordered[lower]
    else
      Mix(ordered[lower], ordered[upper], position - lower as real)
  }

  function Mix(a: real, b: real, weight: real): real { a * (1.0 - weight) + b * weight }

  /** A weighted mean of two values lies between them and grows with the weight of the larger. */
  lemma Blend(a: real, b: real, v: real, w: real)
    requires a <= b && 0.0 <= v <= w <= 1.0
    ensures a <= Mix(a, b, v) <= Mix(a, b, w) <= b
  {
    assert Mix(a, b, v) == a + (b - a) * v;
    assert Mix(a, b, w) == a + (b - a) * w;
    Product(b - a, v);
    ProductKeepsOrder(b - a, v, w);
    Product(b - a, 1.0 - w);
    assert b - Mix(a, b, w) == (b - a) * (1.0 - w);
  }

  lemma InterpolateBetween(ordered: seq<real>, x: real)
    requires Ordered(ordered) && 0.0 <= x <= (|ordered| - 1) as real
    ensures ordered[x.Floor] <= Interpolate(ordered, x)
    ensures x.Floor + 1 < |ordered| ==> Interpolate(ordered, x) <= ordered[x.Floor + 1]
    ensures x.Floor + 1 == |ordered| ==> Interpolate(ordered, x) == ordered[x.Floor]
  {
    var lower, upper := x.Floor, Ceiling(x);
    if lower + 1 < |ordered| {
      OrderedAt(ordered, lower, lower + 1);
    }
    if lower != upper {
      var w := x - lower as real;
      Blend(ordered[lower], ordered[upper], w, w);
    }
  }

  lemma InterpolateInSegment(ordered: seq<real>, x: real, y: real)
    requires Ordered(ordered) && 0.0 <= x <= y <= (|ordered| - 1) as real && x.Floor == y.Floor && x != x.Floor as real
    ensures Interpolate(ordered, x) <= Interpolate(ordered, y)
  {
    var lower := x.Floor;
    assert Ceiling(x) == Ceiling(y) == lower + 1;
    OrderedAt(ordered, lower, lower + 1);
    Blend(ordered[lower], ordered[lower + 1], x - lower as real, y - lower as real);
  }

  /** Interpolation in sorted values is monotone. */
  lemma InterpolateIsMonotone(ordered: seq<real>, x: real, y: real)
    requires Ordered(ordered) && 0.0 <= x <= y <= (|ordered| - 1) as real
    ensures Interpolate(ordered, x) <= Interpolate(ordered, y)
  {
    if x.Floor < y.Floor {
      InterpolateBetween(ordered, x);
      InterpolateBetween(ordered, y);
      OrderedAt(ordered, x.Floor + 1, y.Floor);
    } else if x == x.Floor as real {
      assert Interpolate(ordered, x) == ordered[x.Floor];
      InterpolateBetween(ordered, y);
    } else {
      InterpolateInSegment(ordered, x, y);
    }
  }

  lemma PercentileIsMonotone(ordered: seq<real>, p: real, q: real)
    requires Ordered(ordered) && 0.0 <= p <= q <= 1.0
    ensures Percentile(ordered, p) <= Percentile(ordered, q)
  {
    if ordered != [] {
      var n := |ordered| - 1;
      PositionsGrow(n, p, q);
      InterpolateIsMonotone(ordered, Position(n, p), Position(n, q));
    }
  }

  /** Every quantile lies between the smallest and the largest value. */
  lemma PercentileWithin(ordered: seq<real>, q: real)
    requires Ordered(ordered) && ordered != [] && 0.0 <= q <= 1.0
    ensures ordered[0] <= Percentile(ordered, q) <= ordered[|ordered| - 1]
  {
    PercentileIsMonotone(ordered, 0.0, q);
    PercentileIsMonotone(ordered, q, 1.0);
    PositionsGrow(|ordered| - 1, 0.0, 1.0);
    assert Percentile(ordered, 0.0) == ordered[0];
    assert Percentile(ordered, 1.0) == ordered[|ordered| - 1];
  }

  lemma PermutationWithin(values: seq<real>, ordered: seq<real>, low: real, high: real)
    requires multiset(values) == multiset(ordered) && Within(values, low, high)
    ensures Within(ordered, low, high)
  {
    forall i | 0 <= i < |ordered|
      ensures low <= ordered[i] <= high
    {
      assert ordered[i] in multiset(values);
      assert ordered[i] in values;
    }
  }

  lemma OrderedWithin(ordered: seq<real>)
    requires Ordered(ordered) && ordered != []
    ensures Within(ordered, ordered[0], ordered[|ordered| - 1])
  {
    forall i | 0 <= i < |ordered|
      ensures ordered[0] <= ordered[i] <= ordered[|ordered| - 1]
    {
      OrderedAt(ordered, 0, i);
      OrderedAt(ordered, i, |ordered| - 1);
    }
  }

  method SortValues(values: seq<real>) returns (ordered: seq<real>)
    ensures Ordered(ordered) && multiset(ordered) == multiset(values)
  {
    assert Sorting.TotalPreorder(ByValue()) by {
      forall x, y, z | AtMost(x, y) && AtMost(y, z) ensures AtMost(x, z) {}
      forall x, y ensures AtMost(x, y) || AtMost(y, x) {}
    }
    ordered := Sorting.Sort(ByValue(), values);
  }

  // ----- distributions -----

  datatype Distribution = Distribution(
    count: nat, mean: real, median: real, min: real, max: real, stdDev: real, p05: real, p25: real, p75: real, p95: real)

  /** The sum of squared distances from a centre. */
  function Spread(values: seq<real>, centre: real): real {
    if values == [] then 0.0
    else
      var d := values[|values| - 1] - centre;
      Spread(values[..|values| - 1], centre) + d * d
  }

  function Variance(values: seq<real>): real {
    if values == [] then 0.0 else Spread(values, Average(values)) / |values| as real
  }

  /** The square root of every number that has one. */
  ghost predicate Roots(sqrt: real -> real) {
    forall x :: x >= 0.0 ==> IsRoot(sqrt(x), x)
  }

  predicate IsRoot(root: real, x: real) { root >= 0.0 && root * root == x }

  /** The five quantiles and the mean fall between the extremes, the quantiles in order, and no deviation exceeds the range. */
  ghost predicate InOrder(d: Distribution) {
    && d.min <= d.p05 <= d.p25 <= d.median <= d.p75 <= d.p95 <= d.max
    && d.min <= d.mean <= d.max
    && 0.0 <= d.stdDev <= d.max - d.min
  }

  ghost predicate Summarises(d: Distribution, values: seq<real>, ordered: seq<real>) {
    && Ordered(ordered) && multiset(ordered) == multiset(values) && ordered != []
    && d.count == |values| && d.mean == Average(ordered)
    && d.min == ordered[0] && d.max == ordered[|ordered| - 1]
    && d.median == Percentile(ordered, 0.5)
    && d.p05 == Percentile(ordered, 0.05) && d.p25 == Percentile(ordered, 0.25)
    && d.p75 == Percentile(ordered, 0.75) && d.p95 == Percentile(ordered, 0.95)
    && IsRoot(d.stdDev, Variance(ordered))
  }

  lemma QuantilesInOrder(ordered: seq<real>)
    requires Ordered(ordered) && ordered != []
    ensures ordered[0] <= Percentile(ordered, 0.05) <= Percentile(ordered, 0.25) <= Percentile(ordered, 0.5)
    ensures Percentile(ordered, 0.5) <= Percentile(ordered, 0.75) <= Percentile(ordered, 0.95) <= ordered[|ordered| - 1]
  {
    PercentileWithin(ordered, 0.05);
    PercentileIsMonotone(ordered, 0.05, 0.25);
    PercentileIsMonotone(ordered, 0.25, 0.5);
    PercentileIsMonotone(ordered, 0.5, 0.75);
    PercentileIsMonotone(ordered, 0.75, 0.95);
    PercentileWithin(ordered, 0.95);
  }

  lemma {:induction false} SpreadWithin(values: seq<real>, centre: real, low: real, high: real)
    requires Within(values, low, high) && low <= centre <= high
    ensures 0.0 <= Spread(values, centre) <= |values| as real * ((high - low) * (high - low))
  {
    if values != [] {
      var n, d, r := |values| - 1, values[|values| - 1] - centre, high - low;
      SpreadWithin(values[..n], centre, low, high);
      Square(d);
      SquareWithin(d, r);
      assert |values| as real * (r * r) == n as real * (r * r) + r * r;
    }
  }

  lemma QuotientWithin(x: real, n: real, r: real)
    requires n > 0.0 && 0.0 <= x <= n * r
    ensures 0.0 <= x / n <= r
  {
    var q := x / n;
    assert n * q == x;
    if q > r { ProductKeepsStrictOrder(n, r, q); }
  }

  /** The variance of values in a range is at most the square of the range. */
  lemma VarianceWithin(values: seq<real>, low: real, high: real)
    requires values != [] && Within(values, low, high)
    ensures 0.0 <= Variance(values) <= (high - low) * (high - low)
  {
    AverageWithin(values, low, high);
    SpreadWithin(values, Average(values), low, high);
    QuotientWithin(Spread(values, Average(values)), |values| as real, (high - low) * (high - low));
  }

  lemma DeviationWithin(values: seq<real>, stdDev: real, low: real, high: real)
    requires values != [] && Within(values, low, high) && IsRoot(stdDev, Variance(values))
    ensures 0.0 <= stdDev <= high - low
  {
    assert low <= values[0] <= high;
    VarianceWithin(values, low, high);
    RootWithin(stdDev, high - low);
  }

  lemma SummaryIsInOrder(d: Distribution, values: seq<real>, ordered: seq<real>)
    requires Summarises(d, values, ordered)
    ensures InOrder(d)
    ensures Within(values, d.min, d.max) && d.min in values && d.max in values
  {
    QuantilesInOrder(ordered);
    OrderedWithin(ordered);
    AverageWithin(ordered, d.min, d.max);
    DeviationWithin(ordered, d.stdDev, d.min, d.max);
    PermutationWithin(ordered, values, d.min, d.max);
    assert d.min in multiset(values) && d.max in multiset(values);
  }

  lemma VarianceIsNonnegative(ordered: seq<real>)
    requires Ordered(ordered) && ordered != []
    ensures Variance(ordered) >= 0.0
  {
    OrderedWithin(ordered);
    VarianceWithin(ordered, ordered[0], ordered[|ordered| - 1]);
  }

  method VarianceOf(values: seq<real>, average: real) returns (variance: real)
    requires values != [] && average == Average(values)
    ensures variance == Variance(values)
  {
    variance := 0.0;
    for i := 0 to |values|
      invariant variance == Spread(values[..i], average)
    {
      assert values[..i + 1][..i] == values[..i];
      var difference := values[i] - average;
      variance := variance + difference * difference;
    }
    assert values[..|values|] == values;
    variance := variance / |values| as real;
  }

  method Distribute(values: seq<real>, sqrt: real -> real) returns (d: Distribution)
    requires Roots(sqrt)
    ensures values == [] ==> d == Distribution(0, 0.0, 0.0, 0.0, 0.0, 0.0, 0.0, 0.0, 0.0, 0.0)
    ensures values != [] ==> exists ordered :: Summarises(d, values, ordered)
    ensures values != [] ==> InOrder(d) && Within(values, d.min, d.max) && d.min in values && d.max in values
  {
    if |values| == 0 { return Distribution(0, 0.0, 0.0, 0.0, 0.0, 0.0, 0.0, 0.0, 0.0, 0.0); }
    var ordered := SortValues(values);
    assert |ordered| == |multiset(ordered)| == |values|;
    var average := Mean(ordered);
    var variance := VarianceOf(ordered, average);
    VarianceIsNonnegative(ordered);
    d := Distribution(|ordered|, average, Percentile(ordered, 0.5), ordered[0], ordered[|ordered| - 1], sqrt(variance),
                      Percentile(ordered, 0.05), Percentile(ordered, 0.25), Percentile(ordered, 0.75), Percentile(ordered, 0.95));
    assert Summarises(d, values, ordered);
    SummaryIsInOrder(d, values, ordered);
  }

  // ----- the bootstrap -----

  const RESAMPLES: nat := 2000

  /** An unlimited stream of random draws; any stream will do. */
  type Draws = nat -> nat

  function Drawn(deltas: seq<real>, draws: Draws, sample: nat): seq<real>
    requires deltas != []
  {
    seq(|deltas|, k requires 0 <= k < |deltas| => deltas[draws(sample * |deltas| + k) % |deltas|])
  }

  function ResampledMeans(deltas: seq<real>, draws: Draws, n: nat): seq<real>
    requires deltas != []
  {
    seq(n, sample requires 0 <= sample < n => Average(Drawn(deltas, draws, sample)))
  }

  lemma DrawnWithin(deltas: seq<real>, draws: Draws, sample: nat, low: real, high: real)
    requires deltas != [] && Within(deltas, low, high)
    ensures Within(Drawn(deltas, draws, sample), low, high)
  {
  }

  lemma ResampledWithin(deltas: seq<real>, draws: Draws, n: nat, low: real, high: real)
    requires deltas != [] && Within(deltas, low, high)
    ensures Within(ResampledMeans(deltas, draws, n), low, high)
  {
    forall sample | 0 <= sample < n
      ensures low <= Average(Drawn(deltas, draws, sample)) <= high
    {
      DrawnWithin(deltas, draws, sample, low, high);
      AverageWithin(Drawn(deltas, draws, sample), low, high);
    }
  }

  method ResampleOnce(deltas: seq<real>, draws: Draws, sample: nat) returns (r: real)
    requires deltas != []
    ensures r == Average(Drawn(deltas, draws, sample))
  {
    ghost var drawn := Drawn(deltas, draws, sample);
    var total := 0.0;
    for k := 0 to |deltas|
      invariant total == Sum(drawn[..k])
    {
      assert drawn[..k + 1][..k] == drawn[..k];
      total := total + deltas[draws(sample * |deltas| + k) % |deltas|];
    }
    assert drawn[..|deltas|] == drawn;
    return total / |deltas| as real;
  }

  ghost predicate IsInterval(deltas: seq<real>, draws: Draws, ordered: seq<real>, low: real, high: real)
    requires deltas != []
  {
    && Ordered(ordered) && multiset(ordered) == multiset(ResampledMeans(deltas, draws, RESAMPLES))
    && low == Percentile(ordered, 0.025) && high == Percentile(ordered, 0.975)
  }

  /** For every random stream the interval is ordered and inside any range of the deltas. */
  lemma IntervalWithin(deltas: seq<real>, draws: Draws, ordered: seq<real>, low: real, high: real, min: real, max: real)
    requires deltas != [] && IsInterval(deltas, draws, ordered, low, high) && Within(deltas, min, max)
    ensures min <= low <= high <= max
  {
    var means := ResampledMeans(deltas, draws, RESAMPLES);
    ResampledWithin(deltas, draws, RESAMPLES, min, max);
    PermutationWithin(means, ordered, min, max);
    assert |ordered| == |multiset(ordered)| == |means|;
    PercentileWithin(ordered, 0.025);
    PercentileIsMonotone(ordered, 0.025, 0.975);
    PercentileWithin(ordered, 0.975);
  }

  method PairedBootstrapInterval(deltas: seq<real>, draws: Draws) returns (low: real, high: real)
    ensures deltas == [] ==> low == high == 0.0
    ensures deltas != [] ==> exists ordered :: IsInterval(deltas, draws, ordered, low, high)
  {
    if |deltas| == 0 { return 0.0, 0.0; }
    var means := [];
    for sample := 0 to RESAMPLES
      invariant means == ResampledMeans(deltas, draws, sample)
    {
      var mean := ResampleOnce(deltas, draws, sample);
      means := means + [mean];
    }
    var ordered := SortValues(means);
    low, high := Percentile(ordered, 0.025), Percentile(ordered, 0.975);
    assert IsInterval(deltas, draws, ordered, low, high);
  }

  // ----- paired comparison -----

  datatype CellKey = CellKey(fixture: string, repetition: int)

  datatype Direction = HigherIsBetter | LowerIsBetter | Target(target: real)

  /** The improvement of the variant over the control, positive when the variant is better. */
  function Delta(direction: Direction, control: real, variant: real): real {
    match direction
    case HigherIsBetter => variant - control
    case LowerIsBetter => control - variant
    case Target(target) => Abs(control - target) - Abs(variant - target)
  }

  /** What better means, without deltas. */
  predicate Better(direction: Direction, control: real, variant: real) {
    match direction
    case HigherIsBetter => variant > control
    case LowerIsBetter => variant < control
    case Target(target) => Abs(variant - target) < Abs(control - target)
  }

  type Metric = map<CellKey, real>

  predicate KeyBefore(a: CellKey, b: CellKey) {
    if a.fixture != b.fixture then Below(a.fixture, b.fixture) else a.repetition <= b.repetition
  }

  function ByKey(): (CellKey, CellKey) -> bool { (a: CellKey, b: CellKey) => KeyBefore(a, b) }

  lemma KeysAreOrdered()
    ensures Sorting.TotalPreorder(ByKey())
  {
    forall a: CellKey, b: CellKey
      ensures KeyBefore(a, b) || KeyBefore(b, a)
    {
      BelowIsTotal(a.fixture, b.fixture);
    }
    forall a, b, c | KeyBefore(a, b) && KeyBefore(b, c)
      ensures KeyBefore(a, c)
    {
      if a.fixture != b.fixture && b.fixture != c.fixture {
        BelowIsTransitive(a.fixture, b.fixture, c.fixture);
        BelowIsStrict(a.fixture, c.fixture);
      }
    }
  }

  /** The cells both sides measured, each once, in order. */
  ghost predicate PairedKeys(control: Metric, variant: Metric, keys: seq<CellKey>) {
    && Sorting.Sorted(ByKey(), keys)
    && multiset(keys) == multiset(control.Keys * variant.Keys)
  }

  lemma SharedGrows<T>(all: set<T>, seen: set<T>, left: set<T>, other: set<T>, key: T)
    requires seen !! left && seen + left == all && key in left
    ensures seen + {key} !! left - {key} && (seen + {key}) + (left - {key}) == all
    ensures multiset((seen + {key}) * other) == multiset(seen * other) + if key in other then multiset{key} else multiset{}
  {
    if key in other {
      assert (seen + {key}) * other == seen * other + {key};
    } else {
      assert (seen + {key}) * other == seen * other;
    }
  }

  method FindShared<T(==)>(mine: set<T>, other: set<T>) returns (found: seq<T>)
    ensures multiset(found) == multiset(mine * other)
  {
    var seen: set<T>, left := {}, mine;
    found := [];
    while left != {}
      invariant seen !! left && seen + left == mine
      invariant multiset(found) == multiset(seen * other)
      decreases |left|
    {
      var key :| key in left;
      SharedGrows(mine, seen, left, other, key);
      if key in other { found := found + [key]; }
      seen, left := seen + {key}, left - {key};
    }
    assert seen == mine;
  }

  method CollectKeys(control: Metric, variant: Metric) returns (keys: seq<CellKey>)
    ensures PairedKeys(control, variant, keys)
  {
    var found := FindShared(control.Keys, variant.Keys);
    KeysAreOrdered();
    keys := Sorting.Sort(ByKey(), found);
  }

  function Deltas(direction: Direction, control: Metric, variant: Metric, keys: seq<CellKey>): seq<real>
    requires forall k :: k in keys ==> k in control && k in variant
  {
    seq(|keys|, i requires 0 <= i < |keys| => Delta(direction, control[keys[i]], variant[keys[i]]))
  }

  function Count(deltas: seq<real>, sign: int): nat {
    if deltas == [] then 0
    else Count(deltas[..|deltas| - 1], sign) + if Sign(deltas[|deltas| - 1]) == sign then 1 else 0
  }

  function Sign(x: real): int { if x > 0.0 then 1 else if x < 0.0 then -1 else 0 }

  lemma {:induction false} CountsAddUp(deltas: seq<real>)
    ensures Count(deltas, 1) + Count(deltas, 0) + Count(deltas, -1) == |deltas|
  {
    if deltas != [] { CountsAddUp(deltas[..|deltas| - 1]); }
  }

  datatype Winner = NoWinner | VariantWins | ControlWins

  datatype Comparison = Comparison(
    paired: nat, wins: nat, ties: nat, losses: nat, meanDelta: real, low: real, high: real, winner: Winner)

  /** The conditions a comparison must meet besides its interval: coverage, error rates, negative controls. */
  datatype Health = Health(
    controlCount: nat, variantCount: nat, budgetSkipped: bool, controlCoverage: real, variantCoverage: real,
    controlErrorRate: real, variantErrorRate: real, negativeControlsPass: bool)

  predicate Healthy(h: Health) {
    && h.controlCount > 0 && h.variantCount > 0 && !h.budgetSkipped
    && h.variantCoverage >= 0.80 && h.controlCoverage >= 0.80
    && h.variantErrorRate <= h.controlErrorRate + 0.05 + 0.000000000001
    && h.negativeControlsPass
  }

  lemma PairedKeysAreShared(control: Metric, variant: Metric, keys: seq<CellKey>)
    requires PairedKeys(control, variant, keys)
    ensures forall k :: k in keys ==> k in control && k in variant
  {
    forall k | k in keys
      ensures k in control && k in variant
    {
      assert k in multiset(keys);
      assert k in control.Keys * variant.Keys;
    }
  }

  method TallyDeltas(direction: Direction, control: Metric, variant: Metric, keys: seq<CellKey>)
    returns (deltas: seq<real>, wins: nat, ties: nat, losses: nat)
    requires forall k :: k in keys ==> k in control && k in variant
    ensures deltas == Deltas(direction, control, variant, keys)
    ensures wins == Count(deltas, 1) && ties == Count(deltas, 0) && losses == Count(deltas, -1)
  {
    deltas, wins, ties, losses := [], 0, 0, 0;
    for i := 0 to |keys|
      invariant |deltas| == i
      invariant forall n :: 0 <= n < i ==> deltas[n] == Delta(direction, control[keys[n]], variant[keys[n]])
      invariant wins == Count(deltas, 1) && ties == Count(deltas, 0) && losses == Count(deltas, -1)
    {
      assert keys[i] in keys;
      var controlValue, variantValue := control[keys[i]], variant[keys[i]];
      var delta := variantValue - controlValue;
      match direction {
        case HigherIsBetter =>
        case LowerIsBetter => delta := controlValue - variantValue;
        case Target(target) => delta := Abs(controlValue - target) - Abs(variantValue - target);
      }
      assert (deltas + [delta])[..i] == deltas;
      deltas := deltas + [delta];
      if delta > 0.0 {
        wins := wins + 1;
      } else if delta < 0.0 {
        losses := losses + 1;
      } else {
        ties := ties + 1;
      }
    }
  }

  method ComparePaired(direction: Direction, control: Metric, variant: Metric, h: Health, draws: Draws)
    returns (c: Comparison, ghost deltas: seq<real>)
    ensures exists keys :: PairedKeys(control, variant, keys) && Compares(direction, control, variant, keys, deltas)
    ensures c.paired == |deltas| && c.meanDelta == Average(deltas)
    ensures c.wins == Count(deltas, 1) && c.ties == Count(deltas, 0) && c.losses == Count(deltas, -1)
    ensures c.wins + c.ties + c.losses == c.paired
    ensures deltas == [] ==> c.low == c.high == 0.0
    ensures deltas != [] ==> exists ordered :: IsInterval(deltas, draws, ordered, c.low, c.high)
    ensures c.winner == Verdict(c.paired, h, c.low, c.high)
  {
    var keys := CollectKeys(control, variant);
    PairedKeysAreShared(control, variant, keys);
    var values, wins, ties, losses := TallyDeltas(direction, control, variant, keys);
    deltas := values;
    assert Compares(direction, control, variant, keys, deltas);
    CountsAddUp(deltas);
    var mean := Mean(values);
    var low, high := PairedBootstrapInterval(values, draws);
    var winner := NoWinner;
    if |values| >= 5 && Healthy(h) && !(low <= 0.0 && high >= 0.0) {
      winner := if low > 0.0 then VariantWins else ControlWins;
    }
    c := Comparison(|values|, wins, ties, losses, mean, low, high, winner);
  }

  ghost predicate Compares(direction: Direction, control: Metric, variant: Metric, keys: seq<CellKey>,
      deltas: seq<real>) {
    && (forall k :: k in keys ==> k in control && k in variant)
    && deltas == Deltas(direction, control, variant, keys)
  }

  /** The winner a comparison names. */
  function Verdict(paired: nat, h: Health, low: real, high: real): Winner {
    if paired < 5 || !Healthy(h) || (low <= 0.0 && high >= 0.0) then NoWinner
    else if low > 0.0 then VariantWins
    else ControlWins
  }

  ghost predicate AllFavour(direction: Direction, control: Metric, variant: Metric) {
    forall k :: k in control && k in variant ==> Better(direction, control[k], variant[k])
  }

  /** Better for the variant means worse for the control. */
  lemma DeltaIsImprovement(direction: Direction, control: real, variant: real)
    ensures Delta(direction, control, variant) > 0.0 <==> Better(direction, control, variant)
    ensures Delta(direction, control, variant) < 0.0 <==> Better(direction, variant, control)
    ensures Delta(direction, control, variant) == -Delta(direction, variant, control)
  {
  }

  lemma {:induction false} Extremes(deltas: seq<real>) returns (min: real, max: real)
    requires deltas != []
    ensures Within(deltas, min, max) && min in deltas && max in deltas
  {
    if |deltas| == 1 {
      min, max := deltas[0], deltas[0];
    } else {
      var n := |deltas| - 1;
      min, max := Extremes(deltas[..n]);
      if deltas[n] < min { min := deltas[n]; }
      if deltas[n] > max { max := deltas[n]; }
    }
  }

  /** Deltas of one sign give an interval of that sign. */
  lemma IntervalSign(deltas: seq<real>, draws: Draws, ordered: seq<real>, low: real, high: real)
    requires deltas != [] && IsInterval(deltas, draws, ordered, low, high)
    ensures low <= high
    ensures (forall i :: 0 <= i < |deltas| ==> deltas[i] > 0.0) ==> low > 0.0
    ensures (forall i :: 0 <= i < |deltas| ==> deltas[i] < 0.0) ==> high < 0.0
  {
    var min, max := Extremes(deltas);
    IntervalWithin(deltas, draws, ordered, low, high, min, max);
  }

  /**
    When every pair favours one side, the other is never named; and with five pairs and nothing
    else amiss the favoured side is.
   */
  lemma FavouredSideWins(direction: Direction, control: Metric, variant: Metric, keys: seq<CellKey>, deltas: seq<real>,
                         draws: Draws, ordered: seq<real>, low: real, high: real, h: Health)
    requires PairedKeys(control, variant, keys) && Compares(direction, control, variant, keys, deltas)
    requires deltas != [] && IsInterval(deltas, draws, ordered, low, high)
    ensures AllFavour(direction, control, variant) ==>
      Verdict(|deltas|, h, low, high) == if |deltas| >= 5 && Healthy(h) then VariantWins else NoWinner
    ensures AllFavour(direction, variant, control) ==>
      Verdict(|deltas|, h, low, high) == if |deltas| >= 5 && Healthy(h) then ControlWins else NoWinner
  {
    forall i | 0 <= i < |deltas|
      ensures AllFavour(direction, control, variant) ==> deltas[i] > 0.0
      ensures AllFavour(direction, variant, control) ==> deltas[i] < 0.0
    {
      assert keys[i] in keys;
      DeltaIsImprovement(direction, control[keys[i]], variant[keys[i]]);
    }
    IntervalSign(deltas, draws, ordered, low, high);
  }

  /** A named winner is the better side in at least one pair. */
  lemma WinnerWonAPair(deltas: seq<real>, draws: Draws, ordered: seq<real>, low: real, high: real, h: Health)
    requires deltas != [] && IsInterval(deltas, draws, ordered, low, high)
    ensures Verdict(|deltas|, h, low, high) == VariantWins ==> exists i :: 0 <= i < |deltas| && deltas[i] > 0.0
    ensures Verdict(|deltas|, h, low, high) == ControlWins ==> exists i :: 0 <= i < |deltas| && deltas[i] < 0.0
  {
    var min, max := Extremes(deltas);
    IntervalWithin(deltas, draws, ordered, low, high, min, max);
  }
}
