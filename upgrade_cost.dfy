/** The upgrade-cost projector: clamps its four numeric inputs, lists the cost
    of every level under a linear or an exponential growth model, and sums and
    averages the list. Numbers are exact reals; a JavaScript number that is NaN
    or infinite is the separate value `NonFinite`. */
module UpgradeCost {

  /** A number as read from a form field. */
  datatype Number = Finite(value: real) | NonFinite

  datatype Model = Linear | Exponential

  /** `clampNumber`: `min` for a non-finite value, else the value pushed into
      `[min, max]` by `Math.max` then `Math.min`. */
  function ClampNumber(v: Number, min: real, max: real): (r: real)
    ensures v.NonFinite? ==> r == min
    ensures v.Finite? && min <= max ==> min <= r <= max
    ensures v.Finite? && min <= v.value <= max ==> r == v.value
    ensures v.Finite? && v.value < min <= max ==> r == min
    ensures v.Finite? && min <= max < v.value ==> r == max
  {
    if v.NonFinite? then min
    else
      var atLeast := if v.value > min then v.value else min;
      if atLeast < max then atLeast else max
  }

  /** `Math.floor`, which leaves NaN and the infinities as they are: an
      integer, and the greatest one not above the value. */
  function FloorNumber(v: Number): (r: Number)
    ensures r.NonFinite? <==> v.NonFinite?
    ensures v.Finite? ==> r.value == r.value.Floor as real
    ensures v.Finite? ==> r.value <= v.value < r.value + 1.0
  {
    if v.NonFinite? then NonFinite else Finite(v.value.Floor as real)
  }

  const MaxLevels: nat := 999
  const MaxCost: real := 1_000_000_000.0
  const MaxRate: real := 100.0

  /** The number of levels listed: the floored input, clamped to `[0, 999]`. */
  function LevelCount(levels: Number): (n: nat)
    ensures n <= MaxLevels
    ensures levels.NonFinite? ==> n == 0
    ensures levels.Finite? && levels.value < 0.0 ==> n == 0
    ensures levels.Finite? && 0.0 <= levels.value < 1000.0 ==> n == levels.value.Floor
    ensures levels.Finite? && levels.value >= 999.0 ==> n == MaxLevels
  {
    var c := ClampNumber(FloorNumber(levels), 0.0, MaxLevels as real);
    assert c == c.Floor as real;
    c.Floor
  }

  /** The form inputs, as typed. */
  datatype Inputs = Inputs(model: Model, baseCost: Number, levels: Number, linearStep: Number, growthRate: Number)

  /** The inputs after clamping: what the cost list is computed from. */
  datatype Plan = Plan(model: Model, n: nat, base: real, step: real, rate: real)

  /** The ranges `Normalize` guarantees. */
  predicate Clamped(p: Plan) {
    && p.n <= MaxLevels
    && 0.0 <= p.base <= MaxCost
    && 0.0 <= p.step <= MaxCost
    && 1.0 <= p.rate <= MaxRate
  }

  function Normalize(inputs: Inputs): (p: Plan)
    ensures Clamped(p)
    ensures p.model == inputs.model && p.n == LevelCount(inputs.levels)
    ensures inputs.baseCost.Finite? && 0.0 <= inputs.baseCost.value <= MaxCost ==> p.base == inputs.baseCost.value
    ensures inputs.linearStep.Finite? && 0.0 <= inputs.linearStep.value <= MaxCost ==> p.step == inputs.linearStep.value
    ensures inputs.growthRate.Finite? && 1.0 <= inputs.growthRate.value <= MaxRate ==> p.rate == inputs.growthRate.value
  {
    Plan(
      inputs.model,
      LevelCount(inputs.levels),
      ClampNumber(inputs.baseCost, 0.0, MaxCost),
      ClampNumber(inputs.linearStep, 0.0, MaxCost),
      ClampNumber(inputs.growthRate, 1.0, MaxRate))
  }

  /** `Math.pow(x, k)` for a natural exponent. */
  function Pow(x: real, k: nat): (r: real)
    ensures x >= 1.0 ==> r >= 1.0
    decreases k
  {
    if k == 0 then 1.0 else x * Pow(x, k - 1)
  }

  /** A base of at least 1 never gives a smaller power for a larger exponent. */
  lemma {:induction false} PowMonotone(x: real, i: nat, j: nat)
    requires x >= 1.0 && i <= j
    ensures Pow(x, i) <= Pow(x, j)
    decreases j - i
  {
    if i < j {
      PowMonotone(x, i, j - 1);
      var q := Pow(x, j - 1);
      assert Pow(x, j) == x * q;
      MulNonNegative(x - 1.0, q);
      assert x * q == (x - 1.0) * q + q;
    }
  }

  lemma MulNonNegative(a: real, b: real)
    requires a >= 0.0 && b >= 0.0
    ensures a * b >= 0.0
  {
  }

  /** The cost of level `i + 1` (the loop index `i` counts from 0). */
  function CostAt(p: Plan, i: nat): real {
    match p.model
    case Linear => p.base + i as real * p.step
    case Exponential => p.base * Pow(p.rate, i)
  }

  /** The costs of the first `k` levels. */
  function CostList(p: Plan, k: nat): (costs: seq<real>)
    ensures |costs| == k
    ensures forall i :: 0 <= i < k ==> costs[i] == CostAt(p, i)
  {
    seq(k, i requires 0 <= i < k => CostAt(p, i))
  }

  lemma CostListSnoc(p: Plan, k: nat)
    ensures CostList(p, k + 1) == CostList(p, k) + [CostAt(p, k)]
  {
  }

  /** The running total of the reduction: one more element adds that element. */
  lemma SumPrefixSnoc(s: seq<real>, j: nat)
    requires j < |s|
    ensures Sum(s[..j + 1]) == Sum(s[..j]) + s[j]
  {
    assert s[..j + 1][..j] == s[..j];
  }

  /** One more level adds its cost to the total. */
  lemma SumCostListSnoc(p: Plan, k: nat)
    ensures Sum(CostList(p, k + 1)) == Sum(CostList(p, k)) + CostAt(p, k)
  {
    CostListSnoc(p, k);
    SumAppend(CostList(p, k), CostAt(p, k));
  }

  /** The whole cost list: one entry per level. */
  function Costs(p: Plan): (costs: seq<real>)
    ensures |costs| == p.n
  {
    CostList(p, p.n)
  }

  /** `costs.reduce((sum, v) => sum + v, 0)`, adding from the left. */
  function Sum(s: seq<real>): real
    decreases |s|
  {
    if s == [] then 0.0 else Sum(s[..|s| - 1]) + s[|s| - 1]
  }

  /** The result of a projection. */
  datatype Projection = Projection(costs: seq<real>, total: real, average: real)

  /** The projection the component shows: it lists every level's cost, adds
      them up and divides by the level count, or reports 0 when there are no
      levels. */
  method Project(inputs: Inputs) returns (r: Projection)
    ensures r.costs == Costs(Normalize(inputs))
    ensures r.total == Sum(r.costs)
    ensures |r.costs| > 0 ==> r.average == r.total / |r.costs| as real
    ensures |r.costs| == 0 ==> r.average == 0.0 && r.total == 0.0
  {
    var p := Normalize(inputs);
    var costs := ListCosts(p);
    var total := Total(costs);
    var average := if p.n > 0 then total / p.n as real else 0.0;
    r := Projection(costs, total, average);
  }

  /** The loop that pushes the cost of each level in turn. */
  method ListCosts(p: Plan) returns (costs: seq<real>)
    ensures costs == Costs(p)
  {
    costs := [];
    var i: nat := 0;
    while i < p.n
      invariant i <= p.n
      invariant costs == CostList(p, i)
    {
      CostListSnoc(p, i);
      var cost;
      if p.model == Linear {
        cost := p.base + i as real * p.step;
      } else {
        cost := p.base * Pow(p.rate, i);
      }
      assert cost == CostAt(p, i);
      costs := costs + [cost];
      i := i + 1;
    }
  }

  /** The reduction that adds the costs from the left. */
  method Total(costs: seq<real>) returns (total: real)
    ensures total == Sum(costs)
  {
    total := 0.0;
    var j := 0;
    while j < |costs|
      invariant j <= |costs|
      invariant total == Sum(costs[..j])
    {
      SumPrefixSnoc(costs, j);
      total := total + costs[j];
      j := j + 1;
    }
    assert costs[..j] == costs;
  }

  // ---------------------------------------------------------------------------
  // Properties of the cost list

  /** With clamped inputs every cost is non-negative. */
  lemma CostNonNegative(p: Plan, i: nat)
    requires Clamped(p)
    ensures CostAt(p, i) >= 0.0
  {
    if p.model == Exponential {
      assert Pow(p.rate, i) >= 1.0;
    }
  }

  /** The first level costs the base cost, under both models. */
  lemma FirstCostIsBase(p: Plan)
    requires p.n >= 1
    ensures Costs(p)[0] == p.base
  {
  }

  /** With clamped inputs the costs never go down from one level to the next. */
  lemma CostsNonDecreasing(p: Plan, i: nat, j: nat)
    requires Clamped(p) && i <= j < p.n
    ensures Costs(p)[i] <= Costs(p)[j]
  {
    if p.model == Linear {
      MulNonNegative((j - i) as real, p.step);
      assert j as real * p.step == i as real * p.step + (j - i) as real * p.step;
    } else {
      PowMonotone(p.rate, i, j);
      var a := Pow(p.rate, i);
      var b := Pow(p.rate, j);
      MulNonNegative(p.base, b - a);
      assert p.base * b == p.base * a + p.base * (b - a);
    }
  }

  lemma {:induction false} SumAppend(s: seq<real>, x: real)
    ensures Sum(s + [x]) == Sum(s) + x
  {
    assert (s + [x])[..|s|] == s;
  }

  /** The total splits at any point of the list: it covers the levels past
      the ten that are displayed as well as those ten. */
  lemma {:induction false} SumSplit(s: seq<real>, k: nat)
    requires k <= |s|
    ensures Sum(s) == Sum(s[..k]) + Sum(s[k..])
    decreases |s|
  {
    if k < |s| {
      var init := s[..|s| - 1];
      SumSplit(init, k);
      assert init[..k] == s[..k];
      assert s[k..] == init[k..] + [s[|s| - 1]];
      SumAppend(init[k..], s[|s| - 1]);
    } else {
      assert s[..k] == s;
    }
  }

  /** The list shown: the first ten costs, or all of them when there are fewer. */
  function Displayed(costs: seq<real>): (shown: seq<real>)
    ensures |shown| == if |costs| < 10 then |costs| else 10
    ensures shown <= costs
  {
    if |costs| < 10 then costs else costs[..10]
  }

  lemma TotalCoversHidden(costs: seq<real>)
    ensures Sum(costs) == Sum(Displayed(costs)) + Sum(costs[|Displayed(costs)|..])
  {
    SumSplit(costs, |Displayed(costs)|);
  }

  /** A sum of values in `[lo, hi]` lies between `|s| * lo` and `|s| * hi`. */
  lemma {:induction false} SumBounds(s: seq<real>, lo: real, hi: real)
    requires forall i :: 0 <= i < |s| ==> lo <= s[i] <= hi
    ensures |s| as real * lo <= Sum(s) <= |s| as real * hi
    decreases |s|
  {
    if s != [] {
      SumBounds(s[..|s| - 1], lo, hi);
    }
  }

  /** The average lies between the first and the last level's cost. */
  lemma AverageBetween(p: Plan)
    requires Clamped(p) && p.n > 0
    ensures Costs(p)[0] <= Sum(Costs(p)) / p.n as real <= Costs(p)[p.n - 1]
  {
    var costs := Costs(p);
    forall i | 0 <= i < |costs| ensures costs[0] <= costs[i] <= costs[p.n - 1] {
      CostsNonDecreasing(p, 0, i);
      CostsNonDecreasing(p, i, p.n - 1);
    }
    MeanOfBounded(costs, costs[0], costs[p.n - 1]);
  }

  /** The mean of values that all lie in `[lo, hi]` lies there too. */
  lemma MeanOfBounded(s: seq<real>, lo: real, hi: real)
    requires s != [] && forall i :: 0 <= i < |s| ==> lo <= s[i] <= hi
    ensures lo <= Sum(s) / |s| as real <= hi
  {
    SumBounds(s, lo, hi);
    MeanBetween(Sum(s), |s| as real, lo, hi);
  }

  lemma MeanBetween(total: real, n: real, lo: real, hi: real)
    requires n > 0.0 && n * lo <= total <= n * hi
    ensures lo <= total / n <= hi
  {
  }

  /** The linear total in closed form: `n * base + step * n * (n - 1) / 2`. */
  lemma {:induction false} LinearTotal(p: Plan, k: nat)
    requires p.model == Linear
    ensures 2.0 * Sum(CostList(p, k)) == 2.0 * k as real * p.base + p.step * k as real * (k as real - 1.0)
    decreases k
  {
    if k > 0 {
      var m := (k - 1) as real;
      LinearTotal(p, k - 1);
      SumCostListSnoc(p, k - 1);
      assert CostAt(p, k - 1) == p.base + m * p.step;
      LinearStepAlgebra(p.base, p.step, m, Sum(CostList(p, k - 1)));
    } else {
      assert CostList(p, 0) == [];
    }
  }

  lemma LinearStepAlgebra(base: real, step: real, m: real, sum: real)
    requires 2.0 * sum == 2.0 * m * base + step * m * (m - 1.0)
    ensures 2.0 * (sum + (base + m * step)) == 2.0 * (m + 1.0) * base + step * (m + 1.0) * m
  {
  }

  /** `base + base * rate + ... + base * rate^(k-1)`, added from the left. */
  function Series(base: real, rate: real, k: nat): real
    decreases k
  {
    if k == 0 then 0.0 else Series(base, rate, k - 1) + base * Pow(rate, k - 1)
  }

  /** The exponential cost list adds up to the geometric series. */
  lemma {:induction false} SumIsSeries(p: Plan, k: nat)
    requires p.model == Exponential
    ensures Sum(CostList(p, k)) == Series(p.base, p.rate, k)
    decreases k
  {
    if k > 0 {
      SumIsSeries(p, k - 1);
      SumCostListSnoc(p, k - 1);
    } else {
      assert CostList(p, 0) == [];
    }
  }

  /** The closed form of the geometric series, `(rate - 1) * series == base * (rate^k - 1)`,
      multiplied out so that `rate = 1` needs no case. */
  lemma {:induction false} SeriesClosedForm(base: real, rate: real, k: nat)
    ensures (rate - 1.0) * Series(base, rate, k) == base * (Pow(rate, k) - 1.0)
    decreases k
  {
    if k > 0 {
      var q := Pow(rate, k - 1);
      var s := Series(base, rate, k - 1);
      SeriesClosedForm(base, rate, k - 1);
      GeometricStep(rate, base, q, s);
      MulEqual(rate - 1.0, Series(base, rate, k), s + base * q);
      MulEqual(base, Pow(rate, k) - 1.0, rate * q - 1.0);
    }
  }

  /** Multiplying both sides of an equation by the same factor. */
  lemma MulEqual(c: real, x: real, y: real)
    requires x == y
    ensures c * x == c * y
  {
  }

  /** One step of the geometric series: with `s` the sum of the first terms and
      `q` the next power, adding the next term `base * q` keeps the closed form. */
  lemma GeometricStep(rate: real, base: real, q: real, s: real)
    requires (rate - 1.0) * s == base * (q - 1.0)
    ensures (rate - 1.0) * (s + base * q) == base * (rate * q - 1.0)
  {
  }

  // ---------------------------------------------------------------------------
  // Worked examples

  /** Linear, base 100, three levels, step 25: 100, 125, 150; total 375; average 125. */
  lemma LinearExample()
    ensures var p := Normalize(Inputs(Linear, Finite(100.0), Finite(3.0), Finite(25.0), Finite(1.15)));
      && Costs(p) == [100.0, 125.0, 150.0]
      && Sum(Costs(p)) == 375.0
      && Sum(Costs(p)) / p.n as real == 125.0
  {
    var p := Normalize(Inputs(Linear, Finite(100.0), Finite(3.0), Finite(25.0), Finite(1.15)));
    assert p == Plan(Linear, 3, 100.0, 25.0, 1.15);
    assert Costs(p) == [100.0, 125.0, 150.0];
    assert [100.0, 125.0, 150.0][..2] == [100.0, 125.0];
    assert [100.0, 125.0][..1] == [100.0];
  }

  /** Exponential, base 100, three levels, rate 2: 100, 200, 400; total 700; average 700 / 3. */
  lemma ExponentialExample()
    ensures var p := Normalize(Inputs(Exponential, Finite(100.0), Finite(3.0), Finite(25.0), Finite(2.0)));
      && Costs(p) == [100.0, 200.0, 400.0]
      && Sum(Costs(p)) == 700.0
      && Sum(Costs(p)) / p.n as real == 700.0 / 3.0
  {
    var p := Normalize(Inputs(Exponential, Finite(100.0), Finite(3.0), Finite(25.0), Finite(2.0)));
    assert p == Plan(Exponential, 3, 100.0, 25.0, 2.0);
    assert Pow(2.0, 1) == 2.0 && Pow(2.0, 2) == 4.0;
    assert Costs(p) == [100.0, 200.0, 400.0];
    assert [100.0, 200.0, 400.0][..2] == [100.0, 200.0];
    assert [100.0, 200.0][..1] == [100.0];
  }

  /** No levels: an empty list, a total of 0 and an average of 0. */
  method NoLevelsExample() returns (r: Projection)
    ensures r == Projection([], 0.0, 0.0)
  {
    r := Project(Inputs(Linear, Finite(100.0), Finite(0.0), Finite(25.0), Finite(1.15)));
  }
}
