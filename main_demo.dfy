/**
 * The multiplicative fallback estimator of the web service
 * (`demo_predict_cost`): a base sum scaled by one factor per field and
 * floored at 500 Loti. Lookups of unknown keys fall back to the neutral
 * factor 1.0, as `dict.get(key, 1.0)` does.
 */
module MainDemo {
  import opened Schema

  const BaseCost: real := 2000.0
  const MinimumCost: real := 500.0

  const RegionalMultipliers: map<string, real> :=
    map["Maseru" := 1.3, "Leribe" := 1.1, "Mafeteng" := 1.0, "Butha-Buthe" := 0.9,
        "Mohale's Hoek" := 0.95, "Quthing" := 0.85, "Qacha's Nek" := 0.8, "Thaba-Tseka" := 0.75]

  const AccessMultipliers: map<string, real> :=
    map["easy" := 0.9, "moderate" := 1.0, "difficult" := 1.2]

  /** `regional_multipliers.get(region, 1.0)` */
  function RegionalFactor(region: string): (f: real)
    ensures 0.75 <= f <= 1.3
  {
    if region in RegionalMultipliers then RegionalMultipliers[region] else 1.0
  }

  /** The access-difficulty factor, with the same neutral default. */
  function AccessFactor(access: string): (f: real)
    ensures 0.9 <= f <= 1.2
  {
    if access in AccessMultipliers then AccessMultipliers[access] else 1.0
  }

  function InsuranceDiscount(isInsured: int): real {
    if isInsured == 1 then 0.7 else 1.0
  }

  function PrivatePremium(healthcareType: string): real {
    if healthcareType == "private" then 1.4 else 1.0
  }

  /**
   * `max(0.8, 1.0 - (household_size - 1) * 0.02)`: two percent off per
   * extra member, never below 0.8.
   */
  function HouseholdFactor(size: int): (f: real)
    ensures f >= 0.8
    ensures size >= 1 ==> f <= 1.0
    ensures size >= 11 ==> f == 0.8
    ensures 1 <= size <= 11 ==> f == 1.0 - (size - 1) as real / 50.0
  {
    var scaled := 1.0 - (size - 1) as real * 0.02;
    if 0.8 >= scaled then 0.8 else scaled
  }

  /** Base cost plus the age and income terms. */
  function BaseSum(row: Row): real {
    BaseCost + ((row.age - 18) * 15) as real + row.annualIncome * 0.05
  }

  /** Index of the insurance discount among the factors. */
  const InsuranceIndex: nat := 2

  /**
   * The factors of the cost in the order the source multiplies them: the
   * base sum, then the regional, insurance, private-care, access and
   * household factors.
   */
  function Factors(row: Row): (fs: seq<real>)
    ensures |fs| == 6 && fs[InsuranceIndex] == InsuranceDiscount(row.isInsured)
  {
    [BaseSum(row), RegionalFactor(row.region), InsuranceDiscount(row.isInsured),
     PrivatePremium(row.healthcareType), AccessFactor(row.access), HouseholdFactor(row.householdSize)]
  }

  /** The left-to-right product of a list of factors. */
  function Product(xs: seq<real>): real
    decreases |xs|
  {
    if xs == [] then 1.0 else Product(xs[..|xs| - 1]) * xs[|xs| - 1]
  }

  /**
   * The cost before the floor. For an adult with non-negative income it is
   * positive and, with at least one household member, between 37.8% of the
   * base sum (every factor at its lowest) and 218.4% of it (every factor at
   * its highest).
   */
  function RawCost(row: Row): (c: real)
    ensures AdultWithIncome(row) ==> c > 0.0
    ensures AdultWithIncome(row) && row.householdSize >= 1 ==>
      0.378 * BaseSum(row) <= c <= 2.184 * BaseSum(row)
  {
    RawCostBounds(row);
    Product(Factors(row))
  }

  /** `demo_predict_cost`: the raw cost floored at 500. */
  function DemoPredictCost(row: Row): (cost: real)
    ensures cost >= MinimumCost
    ensures cost >= RawCost(row)
    ensures cost == MinimumCost || cost == RawCost(row)
  {
    if 500.0 >= RawCost(row) then 500.0 else RawCost(row)
  }

  // ---------------------------------------------------------------------
  // Properties
  // ---------------------------------------------------------------------

  /**
   * A region or access level outside the enumerations contributes the
   * neutral multiplier, so it leaves the cost as it would be without it.
   */
  lemma UnknownKeysNeutral(region: string, access: string)
    ensures region !in RegionNames ==> RegionalFactor(region) == 1.0
    ensures access !in AccessNames ==> AccessFactor(access) == 1.0
  {
  }

  lemma ProductAppend(xs: seq<real>, x: real)
    ensures Product(xs + [x]) == Product(xs) * x
  {
    assert (xs + [x])[..|xs|] == xs;
  }

  lemma MulMonotone(a: real, b: real, c: real, d: real)
    requires 0.0 <= a <= b && 0.0 <= c <= d
    ensures a * c <= b * d
  {
    assert a * c <= b * c;
    assert b * c <= b * d;
  }

  /** A product of positive factors is positive. */
  lemma {:induction false} ProductPositive(xs: seq<real>)
    requires forall j :: 0 <= j < |xs| ==> xs[j] > 0.0
    ensures Product(xs) > 0.0
    decreases |xs|
  {
    if xs != [] {
      ProductPositive(xs[..|xs| - 1]);
      assert Product(xs[..|xs| - 1]) * xs[|xs| - 1] > 0.0;
    }
  }

  /** Raising non-negative factors one by one never lowers the product. */
  lemma {:induction false} ProductMonotone(xs: seq<real>, ys: seq<real>)
    requires |xs| == |ys|
    requires forall j :: 0 <= j < |xs| ==> 0.0 <= xs[j] <= ys[j]
    ensures 0.0 <= Product(xs) <= Product(ys)
    decreases |xs|
  {
    if xs != [] {
      var n := |xs| - 1;
      ProductMonotone(xs[..n], ys[..n]);
      MulMonotone(Product(xs[..n]), Product(ys[..n]), xs[n], ys[n]);
    }
  }

  lemma Associate(k: real, p: real, x: real)
    ensures (k * p) * x == k * (p * x)
    ensures p * (k * x) == k * (p * x)
  {
  }

  lemma UpdatePrefix(xs: seq<real>, i: nat, v: real)
    requires i < |xs| - 1
    ensures xs[i := v][..|xs| - 1] == xs[..|xs| - 1][i := v]
    ensures xs[i := v][|xs| - 1] == xs[|xs| - 1]
  {
  }

  /** Replacing one factor `x` by `k * x` scales the whole product by `k`. */
  lemma {:induction false} ProductScale(xs: seq<real>, i: nat, k: real, v: real)
    requires i < |xs| && v == k * xs[i]
    ensures Product(xs[i := v]) == k * Product(xs)
    decreases |xs|
  {
    var n := |xs| - 1;
    var ys := xs[i := v];
    var p := Product(xs[..n]);
    if i == n {
      assert ys[..n] == xs[..n];
      assert Product(ys) == p * (k * xs[n]);
      Associate(k, p, xs[n]);
    } else {
      UpdatePrefix(xs, i, v);
      assert xs[..n][i] == xs[i];
      ProductScale(xs[..n], i, k, v);
      assert Product(ys) == (k * p) * xs[n];
      Associate(k, p, xs[n]);
    }
  }

  /** Every factor of an adult's cost with non-negative income is positive. */
  lemma FactorsPositive(row: Row)
    requires AdultWithIncome(row)
    ensures forall j :: 0 <= j < |Factors(row)| ==> Factors(row)[j] > 0.0
  {
  }

  /**
   * The cost lemmas need only the lower bounds on age and income, which
   * every valid request meets.
   */
  predicate AdultWithIncome(row: Row) {
    row.age >= 18 && row.annualIncome >= 0.0
  }

  lemma ValidIsAdultWithIncome(row: Row)
    requires Valid(row)
    ensures AdultWithIncome(row)
  {
  }

  lemma ProductOfSix(a: real, b: real, c: real, d: real, e: real, f: real)
    ensures Product([a, b, c, d, e, f]) == a * b * c * d * e * f
  {
    ProductAppend([], a);
    assert [a] + [b] == [a, b];
    ProductAppend([a], b);
    assert [a, b] + [c] == [a, b, c];
    ProductAppend([a, b], c);
    assert [a, b, c] + [d] == [a, b, c, d];
    ProductAppend([a, b, c], d);
    assert [a, b, c, d] + [e] == [a, b, c, d, e];
    ProductAppend([a, b, c, d], e);
    assert [a, b, c, d, e] + [f] == [a, b, c, d, e, f];
    ProductAppend([a, b, c, d, e], f);
  }

  /** The product of the factors, bounded by the products of their extremes. */
  lemma RawCostBounds(row: Row)
    ensures AdultWithIncome(row) ==> Product(Factors(row)) > 0.0
    ensures AdultWithIncome(row) && row.householdSize >= 1 ==>
      0.378 * BaseSum(row) <= Product(Factors(row)) <= 2.184 * BaseSum(row)
  {
    if AdultWithIncome(row) {
      var fs := Factors(row);
      FactorsPositive(row);
      ProductPositive(fs);
      if row.householdSize >= 1 {
        var b := BaseSum(row);
        var lo := [b, 0.75, 0.7, 1.0, 0.9, 0.8];
        var hi := [b, 1.3, 1.0, 1.4, 1.2, 1.0];
        ProductMonotone(lo, fs);
        ProductMonotone(fs, hi);
        ProductOfSix(b, 0.75, 0.7, 1.0, 0.9, 0.8);
        ProductOfSix(b, 1.3, 1.0, 1.4, 1.2, 1.0);
      }
    }
  }

  /**
   * All else equal, an insured individual never costs more than an
   * uninsured one; before the floor the insured cost is exactly 70% of
   * the uninsured cost.
   */
  lemma InsuredNeverCostlier(row: Row)
    requires AdultWithIncome(row)
    ensures RawCost(row.(isInsured := 1)) == 0.7 * RawCost(row.(isInsured := 0))
    ensures RawCost(row.(isInsured := 1)) < RawCost(row.(isInsured := 0))
    ensures DemoPredictCost(row.(isInsured := 1)) <= DemoPredictCost(row.(isInsured := 0))
    ensures row.householdSize >= 1 ==>
      DemoPredictCost(row.(isInsured := 1)) < DemoPredictCost(row.(isInsured := 0))
  {
    var ins, unins := row.(isInsured := 1), row.(isInsured := 0);
    if row.householdSize >= 1 {
      FloorNeverApplies(ins);
      FloorNeverApplies(unins);
    }
    var xs := Factors(unins);
    assert Factors(ins) == xs[InsuranceIndex := 0.7];
    ProductScale(xs, InsuranceIndex, 0.7, 0.7);
    FactorsPositive(unins);
    ProductPositive(xs);
  }

  /**
   * The base sum is at least 2000 and every other factor at least its
   * lowest value, so the raw cost stays above the 500 floor: for a valid
   * body the floor never applies.
   */
  lemma FloorNeverApplies(row: Row)
    requires AdultWithIncome(row) && row.householdSize >= 1
    ensures RawCost(row) >= 756.0
    ensures DemoPredictCost(row) == RawCost(row)
  {
  }

  /**
   * All else equal, the cost never decreases with age; it strictly
   * increases, by 15 per year of the base sum, before the floor and, with
   * at least one household member, after it.
   */
  lemma CostMonotoneInAge(row: Row, older: int)
    requires AdultWithIncome(row) && row.age <= older
    ensures RawCost(row) <= RawCost(row.(age := older))
    ensures DemoPredictCost(row) <= DemoPredictCost(row.(age := older))
    ensures row.age < older ==> RawCost(row) < RawCost(row.(age := older))
    ensures row.age < older && row.householdSize >= 1 ==>
      DemoPredictCost(row) < DemoPredictCost(row.(age := older))
  {
    var aged := row.(age := older);
    FactorsPositive(row);
    ProductMonotone(Factors(row), Factors(aged));
    if row.age < older {
      var xs := Factors(row);
      var k := BaseSum(aged) / BaseSum(row);
      assert k > 1.0;
      assert Factors(aged) == xs[0 := BaseSum(aged)];
      ProductScale(xs, 0, k, BaseSum(aged));
      ProductPositive(xs);
      if row.householdSize >= 1 {
        FloorNeverApplies(row);
      }
    }
  }

  /**
   * The request used as a worked example: 45-year-old insured employed man
   * in Maseru, household of four, easy access, 50000 Loti, private care.
   */
  const Example: Row := Row(45, "male", "Maseru", 1, "employed", 4, "easy", 50000.0, "private")

  lemma ExampleCost()
    ensures Valid(Example)
    ensures DemoPredictCost(Example) == 5286.62862
    ensures DemoPredictCost(Example.(isInsured := 0)) == 7552.3266
  {
    assert Factors(Example) == [4905.0] + [1.3] + [0.7] + [1.4] + [0.9] + [0.94];
    ProductAppend([], 4905.0);
    ProductAppend([4905.0], 1.3);
    ProductAppend([4905.0] + [1.3], 0.7);
    ProductAppend([4905.0] + [1.3] + [0.7], 1.4);
    ProductAppend([4905.0] + [1.3] + [0.7] + [1.4], 0.9);
    ProductAppend([4905.0] + [1.3] + [0.7] + [1.4] + [0.9], 0.94);
    InsuredNeverCostlier(Example);
  }
}
