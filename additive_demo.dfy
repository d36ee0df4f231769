/**
 * The additive fallback estimator of the prediction module
 * (`predict_demo`): a sum of signed per-field contributions, perturbed by
 * a draw `v` from [-0.05, 0.05] (the source's uniform random draw, here a
 * parameter), and floored at 1000 Loti. Lookups of unknown keys contribute 0.
 */
module AdditiveDemo {
  import opened Schema

  const BaseCost: real := 5000.0
  const MinimumCost: real := 1000.0

  const AccessContributions: map<string, real> :=
    map["easy" := -800.0, "moderate" := 200.0, "difficult" := 1500.0]

  const EmploymentContributions: map<string, real> :=
    map["employed" := 0.0, "unemployed" := 1200.0, "self-employed" := 600.0]

  const RegionContributions: map<string, real> :=
    map["Maseru" := 1500.0, "Leribe" := 800.0, "Mafeteng" := 500.0, "Butha-Buthe" := 300.0,
        "Mohale's Hoek" := 200.0, "Quthing" := 0.0, "Qacha's Nek" := -300.0, "Thaba-Tseka" := -500.0]

  /** `table.get(key, 0)` */
  function Contribution(table: map<string, real>, key: string): real {
    if key in table then table[key] else 0.0
  }

  function AgeContribution(age: int): real {
    ((age - 18) * 75) as real
  }

  function InsuranceContribution(isInsured: int): real {
    if isInsured == 1 then -2500.0 else 2000.0
  }

  function IncomeContribution(income: real): real {
    (income / 60000.0) * 1500.0
  }

  function HouseholdContribution(size: int): real {
    (-(size - 1) * 300) as real
  }

  function TypeContribution(healthcareType: string): real {
    if healthcareType == "private" then 4000.0 else 0.0
  }

  function SexContribution(sex: string): real {
    if sex == "female" then 300.0 else 0.0
  }

  /** Every table entry lies between the table's smallest and largest contribution, the default 0 included. */
  lemma TableBounds(access: string, employment: string, region: string)
    ensures -800.0 <= Contribution(AccessContributions, access) <= 1500.0
    ensures 0.0 <= Contribution(EmploymentContributions, employment) <= 1200.0
    ensures -500.0 <= Contribution(RegionContributions, region) <= 1500.0
  {
  }

  /**
   * The total before the random variation. Whenever age, household size
   * and income are in their declared ranges (whatever the labels) it lies
   * between -2875 (the cheapest combination of every field) and 26650 (the
   * dearest), so the floor of 1000 can take over.
   */
  function PreTotal(row: Row): (t: real)
    ensures 18 <= row.age <= 100 && 1 <= row.householdSize <= 15 && 5000.0 <= row.annualIncome <= 200000.0 ==>
      -2875.0 <= t <= 26650.0
  {
    TableBounds(row.access, row.employment, row.region);
    BaseCost + AgeContribution(row.age) + InsuranceContribution(row.isInsured)
      + IncomeContribution(row.annualIncome) + HouseholdContribution(row.householdSize)
      + Contribution(AccessContributions, row.access) + TypeContribution(row.healthcareType)
      + Contribution(EmploymentContributions, row.employment)
      + Contribution(RegionContributions, row.region) + SexContribution(row.sex)
  }

  /** A draw of the variation factor: `np.random.uniform(-0.05, 0.05)`. */
  predicate IsDraw(v: real) {
    -0.05 <= v <= 0.05
  }

  /** `total + v * total`: the total moved by at most five percent of itself. */
  function Perturb(total: real, v: real): (p: real)
    requires IsDraw(v)
    ensures total >= 0.0 ==> 0.95 * total <= p <= 1.05 * total
    ensures total <= 0.0 ==> 1.05 * total <= p <= 0.95 * total
  {
    var p := total + v * total;
    WithinFivePercent(total, v, p);
    p
  }

  lemma NonnegativeProduct(a: real, b: real)
    requires a >= 0.0 && b >= 0.0
    ensures a * b >= 0.0
  {
  }

  lemma Distribute(a: real, b: real, c: real)
    ensures (a - b) * c == a * c - b * c
    ensures (a + b) * c == a * c + b * c
  {
  }

  lemma WithinFivePercent(total: real, v: real, p: real)
    requires IsDraw(v) && p == total + v * total
    ensures total >= 0.0 ==> 0.95 * total <= p <= 1.05 * total
    ensures total <= 0.0 ==> 1.05 * total <= p <= 0.95 * total
  {
    Distribute(0.05, v, total);
    Distribute(v, 0.05, total);
    Distribute(0.05, v, -total);
    Distribute(v, 0.05, -total);
    if total >= 0.0 {
      NonnegativeProduct(0.05 - v, total);
      NonnegativeProduct(v + 0.05, total);
      assert (v - -0.05) * total == v * total - -0.05 * total;
    } else {
      NonnegativeProduct(0.05 - v, -total);
      NonnegativeProduct(v + 0.05, -total);
      assert (v - -0.05) * -total == v * -total - -0.05 * -total;
    }
  }

  /** `predict_demo`: the perturbed total, floored at 1000. */
  function PredictDemo(row: Row, v: real): (cost: real)
    requires IsDraw(v)
    ensures cost >= MinimumCost
    ensures cost >= Perturb(PreTotal(row), v)
    ensures cost == MinimumCost || cost == Perturb(PreTotal(row), v)
  {
    var total := Perturb(PreTotal(row), v);
    if total >= 1000.0 then total else 1000.0
  }

  // ---------------------------------------------------------------------
  // Properties
  // ---------------------------------------------------------------------

  /** Unknown access, employment and region keys contribute nothing. */
  lemma UnknownKeysContributeZero(row: Row)
    ensures row.access !in AccessNames ==> Contribution(AccessContributions, row.access) == 0.0
    ensures row.employment !in EmploymentNames ==> Contribution(EmploymentContributions, row.employment) == 0.0
    ensures row.region !in RegionNames ==> Contribution(RegionContributions, row.region) == 0.0
  {
  }

  /** Each extra year of age adds exactly 75 to the total. */
  lemma AgeAddsSeventyFive(row: Row)
    ensures PreTotal(row.(age := row.age + 1)) == PreTotal(row) + 75.0
  {
  }

  /** So the total is strictly increasing in age. */
  lemma {:induction false} TotalIncreasingInAge(row: Row, older: int)
    requires row.age < older
    ensures PreTotal(row) < PreTotal(row.(age := older))
    decreases older - row.age
  {
    AgeAddsSeventyFive(row);
    if row.age + 1 < older {
      TotalIncreasingInAge(row.(age := row.age + 1), older);
    }
  }

  /** Each extra household member subtracts exactly 300 from the total. */
  lemma HouseholdMemberSubtractsThreeHundred(row: Row)
    ensures PreTotal(row.(householdSize := row.householdSize + 1)) == PreTotal(row) - 300.0
  {
  }

  /** All else equal, being insured lowers the total by exactly 4500. */
  lemma InsuranceSavesFortyFiveHundred(row: Row)
    ensures PreTotal(row.(isInsured := 1)) == PreTotal(row.(isInsured := 0)) - 4500.0
  {
  }

  /**
   * For the same draw, an insured individual never costs more than an
   * uninsured one; with no variation the unfloored totals differ by 4500.
   */
  lemma InsuredNeverCostlier(row: Row, v: real)
    requires IsDraw(v)
    ensures Perturb(PreTotal(row.(isInsured := 1)), 0.0) == Perturb(PreTotal(row.(isInsured := 0)), 0.0) - 4500.0
    ensures Perturb(PreTotal(row.(isInsured := 1)), v) < Perturb(PreTotal(row.(isInsured := 0)), v)
    ensures PredictDemo(row.(isInsured := 1), v) <= PredictDemo(row.(isInsured := 0), v)
  {
    var t1, t0 := PreTotal(row.(isInsured := 1)), PreTotal(row.(isInsured := 0));
    InsuranceSavesFortyFiveHundred(row);
    PerturbLinear(t0, 4500.0, v);
  }

  /**
   * For the same draw, an older individual's total after the variation is
   * strictly higher, and the floored estimate never lower.
   */
  lemma CostMonotoneInAge(row: Row, older: int, v: real)
    requires IsDraw(v) && row.age < older
    ensures Perturb(PreTotal(row), v) < Perturb(PreTotal(row.(age := older)), v)
    ensures PredictDemo(row, v) <= PredictDemo(row.(age := older), v)
  {
    var s, t := PreTotal(row), PreTotal(row.(age := older));
    TotalIncreasingInAge(row, older);
    PerturbLinear(t, t - s, v);
    assert t - (t - s) == s;
  }

  lemma PerturbLinear(total: real, d: real, v: real)
    requires IsDraw(v) && d > 0.0
    ensures Perturb(total - d, v) < Perturb(total, v)
  {
    assert Perturb(total, v) - Perturb(total - d, v) == d * (1.0 + v);
    assert 1.0 + v > 0.0;
    assert d * (1.0 + v) > 0.0;
  }
}
