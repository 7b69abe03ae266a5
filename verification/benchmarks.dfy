/**
 * The benchmark table: thresholds, scoring weights, recovery rates and cost
 * bands read by every scoring function. It is one constant record, read-only.
 */
module Benchmarks {

  /** Four ascending thresholds; a value at or under a threshold is in that band. */
  datatype Bands = Bands(excellent: real, good: real, acceptable: real, poor: real, caption: string)

  /** Weekly infusions per nurse. */
  datatype NurseCapacity = NurseCapacity(
    low: real, target: real, targetMin: real, targetMax: real, max: real, caption: string)

  datatype HomeDeliveryDiscount = HomeDeliveryDiscount(value: real, caption: string)

  /** Share of yearly referral volume won back once time-to-start improves. */
  datatype Recovery = Recovery(
    conservative: real, base: real, aggressive: real, threshold: real, caption: string)

  datatype CapacityWeights = CapacityWeights(
    nurseUtilization: real, referralToStart: real, referralLeakage: real)

  datatype UnitEconomicsWeights = UnitEconomicsWeights(
    marginHealth: real, homeDeliveryMix: real, costEfficiency: real)

  datatype GrowthWeights = GrowthWeights(
    lostReferrals: real, timeToStartGap: real, capacityHeadroom: real)

  datatype ScoringWeights = ScoringWeights(
    capacity: CapacityWeights, unitEconomics: UnitEconomicsWeights, growthConstraint: GrowthWeights)

  /** Cost per episode in dollars. */
  datatype CostBand = CostBand(min: real, max: real, caption: string)

  datatype CostBands = CostBands(low: CostBand, medium: CostBand, high: CostBand, caption: string)

  datatype BenchmarkTable = BenchmarkTable(
    referralToStart: Bands,
    nurseCapacity: NurseCapacity,
    referralLeakage: Bands,
    defaultNurseUtilization: real,
    homeDeliveryDiscount: HomeDeliveryDiscount,
    timeToStartRecovery: Recovery,
    readmissionRate: Bands,
    scoringWeights: ScoringWeights,
    costBands: CostBands)

  const BENCHMARKS: BenchmarkTable := BenchmarkTable(
    referralToStart := Bands(2.0, 4.0, 7.0, 14.0,
      "Assumption: Industry benchmark is 2–4 days for optimized home infusion programs."),
    nurseCapacity := NurseCapacity(4.0, 8.0, 6.0, 10.0, 12.0,
      "Assumption: 6–10 infusions per nurse per week is considered healthy utilization for home infusion."),
    referralLeakage := Bands(3.0, 8.0, 15.0, 20.0,
      "Assumption: Best-practice home infusion programs lose 3–8% of referrals due to capacity/timing constraints."),
    defaultNurseUtilization := 75.0,
    homeDeliveryDiscount := HomeDeliveryDiscount(0.12,
      "Assumption: Home infusion typically achieves 10–15% lower cost per episode vs. clinic/facility delivery."),
    timeToStartRecovery := Recovery(0.10, 0.18, 0.25, 4.0,
      "Assumption: Reducing referral-to-start time below 4 days typically recovers 10–25% of at-risk referral volume."),
    readmissionRate := Bands(5.0, 10.0, 15.0, 20.0,
      "Assumption: Best-in-class home infusion programs achieve <10% 30-day readmission rates."),
    scoringWeights := ScoringWeights(
      CapacityWeights(0.40, 0.35, 0.25),
      UnitEconomicsWeights(0.50, 0.30, 0.20),
      GrowthWeights(0.45, 0.35, 0.20)),
    costBands := CostBands(
      CostBand(150.0, 400.0, "Low-complexity (e.g., hydration, simple antibiotics)"),
      CostBand(400.0, 1200.0, "Mid-complexity (e.g., IVIG, biologics prep)"),
      CostBand(1200.0, 5000.0, "High-complexity (e.g., specialty biologics, chemo)"),
      "Assumption: Cost bands are directional estimates. Actual costs vary significantly by therapy type, payer mix, and operational model."))

  predicate Ascending(b: Bands) {
    b.excellent < b.good < b.acceptable < b.poor
  }

  /** Each weight triple is a convex blend: non-negative parts summing to one. */
  lemma WeightsSumToOne()
    ensures var w := BENCHMARKS.scoringWeights.capacity;
      w.nurseUtilization >= 0.0 && w.referralToStart >= 0.0 && w.referralLeakage >= 0.0
      && w.nurseUtilization + w.referralToStart + w.referralLeakage == 1.0
    ensures var w := BENCHMARKS.scoringWeights.unitEconomics;
      w.marginHealth >= 0.0 && w.homeDeliveryMix >= 0.0 && w.costEfficiency >= 0.0
      && w.marginHealth + w.homeDeliveryMix + w.costEfficiency == 1.0
    ensures var w := BENCHMARKS.scoringWeights.growthConstraint;
      w.lostReferrals >= 0.0 && w.timeToStartGap >= 0.0 && w.capacityHeadroom >= 0.0
      && w.lostReferrals + w.timeToStartGap + w.capacityHeadroom == 1.0
  {
  }

  /** The time-to-start and leakage bands grow strictly, so the step scores are well ordered. */
  lemma BandsAscending()
    ensures Ascending(BENCHMARKS.referralToStart)
    ensures Ascending(BENCHMARKS.referralLeakage)
    ensures Ascending(BENCHMARKS.readmissionRate)
  {
  }

  /** The nurse-capacity marks are ordered, and the target sits midway in the healthy range. */
  lemma NurseCapacityOrdered()
    ensures var n := BENCHMARKS.nurseCapacity;
      n.low < n.targetMin < n.target < n.targetMax < n.max
      && n.target == (n.targetMin + n.targetMax) / 2.0
  {
  }

  /**
   * The recovery rates grow from conservative to aggressive, and recovery starts
   * exactly where a time-to-start stops being "good".
   */
  lemma RecoveryRatesOrdered()
    ensures var r := BENCHMARKS.timeToStartRecovery;
      0.0 < r.conservative < r.base < r.aggressive < 1.0
      && r.threshold == BENCHMARKS.referralToStart.good
  {
  }

  /** The cost bands ascend and each starts where the previous one ends. */
  lemma CostBandsContiguous()
    ensures var c := BENCHMARKS.costBands;
      c.low.min < c.low.max < c.medium.max < c.high.max
      && c.medium.min == c.low.max && c.high.min == c.medium.max
  {
  }
}
