/**
 * The three 0–100 scores: capacity, unit economics (higher is better) and the
 * growth constraint index (higher means more growth held back). Each is a
 * weighted blend of step or piecewise-linear sub-scores, rounded and clamped.
 */
module Scores {
  import opened Numeric
  import opened Optional
  import opened Benchmarks
  import opened Types
  import opened Resolvers

  // ─── Capacity score ─────────────────────────────────────────────────────────

  /**
   * Caseload sub-score: 30 under the low mark, a line through 60 at targetMin
   * and 100 at targetMax from the low mark up to targetMax, 50 up to max, 25 above.
   */
  function NurseScore(ipn: real): (s: real)
    ensures 25.0 <= s <= 100.0
    ensures ipn < BENCHMARKS.nurseCapacity.low ==> s == 30.0
    ensures BENCHMARKS.nurseCapacity.low <= ipn <= BENCHMARKS.nurseCapacity.targetMax ==>
      40.0 <= s && (s - 60.0) * 4.0 == (ipn - 6.0) * 40.0
    ensures BENCHMARKS.nurseCapacity.targetMax < ipn <= BENCHMARKS.nurseCapacity.max ==> s == 50.0
    ensures BENCHMARKS.nurseCapacity.max < ipn ==> s == 25.0
  {
    var n := BENCHMARKS.nurseCapacity;
    if ipn < n.low then 30.0
    else if ipn <= n.targetMax then
      var range := n.targetMax - n.targetMin;
      var pos := ipn - n.targetMin;
      60.0 + (pos / range) * 40.0
    else if ipn <= n.max then 50.0
    else 25.0
  }

  /** Utilization under 60% costs a fifth of the caseload sub-score, over 90% a tenth. */
  function UtilizationAdjusted(nurseScore: real, utilization: real): (s: real)
    ensures utilization < 60.0 ==> s == nurseScore * 0.8
    ensures utilization > 90.0 ==> s == nurseScore * 0.9
    ensures 60.0 <= utilization <= 90.0 ==> s == nurseScore
  {
    if utilization < 60.0 then nurseScore * 0.8
    else if utilization > 90.0 then nurseScore * 0.9
    else nurseScore
  }

  /** The utilization the form reports, 75% when it is left blank. */
  function Utilization(inputs: FormInputs): (u: real)
    ensures inputs.nurseUtilizationPercent.None? ==> u == BENCHMARKS.defaultNurseUtilization
    ensures inputs.nurseUtilizationPercent.Some? ==> u == inputs.nurseUtilizationPercent.value
  {
    ValueOr(inputs.nurseUtilizationPercent, BENCHMARKS.defaultNurseUtilization)
  }

  /** Time-to-start sub-score, one step per referral-to-start band. */
  function TimeScore(days: real): (s: real)
    ensures s in {100.0, 85.0, 60.0, 35.0, 15.0}
    ensures s == 100.0 <==> days <= BENCHMARKS.referralToStart.excellent
    ensures s == 85.0 <==> BENCHMARKS.referralToStart.excellent < days <= BENCHMARKS.referralToStart.good
    ensures s == 60.0 <==> BENCHMARKS.referralToStart.good < days <= BENCHMARKS.referralToStart.acceptable
    ensures s == 35.0 <==> BENCHMARKS.referralToStart.acceptable < days <= BENCHMARKS.referralToStart.poor
    ensures s == 15.0 <==> days > BENCHMARKS.referralToStart.poor
  {
    var b := BENCHMARKS.referralToStart;
    if days <= b.excellent then 100.0
    else if days <= b.good then 85.0
    else if days <= b.acceptable then 60.0
    else if days <= b.poor then 35.0
    else 15.0
  }

  /** Leakage sub-score, one step per referral-leakage band. */
  function LeakageScore(pct: real): (s: real)
    ensures s in {100.0, 80.0, 55.0, 30.0, 10.0}
    ensures s == 100.0 <==> pct <= BENCHMARKS.referralLeakage.excellent
    ensures s == 80.0 <==> BENCHMARKS.referralLeakage.excellent < pct <= BENCHMARKS.referralLeakage.good
    ensures s == 55.0 <==> BENCHMARKS.referralLeakage.good < pct <= BENCHMARKS.referralLeakage.acceptable
    ensures s == 30.0 <==> BENCHMARKS.referralLeakage.acceptable < pct <= BENCHMARKS.referralLeakage.poor
    ensures s == 10.0 <==> pct > BENCHMARKS.referralLeakage.poor
  {
    var b := BENCHMARKS.referralLeakage;
    if pct <= b.excellent then 100.0
    else if pct <= b.good then 80.0
    else if pct <= b.acceptable then 55.0
    else if pct <= b.poor then 30.0
    else 10.0
  }

  /** The capacity blend before rounding; every sub-score is bounded, so it stays in range. */
  function CapacityRaw(inputs: FormInputs): (raw: real)
    ensures 15.75 <= raw <= 100.0
  {
    var w := BENCHMARKS.scoringWeights.capacity;
    var nurse := UtilizationAdjusted(NurseScore(InfusionsPerNurse(inputs)), Utilization(inputs));
    nurse * w.nurseUtilization
      + TimeScore(inputs.daysToInfusionStart) * w.referralToStart
      + LeakageScore(inputs.referralLossPercent) * w.referralLeakage
  }

  /** The capacity score: the rounded blend, which never needs clamping. */
  function CapacityScore(inputs: FormInputs): (score: int)
    ensures 16 <= score <= 100
    ensures score == Round(CapacityRaw(inputs))
  {
    ScoreOf(CapacityRaw(inputs))
  }

  // ─── Unit economics score ───────────────────────────────────────────────────

  /** Margin sub-score from the margin share of revenue. */
  function MarginScore(marginPct: real): (s: real)
    ensures s in {100.0, 80.0, 60.0, 40.0, 20.0}
    ensures s == 100.0 <==> marginPct >= 35.0
    ensures s == 80.0 <==> 25.0 <= marginPct < 35.0
    ensures s == 60.0 <==> 15.0 <= marginPct < 25.0
    ensures s == 40.0 <==> 8.0 <= marginPct < 15.0
    ensures s == 20.0 <==> marginPct < 8.0
  {
    if marginPct >= 35.0 then 100.0
    else if marginPct >= 25.0 then 80.0
    else if marginPct >= 15.0 then 60.0
    else if marginPct >= 8.0 then 40.0
    else 20.0
  }

  /** Home-delivery sub-score: 40 with no home delivery, rising to 100 with all of it. */
  function HomeScore(homeDeliveryPercent: real): (s: real)
    ensures 0.0 <= homeDeliveryPercent <= 100.0 ==> 40.0 <= s <= 100.0
    ensures homeDeliveryPercent == 0.0 ==> s == 40.0
    ensures homeDeliveryPercent == 100.0 ==> s == 100.0
    ensures (s - 40.0) * 100.0 == homeDeliveryPercent * 60.0
  {
    40.0 + (homeDeliveryPercent / 100.0) * 60.0
  }

  /** Cost sub-score from the cost band the episode cost falls in. */
  function CostScore(cost: real): (s: real)
    ensures s in {90.0, 70.0, 55.0, 40.0}
    ensures s == 90.0 <==> cost <= BENCHMARKS.costBands.low.max
    ensures s == 70.0 <==> BENCHMARKS.costBands.low.max < cost <= BENCHMARKS.costBands.medium.max
    ensures s == 55.0 <==> BENCHMARKS.costBands.medium.max < cost <= BENCHMARKS.costBands.high.max
    ensures s == 40.0 <==> cost > BENCHMARKS.costBands.high.max
  {
    var c := BENCHMARKS.costBands;
    if cost <= c.low.max then 90.0
    else if cost <= c.medium.max then 70.0
    else if cost <= c.high.max then 55.0
    else 40.0
  }

  function UnitEconomicsRaw(inputs: FormInputs): (raw: real)
    ensures 0.0 <= inputs.homeDeliveryPercent <= 100.0 ==> 30.0 <= raw <= 100.0
  {
    var w := BENCHMARKS.scoringWeights.unitEconomics;
    MarginScore(MarginPercent(inputs)) * w.marginHealth
      + HomeScore(inputs.homeDeliveryPercent) * w.homeDeliveryMix
      + CostScore(inputs.costPerEpisode) * w.costEfficiency
  }

  /**
   * The unit economics score; clamping only matters when the home-delivery share
   * lies outside 0–100.
   */
  function UnitEconomicsScore(inputs: FormInputs): (score: int)
    ensures 0 <= score <= 100
    ensures 0.0 <= inputs.homeDeliveryPercent <= 100.0 ==>
      30 <= score && score == Round(UnitEconomicsRaw(inputs))
  {
    ScoreOf(UnitEconomicsRaw(inputs))
  }

  // ─── Growth constraint index ────────────────────────────────────────────────

  /** 3.5 points per percent of referrals lost, saturating at 100. */
  function LostScore(lossPercent: real): (s: real)
    ensures 0.0 <= s <= 100.0
    ensures 0.0 <= lossPercent * 3.5 <= 100.0 ==> s == lossPercent * 3.5
    ensures lossPercent * 3.5 >= 100.0 ==> s == 100.0
  {
    Clamp(lossPercent * 3.5)
  }

  /** 8 points per day past the "good" time-to-start, saturating at 100. */
  function TimeGapScore(days: real): (s: real)
    ensures 0.0 <= s <= 100.0
    ensures days <= BENCHMARKS.referralToStart.good ==> s == 0.0
    ensures BENCHMARKS.referralToStart.good <= days <= 16.5 ==>
      s == (days - BENCHMARKS.referralToStart.good) * 8.0
    ensures days >= 16.5 ==> s == 100.0
  {
    var dayGap := Max(0.0, days - BENCHMARKS.referralToStart.good);
    Clamp(dayGap * 8.0)
  }

  /** Caseload pressure: 0 at targetMin, 100 at max, linear between, clamped outside. */
  function CapacityPressure(ipn: real): (s: real)
    ensures 0.0 <= s <= 100.0
    ensures ipn <= BENCHMARKS.nurseCapacity.targetMin ==> s == 0.0
    ensures ipn >= BENCHMARKS.nurseCapacity.max ==> s == 100.0
    ensures BENCHMARKS.nurseCapacity.targetMin <= ipn <= BENCHMARKS.nurseCapacity.max ==>
      s * 6.0 == (ipn - 6.0) * 100.0
  {
    var n := BENCHMARKS.nurseCapacity;
    Clamp(((ipn - n.targetMin) / (n.max - n.targetMin)) * 100.0)
  }

  function GrowthRaw(inputs: FormInputs): (raw: real)
    ensures 0.0 <= raw <= 100.0
  {
    var w := BENCHMARKS.scoringWeights.growthConstraint;
    LostScore(inputs.referralLossPercent) * w.lostReferrals
      + TimeGapScore(inputs.daysToInfusionStart) * w.timeToStartGap
      + CapacityPressure(InfusionsPerNurse(inputs)) * w.capacityHeadroom
  }

  /** The growth constraint index: the rounded blend, which never needs clamping. */
  function GrowthConstraintIndex(inputs: FormInputs): (index: int)
    ensures 0 <= index <= 100
    ensures index == Round(GrowthRaw(inputs))
  {
    ScoreOf(GrowthRaw(inputs))
  }

  // ─── Ordering facts ─────────────────────────────────────────────────────────

  /** A longer time-to-start never earns a better time sub-score. */
  lemma TimeScoreAntitone(d1: real, d2: real)
    requires d1 <= d2
    ensures TimeScore(d2) <= TimeScore(d1)
  {
  }

  /** More referral leakage never earns a better leakage sub-score. */
  lemma LeakageScoreAntitone(p1: real, p2: real)
    requires p1 <= p2
    ensures LeakageScore(p2) <= LeakageScore(p1)
  {
  }

  /** Between the low mark and targetMax the caseload sub-score rises with the caseload. */
  lemma NurseScoreRisesInRange(a: real, b: real)
    requires BENCHMARKS.nurseCapacity.low <= a <= b <= BENCHMARKS.nurseCapacity.targetMax
    ensures NurseScore(a) <= NurseScore(b)
  {
  }

  /** With no nurses the caseload reads as 0, which scores 30 before any utilization penalty. */
  lemma NoNursesScoresThirty(inputs: FormInputs)
    requires inputs.infusionNurses <= 0.0
    ensures NurseScore(InfusionsPerNurse(inputs)) == 30.0
    ensures CapacityPressure(InfusionsPerNurse(inputs)) == 0.0
  {
  }

  /** A utilization penalty never raises a non-negative sub-score. */
  lemma UtilizationPenaltyLowers(s: real, u: real)
    requires s >= 0.0
    ensures 0.0 <= UtilizationAdjusted(s, u) <= s
  {
  }

  /** Holding everything else fixed, a longer time-to-start never raises the capacity score. */
  lemma CapacityScoreAntitoneInDays(inputs: FormInputs, d1: real, d2: real)
    requires d1 <= d2
    ensures CapacityScore(inputs.(daysToInfusionStart := d2))
         <= CapacityScore(inputs.(daysToInfusionStart := d1))
  {
    TimeScoreAntitone(d1, d2);
    RoundMonotone(CapacityRaw(inputs.(daysToInfusionStart := d2)),
                  CapacityRaw(inputs.(daysToInfusionStart := d1)));
  }

  /** Holding everything else fixed, more leakage never raises the capacity score. */
  lemma CapacityScoreAntitoneInLeakage(inputs: FormInputs, p1: real, p2: real)
    requires p1 <= p2
    ensures CapacityScore(inputs.(referralLossPercent := p2))
         <= CapacityScore(inputs.(referralLossPercent := p1))
  {
    LeakageScoreAntitone(p1, p2);
    RoundMonotone(CapacityRaw(inputs.(referralLossPercent := p2)),
                  CapacityRaw(inputs.(referralLossPercent := p1)));
  }

  /** Holding everything else fixed, more home delivery never lowers the unit economics score. */
  lemma UnitEconomicsMonotoneInHomeDelivery(inputs: FormInputs, h1: real, h2: real)
    requires h1 <= h2
    ensures UnitEconomicsScore(inputs.(homeDeliveryPercent := h1))
         <= UnitEconomicsScore(inputs.(homeDeliveryPercent := h2))
  {
    var i1 := inputs.(homeDeliveryPercent := h1);
    var i2 := inputs.(homeDeliveryPercent := h2);
    assert MarginPercent(i1) == MarginPercent(i2);
    ScoreOfMonotone(UnitEconomicsRaw(i1), UnitEconomicsRaw(i2));
  }

  /** Holding everything else fixed, more leakage never lowers the growth constraint index. */
  lemma GrowthIndexMonotoneInLeakage(inputs: FormInputs, p1: real, p2: real)
    requires p1 <= p2
    ensures GrowthConstraintIndex(inputs.(referralLossPercent := p1))
         <= GrowthConstraintIndex(inputs.(referralLossPercent := p2))
  {
    RoundMonotone(GrowthRaw(inputs.(referralLossPercent := p1)),
                  GrowthRaw(inputs.(referralLossPercent := p2)));
  }

  /** Holding everything else fixed, a longer time-to-start never lowers the growth constraint index. */
  lemma GrowthIndexMonotoneInDays(inputs: FormInputs, d1: real, d2: real)
    requires d1 <= d2
    ensures GrowthConstraintIndex(inputs.(daysToInfusionStart := d1))
         <= GrowthConstraintIndex(inputs.(daysToInfusionStart := d2))
  {
    RoundMonotone(GrowthRaw(inputs.(daysToInfusionStart := d1)),
                  GrowthRaw(inputs.(daysToInfusionStart := d2)));
  }
}
