/** `runDiagnostic`: the whole pipeline from one input record to one result record. */
module Diagnostic {
  import opened Optional
  import opened Benchmarks
  import opened Types
  import opened Resolvers
  import opened Scores
  import opened Opportunity
  import opened Bottlenecks
  import opened Narrative

  /** The disclosure table: six headings, each paired with its benchmark group's assumption text. */
  function GetBenchmarksUsed(): (m: map<string, string>)
    ensures |m| == 6
    ensures forall k :: k in m ==> m[k] in {
      BENCHMARKS.referralToStart.caption, BENCHMARKS.nurseCapacity.caption,
      BENCHMARKS.referralLeakage.caption, BENCHMARKS.homeDeliveryDiscount.caption,
      BENCHMARKS.timeToStartRecovery.caption, BENCHMARKS.costBands.caption}
    ensures m.Keys == {"Referral-to-Start Benchmark", "Nurse Capacity Benchmark", "Referral Leakage Benchmark",
                       "Home Delivery Cost Advantage", "Recoverable Volume Model", "Cost Per Episode Bands"}
    ensures m["Recoverable Volume Model"] == BENCHMARKS.timeToStartRecovery.caption
  {
    map[
      "Referral-to-Start Benchmark" := BENCHMARKS.referralToStart.caption,
      "Nurse Capacity Benchmark" := BENCHMARKS.nurseCapacity.caption,
      "Referral Leakage Benchmark" := BENCHMARKS.referralLeakage.caption,
      "Home Delivery Cost Advantage" := BENCHMARKS.homeDeliveryDiscount.caption,
      "Recoverable Volume Model" := BENCHMARKS.timeToStartRecovery.caption,
      "Cost Per Episode Bands" := BENCHMARKS.costBands.caption]
  }

  function CalcScores(inputs: FormInputs): (s: DiagnosticScores)
    ensures s.capacityScore == CapacityScore(inputs) && 16 <= s.capacityScore <= 100
    ensures s.unitEconomicsScore == UnitEconomicsScore(inputs) && 0 <= s.unitEconomicsScore <= 100
    ensures s.growthConstraintIndex == GrowthConstraintIndex(inputs) && 0 <= s.growthConstraintIndex <= 100
  {
    DiagnosticScores(CapacityScore(inputs), UnitEconomicsScore(inputs), GrowthConstraintIndex(inputs))
  }

  /**
   * The full result: scores in range, the opportunity model, at most four
   * severity-sorted bottlenecks, three summary bullets, two to five next steps,
   * and the inputs echoed back unchanged.
   */
  function RunDiagnostic(inputs: FormInputs): (r: DiagnosticResults)
    ensures r.inputs == inputs
    ensures r.scores == CalcScores(inputs)
    ensures r.opportunity == CalcOpportunityModel(inputs)
    ensures r.executiveSummary == GenerateExecutiveSummary(inputs, r.scores, r.opportunity)
    ensures r.bottlenecks == CalcBottlenecks(inputs)
    ensures r.nextSteps == GenerateNextSteps(r.scores)
    ensures r.benchmarksUsed == GetBenchmarksUsed()
    ensures 16 <= r.scores.capacityScore <= 100
    ensures 0 <= r.scores.unitEconomicsScore <= 100
    ensures 0 <= r.scores.growthConstraintIndex <= 100
    ensures r.opportunity.revenuePerInfusion == ResolveRevenuePerInfusion(inputs)
    ensures r.opportunity.marginPerInfusion == ResolveMargin(inputs)
    ensures |r.bottlenecks| <= 4 && Sorted(r.bottlenecks)
    ensures |r.executiveSummary.bullets| == 3
    ensures 2 <= |r.nextSteps| <= 5
    ensures (r.executiveSummary.headline.driver == CapacityAndAccess) <==> r.scores.capacityScore < 60
  {
    var scores := CalcScores(inputs);
    var opportunity := CalcOpportunityModel(inputs);
    DiagnosticResults(
      scores := scores,
      opportunity := opportunity,
      bottlenecks := CalcBottlenecks(inputs),
      executiveSummary := GenerateExecutiveSummary(inputs, scores, opportunity),
      nextSteps := GenerateNextSteps(scores),
      inputs := inputs,
      benchmarksUsed := GetBenchmarksUsed())
  }

  /** The worked example: 120 infusions a week, 145 referrals, 12% leakage, 18 nurses, a 6-day start. */
  const Example: FormInputs := FormInputs(
    infusionsPerWeek := 120.0,
    referralsPerWeek := 145.0,
    referralLossPercent := 12.0,
    infusionNurses := 18.0,
    nurseUtilizationPercent := None,
    homeDeliveryPercent := 70.0,
    daysToInfusionStart := 6.0,
    readmissionRate := None,
    costPerEpisode := 850.0,
    marginInputType := Dollar,
    marginPerEpisode := Some(210.0),
    marginPercent := None,
    avgReimbursement := None,
    annualGrowthTarget := 15.0)

  /**
   * On the worked example: 905 lost infusions a year, 754 / 1357 / 1885 recoverable,
   * and scores 61 (capacity), 69 (unit economics) and 27 (growth constraint).
   */
  lemma ExampleVolumes()
    ensures var m := CalcOpportunityModel(Example);
      && m.lostAnnualInfusions == 905
      && m.recoverableInfusions == Scenarios(754, 1357, 1885)
      && m.totalOpportunityInfusions == Scenarios(1659, 2262, 2790)
  {
    var m := CalcOpportunityModel(Example);
    assert m.recoverableInfusions.Get(Conservative) == 754;
    assert m.recoverableInfusions.Get(Base) == 1357;
    assert m.recoverableInfusions.Get(Aggressive) == 1885;
  }

  lemma ExampleScores()
    ensures CapacityScore(Example) == 61
    ensures UnitEconomicsScore(Example) == 69
    ensures GrowthConstraintIndex(Example) == 27
  {
    assert InfusionsPerNurse(Example) == 120.0 / 18.0;
    assert MarginPercent(Example) == 210.0 / 1060.0 * 100.0;
  }

  /** On the worked example only the 8–15% leakage rule fires, giving one medium item. */
  lemma ExampleBottlenecks()
    ensures CalcBottlenecks(Example) == [BottleneckItem(Leakage, "Elevated Referral Leakage", Medium)]
  {
    var item := BottleneckItem(Leakage, "Elevated Referral Leakage", Medium);
    var r := ReadingsOf(Example);
    assert r.infusionsPerNurse == 120.0 / 18.0;
    assert r.marginPct == 210.0 / 1060.0 * 100.0;
    assert Collected(r) == [item];
    assert Buckets([item]) == [item];
  }

  /**
   * On the worked example the summary gets the leakage and start-time bullets
   * plus the upside filler, and names referral recovery as the driver.
   */
  lemma ExampleSummary()
    ensures var summary := GenerateExecutiveSummary(Example, CalcScores(Example), CalcOpportunityModel(Example));
      && summary.headline.driver == ReferralRecoveryAndCost
      && summary.bullets[0].LeakageBullet? && summary.bullets[1].StartTimeBullet?
      && summary.bullets[2].UpsideFiller?
  {
    ExampleScores();
    var scores := CalcScores(Example);
    var m := CalcOpportunityModel(Example);
    assert InfusionsPerNurse(Example) == 120.0 / 18.0;
    var c := ConditionalBullets(Example, scores, m);
    assert c[0].LeakageBullet? && c[1].StartTimeBullet? && |c| == 2 by {
      assert exists b :: b in c && b.LeakageBullet?;
      assert exists b :: b in c && b.StartTimeBullet?;
      assert !exists b :: b in c && b.NurseUtilizationBullet?;
      assert !exists b :: b in c && b.UnitEconomicsBullet?;
      assert forall b :: b in c ==> !b.IsFiller();
    }
  }

  /** On the worked example no score triggers a next-step block, leaving the two closing steps. */
  lemma ExampleNextSteps()
    ensures GenerateNextSteps(CalcScores(Example)) == [ReviewAssumptions, RequestWalkthrough]
  {
    ExampleScores();
  }
}
