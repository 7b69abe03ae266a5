/**
 * The narrative builders: the executive summary (a headline and exactly three
 * bullets) and the next-steps list (at most five steps).
 */
module Narrative {
  import opened Benchmarks
  import opened Types
  import opened Resolvers
  import opened Format
  import opened Lists

  // ─── Summary dollar format ──────────────────────────────────────────────────

  /**
   * The summary's own dollar format: millions with one decimal from $1,000,000,
   * otherwise whole thousands — also for amounts under $1,000, which show as "$0K".
   */
  function SummaryFmtDollar(n: real): (f: DollarFormat)
    ensures f.suffix == MillionsSuffix <==> n >= 1_000_000.0
    ensures f.suffix == ThousandsSuffix <==> n < 1_000_000.0
    ensures f.suffix == MillionsSuffix ==> f.style == Fixed(1)
    ensures f.suffix == ThousandsSuffix ==> f.style == Fixed(0)
    ensures Amount(f) == n
  {
    if n >= 1_000_000.0 then DollarFormat(n / 1_000_000.0, Fixed(1), MillionsSuffix)
    else DollarFormat(n / 1_000.0, Fixed(0), ThousandsSuffix)
  }

  // ─── Executive summary ──────────────────────────────────────────────────────

  /** The headline cites the base-case revenue opportunity and names the primary driver. */
  function SummaryHeadline(scores: DiagnosticScores, opportunity: OpportunityModel): (h: Headline)
    ensures h.driver == CapacityAndAccess <==> scores.capacityScore < 60
    ensures h.baseOpportunity == SummaryFmtDollar(opportunity.annualRevenueOpportunity.base as real)
    ensures h.baseOpportunity.suffix != NoSuffix
    ensures Amount(h.baseOpportunity) == opportunity.annualRevenueOpportunity.base as real
  {
    Headline(
      SummaryFmtDollar(opportunity.annualRevenueOpportunity.base as real),
      if scores.capacityScore < 60 then CapacityAndAccess else ReferralRecoveryAndCost)
  }

  /** Where a conditional bullet sits: leakage, then start time, then caseload or economics. */
  function Slot(b: Bullet): nat {
    match b
    case LeakageBullet(_, _, _) => 0
    case StartTimeBullet(_) => 1
    case NurseUtilizationBullet(_) => 2
    case UnitEconomicsBullet(_) => 2
    case _ => 3
  }

  /** The bullets the rules trigger, before padding. */
  function ConditionalBullets(inputs: FormInputs, scores: DiagnosticScores, opportunity: OpportunityModel)
    : (bullets: seq<Bullet>)
    ensures |bullets| <= 3
    ensures forall i, j :: 0 <= i < j < |bullets| ==> Slot(bullets[i]) < Slot(bullets[j])
    ensures forall b :: b in bullets ==> !b.IsFiller()
    ensures (exists b :: b in bullets && b.LeakageBullet?)
            <==> inputs.referralLossPercent > BENCHMARKS.referralLeakage.good
    ensures (exists b :: b in bullets && b.StartTimeBullet?)
            <==> inputs.daysToInfusionStart > BENCHMARKS.referralToStart.good
    ensures (exists b :: b in bullets && b.NurseUtilizationBullet?)
            <==> InfusionsPerNurse(inputs) > BENCHMARKS.nurseCapacity.targetMax
    ensures (exists b :: b in bullets && b.UnitEconomicsBullet?)
            <==> InfusionsPerNurse(inputs) <= BENCHMARKS.nurseCapacity.targetMax && scores.unitEconomicsScore < 60
  {
    var ipn := InfusionsPerNurse(inputs);
    var leakage :=
      if inputs.referralLossPercent > BENCHMARKS.referralLeakage.good then
        [LeakageBullet(inputs.referralLossPercent, opportunity.lostAnnualInfusions,
          SummaryFmtDollar(opportunity.lostAnnualInfusions as real * opportunity.revenuePerInfusion))]
      else [];
    var startTime :=
      if inputs.daysToInfusionStart > BENCHMARKS.referralToStart.good then
        [StartTimeBullet(inputs.daysToInfusionStart)]
      else [];
    var third :=
      if ipn > BENCHMARKS.nurseCapacity.targetMax then [NurseUtilizationBullet(ipn)]
      else if scores.unitEconomicsScore < 60 then
        [UnitEconomicsBullet(SummaryFmtDollar(opportunity.annualMarginOpportunity.base as real))]
      else [];
    JoinParts(leakage, startTime, third);
    assert third != [] ==> third[0] in third;
    leakage + startTime + third
  }

  /** Joining at most one leakage, one start-time and one caseload-or-economics bullet. */
  lemma JoinParts(leakage: seq<Bullet>, startTime: seq<Bullet>, third: seq<Bullet>)
    requires |leakage| <= 1 && |startTime| <= 1 && |third| <= 1
    requires forall b :: b in leakage ==> b.LeakageBullet?
    requires forall b :: b in startTime ==> b.StartTimeBullet?
    requires forall b :: b in third ==> b.NurseUtilizationBullet? || b.UnitEconomicsBullet?
    ensures var bullets := leakage + startTime + third;
      && |bullets| <= 3
      && (forall i, j :: 0 <= i < j < |bullets| ==> Slot(bullets[i]) < Slot(bullets[j]))
      && (forall b :: b in bullets ==> !b.IsFiller())
      && ((exists b :: b in bullets && b.LeakageBullet?) <==> leakage != [])
      && ((exists b :: b in bullets && b.StartTimeBullet?) <==> startTime != [])
      && ((exists b :: b in bullets && b.NurseUtilizationBullet?) <==> (exists b :: b in third && b.NurseUtilizationBullet?))
      && ((exists b :: b in bullets && b.UnitEconomicsBullet?) <==> (exists b :: b in third && b.UnitEconomicsBullet?))
  {
    var bullets := leakage + startTime + third;
    assert forall b :: b in bullets <==> b in leakage || b in startTime || b in third;
    assert leakage != [] ==> leakage[0] in bullets;
    assert startTime != [] ==> startTime[0] in bullets;
    assert third != [] ==> third[0] in bullets;
  }

  /** The filler added when the list holds `count` bullets: volume, then home delivery, then upside. */
  function FillerFor(count: int, inputs: FormInputs, opportunity: OpportunityModel): (b: Bullet)
    ensures b.IsFiller()
    ensures count == 0 <==> b.VolumeFiller?
    ensures count == 1 <==> b.HomeDeliveryFiller?
  {
    if count == 0 then VolumeFiller(inputs.infusionsPerWeek * 52.0, inputs.annualGrowthTarget)
    else if count == 1 then HomeDeliveryFiller(inputs.homeDeliveryPercent)
    else UpsideFiller(SummaryFmtDollar(opportunity.annualRevenueOpportunity.aggressive as real))
  }

  /**
   * The padded list in closed form: the given bullets, then the filler for each
   * missing position, cut to three.
   */
  function PaddedBullets(bullets: seq<Bullet>, inputs: FormInputs, opportunity: OpportunityModel)
    : (r: seq<Bullet>)
    ensures |r| == 3
    ensures |bullets| <= 3 ==> r[..|bullets|] == bullets
    ensures forall i :: |bullets| <= i < 3 ==> r[i] == FillerFor(i, inputs, opportunity)
    ensures |bullets| >= 3 ==> r == bullets[..3]
  {
    if |bullets| >= 3 then bullets[..3]
    else bullets + seq(3 - |bullets|, k => FillerFor(|bullets| + k, inputs, opportunity))
  }

  /**
   * The padding loop as the source writes it: while fewer than three bullets,
   * push the filler the current count selects; then keep the first three.
   */
  method PadBullets(bullets: seq<Bullet>, inputs: FormInputs, opportunity: OpportunityModel)
    returns (r: seq<Bullet>)
    ensures r == PaddedBullets(bullets, inputs, opportunity)
  {
    var b := bullets;
    while |b| < 3
      invariant |bullets| <= |b| <= 3 || b == bullets
      invariant b[..|bullets|] == bullets
      invariant forall i :: |bullets| <= i < |b| ==> b[i] == FillerFor(i, inputs, opportunity)
      decreases 3 - |b|
    {
      if |b| == 0 {
        b := b + [VolumeFiller(inputs.infusionsPerWeek * 52.0, inputs.annualGrowthTarget)];
      } else if |b| == 1 {
        b := b + [HomeDeliveryFiller(inputs.homeDeliveryPercent)];
      } else {
        b := b + [UpsideFiller(SummaryFmtDollar(opportunity.annualRevenueOpportunity.aggressive as real))];
      }
    }
    r := b[..3];
  }

  /**
   * `generateExecutiveSummary`: exactly three bullets, the triggered ones first
   * in rule order, then fillers chosen by position.
   */
  function GenerateExecutiveSummary(inputs: FormInputs, scores: DiagnosticScores, opportunity: OpportunityModel)
    : (summary: ExecutiveSummary)
    ensures |summary.bullets| == 3
    ensures summary.headline == SummaryHeadline(scores, opportunity)
    ensures summary.headline.driver == CapacityAndAccess <==> scores.capacityScore < 60
    ensures Amount(summary.headline.baseOpportunity) == opportunity.annualRevenueOpportunity.base as real
    ensures var c := ConditionalBullets(inputs, scores, opportunity);
      && summary.bullets[..|c|] == c
      && (forall i :: |c| <= i < 3 ==> summary.bullets[i] == FillerFor(i, inputs, opportunity))
  {
    ExecutiveSummary(
      SummaryHeadline(scores, opportunity),
      PaddedBullets(ConditionalBullets(inputs, scores, opportunity), inputs, opportunity))
  }

  // ─── Next steps ─────────────────────────────────────────────────────────────

  /** The position of a step in the order the source lists them. */
  function StepOrder(s: Step): nat {
    match s
    case ValidateNurseCapacity => 0
    case MapReferralWorkflow => 1
    case PilotIntakeCohort => 2
    case QuantifyReferralLoss => 3
    case CostPerEpisodeAnalysis => 4
    case EvaluateDeliveryRatio => 5
    case ReviewAssumptions => 6
    case RequestWalkthrough => 7
  }

  /** How many of the three two-step blocks the scores trigger. */
  function TriggeredBlocks(scores: DiagnosticScores): (k: nat)
    ensures k <= 3
  {
    (if scores.capacityScore < 60 then 1 else 0)
      + (if scores.growthConstraintIndex > 50 then 1 else 0)
      + (if scores.unitEconomicsScore < 60 then 1 else 0)
  }

  /**
   * `generateNextSteps`: the triggered blocks in order, then the two closing
   * steps, cut to five — so with two blocks the last closing step is lost, and
   * with three both are, along with the unit-economics block's second step.
   */
  function GenerateNextSteps(scores: DiagnosticScores): (steps: seq<Step>)
    ensures var k := TriggeredBlocks(scores);
      |steps| == if 2 + 2 * k <= 5 then 2 + 2 * k else 5
    ensures forall i, j :: 0 <= i < j < |steps| ==> StepOrder(steps[i]) < StepOrder(steps[j])
  {
    var all :=
      (if scores.capacityScore < 60 then [ValidateNurseCapacity, MapReferralWorkflow] else [])
      + (if scores.growthConstraintIndex > 50 then [PilotIntakeCohort, QuantifyReferralLoss] else [])
      + (if scores.unitEconomicsScore < 60 then [CostPerEpisodeAnalysis, EvaluateDeliveryRatio] else [])
      + [ReviewAssumptions, RequestWalkthrough];
    Take(all, 5)
  }

  /** The steps of a three-way trigger pattern, as the source's pushes and cut produce them. */
  function StepsFor(a: bool, b: bool, c: bool): seq<Step> {
    if a && b && c then
      [ValidateNurseCapacity, MapReferralWorkflow, PilotIntakeCohort, QuantifyReferralLoss, CostPerEpisodeAnalysis]
    else if a && b then
      [ValidateNurseCapacity, MapReferralWorkflow, PilotIntakeCohort, QuantifyReferralLoss, ReviewAssumptions]
    else if a && c then
      [ValidateNurseCapacity, MapReferralWorkflow, CostPerEpisodeAnalysis, EvaluateDeliveryRatio, ReviewAssumptions]
    else if b && c then
      [PilotIntakeCohort, QuantifyReferralLoss, CostPerEpisodeAnalysis, EvaluateDeliveryRatio, ReviewAssumptions]
    else if a then [ValidateNurseCapacity, MapReferralWorkflow, ReviewAssumptions, RequestWalkthrough]
    else if b then [PilotIntakeCohort, QuantifyReferralLoss, ReviewAssumptions, RequestWalkthrough]
    else if c then [CostPerEpisodeAnalysis, EvaluateDeliveryRatio, ReviewAssumptions, RequestWalkthrough]
    else [ReviewAssumptions, RequestWalkthrough]
  }

  /** The list the pushes and the cut build equals the table of all eight trigger patterns. */
  lemma NextStepsTable(scores: DiagnosticScores)
    ensures GenerateNextSteps(scores) == StepsFor(
      scores.capacityScore < 60, scores.growthConstraintIndex > 50, scores.unitEconomicsScore < 60)
  {
  }

  /**
   * Which steps survive: each block's steps appear exactly when its score
   * triggers it, except that the cut to five drops the closing steps once two
   * blocks fire, and the unit-economics block's second step once all three do.
   */
  lemma NextStepsContents(scores: DiagnosticScores)
    ensures var steps := GenerateNextSteps(scores);
      && (ValidateNurseCapacity in steps <==> scores.capacityScore < 60)
      && (MapReferralWorkflow in steps <==> scores.capacityScore < 60)
      && (PilotIntakeCohort in steps <==> scores.growthConstraintIndex > 50)
      && (QuantifyReferralLoss in steps <==> scores.growthConstraintIndex > 50)
      && (CostPerEpisodeAnalysis in steps <==> scores.unitEconomicsScore < 60)
      && (EvaluateDeliveryRatio in steps <==> scores.unitEconomicsScore < 60 && TriggeredBlocks(scores) < 3)
      && (ReviewAssumptions in steps <==> TriggeredBlocks(scores) <= 2)
      && (RequestWalkthrough in steps <==> TriggeredBlocks(scores) <= 1)
  {
    NextStepsTable(scores);
    StepsForContents(scores.capacityScore < 60, scores.growthConstraintIndex > 50, scores.unitEconomicsScore < 60);
  }

  /** Membership in the table, one trigger pattern at a time; `n` counts the blocks that fire. */
  lemma StepsForContents(a: bool, b: bool, c: bool)
    ensures var steps, n := StepsFor(a, b, c), (if a then 1 else 0) + (if b then 1 else 0) + (if c then 1 else 0);
      && (ValidateNurseCapacity in steps <==> a)
      && (MapReferralWorkflow in steps <==> a)
      && (PilotIntakeCohort in steps <==> b)
      && (QuantifyReferralLoss in steps <==> b)
      && (CostPerEpisodeAnalysis in steps <==> c)
      && (EvaluateDeliveryRatio in steps <==> c && n < 3)
      && (ReviewAssumptions in steps <==> n <= 2)
      && (RequestWalkthrough in steps <==> n <= 1)
  {
  }
}
