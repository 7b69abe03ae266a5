/**
 * The records the engine reads and writes: the form inputs, the three scores,
 * the three-scenario opportunity model, bottleneck items, narrative parts and
 * the combined result.
 */
module Types {
  import opened Optional

  datatype MarginInputType = Dollar | Percent

  /** One program's operational figures; percentages are on a 0–100 scale. */
  datatype FormInputs = FormInputs(
    infusionsPerWeek: real,
    referralsPerWeek: real,
    referralLossPercent: real,
    infusionNurses: real,
    nurseUtilizationPercent: Option<real>,
    homeDeliveryPercent: real,
    daysToInfusionStart: real,
    readmissionRate: Option<real>,
    costPerEpisode: real,
    marginInputType: MarginInputType,
    marginPerEpisode: Option<real>,
    marginPercent: Option<real>,
    avgReimbursement: Option<real>,
    annualGrowthTarget: real)

  datatype DiagnosticScores = DiagnosticScores(
    capacityScore: int, unitEconomicsScore: int, growthConstraintIndex: int)

  datatype Scenario = Conservative | Base | Aggressive

  /** One figure per projection scenario. */
  datatype Scenarios<T> = Scenarios(conservative: T, base: T, aggressive: T) {
    function Get(s: Scenario): T {
      match s
      case Conservative => conservative
      case Base => base
      case Aggressive => aggressive
    }
  }

  datatype OpportunityModel = OpportunityModel(
    currentAnnualInfusions: real,
    lostAnnualInfusions: int,
    recoverableInfusions: Scenarios<int>,
    totalOpportunityInfusions: Scenarios<int>,
    revenuePerInfusion: real,
    annualRevenueOpportunity: Scenarios<int>,
    annualMarginOpportunity: Scenarios<int>,
    marginPerInfusion: real)

  datatype Severity = Critical | High | Medium {
    /** The sort key: critical first, medium last. */
    function Rank(): nat {
      match this
      case Critical => 0
      case High => 1
      case Medium => 2
    }
  }

  /** Which of the five bottleneck rules produced an item. */
  datatype Rule = StartTime | Leakage | Caseload | Margin | Readmission

  /** A bottleneck finding; its description and metric text are not modelled. */
  datatype BottleneckItem = BottleneckItem(rule: Rule, title: string, severity: Severity)

  /** How a dollar figure is shown: the number handed to the host formatter. */
  datatype NumberStyle = Fixed(decimals: nat) | Grouped
  datatype Suffix = MillionsSuffix | ThousandsSuffix | NoSuffix
  datatype DollarFormat = DollarFormat(shown: real, style: NumberStyle, suffix: Suffix)

  datatype Driver = CapacityAndAccess | ReferralRecoveryAndCost

  datatype Headline = Headline(baseOpportunity: DollarFormat, driver: Driver)

  /** Summary bullets, each carrying the figures its sentence interpolates. */
  datatype Bullet =
    | LeakageBullet(lossPercent: real, lostInfusions: int, revenueGap: DollarFormat)
    | StartTimeBullet(days: real)
    | NurseUtilizationBullet(infusionsPerNurse: real)
    | UnitEconomicsBullet(marginUpside: DollarFormat)
    | VolumeFiller(annualInfusions: real, growthTarget: real)
    | HomeDeliveryFiller(homeDeliveryPercent: real)
    | UpsideFiller(aggressiveOpportunity: DollarFormat)
  {
    predicate IsFiller() {
      VolumeFiller? || HomeDeliveryFiller? || UpsideFiller?
    }
  }

  datatype ExecutiveSummary = ExecutiveSummary(headline: Headline, bullets: seq<Bullet>)

  /** The fixed next-step sentences, in the order the source writes them. */
  datatype Step =
    | ValidateNurseCapacity | MapReferralWorkflow
    | PilotIntakeCohort | QuantifyReferralLoss
    | CostPerEpisodeAnalysis | EvaluateDeliveryRatio
    | ReviewAssumptions | RequestWalkthrough

  datatype DiagnosticResults = DiagnosticResults(
    scores: DiagnosticScores,
    opportunity: OpportunityModel,
    bottlenecks: seq<BottleneckItem>,
    executiveSummary: ExecutiveSummary,
    nextSteps: seq<Step>,
    inputs: FormInputs,
    benchmarksUsed: map<string, string>)
}
