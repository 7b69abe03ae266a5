/**
 * The three-scenario opportunity model: yearly volumes lost to leakage, volume
 * recoverable by a faster start, and the revenue and margin they are worth.
 */
module Opportunity {
  import opened Numeric
  import opened Benchmarks
  import opened Types
  import opened Resolvers

  /** The share of yearly referrals each scenario assumes is won back. */
  function RecoveryRate(s: Scenario): (rate: real)
    ensures 0.0 < rate < 1.0
  {
    var r := BENCHMARKS.timeToStartRecovery;
    match s
    case Conservative => r.conservative
    case Base => r.base
    case Aggressive => r.aggressive
  }

  /** Infusions lost to leakage in a year. */
  function LostAnnualInfusions(inputs: FormInputs): (lost: int)
    ensures lost as real <= inputs.referralsPerWeek * (inputs.referralLossPercent / 100.0) * 52.0 + 0.5
    ensures inputs.referralsPerWeek * (inputs.referralLossPercent / 100.0) * 52.0 - 0.5 < lost as real
  {
    Round(inputs.referralsPerWeek * (inputs.referralLossPercent / 100.0) * 52.0)
  }

  /** Infusions a faster start wins back in scenario `s`; none unless the start is slower than "good". */
  function Recoverable(inputs: FormInputs, s: Scenario): (n: int)
    ensures inputs.daysToInfusionStart <= BENCHMARKS.timeToStartRecovery.threshold ==> n == 0
    ensures inputs.daysToInfusionStart > BENCHMARKS.timeToStartRecovery.threshold ==>
      n == Round(inputs.referralsPerWeek * 52.0 * RecoveryRate(s))
    ensures inputs.referralsPerWeek >= 0.0 ==> n >= 0
  {
    if inputs.daysToInfusionStart > BENCHMARKS.timeToStartRecovery.threshold then
      var referralBase := inputs.referralsPerWeek * 52.0;
      Round(referralBase * RecoveryRate(s))
    else 0
  }

  /** The recoverable volume of each scenario. */
  function RecoverableScenarios(inputs: FormInputs): (t: Scenarios<int>)
    ensures forall s :: t.Get(s) == Recoverable(inputs, s)
  {
    Scenarios(Recoverable(inputs, Conservative), Recoverable(inputs, Base), Recoverable(inputs, Aggressive))
  }

  /** The lost volume plus each scenario's recoverable volume. */
  function Totals(lost: int, recoverable: Scenarios<int>): (t: Scenarios<int>)
    ensures forall s :: t.Get(s) == lost + recoverable.Get(s)
  {
    Scenarios(lost + recoverable.conservative, lost + recoverable.base, lost + recoverable.aggressive)
  }

  /** Each scenario's volume priced at `perInfusion`, rounded to whole dollars. */
  function Worth(volume: Scenarios<int>, perInfusion: real): (t: Scenarios<int>)
    ensures forall s :: t.Get(s) == Round(volume.Get(s) as real * perInfusion)
  {
    Scenarios(
      Round(volume.conservative as real * perInfusion),
      Round(volume.base as real * perInfusion),
      Round(volume.aggressive as real * perInfusion))
  }

  predicate Ordered(t: Scenarios<int>) {
    t.conservative <= t.base <= t.aggressive
  }

  function CalcOpportunityModel(inputs: FormInputs): (m: OpportunityModel)
    ensures m.currentAnnualInfusions == inputs.infusionsPerWeek * 52.0
    ensures m.lostAnnualInfusions == LostAnnualInfusions(inputs)
    ensures m.revenuePerInfusion == ResolveRevenuePerInfusion(inputs)
    ensures m.marginPerInfusion == ResolveMargin(inputs)
    ensures forall s :: m.recoverableInfusions.Get(s) == Recoverable(inputs, s)
    ensures forall s :: m.totalOpportunityInfusions.Get(s)
                        == m.lostAnnualInfusions + m.recoverableInfusions.Get(s)
    ensures m.annualRevenueOpportunity == Worth(m.totalOpportunityInfusions, m.revenuePerInfusion)
    ensures m.annualMarginOpportunity == Worth(m.totalOpportunityInfusions, m.marginPerInfusion)
  {
    var revenuePerInfusion := ResolveRevenuePerInfusion(inputs);
    var marginPerInfusion := ResolveMargin(inputs);
    var lost := LostAnnualInfusions(inputs);
    var recoverable := RecoverableScenarios(inputs);
    var total := Totals(lost, recoverable);
    OpportunityModel(
      currentAnnualInfusions := inputs.infusionsPerWeek * 52.0,
      lostAnnualInfusions := lost,
      recoverableInfusions := recoverable,
      totalOpportunityInfusions := total,
      revenuePerInfusion := revenuePerInfusion,
      annualRevenueOpportunity := Worth(total, revenuePerInfusion),
      annualMarginOpportunity := Worth(total, marginPerInfusion),
      marginPerInfusion := marginPerInfusion)
  }

  /** With a start at or under the threshold nothing is recoverable, so every total is the lost volume. */
  lemma NoRecoveryWhenStartIsGood(inputs: FormInputs)
    requires inputs.daysToInfusionStart <= BENCHMARKS.timeToStartRecovery.threshold
    ensures var m := CalcOpportunityModel(inputs);
      m.recoverableInfusions == Scenarios(0, 0, 0)
      && m.totalOpportunityInfusions == Scenarios(m.lostAnnualInfusions, m.lostAnnualInfusions, m.lostAnnualInfusions)
  {
    var m := CalcOpportunityModel(inputs);
    assert m.recoverableInfusions.Get(Conservative) == 0;
    assert m.recoverableInfusions.Get(Base) == 0;
    assert m.recoverableInfusions.Get(Aggressive) == 0;
    assert m.totalOpportunityInfusions.Get(Conservative) == m.lostAnnualInfusions;
    assert m.totalOpportunityInfusions.Get(Base) == m.lostAnnualInfusions;
    assert m.totalOpportunityInfusions.Get(Aggressive) == m.lostAnnualInfusions;
  }

  /** Rounding `x * k` keeps the order of `k` for a non-negative `x`. */
  lemma ScaledRoundMonotone(x: real, k1: real, k2: real)
    requires x >= 0.0 && k1 <= k2
    ensures Round(k1 * x) <= Round(k2 * x)
  {
    assert k1 * x <= k2 * x;
    RoundMonotone(k1 * x, k2 * x);
  }

  /** Pricing ordered volumes at a non-negative rate keeps them ordered. */
  lemma WorthOrdered(volume: Scenarios<int>, perInfusion: real)
    requires Ordered(volume) && perInfusion >= 0.0
    ensures Ordered(Worth(volume, perInfusion))
  {
    ScaledRoundMonotone(perInfusion, volume.conservative as real, volume.base as real);
    ScaledRoundMonotone(perInfusion, volume.base as real, volume.aggressive as real);
  }

  /** With non-negative referral volume a higher recovery rate never recovers less. */
  lemma RecoverableOrdered(inputs: FormInputs)
    requires inputs.referralsPerWeek >= 0.0
    ensures Ordered(RecoverableScenarios(inputs))
  {
    if inputs.daysToInfusionStart > BENCHMARKS.timeToStartRecovery.threshold {
      var referralBase := inputs.referralsPerWeek * 52.0;
      RoundMonotone(referralBase * RecoveryRate(Conservative), referralBase * RecoveryRate(Base));
      RoundMonotone(referralBase * RecoveryRate(Base), referralBase * RecoveryRate(Aggressive));
    }
  }

  /**
   * With non-negative referral volume the scenarios are ordered
   * conservative ≤ base ≤ aggressive for recoverable and total volume, and so are
   * the revenue and margin opportunities whenever the per-infusion value is not negative.
   */
  lemma ScenariosOrdered(inputs: FormInputs)
    requires inputs.referralsPerWeek >= 0.0
    ensures var m := CalcOpportunityModel(inputs);
      && Ordered(m.recoverableInfusions)
      && Ordered(m.totalOpportunityInfusions)
      && (m.revenuePerInfusion >= 0.0 ==> Ordered(m.annualRevenueOpportunity))
      && (m.marginPerInfusion >= 0.0 ==> Ordered(m.annualMarginOpportunity))
  {
    var m := CalcOpportunityModel(inputs);
    RecoverableOrdered(inputs);
    assert m.recoverableInfusions == RecoverableScenarios(inputs);
    if m.revenuePerInfusion >= 0.0 {
      WorthOrdered(m.totalOpportunityInfusions, m.revenuePerInfusion);
    }
    if m.marginPerInfusion >= 0.0 {
      WorthOrdered(m.totalOpportunityInfusions, m.marginPerInfusion);
    }
  }
}
