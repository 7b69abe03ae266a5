/** Per-episode margin and revenue, and the nurse caseload, derived from the inputs. */
module Resolvers {
  import opened Optional
  import opened Types

  /**
   * The margin per episode: the dollar figure in dollar mode, the cost share in
   * percent mode, and 0 when the active mode's field is missing.
   */
  function ResolveMargin(inputs: FormInputs): (m: real)
    ensures inputs.marginInputType == Dollar && inputs.marginPerEpisode.Some? ==>
      m == inputs.marginPerEpisode.value
    ensures inputs.marginInputType == Percent && inputs.marginPercent.Some? ==>
      m == inputs.costPerEpisode * inputs.marginPercent.value / 100.0
    ensures inputs.marginInputType == Dollar && inputs.marginPerEpisode.None? ==> m == 0.0
    ensures inputs.marginInputType == Percent && inputs.marginPercent.None? ==> m == 0.0
  {
    match (inputs.marginInputType, inputs.marginPerEpisode, inputs.marginPercent)
    case (Dollar, Some(dollars), _) => dollars
    case (Percent, _, Some(pct)) => inputs.costPerEpisode * (pct / 100.0)
    case _ => 0.0
  }

  /** `avgReimbursement` is read for truthiness: present and nonzero. */
  predicate HasReimbursement(inputs: FormInputs) {
    inputs.avgReimbursement.Some? && inputs.avgReimbursement.value != 0.0
  }

  /**
   * The revenue per episode: the average reimbursement when it is given and
   * nonzero, otherwise cost plus margin.
   */
  function ResolveRevenuePerInfusion(inputs: FormInputs): (r: real)
    ensures HasReimbursement(inputs) ==> r == inputs.avgReimbursement.value
    ensures !HasReimbursement(inputs) ==> r - ResolveMargin(inputs) == inputs.costPerEpisode
  {
    if HasReimbursement(inputs) then inputs.avgReimbursement.value
    else inputs.costPerEpisode + ResolveMargin(inputs)
  }

  /** Weekly infusions per nurse, 0 when there are no nurses. */
  function InfusionsPerNurse(inputs: FormInputs): (ipn: real)
    ensures inputs.infusionNurses > 0.0 ==> ipn * inputs.infusionNurses == inputs.infusionsPerWeek
    ensures inputs.infusionNurses <= 0.0 ==> ipn == 0.0
  {
    if inputs.infusionNurses > 0.0 then inputs.infusionsPerWeek / inputs.infusionNurses else 0.0
  }

  /** The margin as a percentage of revenue, 0 when revenue is not positive. */
  function MarginPercent(inputs: FormInputs): (pct: real)
    ensures ResolveRevenuePerInfusion(inputs) > 0.0 ==>
      pct * ResolveRevenuePerInfusion(inputs) == ResolveMargin(inputs) * 100.0
    ensures ResolveRevenuePerInfusion(inputs) <= 0.0 ==> pct == 0.0
  {
    var revenue := ResolveRevenuePerInfusion(inputs);
    if revenue > 0.0 then ResolveMargin(inputs) / revenue * 100.0 else 0.0
  }

  /** In percent mode the margin, read back against cost, is the percentage entered. */
  lemma PercentMarginRoundTrip(inputs: FormInputs)
    requires inputs.marginInputType == Percent && inputs.marginPercent.Some?
    requires inputs.costPerEpisode != 0.0
    ensures ResolveMargin(inputs) / inputs.costPerEpisode * 100.0 == inputs.marginPercent.value
  {
  }

  /**
   * Without a reimbursement figure the margin share is below 100% whenever the
   * cost is positive and the margin not negative.
   */
  lemma DerivedMarginShareBelowWhole(inputs: FormInputs)
    requires !HasReimbursement(inputs)
    requires inputs.costPerEpisode > 0.0 && ResolveMargin(inputs) >= 0.0
    ensures 0.0 <= MarginPercent(inputs) < 100.0
  {
    var m := ResolveMargin(inputs);
    var r := ResolveRevenuePerInfusion(inputs);
    assert r == inputs.costPerEpisode + m;
    assert 0.0 <= m < r;
    DivBelowOne(m, r);
  }

  lemma DivBelowOne(a: real, b: real)
    requires 0.0 <= a < b
    ensures 0.0 <= a / b < 1.0
  {
    var q := a / b;
    assert q * b == a;
  }
}
