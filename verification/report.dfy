/**
 * The report's small formatters: its dollar format, the grade shown under the
 * capacity and unit economics scores, and the growth-constraint label.
 */
module Report {
  import opened Types
  import opened Format

  /**
   * The report's dollar format: millions with one decimal from $1,000,000,
   * whole thousands from $1,000, and the plain grouped figure below that.
   */
  function FmtDollar(n: real): (f: DollarFormat)
    ensures f.suffix == MillionsSuffix <==> n >= 1_000_000.0
    ensures f.suffix == ThousandsSuffix <==> 1_000.0 <= n < 1_000_000.0
    ensures f.suffix == NoSuffix <==> n < 1_000.0
    ensures f.suffix == MillionsSuffix ==> f.style == Fixed(1)
    ensures f.suffix == ThousandsSuffix ==> f.style == Fixed(0)
    ensures f.suffix == NoSuffix ==> f.style == Grouped
    ensures Amount(f) == n
  {
    if n >= 1_000_000.0 then DollarFormat(n / 1_000_000.0, Fixed(1), MillionsSuffix)
    else if n >= 1_000.0 then DollarFormat(n / 1_000.0, Fixed(0), ThousandsSuffix)
    else DollarFormat(n, Grouped, NoSuffix)
  }

  /** Whatever the host's digits, a report dollar figure starts with "$" and ends in its suffix. */
  lemma FmtDollarText(n: real, digits: (real, NumberStyle) -> string)
    ensures var text := Render(FmtDollar(n), digits);
      && text[0] == '$'
      && (n >= 1_000_000.0 ==> text[|text| - 1] == 'M')
      && (1_000.0 <= n < 1_000_000.0 ==> text[|text| - 1] == 'K')
  {
    var text := Render(FmtDollar(n), digits);
    var suffix := SuffixText(FmtDollar(n).suffix);
    assert text[|text| - |suffix|..] == suffix;
    if n >= 1_000.0 {
      assert text[|text| - 1] == text[|text| - |suffix|..][0];
    }
  }

  datatype Grade = Strong | Adequate | AtRisk | CriticalGrade {
    function Text(): string {
      match this
      case Strong => "Strong"
      case Adequate => "Adequate"
      case AtRisk => "At Risk"
      case CriticalGrade => "Critical"
    }

    /** 3 for the best grade down to 0 for the worst. */
    function Level(): nat {
      match this
      case Strong => 3
      case Adequate => 2
      case AtRisk => 1
      case CriticalGrade => 0
    }
  }

  /** The grade of a higher-is-better score: bands of 20 points from 40 to 80. */
  function ScoreLabel(score: real): (g: Grade)
    ensures g == Strong <==> score >= 80.0
    ensures g == Adequate <==> 60.0 <= score < 80.0
    ensures g == AtRisk <==> 40.0 <= score < 60.0
    ensures g == CriticalGrade <==> score < 40.0
  {
    if score >= 80.0 then Strong
    else if score >= 60.0 then Adequate
    else if score >= 40.0 then AtRisk
    else CriticalGrade
  }

  /** A higher score never gets a worse grade. */
  lemma ScoreLabelMonotone(a: real, b: real)
    requires a <= b
    ensures ScoreLabel(a).Level() <= ScoreLabel(b).Level()
  {
  }

  datatype GrowthLabel = HighConstraint | Moderate | Low {
    function Text(): string {
      match this
      case HighConstraint => "High Constraint"
      case Moderate => "Moderate"
      case Low => "Low"
    }

    /** 2 for the tightest constraint down to 0 for the loosest. */
    function Level(): nat {
      match this
      case HighConstraint => 2
      case Moderate => 1
      case Low => 0
    }
  }

  /** The label under the growth constraint index: over 60 high, over 35 moderate, else low. */
  function GrowthConstraintLabel(index: real): (l: GrowthLabel)
    ensures l == HighConstraint <==> index > 60.0
    ensures l == Moderate <==> 35.0 < index <= 60.0
    ensures l == Low <==> index <= 35.0
  {
    if index > 60.0 then HighConstraint
    else if index > 35.0 then Moderate
    else Low
  }

  /** A higher index never gets a looser constraint label. */
  lemma GrowthLabelMonotone(a: real, b: real)
    requires a <= b
    ensures GrowthConstraintLabel(a).Level() <= GrowthConstraintLabel(b).Level()
  {
  }
}
