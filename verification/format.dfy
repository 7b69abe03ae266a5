/**
 * Shared pieces of dollar formatting. A formatted figure is the number handed
 * to the host's number-to-text conversion, its style, and a suffix; the
 * digits themselves come from that conversion, which is a parameter here.
 */
module Format {
  import opened Types

  function SuffixText(s: Suffix): string {
    match s
    case MillionsSuffix => "M"
    case ThousandsSuffix => "K"
    case NoSuffix => ""
  }

  /** How many dollars one shown unit stands for. */
  function Scale(s: Suffix): (k: real)
    ensures k > 0.0
  {
    match s
    case MillionsSuffix => 1_000_000.0
    case ThousandsSuffix => 1_000.0
    case NoSuffix => 1.0
  }

  /** The dollar figure a format stands for, before the host rounds its digits. */
  function Amount(f: DollarFormat): real {
    f.shown * Scale(f.suffix)
  }

  /**
   * The text: a dollar sign, the host's rendering of the shown number, and the suffix.
   * `digits` stands for `toFixed` or `toLocaleString`.
   */
  function Render(f: DollarFormat, digits: (real, NumberStyle) -> string): (text: string)
    ensures |text| >= 1 && text[0] == '$'
    ensures text[|text| - |SuffixText(f.suffix)|..] == SuffixText(f.suffix)
  {
    "$" + digits(f.shown, f.style) + SuffixText(f.suffix)
  }
}
