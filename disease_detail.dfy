/**
 * The disease detail screen's severity badge: a background and a text
 * colour chosen by the severity word, whatever its case.
 */
module DiseaseDetail {
  import opened JsText

  datatype Style = Style(backgroundColor: string, color: string)

  const HighStyle := Style("#F44336", "#FFFFFF")
  const MediumStyle := Style("#FFC900", "#333333")
  const LowStyle := Style("#4CAF50", "#FFFFFF")
  const DefaultStyle := Style("#B0BEC5", "#333333")

  /** The severity of the record the screen shows. */
  const ShownSeverity := "Medium"

  /** `getSeverityStyle`: red, amber or green for high, medium or low, grey for any other word. */
  function SeverityStyle(severity: string): (s: Style)
    ensures s == DefaultStyle <==> Lower(severity) !in {"high", "medium", "low"}
  {
    match Lower(severity)
    case "high" => HighStyle
    case "medium" => MediumStyle
    case "low" => LowStyle
    case _ => DefaultStyle
  }

  /** The badge for each severity word, in any case: red on white, amber under dark text, green on white. */
  lemma SeverityTable(severity: string)
    ensures Lower(severity) == "high" ==> SeverityStyle(severity) == Style("#F44336", "#FFFFFF")
    ensures Lower(severity) == "medium" ==> SeverityStyle(severity) == Style("#FFC900", "#333333")
    ensures Lower(severity) == "low" ==> SeverityStyle(severity) == Style("#4CAF50", "#FFFFFF")
  {
  }

  /** Severity words that differ only in case get the same badge. */
  lemma CaseDoesNotMatter(a: string, b: string)
    requires Lower(a) == Lower(b)
    ensures SeverityStyle(a) == SeverityStyle(b)
  {
  }

  /** The four badges are told apart by their backgrounds. */
  lemma StylesDistinct(a: string, b: string)
    ensures SeverityStyle(a).backgroundColor == SeverityStyle(b).backgroundColor <==> SeverityStyle(a) == SeverityStyle(b)
  {
  }

  /** The record on screen, rated "Medium", gets the amber badge. */
  lemma ShownRecordIsAmber()
    ensures SeverityStyle(ShownSeverity) == MediumStyle
  {
    assert Lower(ShownSeverity) == "medium";
  }
}
