/** Display labels for cadences (src/lib/utils.ts). */
module Utils {

  /** The cadences that have a display label of their own. */
  predicate HasLabel(cadence: string) {
    cadence == "manual" || cadence == "hourly" || cadence == "every12h" || cadence == "daily"
  }

  /** `formatCadence`: a label for the four known cadences; any other string is shown as it is. */
  function FormatCadence(cadence: string): (shown: string)
    ensures !HasLabel(cadence) <==> shown == cadence
    ensures !HasLabel(shown)
  {
    match cadence
    case "manual" => "Manual"
    case "hourly" => "Every Hour"
    case "every12h" => "Every 12 Hours"
    case "daily" => "Daily"
    case _ => cadence
  }

  /** Two different known cadences never share a label. */
  lemma LabelsDistinct(a: string, b: string)
    requires HasLabel(a) && HasLabel(b) && a != b
    ensures FormatCadence(a) != FormatCadence(b)
  {
  }

  /** Formatting a label again leaves it alone, because no label is itself a known cadence. */
  lemma FormatIdempotent(cadence: string)
    ensures FormatCadence(FormatCadence(cadence)) == FormatCadence(cadence)
  {
  }

  /** The form's `every_minute` cadence has no label and is displayed raw. */
  lemma EveryMinuteShownRaw()
    ensures FormatCadence("every_minute") == "every_minute"
  {
  }
}
