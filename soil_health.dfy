/**
 * The soil health screen: five readings graded into one of three tiers at
 * the press of a button. The readings are parsed but never checked for NaN.
 */
module SoilHealth {
  import opened Wrappers
  import opened JsNumber
  import opened Ui

  datatype Tier = Excellent | Normal | NeedsImprovement

  /** Tiers in order of merit, worst first. */
  function Rank(t: Tier): nat {
    match t
    case NeedsImprovement => 0
    case Normal => 1
    case Excellent => 2
  }

  /**
   * Excellent: rich N (above 50), P and K (above 20) and a pH from 6.0 to
   * 7.5. Otherwise normal: N above 30 and P and K above 10. Otherwise the
   * soil needs improvement. Temperature takes no part.
   */
  function TierOf(n: Number, p: Number, k: Number, ph: Number): (t: Tier)
    ensures t == Excellent <==> Gt(n, 50.0) && Gt(p, 20.0) && Gt(k, 20.0) && Ge(ph, 6.0) && Le(ph, 7.5)
    ensures t == Normal <==> t != Excellent && Gt(n, 30.0) && Gt(p, 10.0) && Gt(k, 10.0)
    ensures t != NeedsImprovement ==> Gt(n, 30.0) && Gt(p, 10.0) && Gt(k, 10.0)
    ensures t == NeedsImprovement ==> !(Gt(n, 30.0) && Gt(p, 10.0) && Gt(k, 10.0))
  {
    if Gt(n, 50.0) && Gt(p, 20.0) && Gt(k, 20.0) && Ge(ph, 6.0) && Le(ph, 7.5) then Excellent
    else if Gt(n, 30.0) && Gt(p, 10.0) && Gt(k, 10.0) then Normal
    else NeedsImprovement
  }

  const ExcellentMessage := "Soil health is excellent!"
  const NormalMessage := "Soil health is normal. Some improvements may be needed."
  const ImprovementMessage := "Soil health requires improvement. Please consult an expert."

  function Message(t: Tier): string {
    match t
    case Excellent => ExcellentMessage
    case Normal => NormalMessage
    case NeedsImprovement => ImprovementMessage
  }

  /** The grading inside `handleDetect`, once all five fields are filled. */
  method Detect(n: Number, p: Number, k: Number, phValue: Number, temp: Number) returns (result: string)
    ensures result == Message(TierOf(n, p, k, phValue))
  {
    result := "";
    if Gt(n, 50.0) && Gt(p, 20.0) && Gt(k, 20.0) && Ge(phValue, 6.0) && Le(phValue, 7.5) {
      result := ExcellentMessage;
    } else if Gt(n, 30.0) && Gt(p, 10.0) && Gt(k, 10.0) {
      result := NormalMessage;
    } else {
      result := ImprovementMessage;
    }
  }

  /** The three messages tell the tiers apart. */
  lemma MessagesDistinct(s: Tier, t: Tier)
    ensures Message(s) == Message(t) <==> s == t
  {
  }

  /** Raising N, P or K never lowers the tier. */
  lemma {:induction false} MonotoneInNutrients(n: Number, p: Number, k: Number, n': Number, p': Number, k': Number, ph: Number)
    requires NoGreater(n, n') && NoGreater(p, p') && NoGreater(k, k')
    ensures Rank(TierOf(n, p, k, ph)) <= Rank(TierOf(n', p', k', ph))
  {
    NoGreaterKeepsLowerBounds(n, n', 50.0);
    NoGreaterKeepsLowerBounds(p, p', 20.0);
    NoGreaterKeepsLowerBounds(k, k', 20.0);
    NoGreaterKeepsLowerBounds(n, n', 30.0);
    NoGreaterKeepsLowerBounds(p, p', 10.0);
    NoGreaterKeepsLowerBounds(k, k', 10.0);
  }

  /** A nutrient reading that did not parse fails every test. */
  lemma NaNNutrientNeedsImprovement(n: Number, p: Number, k: Number, ph: Number)
    requires IsNaN(n) || IsNaN(p) || IsNaN(k)
    ensures TierOf(n, p, k, ph) == NeedsImprovement
  {
  }

  /** A pH that did not parse rules out the top tier but nothing else. */
  lemma NaNPhIsNeverExcellent(n: Number, p: Number, k: Number)
    ensures TierOf(n, p, k, NaN) != Excellent
    ensures TierOf(n, p, k, NaN) == Normal <==> Gt(n, 30.0) && Gt(p, 10.0) && Gt(k, 10.0)
  {
  }

  const MissingAlert := Alert("Error", "Please fill all parameters.")

  class SoilHealthScreen {
    var nitrogen: string
    var phosphorus: string
    var potassium: string
    var ph: string
    var temperature: string
    var soilHealthResult: Option<string>

    constructor ()
      ensures nitrogen == "" && phosphorus == "" && potassium == "" && ph == "" && temperature == ""
      ensures soilHealthResult.None?
    {
      nitrogen, phosphorus, potassium, ph, temperature := "", "", "", "", "";
      soilHealthResult := None;
    }

    method Enter(nitrogen': string, phosphorus': string, potassium': string, ph': string, temperature': string)
      modifies this`nitrogen, this`phosphorus, this`potassium, this`ph, this`temperature
      ensures nitrogen == nitrogen' && phosphorus == phosphorus' && potassium == potassium'
      ensures ph == ph' && temperature == temperature'
    {
      nitrogen, phosphorus, potassium, ph, temperature := nitrogen', phosphorus', potassium', ph', temperature';
    }

    /** `handleDetect`. `parse` is `parseFloat`, with `None` for NaN. */
    method HandleDetect(parse: string -> Number) returns (alert: Option<Alert>)
      modifies this`soilHealthResult
      ensures if nitrogen == "" || phosphorus == "" || potassium == "" || ph == "" || temperature == ""
        then alert == Some(MissingAlert) && soilHealthResult == old(soilHealthResult)
        else alert.None? && soilHealthResult == Some(Message(TierOf(parse(nitrogen), parse(phosphorus), parse(potassium), parse(ph))))
    {
      if nitrogen == "" || phosphorus == "" || potassium == "" || ph == "" || temperature == "" {
        return Some(MissingAlert);
      }
      var n, p, k := parse(nitrogen), parse(phosphorus), parse(potassium);
      var phValue, temp := parse(ph), parse(temperature);
      var result := Detect(n, p, k, phValue, temp);
      soilHealthResult := Some(result);
      alert := None;
    }
  }
}
