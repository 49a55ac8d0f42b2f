/**
 * The six text inputs shared by the soil screens, the values the simulated
 * IoT device fills them with, and the fixed list of crop recommendations.
 */
module SoilForm {
  datatype Form = Form(nitrogen: string, phosphorus: string, potassium: string,
                       ph: string, temperature: string, rainfall: string)

  datatype Field = Nitrogen | Phosphorus | Potassium | Ph | Temperature | Rainfall

  const Blank := Form("", "", "", "", "", "")

  /** The device reading 85, 42, 35, 6.2, 28.5, 1100, each turned into text with `String`. */
  const MockIot := Form("85", "42", "35", "6.2", "28.5", "1100")

  function Get(f: Form, field: Field): string {
    match field
    case Nitrogen => f.nitrogen
    case Phosphorus => f.phosphorus
    case Potassium => f.potassium
    case Ph => f.ph
    case Temperature => f.temperature
    case Rainfall => f.rainfall
  }

  /** The setter of one input, as `onChangeText` calls it. */
  function Set(f: Form, field: Field, text: string): (g: Form)
    ensures Get(g, field) == text
    ensures forall other :: other != field ==> Get(g, other) == Get(f, other)
  {
    match field
    case Nitrogen => f.(nitrogen := text)
    case Phosphorus => f.(phosphorus := text)
    case Potassium => f.(potassium := text)
    case Ph => f.(ph := text)
    case Temperature => f.(temperature := text)
    case Rainfall => f.(rainfall := text)
  }

  /** No input is the empty string, the only falsy string. */
  predicate IsComplete(f: Form) {
    f.nitrogen != "" && f.phosphorus != "" && f.potassium != ""
    && f.ph != "" && f.temperature != "" && f.rainfall != ""
  }

  lemma CompleteMeansEveryField(f: Form)
    ensures IsComplete(f) <==> forall field :: Get(f, field) != ""
  {
    if forall field :: Get(f, field) != "" {
      assert Get(f, Nitrogen) != "" && Get(f, Phosphorus) != "" && Get(f, Potassium) != "";
      assert Get(f, Ph) != "" && Get(f, Temperature) != "" && Get(f, Rainfall) != "";
    }
  }

  /** Filling the form from the device always passes the emptiness check. */
  lemma MockIotIsComplete()
    ensures IsComplete(MockIot) && !IsComplete(Blank)
  {
  }

  datatype Recommendation = Recommendation(id: int, name: string, matchScore: int, imagePlaceholder: string)

  const MockRecommendations := [
    Recommendation(1, "Wheat (Rabi)", 92, "wheat"),
    Recommendation(2, "Maize (Kharif)", 78, "maize"),
    Recommendation(3, "Mustard (Rabi)", 65, "mustard")
  ]
}
