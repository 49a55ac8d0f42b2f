/**
 * The link between the two soil screens: what the input screen sends is
 * what the results screen accepts.
 */
module SoilHandOff {
  import opened Wrappers
  import opened JsNumber
  import opened SoilForm
  import SoilInput
  import SoilResults

  /**
   * The params built from a form pass the results screen's check exactly
   * when the form passes the input screen's, and they parse to the form's
   * own six readings.
   */
  lemma ParamsValidateIffComplete(f: Form, parse: string -> Number)
    ensures SoilResults.ValidatedParams(SoilInput.ParamsOf(f), parse).Some? <==> IsComplete(f)
    ensures IsComplete(f) ==>
      SoilResults.ValidatedParams(SoilInput.ParamsOf(f), parse)
        == Some(SoilResults.Readings(parse(f.nitrogen), parse(f.phosphorus), parse(f.potassium),
                                     parse(f.ph), parse(f.temperature), parse(f.rainfall)))
  {
  }

  /** Readings loaded from the device always reach the results screen. */
  lemma IotReadingsReachResults(parse: string -> Number)
    ensures SoilResults.ValidatedParams(SoilInput.ParamsOf(MockIot), parse).Some?
  {
    ParamsValidateIffComplete(MockIot, parse);
  }
}
