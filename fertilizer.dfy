/**
 * The fertilizer recommendation screen: three nutrient readings and a crop
 * chosen from a fixed list, turned into one fertilizer name after a delay.
 */
module Fertilizer {
  import opened Wrappers
  import opened JsNumber
  import opened JsText
  import opened Ui

  const CropTypes := ["Paddy", "Maize", "Chickpea", "KidneyBeans", "MothBeans", "MungBean",
                      "Blackgram", "Lentil", "PigeonPeas", "Cotton", "Jute", "Coffee", "Tea"]

  const General := "General NPK Fertilizer (10:26:26)"
  const Urea := "Urea (High Nitrogen)"
  const Dap := "DAP (Diammonium Phosphate)"
  const PotashUrea := "Potash + Urea Blend"
  const Mop := "MOP (Muriate of Potash)"
  const ComplexNpk := "Complex NPK (12:32:16)"

  const Fertilizers := [General, Urea, Dap, PotashUrea, Mop, ComplexNpk]

  /** The crops the rule tells apart, after lower-casing the name. */
  datatype CropClass = PaddyCrop | MaizeCrop | OtherCrop

  function ClassOf(cropType: string): CropClass {
    if Lower(cropType) == "paddy" then PaddyCrop
    else if Lower(cropType) == "maize" then MaizeCrop
    else OtherCrop
  }

  /**
   * The rule: paddy is judged by its first deficient nutrient in the order
   * N (below 40), P (below 20), and otherwise gets the blend; maize only by
   * K (below 15); every other crop gets the general mix.
   */
  function FertilizerFor(cropType: string, n: real, p: real, k: real): (fertilizer: string)
    ensures fertilizer == General <==> ClassOf(cropType) == OtherCrop
  {
    match ClassOf(cropType)
    case PaddyCrop => if n < 40.0 then Urea else if p < 20.0 then Dap else PotashUrea
    case MaizeCrop => if k < 15.0 then Mop else ComplexNpk
    case OtherCrop => General
  }

  /** The decision inside the delayed callback of `handleRecommend`. */
  method Recommend(cropType: string, n: real, p: real, k: real) returns (result: string)
    ensures result == FertilizerFor(cropType, n, p, k)
  {
    result := General;
    if Lower(cropType) == "paddy" {
      if n < 40.0 {
        result := Urea;
      } else if p < 20.0 {
        result := Dap;
      } else {
        result := PotashUrea;
      }
    } else if Lower(cropType) == "maize" {
      if k < 15.0 {
        result := Mop;
      } else {
        result := ComplexNpk;
      }
    }
  }

  lemma AlwaysOneOfSix(cropType: string, n: real, p: real, k: real)
    ensures FertilizerFor(cropType, n, p, k) in Fertilizers
  {
  }

  /** The crop name is matched without regard to case. */
  lemma CaseDoesNotMatter(a: string, b: string, n: real, p: real, k: real)
    requires Lower(a) == Lower(b)
    ensures FertilizerFor(a, n, p, k) == FertilizerFor(b, n, p, k)
  {
  }

  /** Only paddy and maize look at the readings at all. */
  lemma OtherCropsIgnoreReadings(cropType: string, n: real, p: real, k: real, n': real, p': real, k': real)
    requires ClassOf(cropType) == OtherCrop
    ensures FertilizerFor(cropType, n, p, k) == FertilizerFor(cropType, n', p', k') == General
  {
  }

  /** Maize never depends on N or P, and paddy never on K. */
  lemma IrrelevantReadings(cropType: string, n: real, p: real, k: real, n': real, p': real, k': real)
    ensures ClassOf(cropType) == MaizeCrop ==> FertilizerFor(cropType, n, p, k) == FertilizerFor(cropType, n', p', k)
    ensures ClassOf(cropType) == PaddyCrop ==> FertilizerFor(cropType, n, p, k) == FertilizerFor(cropType, n, p, k')
  {
  }

  /** Of the chips on screen, only the first two reach a specific rule. */
  lemma ChipClasses()
    ensures ClassOf(CropTypes[0]) == PaddyCrop && ClassOf(CropTypes[1]) == MaizeCrop
    ensures forall i :: 2 <= i < |CropTypes| ==> ClassOf(CropTypes[i]) == OtherCrop
  {
    assert Lower("Paddy") == "paddy";
    assert Lower("Maize") == "maize";
    forall i | 2 <= i < |CropTypes|
      ensures ClassOf(CropTypes[i]) == OtherCrop
    {
      assert |Lower(CropTypes[i])| == |CropTypes[i]| != 5;
    }
  }

  const MissingAlert := Alert("Error", "Please fill all soil nutrients and select a crop type.")
  const NaNAlert := Alert("Error", "Please enter valid numerical values for NPK.")

  /** What the delayed callback captured when it was scheduled. */
  datatype Run = Run(cropType: string, n: real, p: real, k: real)

  class FertilizerScreen {
    var nitrogen: string
    var phosphorus: string
    var potassium: string
    var cropType: string
    var loading: bool
    var recommendedFertilizer: Option<string>
    var pending: Option<Run>

    /** A callback is scheduled exactly while loading, and no result is shown then. */
    predicate Valid()
      reads this
    {
      (loading <==> pending.Some?) && (loading ==> recommendedFertilizer.None?)
    }

    constructor ()
      ensures Valid()
      ensures nitrogen == "" && phosphorus == "" && potassium == "" && cropType == ""
      ensures !loading && recommendedFertilizer.None? && pending.None?
    {
      nitrogen, phosphorus, potassium, cropType := "", "", "", "";
      loading, recommendedFertilizer, pending := false, None, None;
    }

    /** Typing a reading, or tapping a crop chip. */
    method Enter(nitrogen': string, phosphorus': string, potassium': string, cropType': string)
      modifies this`nitrogen, this`phosphorus, this`potassium, this`cropType
      ensures nitrogen == nitrogen' && phosphorus == phosphorus' && potassium == potassium' && cropType == cropType'
    {
      nitrogen, phosphorus, potassium, cropType := nitrogen', phosphorus', potassium', cropType';
    }

    /**
     * `handleRecommend`; the button is disabled while loading. `parse` is
     * `parseFloat`, with `None` for NaN.
     */
    method HandleRecommend(parse: string -> Number) returns (alert: Option<Alert>)
      requires Valid()
      modifies this`loading, this`recommendedFertilizer, this`pending
      ensures Valid()
      ensures var empty := nitrogen == "" || phosphorus == "" || potassium == "" || cropType == "";
        var nan := parse(nitrogen).None? || parse(phosphorus).None? || parse(potassium).None?;
        if old(loading) then
          alert.None? && loading == old(loading) && recommendedFertilizer == old(recommendedFertilizer) && pending == old(pending)
        else if empty || nan then
          alert == Some(if empty then MissingAlert else NaNAlert)
          && !loading && recommendedFertilizer == old(recommendedFertilizer) && pending.None?
        else
          alert.None? && loading && recommendedFertilizer.None?
          && pending == Some(Run(cropType, parse(nitrogen).value, parse(phosphorus).value, parse(potassium).value))
    {
      alert := None;
      if loading {
        return;
      }
      if nitrogen == "" || phosphorus == "" || potassium == "" || cropType == "" {
        alert := Some(MissingAlert);
        return;
      }
      var n, p, k := parse(nitrogen), parse(phosphorus), parse(potassium);
      if n.None? || p.None? || k.None? {
        alert := Some(NaNAlert);
        return;
      }
      loading, recommendedFertilizer := true, None;
      pending := Some(Run(cropType, n.value, p.value, k.value));
    }

    /** The delayed callback, run on the inputs it captured when it was scheduled. */
    method TimerFires()
      requires Valid() && pending.Some?
      modifies this`loading, this`recommendedFertilizer, this`pending
      ensures Valid()
      ensures var run := old(pending).value;
        recommendedFertilizer == Some(FertilizerFor(run.cropType, run.n, run.p, run.k))
      ensures !loading && pending.None?
    {
      var run := pending.value;
      var result := Recommend(run.cropType, run.n, run.p, run.k);
      recommendedFertilizer := Some(result);
      loading, pending := false, None;
    }
  }
}
