/**
 * The yield prediction screen: soil and weather readings and a crop variety
 * chosen from a fixed list, turned into a yield estimate in kg per hectare
 * after a delay.
 */
module YieldPrediction {
  import opened Wrappers
  import opened JsNumber
  import opened JsText
  import opened Ui

  const Varieties := ["Wheat - HD2967", "Paddy - Pusa 1121", "Maize - Hybrid Pioneer", "Mustard - Pusa Bold"]

  /** 3000, plus 500 for rich N and P, 300 for a mild climate, 700 for a hybrid. */
  function BaseYield(n: real, p: real, temp: real, variety: string): (base: int)
    ensures 3000 <= base <= 4500
    ensures base == 3000 <==> !(n > 50.0 && p > 30.0) && !(20.0 < temp < 35.0) && !Includes(variety, "Hybrid")
    ensures base == 4500 <==> n > 50.0 && p > 30.0 && 20.0 < temp < 35.0 && Includes(variety, "Hybrid")
  {
    3000
    + (if n > 50.0 && p > 30.0 then 500 else 0)
    + (if 20.0 < temp < 35.0 then 300 else 0)
    + (if Includes(variety, "Hybrid") then 700 else 0)
  }

  /** The base plus up to 200 of jitter, rounded; `random` is the value `Math.random` drew. */
  function FinalYield(base: int, random: real): (estimate: int)
    ensures base as real + random * 200.0 - 0.5 < estimate as real <= base as real + random * 200.0 + 0.5
  {
    Round(base as real + random * 200.0)
  }

  /** The delayed callback of `handlePredict`. K and rainfall are captured but never consulted. */
  method Predict(n: real, p: real, k: real, rain: real, temp: real, variety: string, random: real)
    returns (finalYield: int)
    ensures finalYield == FinalYield(BaseYield(n, p, temp, variety), random)
  {
    var mockYield := 3000;
    if n > 50.0 && p > 30.0 {
      mockYield := mockYield + 500;
    }
    if temp > 20.0 && temp < 35.0 {
      mockYield := mockYield + 300;
    }
    if Includes(variety, "Hybrid") {
      mockYield := mockYield + 700;
    }
    finalYield := Round(mockYield as real + random * 200.0);
  }

  /** However the jitter falls, the estimate lies within 200 above the base. */
  lemma JitterBounds(base: int, random: real)
    requires 0.0 <= random < 1.0
    ensures base <= FinalYield(base, random) <= base + 200
  {
    RoundShift(base, random * 200.0);
  }

  /** Every estimate lies between 3000 and 4700. */
  lemma YieldBounds(n: real, p: real, temp: real, variety: string, random: real)
    requires 0.0 <= random < 1.0
    ensures 3000 <= FinalYield(BaseYield(n, p, temp, variety), random) <= 4700
  {
    JitterBounds(BaseYield(n, p, temp, variety), random);
  }

  /** The estimate grows with N and P, all else equal. */
  lemma MonotoneInNutrients(n: real, p: real, n': real, p': real, temp: real, variety: string)
    requires n <= n' && p <= p'
    ensures BaseYield(n, p, temp, variety) <= BaseYield(n', p', temp, variety)
  {
  }

  /** Of the variety chips, only the maize hybrid earns the hybrid bonus. */
  lemma HybridChips()
    ensures Includes(Varieties[2], "Hybrid")
    ensures forall i :: 0 <= i < |Varieties| && i != 2 ==> !Includes(Varieties[i], "Hybrid")
  {
    assert OccursAt(Varieties[2], "Hybrid", 8);
    forall i | 0 <= i < |Varieties| && i != 2
      ensures !Includes(Varieties[i], "Hybrid")
    {
      MissingCharExcludes(Varieties[i], "Hybrid", 2);
    }
  }

  const MissingAlert := Alert("Error", "Please fill all soil, weather, and crop details.")
  const NaNAlert := Alert("Error", "Please enter valid numerical values.")

  /** What the delayed callback captured when it was scheduled. */
  datatype Run = Run(n: real, p: real, k: real, rain: real, temp: real, variety: string)

  class YieldScreen {
    var nitrogen: string
    var phosphorus: string
    var potassium: string
    var avgRainfall: string
    var avgTemperature: string
    var cropVariety: string
    var loading: bool
    var predictedYield: Option<int>
    var pending: Option<Run>

    predicate Valid()
      reads this
    {
      (loading <==> pending.Some?) && (loading ==> predictedYield.None?)
    }

    constructor ()
      ensures Valid()
      ensures nitrogen == "" && phosphorus == "" && potassium == "" && avgRainfall == "" && avgTemperature == ""
      ensures cropVariety == "" && !loading && predictedYield.None? && pending.None?
    {
      nitrogen, phosphorus, potassium, avgRainfall, avgTemperature := "", "", "", "", "";
      cropVariety, loading, predictedYield, pending := "", false, None, None;
    }

    /** Typing the readings, or tapping a variety chip. */
    method Enter(nitrogen': string, phosphorus': string, potassium': string, avgRainfall': string,
                 avgTemperature': string, cropVariety': string)
      modifies this`nitrogen, this`phosphorus, this`potassium, this`avgRainfall, this`avgTemperature, this`cropVariety
      ensures nitrogen == nitrogen' && phosphorus == phosphorus' && potassium == potassium'
      ensures avgRainfall == avgRainfall' && avgTemperature == avgTemperature' && cropVariety == cropVariety'
    {
      nitrogen, phosphorus, potassium := nitrogen', phosphorus', potassium';
      avgRainfall, avgTemperature, cropVariety := avgRainfall', avgTemperature', cropVariety';
    }

    /** `handlePredict`; the button is disabled while loading. */
    method HandlePredict(parse: string -> Number) returns (alert: Option<Alert>)
      requires Valid()
      modifies this`loading, this`predictedYield, this`pending
      ensures Valid()
      ensures var empty := nitrogen == "" || phosphorus == "" || potassium == "" || avgRainfall == ""
                           || avgTemperature == "" || cropVariety == "";
        var nan := parse(nitrogen).None? || parse(phosphorus).None? || parse(potassium).None?
                   || parse(avgRainfall).None? || parse(avgTemperature).None?;
        if old(loading) then
          alert.None? && loading == old(loading) && predictedYield == old(predictedYield) && pending == old(pending)
        else if empty || nan then
          alert == Some(if empty then MissingAlert else NaNAlert)
          && !loading && predictedYield == old(predictedYield) && pending.None?
        else
          alert.None? && loading && predictedYield.None?
          && pending == Some(Run(parse(nitrogen).value, parse(phosphorus).value, parse(potassium).value,
                                 parse(avgRainfall).value, parse(avgTemperature).value, cropVariety))
    {
      alert := None;
      if loading {
        return;
      }
      if nitrogen == "" || phosphorus == "" || potassium == "" || avgRainfall == "" || avgTemperature == "" || cropVariety == "" {
        alert := Some(MissingAlert);
        return;
      }
      var n, p, k := parse(nitrogen), parse(phosphorus), parse(potassium);
      var rain, temp := parse(avgRainfall), parse(avgTemperature);
      if n.None? || p.None? || k.None? || rain.None? || temp.None? {
        alert := Some(NaNAlert);
        return;
      }
      loading, predictedYield := true, None;
      pending := Some(Run(n.value, p.value, k.value, rain.value, temp.value, cropVariety));
    }

    /** The delayed callback; `random` is the value `Math.random` drew, in [0, 1). */
    method TimerFires(random: real)
      requires Valid() && pending.Some?
      requires 0.0 <= random < 1.0
      modifies this`loading, this`predictedYield, this`pending
      ensures Valid()
      ensures var run := old(pending).value;
        predictedYield == Some(FinalYield(BaseYield(run.n, run.p, run.temp, run.variety), random))
      ensures !loading && pending.None?
    {
      var run := pending.value;
      var finalYield := Predict(run.n, run.p, run.k, run.rain, run.temp, run.variety, random);
      predictedYield := Some(finalYield);
      loading, pending := false, None;
    }
  }
}
