/**
 * The seed variety screen: soil readings, pH, average temperature and a
 * region chosen from a fixed list, turned into one variety after a delay.
 */
module SeedVariety {
  import opened Wrappers
  import opened JsNumber
  import opened JsText
  import opened Ui

  const Regions := ["North India (Plains)", "South India (Coastal)", "Central India (Plateau)",
                    "Western India (Arid)", "Himalayan Region"]

  const WheatHybrid := "Wheat - High-Yield Hybrid (Suitable for Plains)"
  const PaddyCold := "Paddy - Cold Resistant Variety (e.g., Katrain Basmati)"
  const MilletDrought := "Millet - Drought Tolerant Variety (e.g., Bajra)"
  const RiceAcidic := "Rice - Acidic Soil Tolerant Variety"
  const MaizeHeat := "Maize - Heat Stress Tolerant Variety"

  /**
   * The first rule that applies, in order of precedence: a Himalayan region,
   * an arid region, acidic soil (pH below 5.5), heat (above 35 degrees), and
   * otherwise the wheat hybrid.
   */
  function VarietyFor(region: string, ph: real, temp: real): (v: string)
    ensures Includes(region, "Himalayan") ==> v == PaddyCold
    ensures !Includes(region, "Himalayan") && Includes(region, "Arid") ==> v == MilletDrought
  {
    if Includes(region, "Himalayan") then PaddyCold
    else if Includes(region, "Arid") then MilletDrought
    else if ph < 5.5 then RiceAcidic
    else if temp > 35.0 then MaizeHeat
    else WheatHybrid
  }

  /** The delayed callback of `handleRecommend`. N, P and K are captured but never consulted. */
  method ChooseVariety(region: string, n: real, p: real, k: real, ph: real, temp: real) returns (variety: string)
    ensures variety == VarietyFor(region, ph, temp)
  {
    variety := WheatHybrid;
    if Includes(region, "Himalayan") {
      variety := PaddyCold;
    } else if Includes(region, "Arid") {
      variety := MilletDrought;
    } else if ph < 5.5 {
      variety := RiceAcidic;
    } else if temp > 35.0 {
      variety := MaizeHeat;
    }
  }

  /** The region rules decide alone: pH and temperature matter only where neither applies. */
  lemma RegionOverridesReadings(region: string, ph: real, temp: real, ph': real, temp': real)
    requires Includes(region, "Himalayan") || Includes(region, "Arid")
    ensures VarietyFor(region, ph, temp) == VarietyFor(region, ph', temp')
  {
  }

  /** Where no region rule applies, acidity is checked before heat. */
  lemma AcidityBeforeHeat(region: string, ph: real, temp: real)
    requires !Includes(region, "Himalayan") && !Includes(region, "Arid")
    ensures ph < 5.5 ==> VarietyFor(region, ph, temp) == RiceAcidic
    ensures ph >= 5.5 && temp > 35.0 ==> VarietyFor(region, ph, temp) == MaizeHeat
    ensures ph >= 5.5 && temp <= 35.0 ==> VarietyFor(region, ph, temp) == WheatHybrid
  {
  }

  /** A region without the letters that start "Himalayan" and "Arid" falls through to the readings. */
  lemma NoRegionRule(region: string, ph: real, temp: real)
    requires 'H' !in region && 'A' !in region
    ensures VarietyFor(region, ph, temp) == VarietyFor("", ph, temp)
  {
    MissingCharExcludes(region, "Himalayan", 0);
    MissingCharExcludes(region, "Arid", 0);
    MissingCharExcludes("", "Himalayan", 0);
    MissingCharExcludes("", "Arid", 0);
  }

  /** The Himalayan chip always leads to the cold resistant paddy. */
  lemma HimalayanChip(ph: real, temp: real)
    ensures VarietyFor(Regions[4], ph, temp) == PaddyCold
  {
    assert OccursAt(Regions[4], "Himalayan", 0);
  }

  /** The arid chip always leads to the drought tolerant millet. */
  lemma AridChip(ph: real, temp: real)
    ensures VarietyFor(Regions[3], ph, temp) == MilletDrought
  {
    assert OccursAt(Regions[3], "Arid", 15);
    MissingCharExcludes(Regions[3], "Himalayan", 0);
  }

  /** The other three chips are decided by pH and temperature alone, as if no region were chosen. */
  lemma OtherChips(ph: real, temp: real)
    ensures VarietyFor(Regions[0], ph, temp) == VarietyFor("", ph, temp)
    ensures VarietyFor(Regions[1], ph, temp) == VarietyFor("", ph, temp)
    ensures VarietyFor(Regions[2], ph, temp) == VarietyFor("", ph, temp)
  {
    NoRegionRule(Regions[0], ph, temp);
    NoRegionRule(Regions[1], ph, temp);
    NoRegionRule(Regions[2], ph, temp);
  }

  const MissingAlert := Alert("Error", "Please fill all soil, weather, and region details.")
  const NaNAlert := Alert("Error", "Please enter valid numerical values.")

  /** What the delayed callback captured when it was scheduled. */
  datatype Run = Run(region: string, n: real, p: real, k: real, ph: real, temp: real)

  class SeedVarietyScreen {
    var nitrogen: string
    var phosphorus: string
    var potassium: string
    var ph: string
    var avgTemperature: string
    var selectedRegion: string
    var loading: bool
    var recommendedVariety: Option<string>
    var pending: Option<Run>

    predicate Valid()
      reads this
    {
      (loading <==> pending.Some?) && (loading ==> recommendedVariety.None?)
    }

    constructor ()
      ensures Valid()
      ensures nitrogen == "" && phosphorus == "" && potassium == "" && ph == "" && avgTemperature == ""
      ensures selectedRegion == "" && !loading && recommendedVariety.None? && pending.None?
    {
      nitrogen, phosphorus, potassium, ph, avgTemperature := "", "", "", "", "";
      selectedRegion, loading, recommendedVariety, pending := "", false, None, None;
    }

    /** Typing the readings, or tapping a region chip. */
    method Enter(nitrogen': string, phosphorus': string, potassium': string, ph': string,
                 avgTemperature': string, selectedRegion': string)
      modifies this`nitrogen, this`phosphorus, this`potassium, this`ph, this`avgTemperature, this`selectedRegion
      ensures nitrogen == nitrogen' && phosphorus == phosphorus' && potassium == potassium'
      ensures ph == ph' && avgTemperature == avgTemperature' && selectedRegion == selectedRegion'
    {
      nitrogen, phosphorus, potassium := nitrogen', phosphorus', potassium';
      ph, avgTemperature, selectedRegion := ph', avgTemperature', selectedRegion';
    }

    /** `handleRecommend`; the button is disabled while loading. */
    method HandleRecommend(parse: string -> Number) returns (alert: Option<Alert>)
      requires Valid()
      modifies this`loading, this`recommendedVariety, this`pending
      ensures Valid()
      ensures var empty := nitrogen == "" || phosphorus == "" || potassium == "" || ph == ""
                           || avgTemperature == "" || selectedRegion == "";
        var nan := parse(nitrogen).None? || parse(phosphorus).None? || parse(potassium).None?
                   || parse(ph).None? || parse(avgTemperature).None?;
        if old(loading) then
          alert.None? && loading == old(loading) && recommendedVariety == old(recommendedVariety) && pending == old(pending)
        else if empty || nan then
          alert == Some(if empty then MissingAlert else NaNAlert)
          && !loading && recommendedVariety == old(recommendedVariety) && pending.None?
        else
          alert.None? && loading && recommendedVariety.None?
          && pending == Some(Run(selectedRegion, parse(nitrogen).value, parse(phosphorus).value,
                                 parse(potassium).value, parse(ph).value, parse(avgTemperature).value))
    {
      alert := None;
      if loading {
        return;
      }
      if nitrogen == "" || phosphorus == "" || potassium == "" || ph == "" || avgTemperature == "" || selectedRegion == "" {
        alert := Some(MissingAlert);
        return;
      }
      var n, p, k := parse(nitrogen), parse(phosphorus), parse(potassium);
      var phValue, temp := parse(ph), parse(avgTemperature);
      if n.None? || p.None? || k.None? || phValue.None? || temp.None? {
        alert := Some(NaNAlert);
        return;
      }
      loading, recommendedVariety := true, None;
      pending := Some(Run(selectedRegion, n.value, p.value, k.value, phValue.value, temp.value));
    }

    method TimerFires()
      requires Valid() && pending.Some?
      modifies this`loading, this`recommendedVariety, this`pending
      ensures Valid()
      ensures var run := old(pending).value;
        recommendedVariety == Some(VarietyFor(run.region, run.ph, run.temp))
      ensures !loading && pending.None?
    {
      var run := pending.value;
      var variety := ChooseVariety(run.region, run.n, run.p, run.k, run.ph, run.temp);
      recommendedVariety := Some(variety);
      loading, pending := false, None;
    }
  }
}
