/**
 * The crop rotation planner: the crop grown last and three nutrient readings,
 * turned into a suggestion for the next crop after a delay.
 */
module CropRotation {
  import opened Wrappers
  import opened JsNumber
  import opened Ui

  const PastCrops := ["Paddy", "Wheat", "Sugarcane", "Cotton", "Maize", "Lentil"]

  const MaizeBase := "Maize (High Yielding)"
  const LentilBase := "Lentil (Nitrogen Fixer)"
  const SugarcaneBase := "Sugarcane"
  const PotashSuffix := " + (Needs Potash Supplement)"

  /** After a cereal a legume, after the legume a demanding crop, otherwise maize; names match exactly. */
  function BaseFor(pastCrop: string): string {
    if pastCrop in {"Paddy", "Wheat"} then LentilBase
    else if pastCrop == "Lentil" then SugarcaneBase
    else MaizeBase
  }

  /** The suggestion: the base crop, flagged when potassium is below 15; it is the bare base exactly when K is at least 15. */
  function RotationFor(pastCrop: string, k: real): (r: string)
    ensures r == BaseFor(pastCrop) <==> !(k < 15.0)
  {
    BaseFor(pastCrop) + (if k < 15.0 then PotashSuffix else "")
  }

  /** The delayed callback of `handlePlanRotation`. N and P are captured but never consulted. */
  method PlanRotation(pastCrop: string, n: real, p: real, k: real) returns (recommendedCrop: string)
    ensures recommendedCrop == RotationFor(pastCrop, k)
  {
    recommendedCrop := MaizeBase;
    if pastCrop == "Paddy" || pastCrop == "Wheat" {
      recommendedCrop := LentilBase;
    } else if pastCrop == "Lentil" {
      recommendedCrop := SugarcaneBase;
    }
    if k < 15.0 {
      recommendedCrop := recommendedCrop + PotashSuffix;
    }
  }

  predicate EndsWith(s: string, suffix: string) {
    |suffix| <= |s| && s[|s| - |suffix|..] == suffix
  }

  /** The potash flag appears exactly when K is below 15. */
  lemma FlaggedIffLowPotash(pastCrop: string, k: real)
    ensures EndsWith(RotationFor(pastCrop, k), PotashSuffix) <==> k < 15.0
  {
    var r := RotationFor(pastCrop, k);
    if k < 15.0 {
      assert r[|r| - |PotashSuffix|..] == PotashSuffix;
    } else {
      assert |r| < |PotashSuffix|;
    }
  }

  /** The suggestion always starts with one of the three base crops. */
  lemma StartsWithBase(pastCrop: string, k: real)
    ensures var r := RotationFor(pastCrop, k);
      exists base :: base in {MaizeBase, LentilBase, SugarcaneBase} && |base| <= |r| && r[..|base|] == base
  {
    var base := BaseFor(pastCrop);
    assert RotationFor(pastCrop, k)[..|base|] == base;
  }

  /** The crop a suggestion names: its text up to the first space. */
  function CropNamed(suggestion: string): string {
    if suggestion == "" || suggestion[0] == ' ' then "" else [suggestion[0]] + CropNamed(suggestion[1..])
  }

  /** A text without spaces names itself, and so does that text followed by a space and anything. */
  lemma {:induction false} CropNamedWord(word: string, rest: string)
    requires ' ' !in word
    ensures CropNamed(word) == word
    ensures |rest| > 0 && rest[0] == ' ' ==> CropNamed(word + rest) == word
  {
    if word != "" {
      assert (word + rest)[1..] == word[1..] + rest;
      CropNamedWord(word[1..], rest);
    } else {
      assert word + rest == rest;
    }
  }

  /** A space-free word, then a note and a flag that each start with a space or are empty, names the word. */
  lemma {:induction false} NamedBase(word: string, note: string, flag: string)
    requires ' ' !in word
    requires note == "" || note[0] == ' '
    requires flag == "" || flag[0] == ' '
    ensures CropNamed(word + note + flag) == word
  {
    var tail := note + flag;
    assert word + note + flag == word + tail;
    CropNamedWord(word, tail);
    if tail == "" {
      assert word + tail == word;
    } else if note == "" {
      assert tail == flag;
    } else {
      assert tail[0] == note[0];
    }
  }

  /** The crop each suggestion names: lentil after paddy or wheat, sugarcane after lentil, maize after anything else. */
  lemma SuggestedCrop(pastCrop: string, k: real)
    ensures CropNamed(RotationFor(pastCrop, k))
         == if pastCrop in {"Paddy", "Wheat"} then "Lentil" else if pastCrop == "Lentil" then "Sugarcane" else "Maize"
  {
    var flag := if k < 15.0 then PotashSuffix else "";
    assert PotashSuffix[0] == ' ';
    if pastCrop in {"Paddy", "Wheat"} {
      assert LentilBase == "Lentil" + " (Nitrogen Fixer)";
      NamedBase("Lentil", " (Nitrogen Fixer)", flag);
    } else if pastCrop == "Lentil" {
      assert SugarcaneBase == "Sugarcane" + "";
      NamedBase("Sugarcane", "", flag);
    } else {
      assert MaizeBase == "Maize" + " (High Yielding)";
      NamedBase("Maize", " (High Yielding)", flag);
    }
  }

  /**
   * Of the listed past crops, every one but maize is followed by a different
   * crop; maize falls to the default and is followed by maize.
   */
  lemma RepeatsOnlyMaize(k: real)
    ensures forall i :: 0 <= i < |PastCrops| ==>
      (CropNamed(RotationFor(PastCrops[i], k)) == PastCrops[i] <==> PastCrops[i] == "Maize")
  {
    forall i | 0 <= i < |PastCrops|
      ensures CropNamed(RotationFor(PastCrops[i], k)) == PastCrops[i] <==> PastCrops[i] == "Maize"
    {
      SuggestedCrop(PastCrops[i], k);
    }
  }

  const MissingAlert := Alert("Error", "Please select the past crop and fill all soil nutrient details.")
  const NaNAlert := Alert("Error", "Please enter valid numerical values for NPK.")

  /** What the delayed callback captured when it was scheduled. */
  datatype Run = Run(pastCrop: string, n: real, p: real, k: real)

  class RotationPlanner {
    var pastCrop: string
    var nitrogen: string
    var phosphorus: string
    var potassium: string
    var loading: bool
    var nextCropRecommendation: Option<string>
    var pending: Option<Run>

    predicate Valid()
      reads this
    {
      (loading <==> pending.Some?) && (loading ==> nextCropRecommendation.None?)
    }

    constructor ()
      ensures Valid()
      ensures pastCrop == "" && nitrogen == "" && phosphorus == "" && potassium == ""
      ensures !loading && nextCropRecommendation.None? && pending.None?
    {
      pastCrop, nitrogen, phosphorus, potassium := "", "", "", "";
      loading, nextCropRecommendation, pending := false, None, None;
    }

    /** Tapping a past-crop chip, or typing a reading. */
    method Enter(pastCrop': string, nitrogen': string, phosphorus': string, potassium': string)
      modifies this`pastCrop, this`nitrogen, this`phosphorus, this`potassium
      ensures pastCrop == pastCrop' && nitrogen == nitrogen' && phosphorus == phosphorus' && potassium == potassium'
    {
      pastCrop, nitrogen, phosphorus, potassium := pastCrop', nitrogen', phosphorus', potassium';
    }

    /** `handlePlanRotation`; the button is disabled while loading. */
    method HandlePlanRotation(parse: string -> Number) returns (alert: Option<Alert>)
      requires Valid()
      modifies this`loading, this`nextCropRecommendation, this`pending
      ensures Valid()
      ensures var empty := pastCrop == "" || nitrogen == "" || phosphorus == "" || potassium == "";
        var nan := parse(nitrogen).None? || parse(phosphorus).None? || parse(potassium).None?;
        if old(loading) then
          alert.None? && loading == old(loading) && nextCropRecommendation == old(nextCropRecommendation) && pending == old(pending)
        else if empty || nan then
          alert == Some(if empty then MissingAlert else NaNAlert)
          && !loading && nextCropRecommendation == old(nextCropRecommendation) && pending.None?
        else
          alert.None? && loading && nextCropRecommendation.None?
          && pending == Some(Run(pastCrop, parse(nitrogen).value, parse(phosphorus).value, parse(potassium).value))
    {
      alert := None;
      if loading {
        return;
      }
      if pastCrop == "" || nitrogen == "" || phosphorus == "" || potassium == "" {
        alert := Some(MissingAlert);
        return;
      }
      var n, p, k := parse(nitrogen), parse(phosphorus), parse(potassium);
      if n.None? || p.None? || k.None? {
        alert := Some(NaNAlert);
        return;
      }
      loading, nextCropRecommendation := true, None;
      pending := Some(Run(pastCrop, n.value, p.value, k.value));
    }

    method TimerFires()
      requires Valid() && pending.Some?
      modifies this`loading, this`nextCropRecommendation, this`pending
      ensures Valid()
      ensures nextCropRecommendation == Some(RotationFor(old(pending).value.pastCrop, old(pending).value.k))
      ensures !loading && pending.None?
    {
      var run := pending.value;
      var result := PlanRotation(run.pastCrop, run.n, run.p, run.k);
      nextCropRecommendation := Some(result);
      loading, pending := false, None;
    }
  }
}
