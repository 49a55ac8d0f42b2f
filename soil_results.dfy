/**
 * The soil results screen: it reads the six readings from its navigation
 * params and, after a delay, shows the fixed crop list with fresh random
 * match scores.
 */
module SoilResults {
  import opened Wrappers
  import opened JsNumber
  import opened Ui
  import opened SoilForm

  /** The six readings, parsed. */
  datatype Readings = Readings(n: Number, p: Number, k: Number, ph: Number, temp: Number, rain: Number)

  /** A param is missing when it is absent or the empty string. */
  predicate Present(params: map<string, string>, key: string) {
    key in params && params[key] != ""
  }

  /** The value under `key`, with an absent key read as the empty string. */
  function Param(params: map<string, string>, key: string): string {
    if key in params then params[key] else ""
  }

  /** `getValidatedParams` */
  function ValidatedParams(params: map<string, string>, parse: string -> Number): (r: Option<Readings>)
    ensures r.None? <==> exists key :: key in ["nitrogen", "phosphorus", "potassium", "ph", "temperature", "rainfall"]
                                      && !Present(params, key)
    ensures r.Some? ==> r.value == Readings(parse(Param(params, "nitrogen")), parse(Param(params, "phosphorus")),
                                            parse(Param(params, "potassium")), parse(Param(params, "ph")),
                                            parse(Param(params, "temperature")), parse(Param(params, "rainfall")))
  {
    if !Present(params, "nitrogen") || !Present(params, "phosphorus") || !Present(params, "potassium")
       || !Present(params, "ph") || !Present(params, "temperature") || !Present(params, "rainfall")
    then None
    else Some(Readings(parse(params["nitrogen"]), parse(params["phosphorus"]), parse(params["potassium"]),
                       parse(params["ph"]), parse(params["temperature"]), parse(params["rainfall"])))
  }

  /** A score drawn from `random` in [0, 1): a whole number from 65 to 95, all equally likely. */
  /** The score lies `random * 31` buckets above 65, rounded down. */
  function Score(random: real): (score: int)
    ensures (score - 65) as real <= random * 31.0 < (score - 65 + 1) as real
  {
    Floor(random * (95 - 65 + 1) as real) + 65
  }

  lemma ScoreBounds(random: real)
    requires 0.0 <= random < 1.0
    ensures 65 <= Score(random) <= 95
  {
  }

  /** The list shown: the fixed crops, each with its own draw of `Math.random`. */
  function ComputeResults(randoms: seq<real>): (results: seq<Recommendation>)
    requires |randoms| == |MockRecommendations|
    ensures |results| == |MockRecommendations|
    ensures forall i :: 0 <= i < |results| ==>
      results[i] == MockRecommendations[i].(matchScore := Score(randoms[i]))
  {
    seq(|MockRecommendations|, i requires 0 <= i < |MockRecommendations| =>
      MockRecommendations[i].(matchScore := Score(randoms[i])))
  }

  /** Only the scores change, and each lands in [65, 95]. */
  lemma ResultsKeepCrops(randoms: seq<real>)
    requires |randoms| == |MockRecommendations|
    requires forall i :: 0 <= i < |randoms| ==> 0.0 <= randoms[i] < 1.0
    ensures var results := ComputeResults(randoms);
      forall i :: 0 <= i < |results| ==>
        results[i].id == MockRecommendations[i].id && results[i].name == MockRecommendations[i].name
        && results[i].imagePlaceholder == MockRecommendations[i].imagePlaceholder
        && 65 <= results[i].matchScore <= 95
  {
    forall i | 0 <= i < |randoms| {
      ScoreBounds(randoms[i]);
    }
  }

  const MissingAlert := Alert("Error", "Missing soil parameters!")

  class SoilResultsScreen {
    const params: map<string, string>
    var results: Option<seq<Recommendation>>
    var loading: bool
    var mounted: bool
    /** The delay before the results is running. */
    var pending: bool

    /** Results appear exactly when loading ends, which is never before the mount effect. */
    predicate Valid()
      reads this
    {
      (results.Some? <==> !loading) && (pending ==> mounted && loading) && (!mounted ==> loading)
    }

    constructor (params: map<string, string>)
      ensures Valid()
      ensures this.params == params && results.None? && loading && !mounted && !pending
    {
      this.params := params;
      results, loading, mounted, pending := None, true, false, false;
    }

    /** The effect that runs once on mount. */
    method Mount(parse: string -> Number) returns (alert: Option<Alert>, nav: Option<Navigation>)
      requires Valid() && !mounted
      modifies this`mounted, this`pending
      ensures Valid() && mounted
      ensures if ValidatedParams(params, parse).Some?
        then pending && alert.None? && nav.None?
        else !pending && alert == Some(MissingAlert) && nav == Some(Back)
    {
      mounted := true;
      var validated := ValidatedParams(params, parse);
      if validated.Some? {
        pending := true;
        alert, nav := None, None;
      } else {
        alert, nav := Some(MissingAlert), Some(Back);
      }
    }

    /** The end of the delay; `randoms` are the values `Math.random` drew, one per crop. */
    method TimerFires(randoms: seq<real>)
      requires Valid() && pending
      requires |randoms| == |MockRecommendations|
      modifies this`results, this`loading, this`pending
      ensures Valid()
      ensures results == Some(ComputeResults(randoms)) && !loading && !pending
    {
      results := Some(ComputeResults(randoms));
      loading, pending := false, false;
    }
  }
}
