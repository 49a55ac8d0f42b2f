/**
 * The crop recommendation screen: a form of six soil and weather readings
 * that is either shown (for input) or hidden behind a result list and a
 * comparison of the readings with optimal ranges.
 */
module CropRecommendation {
  import opened Wrappers
  import opened JsNumber
  import opened Ui
  import opened SoilForm

  // ---------------------------------------------------------------- comparison table

  /** A badge of the "Match" column. */
  datatype Status = Status(text: string, color: string)

  const PerfectStatus := Status("Perfect", "#4CAF50")
  const LowStatus := Status("Low", "#FF9800")
  const HighStatus := Status("High", "#E53935")

  /**
   * `getMatchStatus`: in range, below it, or anything else. A value that did
   * not parse fails both comparisons and lands in the last case.
   */
  function MatchStatus(value: Number, min: real, max: real): (s: Status)
    ensures s == PerfectStatus <==> value.Some? && min <= value.value <= max
    ensures s == LowStatus <==> value.Some? && value.value < min
    ensures s == HighStatus <==> value.None? || (value.value >= min && value.value > max)
  {
    if Ge(value, min) && Le(value, max) then PerfectStatus
    else if Lt(value, min) then LowStatus
    else HighStatus
  }

  lemma NaNIsHigh(min: real, max: real)
    ensures MatchStatus(NaN, min, max) == HighStatus
  {
  }

  /** One row of the comparison table. */
  datatype SoilParameter = SoilParameter(name: string, yourValue: string, optimalMin: real, optimalMax: real, unit: string)

  /** `getSoilComparisonData`: N, P, K and pH against their optimal ranges. */
  function ComparisonData(f: Form): (rows: seq<SoilParameter>)
    ensures |rows| == 4
    ensures forall i :: 0 <= i < |rows| ==> rows[i].optimalMin < rows[i].optimalMax
    ensures [rows[0].yourValue, rows[1].yourValue, rows[2].yourValue, rows[3].yourValue]
         == [f.nitrogen, f.phosphorus, f.potassium, f.ph]
  {
    [ SoilParameter("Nitrogen (N)", f.nitrogen, 60.0, 90.0, "kg/ha"),
      SoilParameter("Phosphorus (P)", f.phosphorus, 30.0, 55.0, "kg/ha"),
      SoilParameter("Potassium (K)", f.potassium, 30.0, 50.0, "kg/ha"),
      SoilParameter("pH Level", f.ph, 5.5, 7.0, "") ]
  }

  /** The "Match" column as rendered: each reading is parsed, then compared. */
  function MatchColumn(f: Form, parse: string -> Number): (column: seq<Status>)
    ensures |column| == 4
    ensures forall i :: 0 <= i < 4 ==> column[i] in {PerfectStatus, LowStatus, HighStatus}
    ensures forall i :: 0 <= i < 4 ==>
      column[i] == MatchStatus(parse(ComparisonData(f)[i].yourValue), ComparisonData(f)[i].optimalMin, ComparisonData(f)[i].optimalMax)
  {
    var rows := ComparisonData(f);
    var column := seq(4, i requires 0 <= i < 4 => MatchStatus(parse(rows[i].yourValue), rows[i].optimalMin, rows[i].optimalMax));
    assert forall i :: 0 <= i < 4 ==> column[i] == MatchStatus(parse(rows[i].yourValue), rows[i].optimalMin, rows[i].optimalMax);
    column
  }

  /** The device's readings are within every optimal range. */
  lemma IotReadingsArePerfect(parse: string -> Number)
    requires parse("85") == Some(85.0) && parse("42") == Some(42.0)
    requires parse("35") == Some(35.0) && parse("6.2") == Some(6.2)
    ensures MatchColumn(MockIot, parse) == [PerfectStatus, PerfectStatus, PerfectStatus, PerfectStatus]
  {
  }

  /** A reading that does not parse is always reported High, whatever the others are. */
  lemma UnparsedReadingIsHigh(f: Form, parse: string -> Number, i: nat)
    requires i < 4 && parse(ComparisonData(f)[i].yourValue).None?
    ensures MatchColumn(f, parse)[i] == HighStatus
  {
  }

  // ---------------------------------------------------------------- the screen's state

  /** The simulated delay that is running, if any. */
  datatype Timer = Idle | IotTimer | PredictTimer

  const IotLoadedAlert := Alert("Success", "IoT data successfully loaded and filled. Press \"Get Crop Prediction\" to analyze.")
  const MissingAlert := Alert("Error", "Please fill all parameters.")
  const PredictedAlert := Alert("Prediction Complete", "Your personalized crop recommendations are ready!")
  const EditAlert := Alert("Form Visible", "You can now edit the input parameters.")

  class CropRecommendationScreen {
    var showForm: bool
    var form: Form
    var iotDataLoaded: bool
    var loading: bool
    var results: Option<seq<Recommendation>>
    var timer: Timer

    /**
     * A delay runs exactly while `loading`; while it runs the form is shown
     * and there are no results; results and the form are never on screen
     * together.
     */
    predicate Valid()
      reads this
    {
      (loading <==> timer != Idle)
      && (timer != Idle ==> showForm && results.None?)
      && (results.Some? ==> !showForm)
    }

    constructor ()
      ensures Valid()
      ensures showForm && form == Blank && !iotDataLoaded && !loading && results.None? && timer == Idle
    {
      showForm, form, iotDataLoaded, loading, results, timer := true, Blank, false, false, None, Idle;
    }

    /** Typing into one of the inputs, which exist only while the form is shown. */
    method Type(field: Field, text: string)
      requires Valid()
      modifies this`form
      ensures Valid()
      ensures form == if showForm then Set(old(form), field, text) else old(form)
    {
      if showForm {
        form := Set(form, field, text);
      }
    }

    /** `fetchIotData`, whose button is part of the form and disabled while loading. */
    method PressLoadIot()
      requires Valid()
      modifies this`loading, this`results, this`showForm, this`timer
      ensures Valid()
      ensures if old(showForm) && !old(loading)
        then loading && results.None? && showForm && timer == IotTimer
        else loading == old(loading) && results == old(results) && showForm == old(showForm) && timer == old(timer)
    {
      if showForm && !loading {
        loading, results, showForm := true, None, true;
        timer := IotTimer;
      }
    }

    /** The end of the IoT delay. */
    method IotTimerFires() returns (alert: Alert)
      requires Valid() && timer == IotTimer
      modifies this`form, this`iotDataLoaded, this`loading, this`timer
      ensures Valid()
      ensures form == MockIot && iotDataLoaded && !loading && timer == Idle
      ensures alert == IotLoadedAlert
    {
      form := MockIot;
      iotDataLoaded, loading := true, false;
      timer := Idle;
      alert := IotLoadedAlert;
    }

    /** `handlePredict`, whose button is part of the form and disabled while loading. */
    method PressPredict() returns (alert: Option<Alert>)
      requires Valid()
      modifies this`loading, this`results, this`timer
      ensures Valid()
      ensures if old(showForm) && !old(loading) && IsComplete(form)
        then loading && results.None? && timer == PredictTimer && alert.None?
        else loading == old(loading) && results == old(results) && timer == old(timer)
      ensures alert == if old(showForm) && !old(loading) && !IsComplete(form) then Some(MissingAlert) else None
    {
      alert := None;
      if showForm && !loading {
        if !IsComplete(form) {
          alert := Some(MissingAlert);
          return;
        }
        loading, results := true, None;
        timer := PredictTimer;
      }
    }

    /** The end of the prediction delay: show the results and hide the form. */
    method PredictTimerFires() returns (alert: Alert)
      requires Valid() && timer == PredictTimer
      modifies this`results, this`loading, this`showForm, this`timer
      ensures Valid()
      ensures results == Some(MockRecommendations) && !loading && !showForm && timer == Idle
      ensures alert == PredictedAlert
    {
      results := Some(MockRecommendations);
      loading, showForm := false, false;
      timer := Idle;
      alert := PredictedAlert;
    }

    /** `handleEditForm`, whose button is shown with the results and disabled while loading. */
    method PressEditForm() returns (alert: Option<Alert>)
      requires Valid()
      modifies this`showForm, this`results
      ensures Valid()
      ensures if old(results).Some? && !loading
        then showForm && results.None? && alert == Some(EditAlert)
        else showForm == old(showForm) && results == old(results) && alert.None?
    {
      alert := None;
      if results.Some? && !loading {
        showForm, results := true, None;
        alert := Some(EditAlert);
      }
    }

  }
}
