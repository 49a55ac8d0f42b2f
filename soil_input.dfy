/**
 * The soil input screen: the six readings, filled by hand or from the
 * simulated IoT device, handed to the results screen as navigation params.
 */
module SoilInput {
  import opened Wrappers
  import opened Ui
  import opened SoilForm

  const ResultsPath := "/soil/soilrecommendetion"

  /** The six param names, in the order of the form. */
  const ParamKeys := ["nitrogen", "phosphorus", "potassium", "ph", "temperature", "rainfall"]

  /** The params object built from the six inputs, each under its own name. */
  function ParamsOf(f: Form): (params: map<string, string>)
    ensures params.Keys == set key | key in ParamKeys
  {
    map["nitrogen" := f.nitrogen, "phosphorus" := f.phosphorus, "potassium" := f.potassium,
        "ph" := f.ph, "temperature" := f.temperature, "rainfall" := f.rainfall]
  }

  /** Every input travels unchanged under its own key, and nothing else travels. */
  lemma ParamsCarryForm(f: Form)
    ensures forall i :: 0 <= i < |ParamKeys| ==> ParamsOf(f)[ParamKeys[i]] == Get(f, [Nitrogen, Phosphorus, Potassium, Ph, Temperature, Rainfall][i])
  {
  }

  const IotLoadedAlert := Alert("Success", "IoT data successfully loaded and filled.")
  const MissingAlert := Alert("Error", "Please fill all parameters.")

  class SoilInputScreen {
    var form: Form
    var loading: bool
    /** The simulated IoT delay is running. */
    var pending: bool

    predicate Valid()
      reads this
    {
      loading == pending
    }

    constructor ()
      ensures Valid() && form == Blank && !loading
    {
      form, loading, pending := Blank, false, false;
    }

    method Type(field: Field, text: string)
      modifies this`form
      ensures form == Set(old(form), field, text)
    {
      form := Set(form, field, text);
    }

    /** `fetchIotData`; the button is disabled while loading. */
    method PressLoadIot()
      requires Valid()
      modifies this`loading, this`pending
      ensures Valid() && loading
    {
      if !loading {
        loading, pending := true, true;
      }
    }

    /** The end of the IoT delay: all six inputs take the device's values. */
    method IotTimerFires() returns (alert: Alert)
      requires Valid() && pending
      modifies this`form, this`loading, this`pending
      ensures Valid() && !loading
      ensures form == MockIot && IsComplete(form)
      ensures alert == IotLoadedAlert
    {
      form := MockIot;
      loading, pending := false, false;
      alert := IotLoadedAlert;
    }

    /** `handlePredict`; the button is disabled while loading. Nothing on screen changes. */
    method PressPredict() returns (alert: Option<Alert>, nav: Option<Navigation>)
      ensures loading ==> alert.None? && nav.None?
      ensures !loading && !IsComplete(form) ==> alert == Some(MissingAlert) && nav.None?
      ensures !loading && IsComplete(form) ==> alert.None? && nav == Some(Push(ResultsPath, ParamsOf(form)))
    {
      alert, nav := None, None;
      if loading {
        return;
      }
      if form.nitrogen == "" || form.phosphorus == "" || form.potassium == ""
         || form.ph == "" || form.temperature == "" || form.rainfall == "" {
        alert := Some(MissingAlert);
        return;
      }
      var params := ParamsOf(form);
      nav := Some(Push(ResultsPath, params));
    }
  }
}
