/**
 * The login check shared by the two login screens: both fields must be
 * filled, and only one hard-coded pair of credentials is accepted.
 */
module Login {
  import opened Wrappers
  import opened Ui

  const TestEmail := "test@gmail.com"
  const TestPassword := "123456"

  const MandatoryAlert := Alert("Error", "All fields are mandatory!")
  const SuccessAlert := Alert("Success", "Login successful!")
  const FailedAlert := Alert("Failed", "Invalid email or password!")

  /** An alert, and where its OK button leads, if anywhere. */
  datatype Dialog = Dialog(alert: Alert, onOk: Option<Navigation>)

  /** `handleLogin` */
  function HandleLogin(email: string, password: string): (d: Dialog)
    ensures d.onOk.Some? <==> email == TestEmail && password == TestPassword
    ensures d.onOk.Some? ==> d == Dialog(SuccessAlert, Some(Replace("/home")))
    ensures d.alert == MandatoryAlert <==> email == "" || password == ""
    ensures d.alert == FailedAlert <==> email != "" && password != "" && (email != TestEmail || password != TestPassword)
  {
    if email == "" || password == "" then Dialog(MandatoryAlert, None)
    else if email == TestEmail && password == TestPassword then Dialog(SuccessAlert, Some(Replace("/home")))
    else Dialog(FailedAlert, None)
  }

  /** The emptiness check comes first: an empty field is reported as such even beside a right credential. */
  lemma EmptinessFirst(email: string, password: string)
    ensures HandleLogin(email, "").alert == MandatoryAlert
    ensures HandleLogin("", password).alert == MandatoryAlert
  {
  }

  /** The check is exact: a change of case in the email is a failed login. */
  lemma EmailCaseMatters()
    ensures HandleLogin("Test@gmail.com", TestPassword).alert == FailedAlert
  {
  }
}
