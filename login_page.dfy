/** The submit step of the login form. */
module LoginPage {
  import opened Wrappers
  import opened Session

  const MissingFields: string := "Please enter both email and password"

  datatype Credentials = Credentials(email: string, password: string)

  /** What submitting does: an error message when a field is empty, else
      the login request. */
  datatype SubmitEffect = ShowError(message: string) | DispatchLogin(credentials: Credentials)

  function HandleSubmit(email: string, password: string): (r: SubmitEffect)
    ensures r.ShowError? <==> email == "" || password == ""
    ensures r.ShowError? ==> r.message == MissingFields
    ensures r.DispatchLogin? ==> r.credentials == Credentials(email, password)
  {
    if email == "" || password == "" then ShowError(MissingFields)
    else DispatchLogin(Credentials(email, password))
  }

  /** Where the page goes once the login request settles: to the planner on
      success, nowhere on failure. */
  function AfterLogin(succeeded: bool): (r: Option<string>)
    ensures r.Some? <==> succeeded
    ensures r.Some? ==> r.value == PlannerPath
  {
    if succeeded then Some(PlannerPath) else None
  }

  /** Signing in and arriving already signed in end on the same page. */
  lemma SignedInLandsOnPlanner(userInfo: UserInfo)
    ensures AfterLogin(true) == RedirectOnLoad(Some(userInfo))
  {
  }
}
