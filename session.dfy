/** The signed-in user as the pages read it from the auth store, and the
    page the app sends a signed-in user to. */
module Session {
  import opened Wrappers

  /** The stored user; absent fields are `None`. */
  datatype UserInfo = UserInfo(name: Option<string>, email: Option<string>,
                               location: Option<string>, subscription: Option<string>)

  const PlannerPath: string := "/garden-planner"

  /** Where a page redirects on load: to the planner whenever a user is
      already signed in, nowhere otherwise. */
  function RedirectOnLoad(userInfo: Option<UserInfo>): (r: Option<string>)
    ensures r.Some? <==> userInfo.Some?
    ensures r.Some? ==> r.value == PlannerPath
  {
    if userInfo.Some? then Some(PlannerPath) else None
  }
}
