/** The profile form: filling it from the signed-in user, the submit step
    with its optional password change, and the plan label. */
module ProfilePage {
  import opened Wrappers
  import opened JsValue
  import opened Session

  const MismatchToast: string := "Passwords do not match"

  /** The update request; `password` is `None` when it is left unchanged. */
  datatype ProfileUpdate = ProfileUpdate(name: string, email: string, password: Option<string>, location: string)

  datatype ProfileState = ProfileState(editMode: bool, name: string, email: string, password: string,
                                       confirmPassword: string, location: string)

  /** The text shown for a subscription: anything other than "free" and
      "premium", including none, is shown as the annual plan. */
  function SubscriptionLabel(subscription: Option<string>): (r: string)
    ensures subscription == Some("free") ==> r == "Free Plan"
    ensures subscription == Some("premium") ==> r == "Premium Plan"
    ensures subscription != Some("free") && subscription != Some("premium") ==> r == "Annual Plan"
  {
    if subscription == Some("free") then "Free Plan"
    else if subscription == Some("premium") then "Premium Plan"
    else "Annual Plan"
  }

  /** What submitting sends, as a function of the entered values: nothing
      when a new password differs from its confirmation, otherwise the
      entered details, with an empty password meaning no change. */
  function Submission(name: string, email: string, password: string, confirmPassword: string, location: string)
    : (r: Option<ProfileUpdate>)
    ensures r.None? <==> password != "" && password != confirmPassword
    ensures r.Some? ==> r.value.name == name && r.value.email == email && r.value.location == location
    ensures r.Some? && password == "" ==> r.value.password.None?
    ensures r.Some? && password != "" ==> r.value.password == Some(password) && password == confirmPassword
  {
    if password != "" && password != confirmPassword then None
    else Some(ProfileUpdate(name, email, if password != "" then Some(password) else None, location))
  }

  /** An empty password skips the confirmation check whatever the
      confirmation holds. */
  lemma EmptyPasswordSkipsCheck(name: string, email: string, confirmPassword: string, location: string)
    ensures Submission(name, email, "", confirmPassword, location) == Some(ProfileUpdate(name, email, None, location))
  {
  }

  class ProfileForm {
    var editMode: bool
    var name: string
    var email: string
    var password: string
    var confirmPassword: string
    var location: string

    function State(): ProfileState
      reads this
    {
      ProfileState(editMode, name, email, password, confirmPassword, location)
    }

    constructor ()
      ensures State() == ProfileState(false, "", "", "", "", "")
    {
      editMode := false;
      name, email, password, confirmPassword, location := "", "", "", "", "";
    }

    /** When a user is signed in, copy their details into the form, with ""
        for a missing one. */
    method InitFromUser(userInfo: Option<UserInfo>)
      modifies this
      ensures userInfo.None? ==> State() == old(State())
      ensures userInfo.Some? ==> State() == old(State()).(name := OrStr(userInfo.value.name, ""),
                                                          email := OrStr(userInfo.value.email, ""),
                                                          location := OrStr(userInfo.value.location, ""))
    {
      if userInfo.Some? {
        name := OrStr(userInfo.value.name, "");
        email := OrStr(userInfo.value.email, "");
        location := OrStr(userInfo.value.location, "");
      }
    }

    /** Submit: the update request for the entered values, or, instead of
        one, the mismatch error toast. The form itself is not changed. */
    method HandleSubmit() returns (update: Option<ProfileUpdate>, toast: Option<string>)
      ensures update == Submission(name, email, password, confirmPassword, location)
      ensures toast == (if update.None? then Some(MismatchToast) else None)
    {
      if password != "" && password != confirmPassword {
        return None, Some(MismatchToast);
      }
      toast := None;
      var newPassword := if password != "" then Some(password) else None;
      update := Some(ProfileUpdate(name, email, newPassword, location));
    }

    /** After a successful update: leave edit mode and clear both password
        fields. */
    method OnUpdateSucceeded()
      modifies this
      ensures State() == old(State()).(editMode := false, password := "", confirmPassword := "")
    {
      editMode := false;
      password := "";
      confirmPassword := "";
    }
  }
}
