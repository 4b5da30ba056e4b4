/** The submit step of the registration form: the password checks, in the
    order the form makes them, and the request it then sends. */
module RegisterPage {
  import opened Wrappers
  import opened JsValue

  const MismatchError: string := "Passwords do not match"
  const LengthError: string := "Password must be at least 6 characters long"
  const MinPasswordLength: nat := 6

  datatype RegisterRequest = RegisterRequest(name: string, email: string, password: string, location: string)

  datatype FormState = FormState(name: string, email: string, password: string,
                                 confirmPassword: string, location: string, passwordError: string)

  /** The outcome of the checks: which error the form shows, if any. */
  datatype Check = Mismatch | TooShort | Accepted

  /** The password checks: a mismatch is reported before a short password. */
  function CheckPasswords(password: string, confirmPassword: string): (r: Check)
    ensures r == Mismatch <==> password != confirmPassword
    ensures r == TooShort <==> password == confirmPassword && |password| < MinPasswordLength
    ensures r == Accepted <==> password == confirmPassword && |password| >= MinPasswordLength
  {
    if password != confirmPassword then Mismatch
    else if |password| < MinPasswordLength then TooShort
    else Accepted
  }

  /** A short password that also differs from its confirmation is reported
      as a mismatch. */
  lemma ShortMismatchReportsMismatch(password: string, confirmPassword: string)
    requires password != confirmPassword && |password| < MinPasswordLength
    ensures CheckPasswords(password, confirmPassword) == Mismatch
  {
  }

  /** The error message the form shows for each outcome. */
  function ErrorFor(c: Check): string {
    match c
    case Mismatch => MismatchError
    case TooShort => LengthError
    case Accepted => ""
  }

  /** The error banner: the server's error in preference to the form's own,
      and no banner when neither is set. */
  function Banner(error: Option<string>, passwordError: string): (r: Option<string>)
    ensures Present(error) ==> r == Some(error.value)
    ensures !Present(error) && passwordError != "" ==> r == Some(passwordError)
    ensures !Present(error) && passwordError == "" ==> r.None?
  {
    if Present(error) then Some(error.value)
    else if passwordError != "" then Some(passwordError)
    else None
  }

  /** The form's fields. */
  class RegisterForm {
    var name: string
    var email: string
    var password: string
    var confirmPassword: string
    var location: string
    var passwordError: string

    function State(): FormState
      reads this
    {
      FormState(name, email, password, confirmPassword, location, passwordError)
    }

    constructor ()
      ensures State() == FormState("", "", "", "", "", "")
    {
      name, email, password, confirmPassword, location, passwordError := "", "", "", "", "", "";
    }

    /** Submit: set the error field check by check, returning early on a
        failed one, and produce the register request when both pass. */
    method HandleSubmit() returns (request: Option<RegisterRequest>)
      modifies this
      ensures State() == old(State()).(passwordError := ErrorFor(CheckPasswords(old(password), old(confirmPassword))))
      ensures request.Some? <==> CheckPasswords(old(password), old(confirmPassword)) == Accepted
      ensures request.Some? ==> request.value == RegisterRequest(name, email, password, location)
    {
      if password != confirmPassword {
        passwordError := MismatchError;
        return None;
      } else {
        passwordError := "";
      }
      if |password| < MinPasswordLength {
        passwordError := LengthError;
        return None;
      } else {
        passwordError := "";
      }
      request := Some(RegisterRequest(name, email, password, location));
    }
  }
}
