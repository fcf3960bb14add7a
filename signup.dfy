/** The sign-up page's submit handler: two password checks, then a login. */
module SignUp {
  import opened Common

  const MismatchError := "Passwords do not match"
  const LengthError := "Password must be at least 6 characters"
  const MinPasswordLength := 6

  /** The error the checks report, in the order the handler runs them, or
      `None` when both pass. */
  function PasswordError(password: string, confirmPassword: string): (e: Option<string>)
    ensures password != confirmPassword ==> e == Some(MismatchError)
    ensures password == confirmPassword && |password| < MinPasswordLength ==> e == Some(LengthError)
    ensures e.None? <==> password == confirmPassword && |password| >= MinPasswordLength
  {
    if password != confirmPassword then Some(MismatchError)
    else if |password| < MinPasswordLength then Some(LengthError)
    else None
  }

  /** The `login` call the handler makes, with the form's `error` and
      `isLoading` at the moment of the call. */
  datatype LoginCall = LoginCall(email: string, name: string, errorThen: string, loadingThen: bool)

  class SignUpForm {
    var name: string
    var email: string
    var password: string
    var confirmPassword: string
    var error: string
    var isLoading: bool

    constructor ()
      ensures name == "" && email == "" && password == "" && confirmPassword == ""
      ensures error == "" && !isLoading
    {
      name, email, password, confirmPassword := "", "", "", "";
      error := "";
      isLoading := false;
    }

    /** `handleSubmit`. A failed check sets `error` and calls nothing; once
        both pass the error is cleared and loading set before `login`, and
        loading is off again at the end. */
    method HandleSubmit() returns (login: Option<LoginCall>)
      modifies this`error, this`isLoading
      ensures var e := PasswordError(password, confirmPassword);
        && (e.Some? ==> login.None? && error == e.value && isLoading == old(isLoading))
        && (e.None? ==> login == Some(LoginCall(email, name, "", true)) && error == "" && !isLoading)
    {
      if password != confirmPassword {
        error := MismatchError;
        return None;
      }
      if |password| < MinPasswordLength {
        error := LengthError;
        return None;
      }
      isLoading := true;
      error := "";
      login := Some(LoginCall(email, name, error, isLoading));
      isLoading := false;
    }
  }
}
