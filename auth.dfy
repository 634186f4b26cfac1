/** pages/Auth.tsx: the sign-in / sign-up form's mode and submit checks. */
module AuthForm {
  import opened Types

  const FillAllFields: string := "Please fill in all fields"
  const PasswordsDiffer: string := "Passwords do not match"

  /** The submit checks: both fields given, and in sign-up mode the two
      passwords equal. `None` means the form is accepted. */
  function ValidateAuth(isLogin: bool, email: string, password: string, confirm: string): Option<string>
  {
    if email == "" || password == "" then Some(FillAllFields)
    else if !isLogin && password != confirm then Some(PasswordsDiffer)
    else None
  }

  /** A form is accepted exactly when both fields are given and, when signing
      up, the confirmation matches; login mode never reads the confirmation,
      and a missing field is reported before a mismatch. */
  lemma ValidateAuthMeaning(isLogin: bool, email: string, password: string, confirm: string, other: string)
    ensures ValidateAuth(isLogin, email, password, confirm).None? <==>
            email != "" && password != "" && (isLogin || password == confirm)
    ensures isLogin ==> ValidateAuth(true, email, password, confirm) == ValidateAuth(true, email, password, other)
    ensures email == "" || password == "" ==> ValidateAuth(isLogin, email, password, confirm) == Some(FillAllFields)
  {
  }

  class AuthPage {
    var isLogin: bool
    var email: string
    var password: string
    var confirmPassword: string
    var error: string

    constructor ()
      ensures isLogin && email == "" && password == "" && confirmPassword == "" && error == ""
    {
      isLogin := true;
      email, password, confirmPassword := "", "", "";
      error := "";
    }

    /** The "Sign up" / "Login" link. */
    method Toggle()
      modifies this`isLogin
      ensures isLogin == !old(isLogin)
    {
      isLogin := !isLogin;
    }

    /** handleSubmit: clear the error, run the checks, and on success hand the
        email to `onLogin` (returned here) exactly once. */
    method HandleSubmit() returns (onLogin: Option<string>)
      modifies this`error
      ensures ValidateAuth(isLogin, email, password, confirmPassword).None? ==>
              onLogin == Some(email) && error == ""
      ensures ValidateAuth(isLogin, email, password, confirmPassword).Some? ==>
              onLogin == None && error == ValidateAuth(isLogin, email, password, confirmPassword).value
    {
      error := "";
      if email == "" || password == "" {
        error := FillAllFields;
        return None;
      }
      if !isLogin && password != confirmPassword {
        error := PasswordsDiffer;
        return None;
      }
      return Some(email);
    }
  }
}
