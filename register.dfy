/** The sign-up form: the checks `handleRegister` makes before it calls the
    authentication service, and the `error` and `loading` state it sets. */
module Register {
  import opened Types
  import opened Text
  import opened AuthService

  const MismatchError := "Las contraseñas no coinciden"
  const TooShortError := "La contraseña debe tener al menos 6 caracteres"
  const MinPasswordLength := 6

  /** The first check that rejects the passwords, if any: the mismatch is
      tested before the length, which is `password.length` in UTF-16 code
      units. */
  function PasswordProblem(password: string, confirmPassword: string): (problem: Option<string>)
    ensures problem.None? <==> password == confirmPassword && Utf16Length(password) >= MinPasswordLength
    ensures password != confirmPassword ==> problem == Some(MismatchError)
    ensures password == confirmPassword && Utf16Length(password) < MinPasswordLength ==> problem == Some(TooShortError)
  {
    if password != confirmPassword then Some(MismatchError)
    else if Utf16Length(password) < MinPasswordLength then Some(TooShortError)
    else None
  }

  /** Mismatched passwords are reported as a mismatch even when both are too
      short. */
  lemma MismatchReportedFirst(password: string, confirmPassword: string)
    requires password != confirmPassword && |password| < MinPasswordLength && |confirmPassword| < MinPasswordLength
    ensures PasswordProblem(password, confirmPassword) == Some(MismatchError)
  {
  }

  /** Three characters beyond U+FFFF make six code units, enough for the
      length check, while three from the Basic Multilingual Plane are not. */
  lemma {:induction false} LengthCountsCodeUnits()
    ensures PasswordProblem("\U{1F600}\U{1F600}\U{1F600}", "\U{1F600}\U{1F600}\U{1F600}").None?
    ensures PasswordProblem("abc", "abc") == Some(TooShortError)
  {
    var e := "\U{1F600}";
    assert Utf16Length(e) == 2;
    Utf16LengthAppend(e, e);
    Utf16LengthAppend(e + e, e);
    assert e + e + e == "\U{1F600}\U{1F600}\U{1F600}";
  }

  class RegisterForm {
    var email: string
    var password: string
    var confirmPassword: string
    var error: string
    var loading: bool

    constructor ()
      ensures email == "" && password == "" && confirmPassword == ""
      ensures error == "" && !loading
    {
      email, password, confirmPassword := "", "", "";
      error, loading := "", false;
    }

    /** `handleRegister`. `outcome` is what `signUpWithEmail(email, password)`
        would return; `signedUp` tells whether the call was made, and
        `loadingDuringCall` what `loading` was while it was awaited. */
    method HandleRegister(outcome: AuthResult) returns (signedUp: bool, loadingDuringCall: bool)
      modifies this`error, this`loading
      ensures signedUp <==> PasswordProblem(password, confirmPassword).None?
      ensures !signedUp ==> error == PasswordProblem(password, confirmPassword).value && loading == old(loading)
      ensures signedUp ==> loadingDuringCall && !loading
      ensures signedUp ==> error == (if outcome.error.Some? then outcome.error.value else "")
    {
      error := "";
      loadingDuringCall := false;
      if password != confirmPassword {
        error := MismatchError;
        return false, loadingDuringCall;
      }
      if Utf16Length(password) < MinPasswordLength {
        error := TooShortError;
        return false, loadingDuringCall;
      }
      loading := true;
      signedUp, loadingDuringCall := true, loading;
      if outcome.error.Some? {
        error := outcome.error.value;
      }
      loading := false;
    }
  }
}
