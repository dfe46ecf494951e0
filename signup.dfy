/** The sign-up form: the two checks on the password, in order, before the
    auth provider is asked to create the account. */
module SignUp {
  import opened Options

  const MinPasswordLength := 6
  const MismatchError := "Les mots de passe ne correspondent pas"
  const TooShortError := "Le mot de passe doit contenir au moins 6 caractères"
  const SignUpError := "Erreur lors de l'inscription. Veuillez réessayer."
  const AfterSignUp := "/profile"

  /** A string's `length` in JavaScript: its number of UTF-16 code units, two
      for a character outside the Basic Multilingual Plane. */
  function Utf16Length(s: string): (n: nat)
    ensures |s| <= n <= 2 * |s|
    ensures (forall i :: 0 <= i < |s| ==> s[i] as int <= 0xFFFF) ==> n == |s|
  {
    if s == [] then 0
    else (if s[0] as int > 0xFFFF then 2 else 1) + Utf16Length(s[1..])
  }

  /** The checks of a submit, in order: the error to show, or None when the
      form goes on to the auth provider. A mismatch is reported whatever the
      length of the password. */
  function Validate(password: string, confirmPassword: string): (r: Option<string>)
    ensures r == None <==> password == confirmPassword && Utf16Length(password) >= MinPasswordLength
    ensures password != confirmPassword ==> r == Some(MismatchError)
    ensures password == confirmPassword && Utf16Length(password) < MinPasswordLength ==> r == Some(TooShortError)
  {
    if password != confirmPassword then Some(MismatchError)
    else if Utf16Length(password) < MinPasswordLength then Some(TooShortError)
    else None
  }

  /** What a submit does outside the form: a call to the auth provider (with
      the `loading` flag it was made under) and a navigation. */
  datatype Effect = SignUpCalled(email: string, password: string, whileLoading: bool) | NavigatedTo(path: string)

  /** The form's error and loading flag after a submit, and the effects it had. */
  datatype Outcome = Outcome(error: string, loading: bool, effects: seq<Effect>)

  /** One submit, given whether the auth provider accepts the sign-up. */
  function Submit(email: string, password: string, confirmPassword: string, accepted: bool, loading: bool)
    : (o: Outcome)
    ensures o.effects != [] <==> Validate(password, confirmPassword) == None
    ensures Validate(password, confirmPassword).Some? ==>
              o.error == Validate(password, confirmPassword).value && o.loading == loading
    ensures o.effects != [] ==> o.effects[0] == SignUpCalled(email, password, true) && !o.loading
    ensures NavigatedTo(AfterSignUp) in o.effects <==> Validate(password, confirmPassword) == None && accepted
    ensures o.error == "" <==> Validate(password, confirmPassword) == None && accepted
    ensures Validate(password, confirmPassword) == None && !accepted ==> o.error == SignUpError
    ensures Validate(password, confirmPassword) == None ==>
              o.effects == [SignUpCalled(email, password, true)] + (if accepted then [NavigatedTo(AfterSignUp)] else [])
  {
    match Validate(password, confirmPassword)
    case Some(e) => Outcome(e, loading, [])
    case None =>
      if accepted then Outcome("", false, [SignUpCalled(email, password, true), NavigatedTo(AfterSignUp)])
      else Outcome(SignUpError, false, [SignUpCalled(email, password, true)])
  }

  class SignUpPage {
    var email: string
    var password: string
    var confirmPassword: string
    var error: string
    var loading: bool
    /** The effects of all submits so far, oldest first. */
    var effects: seq<Effect>

    constructor ()
      ensures email == "" && password == "" && confirmPassword == ""
      ensures error == "" && !loading && effects == []
    {
      email, password, confirmPassword := "", "", "";
      error, loading := "", false;
      effects := [];
    }

    /** The three inputs' change handlers. */
    method Edit(newEmail: string, newPassword: string, newConfirmPassword: string)
      modifies this`email, this`password, this`confirmPassword
      ensures email == newEmail && password == newPassword && confirmPassword == newConfirmPassword
    {
      email, password, confirmPassword := newEmail, newPassword, newConfirmPassword;
    }

    /** `handleSubmit`: clears the error, checks the confirmation, then the
        length, and only then calls the auth provider under `loading`, which
        is cleared again whether the call succeeds or fails. */
    method HandleSubmit(accepted: bool)
      modifies this`error, this`loading, this`effects
      ensures var o := Submit(email, password, confirmPassword, accepted, old(loading));
              error == o.error && loading == o.loading && effects == old(effects) + o.effects
    {
      error := "";
      if password != confirmPassword {
        error := MismatchError;
        return;
      }
      if Utf16Length(password) < MinPasswordLength {
        error := TooShortError;
        return;
      }
      loading := true;
      effects := effects + [SignUpCalled(email, password, loading)];
      if accepted {
        effects := effects + [NavigatedTo(AfterSignUp)];
      } else {
        error := SignUpError;
      }
      loading := false;
    }
  }
}
