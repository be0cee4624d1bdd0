/** The login and signup forms of src/pages/Login.tsx: the guards each submit
    handler checks, in order, before it calls the auth provider, and what the
    handler does with the provider's answer. */
module LoginPage {
  import opened Common
  import opened Text
  import opened AuthContext

  datatype FormError = MissingFields | PasswordMismatch | PasswordTooShort

  /** The toast each guard shows. */
  function FormErrorMessage(e: FormError): (m: string)
    ensures m != ""
  {
    match e
    case MissingFields => "Please fill in all fields"
    case PasswordMismatch => "Passwords do not match"
    case PasswordTooShort => "Password must be at least 6 characters"
  }

  /** Each guard that fails shows its own toast. */
  lemma FormErrorMessagesDistinct(e: FormError, other: FormError)
    ensures e != other ==> FormErrorMessage(e) != FormErrorMessage(other)
  {
  }

  /** The shortest password signup accepts, in UTF-16 code units. */
  const MinPasswordLength: nat := 6

  /** The guard of `handleLogin`: both fields must be non-empty (only the empty
      string is falsy; white space counts as filled in). */
  function ValidateLogin(email: string, password: string): (r: Outcome<FormError>)
    ensures r == Pass <==> email != "" && password != ""
    ensures r != Pass ==> r == Fail(MissingFields)
  {
    if email == "" || password == "" then Fail(MissingFields) else Pass
  }

  /** The guards of `handleSignup`, first failure wins: missing fields, then the
      confirmation, then the length. */
  function ValidateSignup(name: string, email: string, password: string, confirm: string): (r: Outcome<FormError>)
    ensures r == Fail(MissingFields) <==> name == "" || email == "" || password == "" || confirm == ""
    ensures r == Fail(PasswordMismatch) <==>
      name != "" && email != "" && password != "" && confirm != "" && password != confirm
    ensures r == Fail(PasswordTooShort) <==>
      name != "" && email != "" && password != "" && confirm != "" && password == confirm
      && Utf16Length(password) < MinPasswordLength
    ensures r == Pass <==>
      name != "" && email != "" && password != "" && password == confirm && Utf16Length(password) >= MinPasswordLength
  {
    if name == "" || email == "" || password == "" || confirm == "" then Fail(MissingFields)
    else if password != confirm then Fail(PasswordMismatch)
    else if Utf16Length(password) < MinPasswordLength then Fail(PasswordTooShort)
    else Pass
  }

  /** The length bound is inclusive: five characters are refused, six accepted. */
  lemma SixCharactersIsEnough(name: string, email: string)
    requires name != "" && email != ""
    ensures ValidateSignup(name, email, "abcde", "abcde") == Fail(PasswordTooShort)
    ensures ValidateSignup(name, email, "abcdef", "abcdef") == Pass
  {
    Utf16LengthOfBmp("abcde");
    Utf16LengthOfBmp("abcdef");
  }

  /** Any password of at least six characters inside the Basic Multilingual Plane
      passes the length guard once it is confirmed. */
  lemma LongEnoughPasswordPasses(name: string, email: string, password: string)
    requires name != "" && email != ""
    requires |password| >= MinPasswordLength
    requires forall k :: 0 <= k < |password| ==> password[k] as int < 0x1_0000
    ensures ValidateSignup(name, email, password, password) == Pass
  {
    Utf16LengthOfBmp(password);
  }

  /** `handleLogin`: the provider is called only when the guard passes, and the page
      navigates home only when the call returns without an error. */
  method HandleLogin(auth: AuthStore, email: string, password: string)
    returns (formError: Option<FormError>, navigated: bool)
    modifies auth
    ensures ValidateLogin(email, password).Fail? ==>
      && formError == Some(ValidateLogin(email, password).error)
      && !navigated && auth.State() == old(auth.State())
    ensures ValidateLogin(email, password) == Pass ==>
      var step := LoginStep(old(auth.State()), email, password);
      formError.None? && auth.State() == step.post && navigated == (step.outcome == Pass)
  {
    var guard := ValidateLogin(email, password);
    if guard.Fail? {
      return Some(guard.error), false;
    }
    formError := None;
    var outcome := auth.Login(email, password);
    navigated := outcome == Pass;
  }

  /** `handleSignup`: the provider is called only when all three guards pass, and the
      page navigates home only when the call returns without an error. */
  method HandleSignup(auth: AuthStore, name: string, email: string, password: string, confirm: string,
                      id: string, createdAt: Timestamp)
    returns (formError: Option<FormError>, navigated: bool)
    modifies auth
    ensures ValidateSignup(name, email, password, confirm).Fail? ==>
      && formError == Some(ValidateSignup(name, email, password, confirm).error)
      && !navigated && auth.State() == old(auth.State())
    ensures ValidateSignup(name, email, password, confirm) == Pass ==>
      var step := SignupStep(old(auth.State()), name, email, password, id, createdAt);
      formError.None? && auth.State() == step.post && navigated == (step.outcome == Pass)
  {
    var guard := ValidateSignup(name, email, password, confirm);
    if guard.Fail? {
      return Some(guard.error), false;
    }
    formError := None;
    var outcome := auth.Signup(name, email, password, id, createdAt);
    navigated := outcome == Pass;
  }
}
