/**
 * The sign-up screen: three text fields, a required-fields check, a minimum
 * password length, and the call to the session's `register`.
 */
module SignUp {
  import opened Wrappers
  import opened JsBuiltins
  import opened ApiErrors

  /** The fewest characters a password may have. */
  const MinPasswordLength := 6

  datatype Problem = FieldMissing | PasswordTooShort

  function Message(p: Problem): string {
    match p
    case FieldMissing => "All fields are required"
    case PasswordTooShort => "Password must be at least 6 characters"
  }

  const RegistrationFailed := "Registration failed. Try again."

  /**
   * The checks before registering: every field must hold something besides
   * whitespace, and then the password, counted with any surrounding
   * whitespace, must be long enough.
   */
  function Check(name: string, email: string, password: string): (problem: Option<Problem>)
    ensures problem == Some(FieldMissing) <==> AllWhite(name) || AllWhite(email) || AllWhite(password)
    ensures problem == Some(PasswordTooShort) <==>
              !AllWhite(name) && !AllWhite(email) && !AllWhite(password) &&
              |password| < MinPasswordLength
  {
    if Trim(name) == "" || Trim(email) == "" || Trim(password) == "" then Some(FieldMissing)
    else if |password| < MinPasswordLength then Some(PasswordTooShort)
    else None
  }

  /** The arguments of `register(email, password, name)`. */
  datatype RegisterCall = RegisterCall(email: string, password: string, name: string)

  /** What a sign-up attempt leaves behind: the call made and the screen's new flags. */
  datatype Attempt = Attempt(request: Option<RegisterCall>, error: string, loading: bool)

  /**
   * The effect of pressing "sign up", given how `register` ends: a call is
   * made exactly when the checks pass; a refused form shows a message and
   * keeps `loading`, a call ends loading and shows an error exactly when it
   * fails.
   */
  function Attempted(name: string, email: string, password: string, loading: bool,
                     result: Outcome<()>): (r: Attempt)
    ensures r.request.Some? <==> Check(name, email, password) == None
    ensures r.request.None? ==> r.error != "" && r.loading == loading
    ensures r.request.Some? ==> !r.loading && (r.error == "" <==> result.Resolved?)
  {
    var problem := Check(name, email, password);
    if problem.Some? then Attempt(None, Message(problem.value), loading)
    else
      var request := Some(RegisterCall(Trim(email), password, Trim(name)));
      match result
      case Resolved(_) => Attempt(request, "", false)
      case Rejected(detail) =>
        ErrorTextNonEmpty(detail, RegistrationFailed);
        Attempt(request, ErrorText(detail, RegistrationFailed), false)
  }

  /** A failed check registers nothing, shows its message and leaves `loading` alone. */
  lemma RefusedAttempt(name: string, email: string, password: string, loading: bool,
                       result: Outcome<()>, p: Problem)
    requires Check(name, email, password) == Some(p)
    ensures var a := Attempted(name, email, password, loading, result);
            a.request == None && a.error == Message(p) && a.loading == loading
  {
  }

  /**
   * A passing form registers with the trimmed email and name but the
   * password exactly as typed, and the screen stops loading; it shows no
   * error on success and a non-empty one on failure.
   */
  lemma RegisteringAttempt(name: string, email: string, password: string, loading: bool,
                           result: Outcome<()>)
    requires !AllWhite(name) && !AllWhite(email) && !AllWhite(password)
    requires |password| >= MinPasswordLength
    ensures var a := Attempted(name, email, password, loading, result);
            a.request == Some(RegisterCall(Trim(email), password, Trim(name))) &&
            !a.loading &&
            (a.error == "" <==> result.Resolved?)
  {
    if result.Rejected? {
      ErrorTextNonEmpty(result.detail, RegistrationFailed);
    }
  }

  /**
   * The length rule counts whitespace around the password: one visible
   * character padded with five spaces is accepted and sent with its spaces.
   */
  lemma PaddedPasswordAccepted(loading: bool, result: Outcome<()>)
    ensures Attempted("Ann", "ann@example.com", "     x", loading, result).request ==
            Some(RegisterCall("ann@example.com", "     x", "Ann"))
  {
    var pw := "     x";
    assert !IsWhite(pw[5]);
    assert !AllWhite(pw);
    assert !AllWhite("Ann") by { assert !IsWhite("Ann"[0]); }
    assert !AllWhite("ann@example.com") by { assert !IsWhite("ann@example.com"[0]); }
    assert Trim("Ann") == "Ann";
    assert Trim("ann@example.com") == "ann@example.com";
  }

  /** The sign-up screen's state. */
  class SignUpForm {
    var name: string
    var email: string
    var password: string
    var loading: bool
    var error: string

    constructor()
      ensures name == "" && email == "" && password == ""
      ensures !loading && error == ""
    {
      name, email, password := "", "", "";
      loading, error := false, "";
    }

    /**
     * `handleSignUp`, with `result` standing for how `register` ends: the
     * call made and the new flags are those `Attempted` gives, and the
     * fields keep what was typed.
     */
    method HandleSignUp(result: Outcome<()>) returns (request: Option<RegisterCall>)
      modifies this`error, this`loading
      ensures Attempt(request, error, loading) ==
              Attempted(old(name), old(email), old(password), old(loading), result)
    {
      error := "";
      var problem := Check(name, email, password);
      if problem.Some? {
        error := Message(problem.value);
        return None;
      }
      loading := true;
      request := Some(RegisterCall(Trim(email), password, Trim(name)));
      match result {
        case Resolved(_) =>
        case Rejected(detail) =>
          error := ErrorText(detail, RegistrationFailed);
      }
      loading := false;
    }
  }
}

/**
 * The login screen: two text fields, a required-fields check, and the call
 * to the session's `login`.
 */
module Login {
  import opened Wrappers
  import opened JsBuiltins
  import opened ApiErrors

  const FieldsRequired := "Email and password are required"
  const LoginFailed := "Login failed. Try again."

  /** The arguments of `login(email, password)`. */
  datatype LoginCall = LoginCall(email: string, password: string)

  /** What a login attempt leaves behind: the call made and the screen's new flags. */
  datatype Attempt = Attempt(request: Option<LoginCall>, error: string, loading: bool)

  /** The check before logging in: both fields must hold something besides whitespace. */
  function Complete(email: string, password: string): (b: bool)
    ensures b <==> !AllWhite(email) && !AllWhite(password)
  {
    Trim(email) != "" && Trim(password) != ""
  }

  /**
   * The effect of pressing "log in", given how `login` ends: without both
   * fields the screen asks for them and keeps `loading`; a call ends loading
   * and shows an error exactly when it fails.
   */
  function Attempted(email: string, password: string, loading: bool,
                     result: Outcome<()>): (r: Attempt)
    ensures r.request.Some? <==> Complete(email, password)
    ensures r.request.None? ==> r.error == FieldsRequired && r.loading == loading
    ensures r.request.Some? ==> !r.loading && (r.error == "" <==> result.Resolved?)
  {
    if !Complete(email, password) then Attempt(None, FieldsRequired, loading)
    else
      var request := Some(LoginCall(Trim(email), password));
      match result
      case Resolved(_) => Attempt(request, "", false)
      case Rejected(detail) =>
        ErrorTextNonEmpty(detail, LoginFailed);
        Attempt(request, ErrorText(detail, LoginFailed), false)
  }

  /**
   * A login call is made exactly when both fields hold something besides
   * whitespace, with the email trimmed and the password as typed; without
   * one, the screen asks for both and leaves `loading` alone.
   */
  lemma AttemptCallsLogin(email: string, password: string, loading: bool, result: Outcome<()>)
    ensures var a := Attempted(email, password, loading, result);
            (a.request.Some? <==> !AllWhite(email) && !AllWhite(password)) &&
            (a.request.Some? ==> a.request.value == LoginCall(Trim(email), password) && !a.loading) &&
            (a.request.None? ==> a.error == FieldsRequired && a.loading == loading)
  {
  }

  /** After a login call, the screen shows no error exactly when the call succeeded. */
  lemma AttemptError(email: string, password: string, loading: bool, result: Outcome<()>)
    requires !AllWhite(email) && !AllWhite(password)
    ensures var a := Attempted(email, password, loading, result);
            a.error == "" <==> result.Resolved?
  {
    if result.Rejected? {
      ErrorTextNonEmpty(result.detail, LoginFailed);
    }
  }

  /** The login screen's state. */
  class LoginForm {
    var email: string
    var password: string
    var loading: bool
    var error: string

    constructor()
      ensures email == "" && password == "" && !loading && error == ""
    {
      email, password := "", "";
      loading, error := false, "";
    }

    /**
     * `handleLogin`, with `result` standing for how `login` ends: the call
     * made and the new flags are those `Attempted` gives.
     */
    method HandleLogin(result: Outcome<()>) returns (request: Option<LoginCall>)
      modifies this`error, this`loading
      ensures Attempt(request, error, loading) ==
              Attempted(old(email), old(password), old(loading), result)
    {
      error := "";
      if !Complete(email, password) {
        error := FieldsRequired;
        return None;
      }
      loading := true;
      request := Some(LoginCall(Trim(email), password));
      match result {
        case Resolved(_) =>
        case Rejected(detail) =>
          error := ErrorText(detail, LoginFailed);
      }
      loading := false;
    }
  }
}
