/** The four account screens of the app: login, signup, forgot password and
    new password. Each checks its inputs, then forms a request body; the
    screens normalise credentials differently. */
module AuthScreens {
  import opened Wrappers
  import opened Text
  import opened Js
  import Auth

  /** What a screen does on submit: an alert and no request, or a request. */
  datatype Submit<B> = Alert(message: string) | Request(body: B)

  datatype Credentials = Credentials(email: string, password: string)
  datatype Registration = Registration(username: string, email: string, password: string)

  /** `handleLogin`: the raw fields are checked, the trimmed and lower-cased
      email and the trimmed password are sent. */
  function LoginSubmit(email: string, password: string): (s: Submit<Credentials>)
    ensures s.Alert? <==> email == "" || password == ""
    ensures s.Alert? ==> s.message == "Please fill in all fields"
    ensures s.Request? ==> s.body == Credentials(Lower(Trim(email)), Trim(password))
  {
    if email == "" || password == "" then Alert("Please fill in all fields")
    else Request(Credentials(Lower(Trim(email)), Trim(password)))
  }

  /** A whitespace-only email passes the check and is sent empty. */
  lemma BlankEmailSentEmpty(email: string, password: string)
    requires email != "" && AllSpace(email) && password != ""
    ensures LoginSubmit(email, password) == Request(Credentials("", Trim(password)))
  {
    TrimEmptyIffAllSpace(email);
  }

  /** The sent email has no upper-case letter and no surrounding space. */
  lemma LoginEmailNormalised(email: string, password: string)
    requires LoginSubmit(email, password).Request?
    ensures !HasUpper(LoginSubmit(email, password).body.email)
    ensures Trimmed(LoginSubmit(email, password).body.email)
    ensures Trimmed(LoginSubmit(email, password).body.password)
  {
    LowerHasNoUpper(Trim(email));
    TrimIsTrimmed(email);
    LowerKeepsTrimmed(Trim(email));
    TrimIsTrimmed(password);
  }

  /** `data?.message || fallback`, the alert text of the login failure and
      of both outcomes of the forgot-password request. */
  function MessageOr(data: Value, fallback: string): (t: Value)
    requires fallback != ""
    ensures Truthy(t)
    ensures Truthy(Prop(data, "message")) ==> t == Prop(data, "message")
    ensures !Truthy(Prop(data, "message")) ==> t == Str(fallback)
  {
    Or(Prop(data, "message"), Str(fallback))
  }

  const LoginFailureDefault := "Try again."

  /** `handleSignUp`: the username and email are checked and sent trimmed,
      with case kept; the password is checked raw and sent unchanged. */
  function SignupSubmit(username: string, email: string, password: string): (s: Submit<Registration>)
    ensures s.Alert? <==> Trim(username) == "" || Trim(email) == "" || password == ""
    ensures s.Alert? ==> s.message == "Please fill in all the fields."
    ensures s.Request? ==> s.body == Registration(Trim(username), Trim(email), password)
  {
    if Trim(username) == "" || Trim(email) == "" || password == "" then Alert("Please fill in all the fields.")
    else Request(Registration(Trim(username), Trim(email), password))
  }

  /** A password of spaces only is accepted and sent as typed. */
  lemma BlankPasswordAccepted(username: string, email: string, password: string)
    requires Trim(username) != "" && Trim(email) != "" && password != "" && AllSpace(password)
    ensures SignupSubmit(username, email, password).Request?
    ensures SignupSubmit(username, email, password).body.password == password
  {
  }

  /** The fallbacks `message`, then `error`, then the default text. */
  function SignupFailureText(data: Value): (t: Value)
    ensures Truthy(t)
    ensures Truthy(Prop(data, "message")) ==> t == Prop(data, "message")
    ensures !Truthy(Prop(data, "message")) && Truthy(Prop(data, "error")) ==> t == Prop(data, "error")
    ensures !Truthy(Prop(data, "message")) && !Truthy(Prop(data, "error")) ==>
              t == Str("Something went wrong during signup. Please try again.")
  {
    Or(Or(Prop(data, "message"), Prop(data, "error")), Str("Something went wrong during signup. Please try again."))
  }

  /** `handleForgotPassword`: the raw email is checked, the trimmed and
      lower-cased email is sent. */
  function ForgotSubmit(email: string): (s: Submit<string>)
    ensures s.Alert? <==> email == ""
    ensures s.Alert? ==> s.message == "Please enter your email"
    ensures s.Request? ==> s.body == Lower(Trim(email)) && !HasUpper(s.body)
  {
    LowerHasNoUpper(Trim(email));
    if email == "" then Alert("Please enter your email") else Request(Lower(Trim(email)))
  }

  lemma BlankForgotEmailSentEmpty(email: string)
    requires email != "" && AllSpace(email)
    ensures ForgotSubmit(email) == Request("")
  {
    TrimEmptyIffAllSpace(email);
  }

  const ForgotSuccessDefault := "Password reset link sent"
  const ForgotFailureDefault := "Something went wrong, please try again"

  datatype NewPasswordRequest = NewPasswordRequest(path: string, newPassword: string)

  /** The path the screen posts to, before the token. */
  const ResetPathPrefix := "/api/auth/reset-password/"

  const MinPasswordLength := 6

  /** `handleResetPassword`: empty fields, then a mismatch, then a short
      password, measured in UTF-16 code units as JavaScript's `length`
      does; the request goes to the controller's reset path. */
  function NewPasswordSubmit(password: string, confirmPassword: string, token: string): (s: Submit<NewPasswordRequest>)
    ensures s.Request? <==> password != "" && password == confirmPassword && Utf16Length(password) >= MinPasswordLength
    ensures password == "" || confirmPassword == "" ==> s == Alert("Please fill in all fields")
    ensures password != "" && confirmPassword != "" && password != confirmPassword ==>
              s == Alert("Passwords do not match")
    ensures password != "" && password == confirmPassword && Utf16Length(password) < MinPasswordLength ==>
              s == Alert("Password must be at least 6 characters long")
    ensures s.Request? ==> s.body == NewPasswordRequest(ResetPathPrefix + token, password)
  {
    if password == "" || confirmPassword == "" then Alert("Please fill in all fields")
    else if password != confirmPassword then Alert("Passwords do not match")
    else if Utf16Length(password) < MinPasswordLength then Alert("Password must be at least 6 characters long")
    else Request(NewPasswordRequest(ResetPathPrefix + token, password))
  }

  /** Three emoji make a password long enough: each counts twice. */
  lemma ThreeEmojiAreLongEnough(token: string)
    ensures NewPasswordSubmit("\U{1F600}\U{1F600}\U{1F600}", "\U{1F600}\U{1F600}\U{1F600}", token).Request?
  {
    var e := "\U{1F600}\U{1F600}\U{1F600}";
    assert e[1..][1..][1..] == [];
  }

  // ---------------------------------------------------------------------
  // Across the screens and the server
  // ---------------------------------------------------------------------

  /** An account whose email was registered with an upper-case letter
      is never the one a login finds: the login email is lower-cased before
      the server's exact-match lookup, and signup keeps the case. */
  lemma UppercaseEmailNeverLogsIn(us: seq<Auth.User>, k: nat, username: string, email: string, password: string,
                                  typed: string, typedPassword: string)
    requires SignupSubmit(username, email, password).Request?
    requires HasUpper(SignupSubmit(username, email, password).body.email)
    requires k < |us| && us[k].email == SignupSubmit(username, email, password).body.email
    requires LoginSubmit(typed, typedPassword).Request?
    ensures Auth.IndexOfEmail(us, LoginSubmit(typed, typedPassword).body.email) != Some(k)
  {
    LoginEmailNormalised(typed, typedPassword);
  }

  /** A password registered with surrounding spaces never matches a login:
      the login password is trimmed, the signup password is not. */
  lemma PaddedPasswordNeverMatches(username: string, email: string, password: string, typed: string, typedPassword: string)
    requires SignupSubmit(username, email, password).Request?
    requires !Trimmed(password)
    requires LoginSubmit(typed, typedPassword).Request?
    ensures !Auth.Matches(LoginSubmit(typed, typedPassword).body.password,
                          Auth.Bcrypt(SignupSubmit(username, email, password).body.password))
  {
    LoginEmailNormalised(typed, typedPassword);
  }

  /** The routers the server mounts for accounts: the auth router, with
      its three POST paths, and the reset-password router. */
  const AuthMount := "/api/auth"
  const AuthPosts: seq<string> := ["/signup", "/login", "/forgot-password"]
  const ResetMount := "/api/reset-password"

  /** The new-password request reaches no handler: under the auth mount its
      rest is none of the auth router's paths, and it is not under the
      reset-password mount. */
  lemma NewPasswordPathUnrouted(password: string, confirmPassword: string, token: string)
    requires NewPasswordSubmit(password, confirmPassword, token).Request?
    ensures var p := NewPasswordSubmit(password, confirmPassword, token).body.path;
            StartsWith(p, AuthMount) && p[|AuthMount|..] !in AuthPosts && !StartsWith(p, ResetMount)
  {
    var p := ResetPathPrefix + token;
    assert p[..|AuthMount|] == AuthMount;
    var rest := p[|AuthMount|..];
    assert |rest| >= 16 && rest[1] == 'r';
    assert p[5] == 'a';
    assert ResetMount[5] == 'r';
  }
}
