/** Accounts: the user table, signup, login and the two password-reset
    schemes. The auth router stores a random reset token with a one-hour
    expiry on the user and the reset-password router consumes it; the auth
    controller instead mails a short-lived JWT and trusts any valid JWT on
    reset. Hashing, signing, random tokens, mail and the clock are
    parameters or uninterpreted values. */
module Auth {
  import opened Wrappers

  /** `bcrypt.hash(plain, 10)`; `bcrypt.compare(plain, h)` holds exactly
      when `h` is the hash of `plain` (the salt is not modelled). */
  datatype Hash = Bcrypt(plain: string)

  predicate Matches(plain: string, h: Hash) {
    h == Bcrypt(plain)
  }

  /** The claims of a signed JWT: `{ id }`, the issue time and the
      `expiresIn` lifetime, both in seconds. */
  datatype Jwt = Jwt(id: nat, issuedAt: nat, lifetime: nat)

  const SevenDays: nat := 7 * 24 * 60 * 60
  const OneDay: nat := 24 * 60 * 60
  const FifteenMinutes: nat := 15 * 60

  /** The reset window of the auth router, in milliseconds. */
  const ResetWindow: nat := 3600000

  /** `jwt.verify`: the signature checks (`claims` is Some) and the token
      has not expired at `now`. */
  predicate Accepts(claims: Option<Jwt>, now: nat) {
    claims.Some? && now < claims.value.issuedAt + claims.value.lifetime
  }

  datatype User = User(
    id: nat, username: string, email: string, password: Hash,
    resetToken: Option<string>, resetExpire: Option<nat>)

  /** `findOne({ email })`. */
  function IndexOfEmail(us: seq<User>, email: string): (k: Option<nat>)
    ensures k.Some? ==> k.value < |us| && us[k.value].email == email
    ensures k.None? <==> forall i :: 0 <= i < |us| ==> us[i].email != email
  {
    if us == [] then None
    else if us[0].email == email then Some(0)
    else
      match IndexOfEmail(us[1..], email)
      case Some(k) => Some(k + 1)
      case None =>
        assert forall i :: 1 <= i < |us| ==> us[i] == us[1..][i - 1];
        None
  }

  /** `resetPasswordToken: token, resetPasswordExpire: { $gt: now }`. */
  predicate HoldsResetToken(u: User, token: string, now: nat) {
    u.resetToken == Some(token) && u.resetExpire.Some? && u.resetExpire.value > now
  }

  function IndexOfResetToken(us: seq<User>, token: string, now: nat): (k: Option<nat>)
    ensures k.Some? ==> k.value < |us| && HoldsResetToken(us[k.value], token, now)
    ensures k.None? <==> forall i :: 0 <= i < |us| ==> !HoldsResetToken(us[i], token, now)
  {
    if us == [] then None
    else if HoldsResetToken(us[0], token, now) then Some(0)
    else
      match IndexOfResetToken(us[1..], token, now)
      case Some(k) => Some(k + 1)
      case None =>
        assert forall i :: 1 <= i < |us| ==> us[i] == us[1..][i - 1];
        None
  }

  /** `findByIdAndUpdate(id, { password: h })`: the user with that id, if
      any, gets the new hash; nothing else changes. */
  function SetPassword(us: seq<User>, id: nat, h: Hash): (out: seq<User>)
    ensures |out| == |us|
    ensures forall i :: 0 <= i < |us| ==>
              out[i] == if us[i].id == id then us[i].(password := h) else us[i]
  {
    seq(|us|, i requires 0 <= i < |us| => if us[i].id == id then us[i].(password := h) else us[i])
  }

  /** The POST of the reset-password router: new hash, reset fields cleared. */
  function Cleared(u: User, password: string): (v: User)
    ensures v.id == u.id && v.email == u.email && v.username == u.username
    ensures v.password == Bcrypt(password) && v.resetToken.None? && v.resetExpire.None?
  {
    u.(password := Bcrypt(password), resetToken := None, resetExpire := None)
  }

  predicate EmailsDistinct(us: seq<User>) {
    forall i, j :: 0 <= i < j < |us| ==> us[i].email != us[j].email
  }

  /** Replacing one user by one with the same email keeps emails distinct. */
  lemma SameEmailKeepsDistinct(us: seq<User>, k: nat, v: User)
    requires EmailsDistinct(us) && k < |us| && v.email == us[k].email
    ensures EmailsDistinct(us[k := v])
  {
    var out := us[k := v];
    forall i, j | 0 <= i < j < |out|
      ensures out[i].email != out[j].email
    {
      assert out[i].email == us[i].email && out[j].email == us[j].email;
    }
  }

  /** A reset token works once: after the reset it is held by nobody,
      whatever the time, provided no other user was holding it. */
  lemma {:induction false} ResetTokenSingleUse(us: seq<User>, k: nat, token: string, password: string, now: nat, later: nat)
    requires IndexOfResetToken(us, token, now) == Some(k)
    requires forall j :: 0 <= j < |us| && j != k ==> us[j].resetToken != Some(token)
    ensures IndexOfResetToken(us[k := Cleared(us[k], password)], token, later).None?
  {
    var out := us[k := Cleared(us[k], password)];
    forall i | 0 <= i < |out|
      ensures !HoldsResetToken(out[i], token, later)
    {
      if i != k {
        assert out[i] == us[i];
      }
    }
  }

  /** The email a forgot-password request sends. */
  datatype ResetMail = ResetMail(to: string, link: string)

  datatype SignupReply = SignedUp(message: string) | SignupRefused(message: string)

  datatype LoginReply =
    | LoggedIn(greeting: Option<string>, token: Jwt, id: Option<nat>, email: string, username: string)
    | LoginRefused(message: string)

  datatype ForgotReply = ForgotReply(status: nat, message: string)

  datatype ResetReply = ResetReply(status: nat, message: string)

  /** The HTML pages of the reset-password router. */
  datatype Page = InvalidToken | ResetForm(action: string) | PasswordsDiffer | PasswordUpdated

  /** The GET of the reset-password router. */
  function ResetPage(us: seq<User>, token: string, now: nat): (page: Page)
    ensures page.ResetForm? <==> exists i :: 0 <= i < |us| && HoldsResetToken(us[i], token, now)
    ensures page.ResetForm? ==> page.action == "/api/reset-password/" + token
    ensures !page.ResetForm? ==> page == InvalidToken
  {
    if IndexOfResetToken(us, token, now).Some? then ResetForm("/api/reset-password/" + token) else InvalidToken
  }

  class UserTable {
    var users: seq<User>
    var nextId: nat

    ghost predicate Valid()
      reads this
    {
      && EmailsDistinct(users)
      && (forall i :: 0 <= i < |users| ==> users[i].id < nextId)
    }

    constructor ()
      ensures Valid() && users == []
    {
      users := [];
      nextId := 0;
    }

    method Insert(username: string, email: string, password: string)
      requires Valid() && IndexOfEmail(users, email).None?
      modifies this
      ensures Valid()
      ensures users == old(users) + [User(old(nextId), username, email, Bcrypt(password), None, None)]
      ensures nextId == old(nextId) + 1
    {
      users := users + [User(nextId, username, email, Bcrypt(password), None, None)];
      nextId := nextId + 1;
    }

    /** `POST /signup` of the auth router. */
    method Signup(username: string, email: string, password: string) returns (reply: SignupReply)
      requires Valid()
      modifies this
      ensures Valid()
      ensures IndexOfEmail(old(users), email).Some? ==>
                reply == SignupRefused("User already exists") && unchanged(this)
      ensures IndexOfEmail(old(users), email).None? ==>
                reply == SignedUp("User created successfully") &&
                users == old(users) + [User(old(nextId), username, email, Bcrypt(password), None, None)]
    {
      if IndexOfEmail(users, email).Some? {
        return SignupRefused("User already exists");
      }
      Insert(username, email, password);
      reply := SignedUp("User created successfully");
    }

    /** `signup` of the auth controller: the same steps, other messages. */
    method Register(username: string, email: string, password: string) returns (reply: SignupReply)
      requires Valid()
      modifies this
      ensures Valid()
      ensures IndexOfEmail(old(users), email).Some? ==>
                reply == SignupRefused("Email already exists") && unchanged(this)
      ensures IndexOfEmail(old(users), email).None? ==>
                reply == SignedUp("User registered successfully") &&
                users == old(users) + [User(old(nextId), username, email, Bcrypt(password), None, None)]
    {
      if IndexOfEmail(users, email).Some? {
        return SignupRefused("Email already exists");
      }
      Insert(username, email, password);
      reply := SignedUp("User registered successfully");
    }

    /** `POST /login` of the auth router: a 7-day token and the user's id,
        email and username; one message for both failures. */
    method Login(email: string, password: string, now: nat) returns (reply: LoginReply)
      ensures IndexOfEmail(users, email).None? ==> reply == LoginRefused("Invalid credentials")
      ensures IndexOfEmail(users, email).Some? ==>
                var u := users[IndexOfEmail(users, email).value];
                if Matches(password, u.password)
                then reply == LoggedIn(None, Jwt(u.id, now, SevenDays), Some(u.id), u.email, u.username)
                else reply == LoginRefused("Invalid credentials")
    {
      var k := IndexOfEmail(users, email);
      if k.None? {
        return LoginRefused("Invalid credentials");
      }
      var u := users[k.value];
      if !Matches(password, u.password) {
        return LoginRefused("Invalid credentials");
      }
      reply := LoggedIn(None, Jwt(u.id, now, SevenDays), Some(u.id), u.email, u.username);
    }

    /** `login` of the auth controller: a 1-day token, username and email. */
    method SignIn(email: string, password: string, now: nat) returns (reply: LoginReply)
      ensures IndexOfEmail(users, email).None? ==> reply == LoginRefused("Invalid email or password")
      ensures IndexOfEmail(users, email).Some? ==>
                var u := users[IndexOfEmail(users, email).value];
                if Matches(password, u.password)
                then reply == LoggedIn(Some("Login successful"), Jwt(u.id, now, OneDay), None, u.email, u.username)
                else reply == LoginRefused("Invalid email or password")
    {
      var k := IndexOfEmail(users, email);
      if k.None? {
        return LoginRefused("Invalid email or password");
      }
      var u := users[k.value];
      if !Matches(password, u.password) {
        return LoginRefused("Invalid email or password");
      }
      reply := LoggedIn(Some("Login successful"), Jwt(u.id, now, OneDay), None, u.email, u.username);
    }

    /** `POST /forgot-password` of the auth router. `token` stands for
        `randomBytes(32)`, `now` for `Date.now()` and `mailSent` for the
        outcome of `sendMail`; the token is saved before the mail goes out. */
    method ForgotPassword(email: string, token: string, now: nat, baseUrl: string, mailSent: bool)
      returns (reply: ForgotReply, mail: Option<ResetMail>)
      requires Valid()
      modifies this
      ensures Valid()
      ensures IndexOfEmail(old(users), email).None? ==>
                reply == ForgotReply(400, "User not found") && mail.None? && unchanged(this)
      ensures IndexOfEmail(old(users), email).Some? ==>
                var k := IndexOfEmail(old(users), email).value;
                && users == old(users)[k := old(users)[k].(resetToken := Some(token), resetExpire := Some(now + ResetWindow))]
                && mail == Some(ResetMail(old(users)[k].email, baseUrl + "/api/reset-password/" + token))
                && reply == if mailSent then ForgotReply(200, "Reset link sent to email")
                            else ForgotReply(500, "Error sending reset email")
    {
      var k := IndexOfEmail(users, email);
      if k.None? {
        return ForgotReply(400, "User not found"), None;
      }
      var u := users[k.value];
      var v := u.(resetToken := Some(token), resetExpire := Some(now + ResetWindow));
      SameEmailKeepsDistinct(users, k.value, v);
      users := users[k.value := v];
      mail := Some(ResetMail(u.email, baseUrl + "/api/reset-password/" + token));
      reply := if mailSent then ForgotReply(200, "Reset link sent to email")
               else ForgotReply(500, "Error sending reset email");
    }

    /** `forgotPassword` of the auth controller: a 15-minute JWT in the
        link, written out by `encode`; the table is not touched. */
    method MailResetJwt(email: string, now: nat, baseUrl: string, encode: Jwt -> string, mailSent: bool)
      returns (reply: ForgotReply, mail: Option<ResetMail>)
      ensures IndexOfEmail(users, email).None? ==> reply == ForgotReply(404, "User not found") && mail.None?
      ensures IndexOfEmail(users, email).Some? ==>
                var u := users[IndexOfEmail(users, email).value];
                && mail == Some(ResetMail(email, baseUrl + "/api/auth/reset-password/" + encode(Jwt(u.id, now, FifteenMinutes))))
                && reply == if mailSent then ForgotReply(200, "Reset link sent to email")
                            else ForgotReply(500, "Error sending email")
    {
      var k := IndexOfEmail(users, email);
      if k.None? {
        return ForgotReply(404, "User not found"), None;
      }
      var claims := Jwt(users[k.value].id, now, FifteenMinutes);
      mail := Some(ResetMail(email, baseUrl + "/api/auth/reset-password/" + encode(claims)));
      reply := if mailSent then ForgotReply(200, "Reset link sent to email")
               else ForgotReply(500, "Error sending email");
    }

    /** `resetPassword` of the auth controller: any JWT that verifies
        replaces the password of the user it names. */
    method ResetByJwt(claims: Option<Jwt>, newPassword: string, now: nat) returns (reply: ResetReply)
      requires Valid()
      modifies this
      ensures Valid()
      ensures !Accepts(claims, now) ==> reply == ResetReply(400, "Invalid or expired token") && unchanged(this)
      ensures Accepts(claims, now) ==>
                reply == ResetReply(200, "Password reset successful") &&
                users == SetPassword(old(users), claims.value.id, Bcrypt(newPassword))
    {
      if !Accepts(claims, now) {
        return ResetReply(400, "Invalid or expired token");
      }
      users := SetPassword(users, claims.value.id, Bcrypt(newPassword));
      reply := ResetReply(200, "Password reset successful");
    }

    /** The GET of the reset-password router. */
    method ShowResetForm(token: string, now: nat) returns (page: Page)
      ensures page == ResetPage(users, token, now)
    {
      var k := IndexOfResetToken(users, token, now);
      if k.None? {
        return InvalidToken;
      }
      page := ResetForm("/api/reset-password/" + token);
    }

    /** The POST of the reset-password router: the token is checked first,
        then the two passwords; only then is the user changed. */
    method ResetWithToken(token: string, password: string, confirmPassword: string, now: nat)
      returns (page: Page)
      requires Valid()
      modifies this
      ensures Valid()
      ensures IndexOfResetToken(old(users), token, now).None? ==> page == InvalidToken && unchanged(this)
      ensures IndexOfResetToken(old(users), token, now).Some? && password != confirmPassword ==>
                page == PasswordsDiffer && unchanged(this)
      ensures IndexOfResetToken(old(users), token, now).Some? && password == confirmPassword ==>
                var k := IndexOfResetToken(old(users), token, now).value;
                page == PasswordUpdated && users == old(users)[k := Cleared(old(users)[k], password)]
    {
      var k := IndexOfResetToken(users, token, now);
      if k.None? {
        return InvalidToken;
      }
      if password != confirmPassword {
        return PasswordsDiffer;
      }
      var v := Cleared(users[k.value], password);
      SameEmailKeepsDistinct(users, k.value, v);
      users := users[k.value := v];
      page := PasswordUpdated;
    }
  }

  /** A fresh reset token is accepted until its hour is over, and not at
      or after that instant. */
  lemma ResetTokenExpiresAfterAnHour(u: User, token: string, issued: nat, now: nat)
    requires u.resetToken == Some(token) && u.resetExpire == Some(issued + ResetWindow)
    ensures HoldsResetToken(u, token, now) <==> now < issued + ResetWindow
  {
  }

  /** The token the forgot-password route stores is the one the reset route
      then finds, for any instant before the hour is over, provided no other
      user holds the same token. */
  lemma StoredTokenIsFound(us: seq<User>, k: nat, token: string, now: nat, later: nat)
    requires k < |us| && later < now + ResetWindow
    requires forall j :: 0 <= j < |us| && j != k ==> us[j].resetToken != Some(token)
    ensures IndexOfResetToken(us[k := us[k].(resetToken := Some(token), resetExpire := Some(now + ResetWindow))],
                              token, later) == Some(k)
  {
    var out := us[k := us[k].(resetToken := Some(token), resetExpire := Some(now + ResetWindow))];
    assert HoldsResetToken(out[k], token, later);
  }

  /** The controller's reset takes any unexpired JWT of the same shape: a
      login token is as good as a mailed reset token for its whole day. */
  lemma LoginTokenResetsPassword(id: nat, issued: nat, elapsed: nat)
    ensures Accepts(Some(Jwt(id, issued, OneDay)), issued + elapsed) <==> elapsed < OneDay
    ensures Accepts(Some(Jwt(id, issued, FifteenMinutes)), issued + elapsed) <==> elapsed < FifteenMinutes
  {
  }
}
