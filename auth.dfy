/** The auth routes (routes/auth.ts): `POST /register`, `POST /login` and
    `POST /confirm`. Each validates its required fields, makes one call to the
    identity provider, and chooses the status from the provider's outcome. The
    provider calls, the token decoding and the session encryption are external:
    their results are parameters. */
module Auth {
  import opened Wrappers
  import opened JsText

  /** One call to the identity provider. */
  datatype ProviderCall =
    | SignUp(username: string, password: string, email: string, name: string, preferredUsername: string)
    | InitiateLogin(username: string, password: string)
    | ConfirmSignUp(username: string, code: string)

  /** The claims read (unverified) from the identity token. */
  datatype Claims = Claims(sub: Option<string>, email: Option<string>, cognitoUsername: Option<string>)

  datatype Body =
    | MessageBody(message: string)                                   // { message }
    | StatusBody(success: bool, message: string)                     // { success, message }
    | SignedUp(success: bool, message: string, statusCode: Option<int>) // { success, message, data }
    | LoggedIn(success: bool, user: string, userId: Option<string>, username: Option<string>)
    | ConfirmFailed(error: string, reason: Option<string>)            // { error, message }

  datatype Reply = Reply(status: int, body: Body)

  datatype Exchange = Exchange(calls: seq<ProviderCall>, reply: Reply)

  // ---------------------------------------------------------------------------
  // POST /register

  datatype RegisterForm = RegisterForm(username: Option<string>, password: Option<string>, email: Option<string>,
                                       name: Option<string>, preferredUsername: Option<string>)

  predicate RegisterComplete(f: RegisterForm) {
    Truthy(f.username) && Truthy(f.password) && Truthy(f.email) && Truthy(f.name) && Truthy(f.preferredUsername)
  }

  const RegisterRequired: string := "username, password, email, name and preferred_username are required"

  /** The handler for `POST /register`. A successful sign-up carries the
      provider's `$metadata.httpStatusCode`, which may be absent. */
  function Register(f: RegisterForm, signUp: Result<Option<int>, Thrown>): (x: Exchange)
    ensures !RegisterComplete(f) ==> x == Exchange([], Reply(400, StatusBody(false, RegisterRequired)))
    ensures RegisterComplete(f) ==>
      x.calls == [SignUp(f.username.value, f.password.value, f.email.value, f.name.value, f.preferredUsername.value)]
    ensures RegisterComplete(f) && signUp.Ok? ==>
      x.reply == Reply(signUp.value.GetOr(200), SignedUp(true, "signup_ok", signUp.value))
    ensures RegisterComplete(f) && signUp.Err? ==>
      x.reply == Reply(500, StatusBody(false, "Signup failed: " + Render(signUp.error.message)))
  {
    if !RegisterComplete(f) then
      Exchange([], Reply(400, StatusBody(false, RegisterRequired)))
    else
      var calls := [SignUp(f.username.value, f.password.value, f.email.value, f.name.value, f.preferredUsername.value)];
      match signUp
      case Ok(statusCode) => Exchange(calls, Reply(statusCode.GetOr(200), SignedUp(true, "signup_ok", statusCode)))
      case Err(err) => Exchange(calls, Reply(500, StatusBody(false, "Signup failed: " + Render(err.message))))
  }

  // ---------------------------------------------------------------------------
  // POST /login

  /** `err?.$metadata?.httpStatusCode || 500`: an absent or zero status gives 500. */
  function FailureStatus(err: Thrown): (s: int)
    ensures s != 0
    ensures err.statusCode.Some? && err.statusCode.value != 0 ==> s == err.statusCode.value
    ensures err.statusCode.None? || err.statusCode == Some(0) ==> s == 500
  {
    match err.statusCode
    case Some(c) => if c != 0 then c else 500
    case None => 500
  }

  /** The handler for `POST /login`. `login` is the provider's answer; `decoded`
      is what destructuring `jwt.decode(idToken).payload` gives: the claims, or
      the TypeError thrown when the token does not decode; `session` is the
      encrypted session payload. */
  function Login(username: Option<string>, password: Option<string>, login: Outcome<Thrown>,
                 decoded: Result<Claims, Thrown>, session: string): (x: Exchange)
    ensures !(Truthy(username) && Truthy(password)) ==>
      x == Exchange([], Reply(400, MessageBody("username and password required")))
    ensures Truthy(username) && Truthy(password) ==>
      x.calls == [InitiateLogin(username.value, password.value)]
    ensures Truthy(username) && Truthy(password) && login.Pass? && decoded.Ok? ==>
      x.reply == Reply(200, LoggedIn(true, session, decoded.value.sub, decoded.value.cognitoUsername))
    ensures Truthy(username) && Truthy(password) && login.Fail? ==>
      x.reply == Reply(FailureStatus(login.error), StatusBody(false, "Login failed: " + Render(login.error.message)))
    ensures Truthy(username) && Truthy(password) && login.Pass? && decoded.Err? ==>
      x.reply == Reply(FailureStatus(decoded.error), StatusBody(false, "Login failed: " + Render(decoded.error.message)))
  {
    if !Truthy(username) || !Truthy(password) then
      Exchange([], Reply(400, MessageBody("username and password required")))
    else
      var calls := [InitiateLogin(username.value, password.value)];
      match login
      case Fail(err) =>
        Exchange(calls, Reply(FailureStatus(err), StatusBody(false, "Login failed: " + Render(err.message))))
      case Pass =>
        match decoded
        case Err(err) =>
          Exchange(calls, Reply(FailureStatus(err), StatusBody(false, "Login failed: " + Render(err.message))))
        case Ok(claims) =>
          Exchange(calls, Reply(200, LoggedIn(true, session, claims.sub, claims.cognitoUsername)))
  }

  /** A login succeeds exactly when the fields are present, the provider accepts
      and the token decodes; every failure is answered with an error status. */
  lemma LoginStatus(username: Option<string>, password: Option<string>, login: Outcome<Thrown>,
                    decoded: Result<Claims, Thrown>, session: string)
    requires login.Fail? ==> login.error.statusCode.None? || login.error.statusCode.value >= 400
    requires decoded.Err? ==> decoded.error.statusCode.None?
    ensures var x := Login(username, password, login, decoded, session);
            (x.reply.status == 200 <==> Truthy(username) && Truthy(password) && login.Pass? && decoded.Ok?)
            && (x.reply.status != 200 ==> x.reply.status >= 400)
            && (login.Pass? && decoded.Err? && Truthy(username) && Truthy(password) ==> x.reply.status == 500)
  {
  }

  // ---------------------------------------------------------------------------
  // POST /confirm

  /** The message a successful confirmation answers with. */
  function Confirmed(username: string): string {
    "\U{2705} User " + username + " confirmed"
  }

  /** The handler for `POST /confirm`. */
  function Confirm(username: Option<string>, code: Option<string>, confirm: Outcome<Thrown>): (x: Exchange)
    ensures !(Truthy(username) && Truthy(code)) ==>
      x == Exchange([], Reply(400, StatusBody(false, "username and code required")))
    ensures Truthy(username) && Truthy(code) ==>
      x.calls == [ConfirmSignUp(username.value, code.value)]
      && (confirm.Pass? ==> x.reply == Reply(200, StatusBody(true, Confirmed(username.value))))
      && (confirm.Fail? ==>
            x.reply == Reply(500, ConfirmFailed("Failed to confirm user", confirm.error.message)))
  {
    if !Truthy(username) || !Truthy(code) then
      Exchange([], Reply(400, StatusBody(false, "username and code required")))
    else
      var calls := [ConfirmSignUp(username.value, code.value)];
      match confirm
      case Pass => Exchange(calls, Reply(200, StatusBody(true, Confirmed(username.value))))
      case Fail(err) => Exchange(calls, Reply(500, ConfirmFailed("Failed to confirm user", err.message)))
  }

  /** The confirmation message names the user verbatim. */
  lemma ConfirmedNamesUser(username: string)
    ensures var m := Confirmed(username);
            |m| == |username| + 17 && m[7..7 + |username|] == username
  {
  }
}
