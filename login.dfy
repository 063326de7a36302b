/** POST /auth: check an email and password and answer with a fresh token. */
module LoginRoute {
  import opened Wrappers
  import opened Documents
  import opened Collaborators
  import opened Http

  const EmailRequired := "Email is required"
  const PasswordRequired := "password is required!"
  const InvalidCredentials := "Invalid credentials"

  /**
   * `isEmail()` on `email` (a missing value is not an email) and `exists()` on `password`:
   * one error per failed check, the email's first, and nothing else.
   */
  function LoginErrors(body: map<string, string>, env: Env): (errs: seq<Issue>)
    ensures errs == [] <==> "email" in body && env.isEmail(body["email"]) && "password" in body
    ensures FieldError("email", EmailRequired) in errs <==> !("email" in body && env.isEmail(body["email"]))
    ensures FieldError("password", PasswordRequired) in errs <==> "password" !in body
    ensures forall e :: e in errs ==> e == FieldError("email", EmailRequired) || e == FieldError("password", PasswordRequired)
    ensures |errs| == (if "email" in body && env.isEmail(body["email"]) then 0 else 1) + (if "password" in body then 0 else 1)
    ensures |errs| == 2 ==> errs[0] == FieldError("email", EmailRequired)
  {
    (if "email" in body && env.isEmail(body["email"]) then [] else [FieldError("email", EmailRequired)])
    + (if "password" in body then [] else [FieldError("password", PasswordRequired)])
  }

  /** The one answer for an unknown email and for a wrong password alike. */
  function Rejected(): Outcome
  {
    Respond(400, Errors([Message(InvalidCredentials)]))
  }

  /**
   * The handler.  It only reads the users collection.  A token is issued exactly when the
   * body passes validation, a user has that email, and bcrypt accepts the password against
   * the stored hash; an unknown email and a wrong password get the same 400.  A user
   * document without a password makes bcrypt throw, which is caught as a 500.
   */
  function Login(users: Users, body: map<string, string>, env: Env, now: nat): (out: Outcome)
    ensures LoginErrors(body, env) != [] ==> out == Respond(400, Errors(LoginErrors(body, env)))
    ensures LoginErrors(body, env) == [] && FindByEmail(users, body["email"]).None? ==> out == Rejected()
    ensures LoginErrors(body, env) == [] && FindByEmail(users, body["email"]).Some? ==>
      var u := users[FindByEmail(users, body["email"]).value];
      out == if u.password.None? then Failed()
             else if env.compare(body["password"], u.password.value) then Ok(TokenReply(TokenFor(env, u.id, now)))
             else Rejected()
    ensures out.Respond? && out.status in {200, 400, 500}
  {
    var errs := LoginErrors(body, env);
    if errs != [] then Respond(400, Errors(errs))
    else match FindByEmail(users, body["email"])
      case None => Rejected()
      case Some(id) =>
        var u := users[id];
        if u.password.None? then Failed()
        else if !env.compare(body["password"], u.password.value) then Rejected()
        else Ok(TokenReply(TokenFor(env, u.id, now)))
  }

  /** The token goes only to the holder of the password of the user with the given email. */
  lemma TokenOnlyForMatchingPassword(users: Users, body: map<string, string>, env: Env, now: nat)
    requires UsersKeyed(users)
    requires Login(users, body, env, now).Respond? && Login(users, body, env, now).status == 200
    ensures "email" in body && "password" in body
    ensures var id := FindByEmail(users, body["email"]);
      && id.Some? && users[id.value].password.Some?
      && env.compare(body["password"], users[id.value].password.value)
      && Login(users, body, env, now) == Ok(TokenReply(TokenFor(env, id.value, now)))
  {
  }

  /** A wrong password and an unknown email cannot be told apart from the response. */
  lemma FailuresIndistinguishable(users: Users, known: map<string, string>, unknown: map<string, string>, env: Env, now: nat)
    requires LoginErrors(known, env) == [] && LoginErrors(unknown, env) == []
    requires FindByEmail(users, unknown["email"]).None?
    requires var id := FindByEmail(users, known["email"]);
      id.Some? && users[id.value].password.Some? && !env.compare(known["password"], users[id.value].password.value)
    ensures Login(users, known, env, now) == Login(users, unknown, env, now) == Rejected()
  {
  }
}
