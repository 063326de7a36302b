/**
 * The admin router: the dashboard behind the admin-role gate, registration, its own copy
 * of the login handler, and update, list and delete over the users collection.  Update,
 * list and delete sit behind authentication only; none of them checks the role, and
 * update and delete act on whatever id the path names.
 */
module AdminRoutes {
  import opened Wrappers
  import opened Documents
  import opened Collaborators
  import opened Http
  import AuthMiddleware
  import AdminGate
  import LoginRoute

  const DashboardText := "Admin page"
  const NameRequired := "Name is required"
  const EmailRequired := "Email is required"
  const PasswordTooShort := "please enter a password with six or more character"
  const MinPasswordLength: nat := 6
  const UserExists := "User already exist"
  const DeletedMsg := "user deleted successfully"

  // GET / --------------------------------------------------------------------------------

  /** GET /: only a requester whose stored role is "Admin" sees the page. */
  method Dashboard(db: Db, req: Request, env: Env, now: nat) returns (out: Outcome)
    modifies req`user
    ensures var d := AuthMiddleware.Decide(req.headers, env, now);
      req.user == (if d.Verified? then Some(d.user) else old(req.user))
    ensures var d := AuthMiddleware.Decide(req.headers, env, now);
      && (out == Ok(Text(DashboardText)) <==>
            d.Verified? && d.user.id in db.users && db.users[d.user.id].role == Some(AdminGate.AdminRole))
      && (!d.Verified? ==> out == AuthMiddleware.Reply(d))
      && (d.Verified? && out != Ok(Text(DashboardText)) ==> out == AdminGate.AuthUser(db.users, d.user))
  {
    out := AuthMiddleware.Authenticate(req, env, now);
    if out.Next? {
      out := AdminGate.AuthUser(db.users, req.user.value);
      if out.Next? {
        out := Ok(Text(DashboardText));
      }
    }
  }

  // POST /users/add ----------------------------------------------------------------------

  /** The body passes `not().isEmpty()` on name, `isEmail()` on email and `isLength({ min: 6 })` on password. */
  predicate Acceptable(body: map<string, string>, env: Env)
  {
    && "name" in body && body["name"] != ""
    && "email" in body && env.isEmail(body["email"])
    && "password" in body && |body["password"]| >= MinPasswordLength
  }

  /** Where each of the three checks stands in the validator chain. */
  function CheckRank(e: Issue): nat
  {
    if e == FieldError("name", NameRequired) then 0
    else if e == FieldError("email", EmailRequired) then 1
    else 2
  }

  /**
   * `validationResult(req).array()`: one error per failed check, in chain order, and
   * nothing else.
   */
  function RegisterErrors(body: map<string, string>, env: Env): (errs: seq<Issue>)
    ensures errs == [] <==> Acceptable(body, env)
    ensures FieldError("name", NameRequired) in errs <==> ("name" !in body || body["name"] == "")
    ensures FieldError("email", EmailRequired) in errs <==> !("email" in body && env.isEmail(body["email"]))
    ensures FieldError("password", PasswordTooShort) in errs <==> !("password" in body && |body["password"]| >= MinPasswordLength)
    ensures forall e :: e in errs ==>
      e == FieldError("name", NameRequired) || e == FieldError("email", EmailRequired) || e == FieldError("password", PasswordTooShort)
    ensures |errs| == (if "name" in body && body["name"] != "" then 0 else 1)
                    + (if "email" in body && env.isEmail(body["email"]) then 0 else 1)
                    + (if "password" in body && |body["password"]| >= MinPasswordLength then 0 else 1)
    ensures forall i, j :: 0 <= i < j < |errs| ==> CheckRank(errs[i]) < CheckRank(errs[j])
  {
    (if "name" in body && body["name"] != "" then [] else [FieldError("name", NameRequired)])
    + (if "email" in body && env.isEmail(body["email"]) then [] else [FieldError("email", EmailRequired)])
    + (if "password" in body && |body["password"]| >= MinPasswordLength then [] else [FieldError("password", PasswordTooShort)])
  }

  /**
   * The handler.  An invalid body and a taken email are 400s; saving under an id that is
   * already stored fails as a 500; each leaves the collection as it was.  Otherwise exactly
   * one user is added, under the new id, with the hashed password and the email's avatar,
   * and a token for it is returned.  Unique emails stay unique.
   */
  function Register(users: Users, body: map<string, string>, env: Env, salt: string, newId: UserId, now: nat): (r: (Outcome, Users))
    ensures RegisterErrors(body, env) != [] ==> r == (Respond(400, Errors(RegisterErrors(body, env))), users)
    ensures Acceptable(body, env) && FindByEmail(users, body["email"]).Some? ==>
      r == (Respond(400, Errors([Message(UserExists)])), users)
    ensures Acceptable(body, env) && FindByEmail(users, body["email"]).None? && newId in users ==> r == (Failed(), users)
    ensures r.0 != Ok(TokenReply(TokenFor(env, newId, now))) ==> r.1 == users
    ensures r.0 == Ok(TokenReply(TokenFor(env, newId, now))) <==>
      Acceptable(body, env) && FindByEmail(users, body["email"]).None? && newId !in users
    ensures r.0 == Ok(TokenReply(TokenFor(env, newId, now))) ==>
      && r.1.Keys == users.Keys + {newId} && newId !in users
      && (forall id :: id in users ==> r.1[id] == users[id])
      && r.1[newId] == User(newId, Some(body["name"]), Some(body["email"]), Some(env.hash(body["password"], salt)),
                            Some(env.gravatar(body["email"], AvatarOptions)), env.defaultRole)
    ensures UsersKeyed(users) ==> UsersKeyed(r.1)
    ensures EmailsUnique(users) ==> EmailsUnique(r.1)
  {
    var errs := RegisterErrors(body, env);
    if errs != [] then (Respond(400, Errors(errs)), users)
    else if FindByEmail(users, body["email"]).Some? then (Respond(400, Errors([Message(UserExists)])), users)
    else if newId in users then (Failed(), users)
    else
      var u := User(newId, Some(body["name"]), Some(body["email"]), Some(env.hash(body["password"], salt)),
                    Some(env.gravatar(body["email"], AvatarOptions)), env.defaultRole);
      (Ok(TokenReply(TokenFor(env, newId, now))), users[newId := u])
  }

  /**
   * POST /users/add, as the handler runs it: the new document is built with the plaintext
   * password, which is then replaced by its hash before the document is saved.  `salt` is
   * what `bcrypt.genSalt(10)` returned and `newId` the `_id` Mongoose gave the document.
   */
  method RegisterUser(db: Db, req: Request, env: Env, salt: string, newId: UserId, now: nat) returns (out: Outcome)
    requires db.Valid()
    modifies db`users
    ensures db.Valid()
    ensures (out, db.users) == Register(old(db.users), req.body, env, salt, newId, now)
  {
    var errs := RegisterErrors(req.body, env);
    if errs != [] {
      return Respond(400, Errors(errs));
    }
    var name, email, password := req.body["name"], req.body["email"], req.body["password"];
    if FindByEmail(db.users, email).Some? {
      return Respond(400, Errors([Message(UserExists)]));
    }
    var avatar := env.gravatar(email, AvatarOptions);
    var user := User(newId, Some(name), Some(email), Some(password), Some(avatar), env.defaultRole);
    user := user.(password := Some(env.hash(password, salt)));
    if user.id in db.users {
      return Failed();
    }
    db.users := db.users[user.id := user];
    out := Ok(TokenReply(TokenFor(env, user.id, now)));
  }

  // POST /auth ---------------------------------------------------------------------------

  /** The router's own copy of the login handler behaves exactly as LoginRoute.Login. */
  method AdminLogin(db: Db, req: Request, env: Env, now: nat) returns (out: Outcome)
    ensures out == LoginRoute.Login(db.users, req.body, env, now)
  {
    var errs := LoginRoute.LoginErrors(req.body, env);
    if errs != [] {
      return Respond(400, Errors(errs));
    }
    var found := FindByEmail(db.users, req.body["email"]);
    if found.None? {
      return LoginRoute.Rejected();
    }
    var user := db.users[found.value];
    if user.password.None? {
      return Failed();
    }
    var isMatch := env.compare(req.body["password"], user.password.value);
    if !isMatch {
      return LoginRoute.Rejected();
    }
    out := Ok(TokenReply(TokenFor(env, user.id, now)));
  }

  // PUT /update/:user_id -----------------------------------------------------------------

  /**
   * What `$set` does with a key whose value is `undefined` (a field the body leaves out):
   * drop the key, or clear the field.  The model does not decide.
   */
  datatype UndefinedKeys = Ignored | Cleared

  function SetField(stored: Option<string>, supplied: Option<string>, policy: UndefinedKeys): Option<string>
  {
    if supplied.Some? then supplied else if policy.Ignored? then stored else None
  }

  function Supplied(body: map<string, string>, f: UserField): Option<string>
  {
    if UserKey(f) in body then Some(body[UserKey(f)]) else None
  }

  /**
   * `$set: { name, email, avatar, password, role }` on a user: every supplied field is
   * stored exactly as sent (the password too, unhashed), an empty string included.
   */
  function ApplyUpdate(u: User, body: map<string, string>, policy: UndefinedKeys): (r: User)
    ensures r.id == u.id
    ensures forall f :: UserKey(f) in body ==> Attr(r, f) == Some(body[UserKey(f)])
    ensures forall f :: UserKey(f) !in body && policy.Ignored? ==> Attr(r, f) == Attr(u, f)
    ensures forall f :: UserKey(f) !in body && policy.Cleared? ==> Attr(r, f) == None
  {
    User(u.id,
         SetField(u.name, Supplied(body, Name), policy),
         SetField(u.email, Supplied(body, Email), policy),
         SetField(u.password, Supplied(body, Password), policy),
         SetField(u.avatar, Supplied(body, Avatar), policy),
         SetField(u.role, Supplied(body, Role), policy))
  }

  /**
   * The handler, after authentication.  The row written is the one the path names; who
   * asks plays no part.  A path id that does not cast, or names no user, ends in a 500
   * (a CastError; `save()` on the null `findOneAndUpdate` returns); otherwise the
   * updated user, password included, is sent back.
   */
  function Update(users: Users, target: string, body: map<string, string>, env: Env, policy: UndefinedKeys): (r: (Outcome, Users))
    ensures env.castId(target).None? ==> r == (Failed(), users)
    ensures env.castId(target).Some? && env.castId(target).value !in users ==> r == (Failed(), users)
    ensures env.castId(target).Some? && env.castId(target).value in users ==>
      var id := env.castId(target).value;
      var u := ApplyUpdate(users[id], body, policy);
      r == (Ok(UserReply(u)), users[id := u])
    ensures UsersKeyed(users) ==> UsersKeyed(r.1)
  {
    match env.castId(target)
    case None => (Failed(), users)
    case Some(id) =>
      if id !in users then (Failed(), users)
      else
        var u := ApplyUpdate(users[id], body, policy);
        (Ok(UserReply(u)), users[id := u])
  }

  /**
   * PUT /update/:user_id.  The handler first runs `User.find({ _id: req.user.id })`, whose
   * result is an array and so always truthy: the requester is looked up and then ignored.
   */
  method UpdateUser(db: Db, req: Request, env: Env, now: nat, policy: UndefinedKeys) returns (out: Outcome)
    requires db.Valid() && "user_id" in req.params
    modifies req`user, db`users
    ensures var d := AuthMiddleware.Decide(req.headers, env, now);
      req.user == (if d.Verified? then Some(d.user) else old(req.user))
    ensures db.Valid()
    ensures var d := AuthMiddleware.Decide(req.headers, env, now);
      if d.Verified? then (out, db.users) == Update(old(db.users), req.params["user_id"], req.body, env, policy)
      else out == AuthMiddleware.Reply(d) && db.users == old(db.users)
  {
    out := AuthMiddleware.Authenticate(req, env, now);
    if !out.Next? {
      return;
    }
    var requester := if req.user.value.id in db.users then [db.users[req.user.value.id]] else [];
    var target := env.castId(req.params["user_id"]);
    if target.None? {
      return Failed();
    }
    if target.value !in db.users {
      return Failed();
    }
    var user := ApplyUpdate(db.users[target.value], req.body, policy);
    db.users := db.users[target.value := user];
    out := Ok(UserReply(user));
  }

  // GET /users ---------------------------------------------------------------------------

  /** `select("-avatar -__v -password")`: what is left of a user in the listing. */
  function Listing(u: User): (l: UserListing)
    ensures l.id == u.id && l.name == u.name && l.email == u.email && l.role == u.role
  {
    UserListing(u.id, u.name, u.email, u.role)
  }

  /** The handler: every user, and only users, with avatar, version key and password left out. */
  function ListUsers(users: Users): (out: Outcome)
    ensures out.Respond? && out.status == 200 && out.body.UserList?
    ensures out.body.users.Keys == users.Keys
    ensures forall id :: id in users ==> out.body.users[id] == Listing(users[id])
  {
    Ok(UserList(map id | id in users :: Listing(users[id])))
  }

  /** GET /users: any authenticated requester may list the users. */
  method GetUsers(db: Db, req: Request, env: Env, now: nat) returns (out: Outcome)
    modifies req`user
    ensures var d := AuthMiddleware.Decide(req.headers, env, now);
      req.user == (if d.Verified? then Some(d.user) else old(req.user))
    ensures var d := AuthMiddleware.Decide(req.headers, env, now);
      if d.Verified? then out == ListUsers(db.users) else out == AuthMiddleware.Reply(d)
  {
    out := AuthMiddleware.Authenticate(req, env, now);
    if out.Next? {
      out := ListUsers(db.users);
    }
  }

  // DELETE /delete/:user_id --------------------------------------------------------------

  /**
   * The handler: the user the path names is removed if there is one, and the answer is 201
   * either way; nothing else is removed.  A path id that does not cast is a 500.
   */
  function Delete(users: Users, target: string, env: Env): (r: (Outcome, Users))
    ensures env.castId(target).None? ==> r == (Failed(), users)
    ensures env.castId(target).Some? ==>
      var id := env.castId(target).value;
      && r.0 == Respond(201, Note(DeletedMsg))
      && r.1.Keys == users.Keys - {id}
      && forall u :: u in r.1 ==> r.1[u] == users[u]
  {
    match env.castId(target)
    case None => (Failed(), users)
    case Some(id) => (Respond(201, Note(DeletedMsg)), users - {id})
  }

  /** DELETE /delete/:user_id: any authenticated requester may delete any user; profiles stay. */
  method DeleteUser(db: Db, req: Request, env: Env, now: nat) returns (out: Outcome)
    requires db.Valid() && "user_id" in req.params
    modifies req`user, db`users
    ensures var d := AuthMiddleware.Decide(req.headers, env, now);
      req.user == (if d.Verified? then Some(d.user) else old(req.user))
    ensures db.Valid()
    ensures var d := AuthMiddleware.Decide(req.headers, env, now);
      if d.Verified? then (out, db.users) == Delete(old(db.users), req.params["user_id"], env)
      else out == AuthMiddleware.Reply(d) && db.users == old(db.users)
  {
    out := AuthMiddleware.Authenticate(req, env, now);
    if !out.Next? {
      return;
    }
    var target := env.castId(req.params["user_id"]);
    if target.None? {
      return Failed();
    }
    db.users := db.users - {target.value};
    out := Respond(201, Note(DeletedMsg));
  }
}
