/**
 * Properties that span several handlers: what one request leaves behind for the next.
 */
module Journeys {
  import opened Wrappers
  import opened JsStrings
  import opened Documents
  import opened Collaborators
  import opened Http
  import AuthMiddleware
  import AdminGate
  import ProfileRoute
  import MyProfileRoute
  import LoginRoute
  import AdminRoutes

  /** The body of a login request. */
  function Credentials(email: string, password: string): map<string, string>
  {
    map["email" := email, "password" := password]
  }

  /**
   * After a successful registration, logging in with the same email and password yields a
   * token for the new user, given that bcrypt accepts a plaintext against its own hash.
   */
  lemma RegisterThenLogin(users: Users, body: map<string, string>, env: Env, salt: string, newId: UserId, t: nat, now: nat)
    requires UsersKeyed(users)
    requires AdminRoutes.Register(users, body, env, salt, newId, t).0 == Ok(TokenReply(TokenFor(env, newId, t)))
    requires env.compare(body["password"], env.hash(body["password"], salt))
    ensures var after := AdminRoutes.Register(users, body, env, salt, newId, t).1;
      LoginRoute.Login(after, Credentials(body["email"], body["password"]), env, now) == Ok(TokenReply(TokenFor(env, newId, now)))
  {
    var after := AdminRoutes.Register(users, body, env, salt, newId, t).1;
    var email := body["email"];
    assert after[newId].email == Some(email);
    assert forall id :: id in after && id != newId ==> after[id].email != Some(email);
    var found := FindByEmail(after, email);
    assert found == Some(newId);
  }

  /**
   * After a successful registration, any other password is refused with the generic 400,
   * given that bcrypt accepts no other plaintext against the hash.
   */
  lemma RegisterThenWrongPassword(users: Users, body: map<string, string>, env: Env, salt: string, newId: UserId, t: nat, now: nat, guess: string)
    requires UsersKeyed(users)
    requires AdminRoutes.Register(users, body, env, salt, newId, t).0 == Ok(TokenReply(TokenFor(env, newId, t)))
    requires !env.compare(guess, env.hash(body["password"], salt))
    ensures var after := AdminRoutes.Register(users, body, env, salt, newId, t).1;
      LoginRoute.Login(after, Credentials(body["email"], guess), env, now) == LoginRoute.Rejected()
  {
    var after := AdminRoutes.Register(users, body, env, salt, newId, t).1;
    var email := body["email"];
    assert forall id :: id in after && id != newId ==> after[id].email != Some(email);
    assert FindByEmail(after, email) == Some(newId);
  }

  /**
   * The token a registration returns opens the authentication gate for the new user
   * within 360000 seconds of issue, given that jsonwebtoken signs a non-empty token and
   * verifies what it signed until the token expires; whether it also opens the admin gate
   * depends only on the schema's default role.
   */
  lemma RegisteredTokenAuthenticates(users: Users, body: map<string, string>, env: Env, salt: string, newId: UserId, t: nat, now: nat)
    requires AdminRoutes.Register(users, body, env, salt, newId, t).0 == Ok(TokenReply(TokenFor(env, newId, t)))
    requires forall p, l, i :: env.sign(p, l, i) != ""
    requires forall p, l: nat, i: nat, n: nat :: i <= n < i + l ==> env.verify(env.sign(p, l, i), n) == Some(p)
    requires t <= now < t + TokenLifetime
    ensures var after := AdminRoutes.Register(users, body, env, salt, newId, t).1;
      && AuthMiddleware.Decide(map[AuthMiddleware.TokenHeader := TokenFor(env, newId, t)], env, now) == AuthMiddleware.Verified(Identity(newId))
      && (AdminGate.AuthUser(after, Identity(newId)).Next? <==> env.defaultRole == Some(AdminGate.AdminRole))
  {
  }

  /**
   * Round trip: after a successful POST /profile by `requester`, GET /profile/me for the
   * same requester answers 200 with the stored profile, whose skills are the trimmed
   * comma-separated pieces that were sent.
   */
  lemma ProfileRoundTrip(users: Users, profiles: Profiles, requester: Identity, body: map<string, string>)
    requires ProfilesKeyed(profiles)
    requires ProfileRoute.ValidationErrors(body) == []
    ensures var (out, after) := ProfileRoute.PostProfile(profiles, requester, body);
      && out.Respond? && out.status == 200
      && MyProfileRoute.MyProfile(users, after, requester).Respond?
      && MyProfileRoute.MyProfile(users, after, requester).status == 200
      && MyProfileRoute.MyProfile(users, after, requester).body.profile == out.body.profile
      && out.body.profile.skills == Some(ProfileRoute.Skills(body["skills"]))
      && out.body.profile.status == Some(body["status"])
  {
  }

  /**
   * An example: a profile posted with skills "go, rust" reads back with the skills
   * ["go", "rust"].
   */
  lemma GoRustExample()
    ensures ProfileRoute.Skills("go, rust") == ["go", "rust"]
  {
    var pieces := ["go", "rust"];
    var pads := [("", ""), (" ", "")];
    ProfileRoute.SkillsOfPaddedList(pieces, pads);
    var padded := seq(|pieces|, i requires 0 <= i < |pieces| => pads[i].0 + pieces[i] + pads[i].1);
    assert padded[0] == "go" && padded[1] == " rust";
    assert padded == ["go", " rust"];
    assert padded[1..] == [" rust"];
    assert Join([" rust"], ',') == " rust";
    assert Join(padded, ',') == "go" + [','] + " rust";
    assert "go" + [','] + " rust" == "go, rust";
  }

  /**
   * Deleting a user leaves their profile behind: GET /profile/me for that id still finds
   * it, but the join finds no owner.  The admin gate, by contrast, throws for that id.
   */
  lemma DeleteOrphansProfile(users: Users, profiles: Profiles, target: string, env: Env)
    requires ProfilesKeyed(profiles)
    requires env.castId(target).Some? && env.castId(target).value in profiles
    ensures var id := env.castId(target).value;
      var after := AdminRoutes.Delete(users, target, env).1;
      && MyProfileRoute.MyProfile(after, profiles, Identity(id)) == Ok(PopulatedProfile(profiles[id], None))
      && AdminGate.AuthUser(after, Identity(id)) == Uncaught
  {
  }

  /**
   * Update stores the password as sent, so the next login compares the plaintext against
   * itself: it succeeds exactly when bcrypt accepts a plaintext as its own digest.
   */
  lemma UpdatedPasswordIsPlaintext(users: Users, target: string, body: map<string, string>, env: Env,
                                   policy: AdminRoutes.UndefinedKeys, now: nat)
    requires UsersKeyed(users)
    requires env.castId(target).Some? && env.castId(target).value in users
    requires "password" in body && "email" in body && env.isEmail(body["email"])
    requires forall id :: id in users && id != env.castId(target).value ==> users[id].email != Some(body["email"])
    ensures var id := env.castId(target).value;
      var after := AdminRoutes.Update(users, target, body, env, policy).1;
      && after[id].password == Some(body["password"])
      && (LoginRoute.Login(after, Credentials(body["email"], body["password"]), env, now) == Ok(TokenReply(TokenFor(env, id, now)))
          <==> env.compare(body["password"], body["password"]))
  {
    var id := env.castId(target).value;
    var after := AdminRoutes.Update(users, target, body, env, policy).1;
    assert Attr(after[id], Email) == Some(body[UserKey(Email)]);
    assert Attr(after[id], Password) == Some(body[UserKey(Password)]);
    assert FindByEmail(after, body["email"]) == Some(id);
  }

  /**
   * Update has no role check: any authenticated requester who sends role "Admin" for
   * their own id passes the admin gate afterwards.
   */
  lemma SelfPromotion(users: Users, target: string, body: map<string, string>, env: Env, policy: AdminRoutes.UndefinedKeys)
    requires env.castId(target).Some? && env.castId(target).value in users
    requires "role" in body && body["role"] == AdminGate.AdminRole
    ensures var id := env.castId(target).value;
      AdminGate.AuthUser(AdminRoutes.Update(users, target, body, env, policy).1, Identity(id)) == Next
  {
    var id := env.castId(target).value;
    var after := AdminRoutes.Update(users, target, body, env, policy).1;
    assert Attr(after[id], Role) == Some(body[UserKey(Role)]);
  }
}
