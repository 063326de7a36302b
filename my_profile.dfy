/** GET /profile/me: the requester's own profile, with its owner's name and avatar joined in. */
module MyProfileRoute {
  import opened Wrappers
  import opened Documents
  import opened Collaborators
  import opened Http
  import AuthMiddleware

  const NotFoundMsg := "User Profile not found!"

  /**
   * `populate("user", ["name", "avatar"])`: the owner's id, name and avatar, or nothing
   * when the owner's user document no longer exists.
   */
  function Owner(users: Users, id: UserId): (r: Option<UserSummary>)
    ensures r.Some? <==> id in users
    ensures r.Some? ==> r.value.id == id && r.value.name == users[id].name && r.value.avatar == users[id].avatar
  {
    if id in users then Some(UserSummary(id, users[id].name, users[id].avatar)) else None
  }

  /**
   * The handler, after authentication.  The lookup is keyed by the requester's identity
   * alone; a missing profile is a 400, a present one is returned with status 200.
   */
  function MyProfile(users: Users, profiles: Profiles, requester: Identity): (out: Outcome)
    ensures requester.id !in profiles ==> out == Respond(400, Errors([Message(NotFoundMsg)]))
    ensures requester.id in profiles ==>
      var p := profiles[requester.id];
      out == Ok(PopulatedProfile(p, Owner(users, p.user)))
  {
    if requester.id !in profiles then Respond(400, Errors([Message(NotFoundMsg)]))
    else
      var p := profiles[requester.id];
      Ok(PopulatedProfile(p, Owner(users, p.user)))
  }

  /** The route: the authentication middleware, then the handler; neither collection is written. */
  method GetMyProfile(db: Db, req: Request, env: Env, now: nat) returns (out: Outcome)
    modifies req`user
    ensures var d := AuthMiddleware.Decide(req.headers, env, now);
      req.user == (if d.Verified? then Some(d.user) else old(req.user))
    ensures var d := AuthMiddleware.Decide(req.headers, env, now);
      if d.Verified? then out == MyProfile(db.users, db.profiles, d.user)
      else out == AuthMiddleware.Reply(d)
  {
    out := AuthMiddleware.Authenticate(req, env, now);
    if out.Next? {
      var id := req.user.value.id;
      if id !in db.profiles {
        return Respond(400, Errors([Message(NotFoundMsg)]));
      }
      var profile := db.profiles[id];
      out := Ok(PopulatedProfile(profile, Owner(db.users, profile.user)));
    }
  }
}
