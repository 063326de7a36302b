/**
 * POST /profile: validate, build `profileFields` from the truthy body fields, then update
 * the requester's profile with `$set` or create it.
 */
module ProfileRoute {
  import opened Wrappers
  import opened JsStrings
  import opened Documents
  import opened Collaborators
  import opened Http
  import AuthMiddleware

  const StatusRequired := "status is required"
  const SkillsRequired := "skills is required"

  /** express-validator's `isEmpty()`: the value, read as a string, is "" (a missing field too). */
  predicate Blank(body: map<string, string>, key: string)
  {
    key !in body || body[key] == ""
  }

  /** `not().isEmpty()` on `status`, then on `skills`: one error per failed check, in that order. */
  function ValidationErrors(body: map<string, string>): (errs: seq<Issue>)
    ensures errs == [] <==> !Blank(body, "status") && !Blank(body, "skills")
    ensures FieldError("status", StatusRequired) in errs <==> Blank(body, "status")
    ensures FieldError("skills", SkillsRequired) in errs <==> Blank(body, "skills")
    ensures forall e :: e in errs ==> e == FieldError("status", StatusRequired) || e == FieldError("skills", SkillsRequired)
    ensures |errs| == (if Blank(body, "status") then 1 else 0) + (if Blank(body, "skills") then 1 else 0)
    ensures |errs| == 2 ==> errs[0] == FieldError("status", StatusRequired)
  {
    (if Blank(body, "status") then [FieldError("status", StatusRequired)] else [])
    + (if Blank(body, "skills") then [FieldError("skills", SkillsRequired)] else [])
  }

  /**
   * `skills.split(",").map((skill) => skill.trim())`: one entry per comma-separated piece,
   * in order, each trimmed, empty pieces kept.
   */
  function Skills(s: string): (r: seq<string>)
    ensures |r| == Occurrences(s, ',') + 1
    ensures forall i :: 0 <= i < |r| ==> r[i] == Trim(Split(s, ',')[i])
    ensures forall i :: 0 <= i < |r| ==> Tight(r[i])
  {
    var pieces := Split(s, ',');
    var r := TrimAll(pieces);
    forall i | 0 <= i < |r| ensures r[i] == Trim(pieces[i]) {
      TrimAllAt(pieces, i);
    }
    r
  }

  /** The skills the handler would store for the list `pieces` typed with extra spaces. */
  lemma SkillsOfPaddedList(pieces: seq<string>, pads: seq<(string, string)>)
    requires pieces != [] && |pads| == |pieces|
    requires forall i :: 0 <= i < |pieces| ==> ',' !in pieces[i] && Tight(pieces[i])
    requires forall i :: 0 <= i < |pads| ==> AllSpace(pads[i].0) && AllSpace(pads[i].1)
    ensures Skills(Join(seq(|pieces|, i requires 0 <= i < |pieces| => pads[i].0 + pieces[i] + pads[i].1), ',')) == pieces
  {
    var padded := seq(|pieces|, i requires 0 <= i < |pieces| => pads[i].0 + pieces[i] + pads[i].1);
    forall i | 0 <= i < |padded| ensures ',' !in padded[i] {
      SpaceHasNoComma(pads[i].0);
      SpaceHasNoComma(pads[i].1);
      assert padded[i] == pads[i].0 + pieces[i] + pads[i].1;
    }
    SplitJoin(padded, ',');
    var r := Skills(Join(padded, ','));
    forall i | 0 <= i < |pieces| ensures r[i] == pieces[i] {
      TrimOfPadded(pads[i].0, pieces[i], pads[i].1);
    }
  }

  /** The value `if (field) profileFields.field = field` stores: the body value when truthy. */
  function Pick(body: map<string, string>, key: string): (v: Option<string>)
    ensures v.Some? <==> Truthy(body, key)
    ensures v.Some? ==> v.value == body[key]
  {
    if Truthy(body, key) then Some(body[key]) else None
  }

  /** `profileFields.social`: a fresh object holding exactly the truthy links. */
  function SocialOf(body: map<string, string>): (r: Social)
    ensures forall l :: Truthy(body, LinkKey(l)) ==> Link(r, l) == Some(body[LinkKey(l)])
    ensures forall l :: !Truthy(body, LinkKey(l)) ==> Link(r, l) == None
  {
    Social(Pick(body, "youTube"), Pick(body, "twitter"), Pick(body, "linkedIn"),
           Pick(body, "facebook"), Pick(body, "instagram"))
  }

  /**
   * `profileFields`: owned by the requester whatever the body says, with each scalar field
   * present exactly when its body value is truthy, and then with that value.
   */
  function ProfileFieldsOf(owner: UserId, body: map<string, string>): (r: Profile)
    ensures r.user == owner
    ensures forall f :: Truthy(body, ScalarKey(f)) ==> Scalar(r, f) == Some(body[ScalarKey(f)])
    ensures forall f :: !Truthy(body, ScalarKey(f)) ==> Scalar(r, f) == None
    ensures Truthy(body, "skills") ==> r.skills == Some(Skills(body["skills"]))
    ensures !Truthy(body, "skills") ==> r.skills == None
    ensures r.social == SocialOf(body)
  {
    Profile(owner, Pick(body, "company"), Pick(body, "website"), Pick(body, "location"),
            Pick(body, "status"), Pick(body, "bio"), Pick(body, "githubUsername"),
            if Truthy(body, "skills") then Some(Skills(body["skills"])) else None,
            SocialOf(body))
  }

  /** Builds `profileFields.social` one assignment at a time, as the handler does. */
  method BuildSocial(body: map<string, string>) returns (social: Social)
    ensures social == SocialOf(body)
  {
    social := Social(None, None, None, None, None);
    if Truthy(body, "youTube") { social := social.(youTube := Some(body["youTube"])); }
    assert social.youTube == Pick(body, "youTube");
    if Truthy(body, "twitter") { social := social.(twitter := Some(body["twitter"])); }
    assert social.twitter == Pick(body, "twitter");
    if Truthy(body, "linkedIn") { social := social.(linkedIn := Some(body["linkedIn"])); }
    assert social.linkedIn == Pick(body, "linkedIn");
    if Truthy(body, "facebook") { social := social.(facebook := Some(body["facebook"])); }
    assert social.facebook == Pick(body, "facebook");
    if Truthy(body, "instagram") { social := social.(instagram := Some(body["instagram"])); }
  }

  /** Builds `profileFields` one assignment at a time, as the handler does. */
  method BuildProfileFields(owner: UserId, body: map<string, string>) returns (fields: Profile)
    ensures fields == ProfileFieldsOf(owner, body)
  {
    var none := Social(None, None, None, None, None);
    fields := Profile(owner, None, None, None, None, None, None, None, none);
    if Truthy(body, "company") { fields := fields.(company := Some(body["company"])); }
    assert fields.company == Pick(body, "company");
    if Truthy(body, "website") { fields := fields.(website := Some(body["website"])); }
    assert fields.website == Pick(body, "website");
    if Truthy(body, "location") { fields := fields.(location := Some(body["location"])); }
    assert fields.location == Pick(body, "location");
    if Truthy(body, "status") { fields := fields.(status := Some(body["status"])); }
    assert fields.status == Pick(body, "status");
    if Truthy(body, "bio") { fields := fields.(bio := Some(body["bio"])); }
    assert fields.bio == Pick(body, "bio");
    if Truthy(body, "githubUsername") { fields := fields.(githubUsername := Some(body["githubUsername"])); }
    assert fields.githubUsername == Pick(body, "githubUsername");
    if Truthy(body, "skills") {
      var pieces := Split(body["skills"], ',');
      fields := fields.(skills := Some(TrimAll(pieces)));
    }
    var social := BuildSocial(body);
    fields := fields.(social := social);
  }

  function Override<T>(stored: Option<T>, supplied: Option<T>): Option<T>
  {
    if supplied.Some? then supplied else stored
  }

  /**
   * `$set: profileFields` on a stored profile: the keys present in `fields` are
   * overwritten, the others keep their stored values, and `social` is replaced whole.
   */
  function Merge(stored: Profile, fields: Profile): (r: Profile)
    ensures r.user == fields.user
    ensures forall f :: Scalar(fields, f).Some? ==> Scalar(r, f) == Scalar(fields, f)
    ensures forall f :: Scalar(fields, f).None? ==> Scalar(r, f) == Scalar(stored, f)
    ensures fields.skills.Some? ==> r.skills == fields.skills
    ensures fields.skills.None? ==> r.skills == stored.skills
    ensures r.social == fields.social
  {
    Profile(fields.user,
            Override(stored.company, fields.company), Override(stored.website, fields.website),
            Override(stored.location, fields.location), Override(stored.status, fields.status),
            Override(stored.bio, fields.bio), Override(stored.githubUsername, fields.githubUsername),
            Override(stored.skills, fields.skills), fields.social)
  }

  /**
   * Find the profile whose owner is `fields.user`; update it with `$set` if there is one,
   * else save `fields` as a new profile.  Either way only that owner's entry changes and
   * the stored document is returned.
   */
  function Upsert(profiles: Profiles, fields: Profile): (r: (Profiles, Profile))
    ensures r.1.user == fields.user
    ensures r.0.Keys == profiles.Keys + {fields.user} && r.0[fields.user] == r.1
    ensures forall u :: u in profiles && u != fields.user ==> r.0[u] == profiles[u]
    ensures fields.user in profiles ==> r.1 == Merge(profiles[fields.user], fields) && |r.0| == |profiles|
    ensures fields.user !in profiles ==> r.1 == fields && |r.0| == |profiles| + 1
  {
    var p := if fields.user in profiles then Merge(profiles[fields.user], fields) else fields;
    (profiles[fields.user := p], p)
  }

  /**
   * The handler, after authentication: a blank `status` or `skills` is a 400 carrying the
   * validation errors and leaves the collection as it was; otherwise the requester's
   * profile is upserted and returned with status 200.
   */
  function PostProfile(profiles: Profiles, requester: Identity, body: map<string, string>): (r: (Outcome, Profiles))
    ensures ValidationErrors(body) != [] ==> r == (Respond(400, Errors(ValidationErrors(body))), profiles)
    ensures ValidationErrors(body) == [] ==>
      var (stored, p) := Upsert(profiles, ProfileFieldsOf(requester.id, body));
      r == (Ok(ProfileReply(p)), stored)
    ensures r.0.Respond? && (r.0.status == 200 || r.0.status == 400)
    ensures r.0.status == 200 ==> r.0.body.ProfileReply? && r.0.body.profile.user == requester.id
  {
    var errs := ValidationErrors(body);
    if errs != [] then (Respond(400, Errors(errs)), profiles)
    else
      var (stored, p) := Upsert(profiles, ProfileFieldsOf(requester.id, body));
      (Ok(ProfileReply(p)), stored)
  }

  /** The collection stays keyed by owner: the handler writes only under `req.user.id`. */
  lemma PostProfileKeepsKeys(profiles: Profiles, requester: Identity, body: map<string, string>)
    requires ProfilesKeyed(profiles)
    ensures ProfilesKeyed(PostProfile(profiles, requester, body).1)
  {
  }

  /**
   * Updating an existing profile: a field the body supplies (truthy) takes the body's value,
   * a field it omits keeps the stored one, `social` holds only the links just sent, and no
   * profile is added.
   */
  lemma UpdateOverwritesOnlySupplied(profiles: Profiles, requester: Identity, body: map<string, string>, f: ScalarField)
    requires requester.id in profiles && ValidationErrors(body) == []
    ensures var (out, stored) := PostProfile(profiles, requester, body);
      && stored.Keys == profiles.Keys
      && (Truthy(body, ScalarKey(f)) ==> Scalar(stored[requester.id], f) == Some(body[ScalarKey(f)]))
      && (!Truthy(body, ScalarKey(f)) ==> Scalar(stored[requester.id], f) == Scalar(profiles[requester.id], f))
      && stored[requester.id].skills == Some(Skills(body["skills"]))
      && stored[requester.id].social == SocialOf(body)
  {
  }

  /** The handler as a method: validation, the field builder, find, then update or create. */
  method HandlePostProfile(db: Db, req: Request) returns (out: Outcome)
    requires db.Valid() && req.user.Some?
    modifies db`profiles
    ensures db.Valid()
    ensures (out, db.profiles) == PostProfile(old(db.profiles), req.user.value, req.body)
  {
    var errs := ValidationErrors(req.body);
    if errs != [] {
      return Respond(400, Errors(errs));
    }
    var fields := BuildProfileFields(req.user.value.id, req.body);
    if fields.user in db.profiles {
      var updated := Merge(db.profiles[fields.user], fields);
      db.profiles := db.profiles[fields.user := updated];
      return Ok(ProfileReply(updated));
    }
    db.profiles := db.profiles[fields.user := fields];
    out := Ok(ProfileReply(fields));
  }

  /** The route: the authentication middleware, then the handler. */
  method CreateOrUpdateProfile(db: Db, req: Request, env: Env, now: nat) returns (out: Outcome)
    requires db.Valid()
    modifies req`user, db`profiles
    ensures var d := AuthMiddleware.Decide(req.headers, env, now);
      req.user == (if d.Verified? then Some(d.user) else old(req.user))
    ensures db.Valid()
    ensures var d := AuthMiddleware.Decide(req.headers, env, now);
      if d.Verified? then (out, db.profiles) == PostProfile(old(db.profiles), d.user, req.body)
      else out == AuthMiddleware.Reply(d) && db.profiles == old(db.profiles)
  {
    out := AuthMiddleware.Authenticate(req, env, now);
    if out.Next? {
      out := HandlePostProfile(db, req);
    }
  }
}
