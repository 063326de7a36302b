/**
 * The two collections the handlers read and write: user documents keyed by `_id`, and
 * profile documents keyed by the id of the user who owns them.
 */
module Documents {
  import opened Wrappers

  /** A user document's `_id`; Mongoose casts path parameters to it (see Collaborators.Env). */
  type UserId = nat

  /** The fields of a user document the handlers set. */
  datatype UserField = Name | Email | Avatar | Password | Role

  /**
   * A stored user.  Every field but the id may be missing from a document: registration
   * fills them all in, but an update can replace or (depending on Mongoose) clear them.
   */
  datatype User = User(
    id: UserId,
    name: Option<string>,
    email: Option<string>,
    password: Option<string>,
    avatar: Option<string>,
    role: Option<string>)

  /** The request-body key that carries a user field. */
  function UserKey(f: UserField): string
  {
    match f
    case Name => "name"
    case Email => "email"
    case Avatar => "avatar"
    case Password => "password"
    case Role => "role"
  }

  function Attr(u: User, f: UserField): Option<string>
  {
    match f
    case Name => u.name
    case Email => u.email
    case Avatar => u.avatar
    case Password => u.password
    case Role => u.role
  }

  /** The single-valued string fields of a profile. */
  datatype ScalarField = Company | Website | Location | Status | Bio | GithubUsername

  function ScalarKey(f: ScalarField): string
  {
    match f
    case Company => "company"
    case Website => "website"
    case Location => "location"
    case Status => "status"
    case Bio => "bio"
    case GithubUsername => "githubUsername"
  }

  /** The links of a profile's `social` sub-document. */
  datatype SocialLink = YouTube | Twitter | LinkedIn | Facebook | Instagram

  function LinkKey(l: SocialLink): string
  {
    match l
    case YouTube => "youTube"
    case Twitter => "twitter"
    case LinkedIn => "linkedIn"
    case Facebook => "facebook"
    case Instagram => "instagram"
  }

  datatype Social = Social(
    youTube: Option<string>,
    twitter: Option<string>,
    linkedIn: Option<string>,
    facebook: Option<string>,
    instagram: Option<string>)

  function Link(s: Social, l: SocialLink): Option<string>
  {
    match l
    case YouTube => s.youTube
    case Twitter => s.twitter
    case LinkedIn => s.linkedIn
    case Facebook => s.facebook
    case Instagram => s.instagram
  }

  /**
   * A profile document, or the `profileFields` object the profile handler builds; `user`
   * is the owner's id.  The schema's other fields (experience, education, date) are not
   * touched by any handler modelled here.
   */
  datatype Profile = Profile(
    user: UserId,
    company: Option<string>,
    website: Option<string>,
    location: Option<string>,
    status: Option<string>,
    bio: Option<string>,
    githubUsername: Option<string>,
    skills: Option<seq<string>>,
    social: Social)

  function Scalar(p: Profile, f: ScalarField): Option<string>
  {
    match f
    case Company => p.company
    case Website => p.website
    case Location => p.location
    case Status => p.status
    case Bio => p.bio
    case GithubUsername => p.githubUsername
  }

  /** What `populate("user", ["name", "avatar"])` puts in place of a profile's user id. */
  datatype UserSummary = UserSummary(id: UserId, name: Option<string>, avatar: Option<string>)

  /** A user as `select("-avatar -__v -password")` lists it. */
  datatype UserListing = UserListing(id: UserId, name: Option<string>, email: Option<string>, role: Option<string>)

  type Users = map<UserId, User>
  type Profiles = map<UserId, Profile>

  /** Every user is stored under its own id. */
  ghost predicate UsersKeyed(users: Users)
  {
    forall id :: id in users ==> users[id].id == id
  }

  /** Every profile is stored under the id of the user it belongs to: one profile per user. */
  ghost predicate ProfilesKeyed(profiles: Profiles)
  {
    forall u :: u in profiles ==> profiles[u].user == u
  }

  /** No two users share an email address. */
  ghost predicate EmailsUnique(users: Users)
  {
    forall a, b :: a in users && b in users && users[a].email.Some? && users[a].email == users[b].email ==> a == b
  }

  /** Every non-empty finite set of ids has a least element. */
  lemma {:induction false} LeastOf(ids: set<UserId>) returns (m: UserId)
    requires ids != {}
    ensures m in ids && forall id :: id in ids ==> m <= id
  {
    var x :| x in ids;
    var rest := ids - {x};
    if rest == {} {
      assert ids == {x};
      m := x;
    } else {
      var k := LeastOf(rest);
      m := if x < k then x else k;
      forall id | id in ids ensures m <= id {
        if id != x { assert id in rest; }
      }
    }
  }

  lemma LeastExists(ids: set<UserId>)
    requires ids != {}
    ensures exists m :: m in ids && forall id :: id in ids ==> m <= id
  {
    var m := LeastOf(ids);
  }

  function Least(ids: set<UserId>): (m: UserId)
    requires ids != {}
    ensures m in ids && forall id :: id in ids ==> m <= id
  {
    LeastExists(ids);
    var m :| m in ids && forall id :: id in ids ==> m <= id;
    m
  }

  /**
   * `User.findOne({ email })`.  The model answers with the matching user of least id, a
   * deterministic stand-in for the collection's natural order; when emails are unique
   * (which registration preserves) it is the only match.
   */
  function FindByEmail(users: Users, email: string): (r: Option<UserId>)
    ensures r.None? <==> forall id :: id in users ==> users[id].email != Some(email)
    ensures r.Some? ==> r.value in users && users[r.value].email == Some(email)
    ensures r.Some? ==> forall id :: id in users && users[id].email == Some(email) ==> r.value <= id
  {
    var ids := set id | id in users && users[id].email == Some(email);
    assert forall id :: id in users && users[id].email == Some(email) ==> id in ids;
    if ids == {} then None else Some(Least(ids))
  }

  /** With unique emails, `findOne({ email })` finds exactly the user that has that email. */
  lemma FindByUniqueEmail(users: Users, id: UserId)
    requires EmailsUnique(users)
    requires id in users && users[id].email.Some?
    ensures FindByEmail(users, users[id].email.value) == Some(id)
  {
  }

  /** The database: both collections, replaced wholesale by the handlers that write them. */
  class Db {
    var users: Users
    var profiles: Profiles

    ghost predicate Valid()
      reads this
    {
      UsersKeyed(users) && ProfilesKeyed(profiles)
    }

    constructor (users: Users, profiles: Profiles)
      requires UsersKeyed(users) && ProfilesKeyed(profiles)
      ensures Valid() && this.users == users && this.profiles == profiles
    {
      this.users := users;
      this.profiles := profiles;
    }
  }
}
