# A verified model of the MERN-stack-APP-1 request handlers

The repository is a small Express/Mongoose backend. Its logic is a set of request-decision
rules over two collections: users, keyed by `_id`, and profiles, keyed by the id of the
user who owns them. This project models that logic in Dafny and proves properties of it:

- the authentication middleware (`middleware/auth.js`);
- the admin-role middleware `authUser` (`middleware/middleware.js`);
- the profile create-or-update handler, with its field builder and the `skills` split-and-trim
  (`routers/api/profile/profile.js`);
- the own-profile lookup (`routers/api/profile/myProfile.js`);
- login (`routers/api/loginAuth.js`);
- the admin router (`routers/api/admin.js`): dashboard, registration, its copy of login,
  update, list and delete.

Every handler and middleware is a function of the stored collections and the request.
It returns an `Outcome`: call `next()`, send a status and body, or throw an exception
nothing catches. Handlers that write also return the new collection.

Each route is also a method over a `Db` object and a `Request` object, written the way the
handler runs, and its `ensures` ties the method to those functions. A method for a route
behind `auth` first runs `AuthMiddleware.Authenticate`, which sets `req.user`, as the Express route does. Two
parts have no method of their own. The admin gate `AdminGate.AuthUser` is called from
`AdminRoutes.Dashboard`. The login handler of `routers/api/loginAuth.js` is
`LoginRoute.Login`, whose method form is `AdminRoutes.AdminLogin`, the admin router's copy
of that handler.

The library calls are function-valued fields of `Collaborators.Env`, and nothing is assumed
about them:

- bcrypt `hash` and `compare`;
- jsonwebtoken `sign` and `verify`, which take the current time;
- `gravatar.url`;
- express-validator's `isEmail`;
- Mongoose's cast of a path parameter to an ObjectId;
- the schema's default role.

A lemma that needs a property of one of them, such as "compare accepts a plaintext against
its hash", states it as a precondition. Three things become parameters: the bcrypt salt,
the `_id` Mongoose assigns to a new document, and the clock.

The update, list and delete routes sit in the admin router, but only `GET /` is behind the
`authUser` role gate (`routers/api/admin.js:19`). The update, list and delete routes
(`routers/api/admin.js:192`, `:230`, `:247`) run authentication alone. The model keeps the
program's behaviour as written:

- update and delete act on the id in the path, whoever the requester is;
- update and list need no admin role, and neither does delete;
- registration hashes the password, but update stores it as sent and echoes it back;
- delete removes the user document only, so the user's profile stays in its collection.

The lemmas in `Journeys` spell out what this allows. `SelfPromotion` shows any authenticated user can make
themselves an admin. `DeleteOrphansProfile` shows a deleted user's profile stays behind.
`UpdatedPasswordIsPlaintext` shows an updated password is stored and compared as plaintext.

Files: `wrappers.dfy` (Option), `strings.dfy` (JavaScript `trim`, `split`, `join`),
`documents.dfy` (documents, store queries, the `Db` class), `collaborators.dfy`,
`http.dfy` (responses, the `Request` class), `auth.dfy`, `admin_gate.dfy`,
`profile.dfy`, `my_profile.dfy`, `login.dfy`, `admin.dfy`, `journeys.dfy`.

## Model

| member | source | states |
|---|---|---|
| JsStrings.Trim | routers/api/profile/profile.js:55 | `trim()` leaves no white space (ECMAScript WhiteSpace and LineTerminator) at either end |
| JsStrings.TrimIsSlice | routers/api/profile/profile.js:55 | the trimmed string is a slice of the input between a white-space prefix and a white-space suffix |
| JsStrings.TrimOfPadded | routers/api/profile/profile.js:55 | conversely, white space around a string with no white space at its ends is exactly what `trim` removes |
| JsStrings.TrimStartIsSuffix | routers/api/profile/profile.js:55 | dropping leading white space leaves a suffix, and only white space was dropped |
| JsStrings.TrimEndIsPrefix | routers/api/profile/profile.js:55 | dropping trailing white space leaves a prefix, and only white space was dropped |
| JsStrings.Split | routers/api/profile/profile.js:55 | `split(",")` gives one more piece than there are commas, none containing a comma |
| JsStrings.JoinSplit | routers/api/profile/profile.js:55 | joining the pieces with the separator gives back the input: order kept, nothing lost, empty pieces kept |
| JsStrings.SplitJoin | routers/api/profile/profile.js:55 | splitting a join of comma-free pieces gives back the pieces |
| JsStrings.TrimAll | routers/api/profile/profile.js:55 | `map(trim)` keeps the number of pieces |
| JsStrings.TrimAllAt | routers/api/profile/profile.js:55 | the k-th mapped piece is the k-th piece trimmed |
| Documents.FindByEmail | routers/api/admin.js:49 | `findOne({ email })` finds a user exactly when one has that email, and then a matching one |
| Documents.FindByUniqueEmail | routers/api/loginAuth.js:34 | with unique emails the lookup finds exactly the user holding the email |
| AuthMiddleware.Decide | middleware/auth.js:5-22 | no token when the `auth-token` header is missing or empty; a bad token when `verify` fails; otherwise the decoded `user` claim |
| AuthMiddleware.Reply | middleware/auth.js:8-22 | `next()` exactly when verified; a missing token is 401 "No token, authorization denied", a bad one 401 "Token is not valid" |
| AuthMiddleware.RejectionsDiffer | middleware/auth.js:8-22 | the two rejections are distinguishable responses |
| AuthMiddleware.OnlyTokenHeaderRead | middleware/auth.js:5 | the decision depends on no header but `auth-token` |
| AuthMiddleware.Authenticate | middleware/auth.js:3-23 | answers as Reply(Decide(..)); sets `req.user` to the claim on success and leaves it alone on rejection |
| AdminGate.AuthUser | middleware/middleware.js:9-21 | `next()` exactly when the stored role is exactly "Admin"; any other role is 403 "Your are unauthorized"; a missing requester throws uncaught |
| AdminGate.LowerCaseAdminRefused | middleware/middleware.js:17-19 | a stored role "admin" is refused: the comparison is case sensitive |
| ProfileRoute.ValidationErrors | routers/api/profile/profile.js:18-19 | no errors exactly when `status` and `skills` are both non-empty; exactly one error per blank field, status first, and nothing else |
| ProfileRoute.Skills | routers/api/profile/profile.js:54-56 | one skill per comma plus one, each the trimmed piece at that position, none with white space at its ends |
| ProfileRoute.SkillsOfPaddedList | routers/api/profile/profile.js:55 | a comma-joined list of skills, with white space around each, reads back as exactly that list |
| ProfileRoute.Pick | routers/api/profile/profile.js:48-53 | a field is taken exactly when its body value is truthy, and then with that value |
| ProfileRoute.SocialOf | routers/api/profile/profile.js:60-66 | `social` holds exactly the truthy links, each with its body value |
| ProfileRoute.ProfileFieldsOf | routers/api/profile/profile.js:46-66 | `profileFields.user` is the requester's id whatever the body says; each scalar field is present iff truthy, with its value; skills iff truthy, split and trimmed; social as SocialOf |
| ProfileRoute.BuildSocial | routers/api/profile/profile.js:60-66 | the step-by-step construction of `social` equals SocialOf |
| ProfileRoute.BuildProfileFields | routers/api/profile/profile.js:46-66 | the step-by-step construction of `profileFields` equals ProfileFieldsOf |
| ProfileRoute.Merge | routers/api/profile/profile.js:74-78 | `$set`: supplied fields overwrite, omitted ones keep their stored values, `social` is replaced whole |
| ProfileRoute.Upsert | routers/api/profile/profile.js:69-88 | only the owner's entry changes. An existing profile is merged and the collection keeps its size. Otherwise exactly one profile equal to the fields is added. The stored profile is returned |
| ProfileRoute.PostProfile | routers/api/profile/profile.js:22-88 | a blank status or skills is 400 with the errors and no change; otherwise 200 with the upserted profile, owned by the requester |
| ProfileRoute.PostProfileKeepsKeys | routers/api/profile/profile.js:69-88 | profiles stay keyed by their owner |
| ProfileRoute.UpdateOverwritesOnlySupplied | routers/api/profile/profile.js:71-80 | on update, truthy fields take the body's values, the others keep the stored ones, social is the links just sent, no profile is added |
| ProfileRoute.HandlePostProfile | routers/api/profile/profile.js:22-96 | the handler's response and new profiles collection are those of PostProfile |
| ProfileRoute.CreateOrUpdateProfile | routers/api/profile/profile.js:13-97 | authentication first: a rejection is its 401 with nothing written, a verified requester gets PostProfile |
| MyProfileRoute.Owner | routers/api/profile/myProfile.js:14-17 | the populated owner carries the id, name and avatar of the user, or nothing when the user is gone |
| MyProfileRoute.MyProfile | routers/api/profile/myProfile.js:14-24 | looked up by the requester's id alone: 400 "User Profile not found!" when absent, else 200 with the profile and its owner's name and avatar |
| MyProfileRoute.GetMyProfile | routers/api/profile/myProfile.js:12-32 | authentication then MyProfile; neither collection is written |
| LoginRoute.LoginErrors | routers/api/loginAuth.js:17-26 | no errors exactly when the email is an email and a password field is present (even empty); exactly one error per failed check, the email's first, and nothing else |
| LoginRoute.Login | routers/api/loginAuth.js:20-79 | validation errors are 400. An unknown email and a wrong password both get the same 400 "Invalid credentials". A stored user without a password is 500. A match gets a token for that user's id, signed with `expiresIn` 360000 |
| LoginRoute.TokenOnlyForMatchingPassword | routers/api/loginAuth.js:34-71 | a token is issued only when bcrypt accepts the password against the stored hash of the user found by email |
| LoginRoute.FailuresIndistinguishable | routers/api/loginAuth.js:36-52 | an unknown email and a wrong password get identical responses |
| AdminRoutes.Dashboard | routers/api/admin.js:19-21 | the admin page is sent exactly to a verified requester whose stored role is "Admin"; otherwise the gate's answer |
| AdminRoutes.RegisterErrors | routers/api/admin.js:30-43 | no errors exactly when name is non-empty, email is an email and the password has at least 6 characters; exactly one error per failed check, in chain order (name, email, password), and nothing else |
| AdminRoutes.Register | routers/api/admin.js:37-113 | see the note after the table |
| AdminRoutes.RegisterUser | routers/api/admin.js:27-114 | the step-by-step handler (plaintext first, then replaced by its hash, then saved) agrees with Register |
| AdminRoutes.AdminLogin | routers/api/admin.js:120-186 | the admin router's copy of the login handler answers exactly as LoginRoute.Login |
| AdminRoutes.ApplyUpdate | routers/api/admin.js:198-213 | every supplied field is stored as sent, the password unhashed; omitted fields are kept or cleared by the `$set` policy parameter; the id never changes |
| AdminRoutes.Update | routers/api/admin.js:192-226 | the row written is the one the path names. A path id that does not cast, or names no user, is 500 with no change. Otherwise 200 with the updated user, password included |
| AdminRoutes.UpdateUser | routers/api/admin.js:192-226 | authentication then Update. Which user is asking plays no part: the `User.find` result is always truthy |
| AdminRoutes.Listing | routers/api/admin.js:232 | a listed user keeps id, name, email and role; avatar and password are projected out |
| AdminRoutes.ListUsers | routers/api/admin.js:230-241 | 200 with every user and only users, each projected |
| AdminRoutes.GetUsers | routers/api/admin.js:230-241 | any authenticated requester gets ListUsers; no role check |
| AdminRoutes.Delete | routers/api/admin.js:247-259 | 201 "user deleted successfully" whether or not the user existed; only that user is removed; a path id that does not cast is 500 |
| AdminRoutes.DeleteUser | routers/api/admin.js:247-259 | any authenticated requester gets Delete; the profiles collection is not touched |
| Journeys.RegisterThenLogin | routers/api/admin.js:58-97 | after registering, logging in with the same email and password gives a token for the new user (given compare accepts a plaintext against its hash) |
| Journeys.RegisterThenWrongPassword | routers/api/loginAuth.js:46-52 | after registering, a password bcrypt refuses gets "Invalid credentials" |
| Journeys.RegisteredTokenAuthenticates | routers/api/admin.js:81-97 | within 360000 s of issue, the registration token passes the auth gate as the new user, given jsonwebtoken signs non-empty tokens and verifies what it signed before expiry; the admin gate lets them through iff the default role is "Admin" |
| Journeys.ProfileRoundTrip | routers/api/profile/myProfile.js:14-24 | after a successful profile post, the own-profile lookup returns that profile, with the split-and-trimmed skills and the sent status |
| Journeys.GoRustExample | routers/api/profile/profile.js:55 | "go, rust" becomes the skills ["go", "rust"] |
| Journeys.DeleteOrphansProfile | routers/api/admin.js:249 | after deleting a user, their profile is still found, the owner join is empty, and the admin gate throws for them |
| Journeys.UpdatedPasswordIsPlaintext | routers/api/admin.js:198-213 | after an update the stored password is the plaintext sent; a login with it succeeds iff compare accepts a plaintext as its own digest |
| Journeys.SelfPromotion | routers/api/admin.js:192-213 | any authenticated requester who sets role "Admin" on their own id passes the admin gate afterwards |

`AdminRoutes.Register` states:

- an invalid body is 400 with the validation errors;
- an email that is already used is 400 "User already exist";
- an `_id` that is already stored is 500;
- each of these three leaves the users unchanged;
- otherwise exactly one user is added, with the hashed password, the gravatar of the email
  and the default role, and the answer is a token for the new id;
- ids stay keyed and emails stay unique.

## Left out

- Storage failures, connection handling, logging and the async/callback structure. The
  500 branches are modelled only where an input causes them: a path id that fails to cast,
  a duplicate `_id` on save, `save()` on null, and bcrypt on a missing stored password.
- The catch block in `routers/api/profile/myProfile.js` refers to an undefined `err`, so a
  storage failure there would throw again. Storage failures are not modelled.
- The body of a 500 response (it echoes the raw error object) is a single `ServerError`.
- `jwt.sign`'s callback error, which would throw inside the callback, is not modelled:
  `sign` is total.
- Token expiry is inside the abstract `verify` (it takes the time). A lemma that needs
  a freshly signed token to verify says so in its precondition.
- A validation error is its field and message only. express-validator's `errors.array()`
  entries also carry the checked `value` and its `location`, so a password that fails the
  length check is echoed back in the 400 body. The model does not record that echo.
- Body values are strings or missing. Other JSON values (numbers, arrays, null) are not
  modelled, so neither is the throw of `skills.split` on a non-string.
- express-validator's `check` looks at every request location (body, query, params,
  headers, cookies). The model reads the body only.
- Header names are assumed to be lower case, as Node delivers them. Express's
  case-insensitive `req.header` lookup is not modelled separately.
- Documents.FindByEmail: `findOne` returns the first match in the collection's natural
  order. The model returns the match with the least id. The two agree whenever emails are
  unique. Registration refuses a taken email, but update stores whatever email it is sent
  and checks nothing. The schema's unique index is not part of this model. So after an
  update two users can share an email. On such a store `LoginRoute.Login` and
  `AdminRoutes.AdminLogin` answer for the least id, and the program may answer for another.
- AdminRoutes.RegisterErrors: the password's length is counted in characters (Unicode code
  points). Recent versions of validator's `isLength` also leave out the variation selectors
  U+FE0E and U+FE0F, and the model does not.
- AuthMiddleware.Decide: a verified payload always carries a `user` claim. A token
  without one, which would leave `req.user` undefined, is not modelled.
- AdminRoutes.Update: what Mongoose's `$set` does with a key whose value is `undefined`
  is the parameter `UndefinedKeys` (ignore the key or clear the field). Neither behaviour
  is claimed. `save()` on the updated document is a no-op.
- The user and profile schemas (`models/UserModel`, `models/ProfileModel`) are not part of
  this model. Unique indexes, schema validation and casting of field names are left out.
  So are the profile fields no handler here touches: experience, education, date. The
  default role is a parameter.
- `populate` also returns the owner's `_id`, so `UserSummary` carries it next to name and
  avatar.
- The list of users is keyed by id. The order of the JSON array is not modelled, and
  neither is the `__v` version key, which the projection drops.
- Stub routes (`routers/api/auth.js`, `post.js`, `profile.js`, `user.js`), `server.js`,
  `routers/userRoute.js` and `models/Database.js` are wiring, constant strings, or
  connection code. Posts, likes, comments, experience and education have no handler code
  in these files and are not modelled.
- No concurrency: each request is modelled as one step on the two collections.
