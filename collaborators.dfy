/**
 * The library code the handlers call and this model does not look inside: bcrypt,
 * jsonwebtoken, gravatar, express-validator's `isEmail` and Mongoose's id casting.  Each
 * is a function-valued field of `Env`, so every lemma holds for every implementation of
 * them; where a lemma needs a property of one (bcrypt's compare accepts the hashed
 * plaintext, say) it states it as a precondition.
 */
module Collaborators {
  import opened Wrappers
  import opened Documents

  /** `req.user` and a token's `user` claim: `{ id }`. */
  datatype Identity = Identity(id: UserId)

  /** `{ user: { id } }`, the payload every token is signed over. */
  datatype Payload = Payload(user: Identity)

  /** The options of `gravatar.url(email, { s, r, d })`. */
  datatype GravatarOptions = GravatarOptions(size: string, rating: string, fallback: string)

  /** Registration asks for a 200-pixel, PG-rated avatar with the "mystery man" fallback. */
  const AvatarOptions := GravatarOptions("200", "pg", "mm")

  /** The `expiresIn` of every issued token, in seconds. */
  const TokenLifetime: nat := 360000

  datatype Env = Env(
    /** `bcrypt.hash(plaintext, salt)` */
    hash: (string, string) -> string,
    /** `bcrypt.compare(plaintext, digest)` */
    compare: (string, string) -> bool,
    /** `jwt.sign(payload, SECRET_KEY, { expiresIn })` at a given time in seconds */
    sign: (Payload, nat, nat) -> string,
    /** `jwt.verify(token, SECRET_KEY)` at a given time: None when it throws */
    verify: (string, nat) -> Option<Payload>,
    /** `gravatar.url(email, options)` */
    gravatar: (string, GravatarOptions) -> string,
    /** express-validator's `isEmail()` on a supplied value */
    isEmail: string -> bool,
    /** Mongoose's cast of a path parameter to an ObjectId: None is a CastError */
    castId: string -> Option<UserId>,
    /** the user schema's default for `role` (none when the schema sets none) */
    defaultRole: Option<string>)

  /** The token issued to a user on registration and on login. */
  function TokenFor(env: Env, id: UserId, now: nat): string
  {
    env.sign(Payload(Identity(id)), TokenLifetime, now)
  }
}
