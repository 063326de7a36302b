/**
 * The authentication middleware: read the token from the `auth-token` header, reject the
 * request when it is missing or does not verify, otherwise attach the token's `user`
 * claim to the request and hand it on.
 */
module AuthMiddleware {
  import opened Wrappers
  import opened Collaborators
  import opened Http

  const TokenHeader := "auth-token"
  const NoTokenMsg := "No token, authorization denied"
  const BadTokenMsg := "Token is not valid"

  /** The middleware's three ways out. */
  datatype Decision = NoToken | BadToken | Verified(user: Identity)

  /** A header value counts as a token when it is present and not empty (`if (!token)`). */
  predicate HasToken(headers: map<string, string>)
  {
    TokenHeader in headers && headers[TokenHeader] != ""
  }

  function Decide(headers: map<string, string>, env: Env, now: nat): (d: Decision)
    ensures d.NoToken? <==> !HasToken(headers)
    ensures d.BadToken? <==> HasToken(headers) && env.verify(headers[TokenHeader], now).None?
    ensures d.Verified? ==> HasToken(headers) && env.verify(headers[TokenHeader], now) == Some(Payload(d.user))
  {
    if !HasToken(headers) then NoToken
    else match env.verify(headers[TokenHeader], now)
      case None => BadToken
      case Some(decoded) => Verified(decoded.user)
  }

  /** Only a verified token reaches `next()`; each rejection is a 401 with its own message. */
  function Reply(d: Decision): (out: Outcome)
    ensures out.Next? <==> d.Verified?
    ensures d.NoToken? ==> out == Respond(401, Msg(NoTokenMsg))
    ensures d.BadToken? ==> out == Respond(401, Msg(BadTokenMsg))
    ensures out != Uncaught
  {
    match d
    case NoToken => Respond(401, Msg(NoTokenMsg))
    case BadToken => Respond(401, Msg(BadTokenMsg))
    case Verified(_) => Next
  }

  /** A client can tell a missing token from a bad one. */
  lemma RejectionsDiffer()
    ensures Reply(NoToken) != Reply(BadToken)
  {
  }

  /** The decision reads no header but `auth-token`. */
  lemma OnlyTokenHeaderRead(h1: map<string, string>, h2: map<string, string>, env: Env, now: nat)
    requires (TokenHeader in h1) == (TokenHeader in h2)
    requires TokenHeader in h1 ==> h1[TokenHeader] == h2[TokenHeader]
    ensures Decide(h1, env, now) == Decide(h2, env, now)
  {
  }

  /**
   * The middleware on a request: on success `req.user` becomes the decoded `user` claim and
   * `next()` is called; on either rejection `req.user` is left alone.
   */
  method Authenticate(req: Request, env: Env, now: nat) returns (out: Outcome)
    modifies req`user
    ensures var d := Decide(req.headers, env, now);
      && out == Reply(d)
      && req.user == (if d.Verified? then Some(d.user) else old(req.user))
  {
    var token := if TokenHeader in req.headers then req.headers[TokenHeader] else "";
    if token == "" {
      return Respond(401, Msg(NoTokenMsg));
    }
    var decoded := env.verify(token, now);
    if decoded.None? {
      return Respond(401, Msg(BadTokenMsg));
    }
    req.user := Some(decoded.value.user);
    out := Next;
  }
}
