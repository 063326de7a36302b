/** Requests, responses and what a handler or middleware does with them. */
module Http {
  import opened Wrappers
  import opened Documents
  import opened Collaborators

  /** One entry of an `errors` array: an express-validator result, or a `{ message }` object. */
  datatype Issue = FieldError(param: string, msg: string) | Message(message: string)

  /** The JSON (or text) a response carries. */
  datatype Body =
    | Msg(msg: string)                                              // { msg }
    | Error(error: string)                                          // { error }
    | Errors(errors: seq<Issue>)                                    // { errors: [...] }
    | Note(message: string)                                         // { message }
    | TokenReply(token: string)                                     // { token }
    | ProfileReply(profile: Profile)                                // { profile }, user as an id
    | PopulatedProfile(profile: Profile, owner: Option<UserSummary>)  // { profile }, user populated
    | UserReply(user: User)                                         // { user }
    | UserList(users: map<UserId, UserListing>)                     // [ user, ... ]
    | Text(text: string)                                            // a plain-text body
    | ServerError                                                   // { status: "Server error", message }

  /**
   * What a middleware or handler does with a request: hand it on with `next()`, send one
   * response, or throw an exception that escapes the async function, in which case
   * Express 4 sends nothing and does not call the next handler.
   */
  datatype Outcome = Next | Respond(status: nat, body: Body) | Uncaught

  /** `res.json(body)` and `res.send(body)` answer 200 unless a status was set. */
  function Ok(body: Body): Outcome
  {
    Respond(200, body)
  }

  /** The 500 every caught exception is answered with. */
  function Failed(): Outcome
  {
    Respond(500, ServerError)
  }

  /**
   * A JSON body value is truthy when it is present and not the empty string; only string
   * values are modelled.
   */
  predicate Truthy(body: map<string, string>, key: string)
  {
    key in body && body[key] != ""
  }

  /** An incoming request; the authentication middleware fills in `user`. */
  class Request {
    /** header names are lower case, as Node delivers them */
    const headers: map<string, string>
    const body: map<string, string>
    const params: map<string, string>
    var user: Option<Identity>

    constructor (headers: map<string, string>, body: map<string, string>, params: map<string, string>)
      ensures this.headers == headers && this.body == body && this.params == params && user == None
    {
      this.headers := headers;
      this.body := body;
      this.params := params;
      user := None;
    }
  }
}
