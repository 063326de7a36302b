/** The admin-role middleware `authUser`, which runs after authentication. */
module AdminGate {
  import opened Wrappers
  import opened Documents
  import opened Collaborators
  import opened Http

  const AdminRole := "Admin"
  const DeniedMsg := "Your are unauthorized"

  /**
   * Look the requester up by `req.user.id` and let the request on only when the stored
   * role is exactly "Admin".  A requester with no user document makes `.role` throw
   * inside the async middleware, which nothing catches.
   */
  function AuthUser(users: Users, requester: Identity): (out: Outcome)
    ensures out == Uncaught <==> requester.id !in users
    ensures out.Next? <==> requester.id in users && users[requester.id].role == Some(AdminRole)
    ensures requester.id in users && users[requester.id].role != Some(AdminRole) ==>
      out == Respond(403, Error(DeniedMsg))
  {
    if requester.id !in users then Uncaught
    else if users[requester.id].role != Some(AdminRole) then Respond(403, Error(DeniedMsg))
    else Next
  }

  /** The comparison is case sensitive: a stored role of "admin" is refused. */
  lemma LowerCaseAdminRefused(users: Users, requester: Identity)
    requires requester.id in users && users[requester.id].role == Some("admin")
    ensures AuthUser(users, requester) == Respond(403, Error(DeniedMsg))
  {
  }
}
