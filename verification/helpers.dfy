/** The login guard wrapped around every route that touches clients or projects. */
module Helpers {
  import opened Schema
  import opened Web

  /** Runs `handler` as the session's user, or sends the visitor to the login page without
      running it. The guard itself leaves the session and the database alone. */
  function LoginRequired(handler: (State, UserId) -> Reply, s: State, session: Session): (o: Outcome)
    ensures o.session == session
    ensures session.None? ==> o.state == s && o.response == Redirect(LoginPage)
    ensures session.Some? ==> Reply(o.state, o.response) == handler(s, session.value)
  {
    match session
    case None => Outcome(s, session, Redirect(LoginPage))
    case Some(uid) =>
      var r := handler(s, uid);
      Outcome(r.state, session, r.response)
  }
}
