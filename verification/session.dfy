/** The signed-in user as the route handlers see it. */
module Session {
  import opened Common

  /** The session's user; a field is `None` when the session lacks it. */
  datatype SessionUser = SessionUser(id: Option<string>, email: Option<string>)

  /** `session?.user && session.user.id && session.user.email`: a session
      user with a non-empty id and a non-empty email. */
  predicate ValidSession(session: Option<SessionUser>) {
    session.Some? && Truthy(session.value.id) && Truthy(session.value.email)
  }
}
