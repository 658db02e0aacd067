/** What the NextAuth `useSession()` hook hands a page: the session (absent
    when signed out) and the fetch status. The session user carries the
    optional profile fields below; the `id` and `role` the NextAuth callback
    also copies into it are read by none of the modelled pages, so the model
    leaves them out. */
module NextAuthSession {
  import opened Common

  datatype SessionUser = SessionUser(name: Option<string>, email: Option<string>, image: Option<string>)

  datatype Session = Session(user: Option<SessionUser>)

  datatype SessionStatus = Loading | Authenticated | Unauthenticated

  /** `!!session?.user`: a Google account is signed in. */
  predicate HasSessionUser(session: Option<Session>) {
    session.Some? && session.value.user.Some?
  }
}
