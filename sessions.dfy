/**
 * The identity provider's session lookup (`supabase.auth.getSession()`), made
 * abstract: the handlers only ever see what the lookup returned, or that it threw.
 */
module Sessions {
  import opened Wrappers

  type UserId = string

  /** The signed-in user; the handlers use only `session.user.id`. */
  datatype Session = Session(userId: UserId, email: string)

  /**
   * Outcome of one session lookup. `Returned` carries the `session` (absent when
   * nobody is signed in) and the `error` field the provider reports beside it.
   */
  datatype SessionLookup =
    | Returned(session: Option<Session>, error: Option<string>)
    | Threw

  /** True when the lookup returned a session, i.e. `if (session)` is taken. */
  predicate SignedIn(lookup: SessionLookup)
  {
    lookup.Returned? && lookup.session.Some?
  }
}
