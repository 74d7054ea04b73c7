/**
 * The dependency that guards authenticated pages: a request passes exactly
 * when its session holds a "user" key.
 */
module Auth {
  import opened Wrappers
  import opened Http
  import opened WebSession
  import opened FlashMessages

  /** The HTTP error raised to unauthenticated callers. */
  datatype Unauthorized = Unauthorized(statusCode: int, detail: string)

  const NotLoggedIn: Unauthorized := Unauthorized(401, "Вы не авторизованы.")

  /** `auth_required`: reads the session and changes nothing. */
  function AuthRequired(session: SessionData): (r: Outcome<Unauthorized>)
    ensures r.Fail? <==> UserKey !in session
    ensures r.Fail? ==> r.error.statusCode == 401
  {
    if UserKey !in session then Fail(NotLoggedIn) else Pass
  }

  /** Only the presence of "user" matters, not what is stored under it. */
  lemma AuthDependsOnlyOnUserKey(s: SessionData, t: SessionData)
    requires (UserKey in s) == (UserKey in t)
    ensures AuthRequired(s) == AuthRequired(t)
  {
  }

  /** After logging a user in, the dependency never raises. */
  lemma AuthAfterLogin(session: SessionData, user: User)
    ensures AuthRequired(WithUser(session, user)) == Pass
  {
  }

  /** Flashing any series of messages, or taking them out, leaves the outcome as it was. */
  lemma AuthIgnoresFlash(session: SessionData, batch: seq<(string, FlashCategory)>)
    requires FlashMessages.WellFormed(session)
    ensures AuthRequired(FlashAll(session, batch)) == AuthRequired(session)
    ensures AuthRequired(Popped(session).1) == AuthRequired(session)
  {
    FlashAllQueues(session, batch);
  }

  /** Logging in leaves the flashed messages where they were. */
  lemma LoginKeepsMessages(session: SessionData, user: User)
    ensures Popped(WithUser(session, user)).0 == Popped(session).0
  {
  }
}
