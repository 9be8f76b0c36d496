/**
 * The session-to-user mapping of the authentication helper. The session the
 * authentication library returns is an input.
 */
module Auth0 {
  import opened Wrappers

  const FALLBACK_AVATAR: string := "/logo.svg"
  const FALLBACK_NAME: string := "User"
  const UNAUTHORIZED: string := "Unauthorized"

  /** The user claims of a session; `None` stands for `null` or `undefined`. */
  datatype SessionUser = SessionUser(
    sub: string,
    email: Option<string>,
    name: Option<string>,
    nickname: Option<string>,
    picture: Option<string>)

  datatype Session = Session(user: Option<SessionUser>)

  /** The application's view of the signed-in user. */
  datatype AuthUser = AuthUser(
    id: string,
    email: Option<string>,
    name: string,
    picture: string,
    raw: SessionUser)

  /** `mapUser`: each field falls back only when the claim is nullish, so an
      empty name is kept. */
  function MapUser(u: SessionUser): (r: AuthUser)
    ensures r.id == u.sub && r.email == u.email && r.raw == u
    ensures u.name.Some? ==> r.name == u.name.value
    ensures u.name.None? && u.nickname.Some? ==> r.name == u.nickname.value
    ensures u.name.None? && u.nickname.None? && u.email.Some? ==> r.name == u.email.value
    ensures r.name == FALLBACK_NAME <== (u.name.None? && u.nickname.None? && u.email.None?)
    ensures r.picture == (if u.picture.Some? then u.picture.value else FALLBACK_AVATAR)
  {
    AuthUser(
      u.sub,
      u.email,
      u.name.GetOr(u.nickname.GetOr(u.email.GetOr(FALLBACK_NAME))),
      u.picture.GetOr(FALLBACK_AVATAR),
      u)
  }

  /** `getOptionalUser`: no user without a session user. */
  function GetOptionalUser(session: Option<Session>): (r: Option<AuthUser>)
    ensures r.None? <==> session.None? || session.value.user.None?
    ensures r.Some? ==> r.value == MapUser(session.value.user.value)
  {
    if session.None? || session.value.user.None? then None
    else Some(MapUser(session.value.user.value))
  }

  /** What `requireUser` gives back: the user, or the error it throws. */
  datatype Required = Authorized(user: AuthUser) | Thrown(message: string)

  /** `requireUser`: throws "Unauthorized" exactly when there is no user. */
  function RequireUser(session: Option<Session>): (r: Required)
    ensures r.Thrown? <==> GetOptionalUser(session).None?
    ensures r.Thrown? ==> r.message == UNAUTHORIZED
    ensures r.Authorized? ==> Some(r.user) == GetOptionalUser(session)
  {
    match GetOptionalUser(session)
    case None => Thrown(UNAUTHORIZED)
    case Some(user) => Authorized(user)
  }

  /** The name is always one of the claims or the fallback. */
  lemma NameIsAClaimOrFallback(u: SessionUser)
    ensures var n := MapUser(u).name;
            Some(n) == u.name || Some(n) == u.nickname || Some(n) == u.email || n == FALLBACK_NAME
  {
  }
}
