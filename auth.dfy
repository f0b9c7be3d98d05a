/**
 * middleware/auth.ts: the request gate `isAuthenticated`, as a function of
 * the session cache, the `access_token` cookie, the access secret and the
 * clock, and the role check `authourizedRole`.
 */
module Auth {
  import opened Wrappers
  import opened Tokens
  import opened Users
  import opened Replies

  /** The part of an Express request the core reads and writes. */
  class Request {
    /** `req.cookies`, by cookie name. */
    const cookies: map<string, Jwt>
    /** `req.user`, set by the gate. */
    var user: Option<User>

    constructor (cookies: map<string, Jwt>, user: Option<User>)
      ensures this.cookies == cookies && this.user == user
    {
      this.cookies := cookies;
      this.user := user;
    }
  }

  /** `req.cookies[name]`, None when the request has no such cookie. */
  function Cookie(cookies: map<string, Jwt>, name: string): Option<Jwt>
  {
    if name in cookies then Some(cookies[name]) else None
  }

  const LoginRequired := "Please login to access this resource."
  const InvalidAccessToken := "Access token is not valid"
  const UserNotFound := "User is not found"

  /**
   * `isAuthenticated`: the cached user, or the message the request is
   * refused with (always with status 400). The token is accepted only when it
   * is signed with the access secret, has not expired and names a user id
   * that has a session.
   */
  function Gate(sessions: map<UserId, User>, accessToken: Option<Jwt>, secret: string, now: int): (r: Result<User, string>)
    ensures accessToken.None? || accessToken == Some(Blank) ==> r == Failure(LoginRequired)
    ensures accessToken.Some? && accessToken.value != Blank && Verify(accessToken, secret, now).Failure? ==>
      r == Failure(InvalidAccessToken)
    ensures var v := Verify(accessToken, secret, now);
      v.Success? && !(v.value.IdClaims? && v.value.id in sessions) ==> r == Failure(UserNotFound)
    ensures r.Success? <==>
      && secret != ""
      && accessToken.Some? && accessToken.value.Signed?
      && accessToken.value.secret == secret
      && now < accessToken.value.expiry
      && accessToken.value.payload.IdClaims?
      && accessToken.value.payload.id in sessions
    ensures r.Success? ==> r.value == sessions[accessToken.value.payload.id]
  {
    if accessToken.None? || accessToken.value == Blank then Failure(LoginRequired)
    else match Verify(accessToken, secret, now)
      case Failure(_) => Failure(InvalidAccessToken)
      case Success(claims) =>
        match SessionKey(claims)
        case None => Failure(UserNotFound)
        case Some(id) => if id in sessions then Success(sessions[id]) else Failure(UserNotFound)
  }

  /** `req.user?.role || ""` */
  function EffectiveRole(user: Option<User>): string
  {
    if user.Some? && user.value.role.Some? then user.value.role.value else ""
  }

  /** `${req?.user?.role}` in the refusal message. */
  function RoleText(user: Option<User>): string
  {
    if user.Some? && user.value.role.Some? then user.value.role.value else "undefined"
  }

  /**
   * `authourizedRole(...roles)`: None lets the request through; otherwise the
   * 403 refusal. A user without a role (or no user) passes only when "" is
   * one of the roles.
   */
  function AuthorizedRole(roles: seq<string>, user: Option<User>): (r: Option<Reply>)
    ensures r.None? <==>
      || (user.Some? && user.value.role.Some? && user.value.role.value in roles)
      || ((user.None? || user.value.role.None?) && "" in roles)
    ensures r.Some? ==>
      r.value == Fail(403, Text("Role : " + RoleText(user) + " is not allowed to access this resource"))
  {
    if EffectiveRole(user) in roles then None
    else Some(Fail(403, Text("Role : " + RoleText(user) + " is not allowed to access this resource")))
  }
}
