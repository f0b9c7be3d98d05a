/**
 * Requests in sequence against one server, each proved from the handlers'
 * contracts alone: the lifecycle properties that span several handlers.
 */
module Scenarios {
  import opened Wrappers
  import opened Tokens
  import opened Activation
  import opened Users
  import opened Replies
  import opened Auth
  import opened Server

  /**
   * Registering a free email and activating within five minutes with the
   * mailed code creates exactly that user; activating the same token again
   * is refused because the email now exists.
   */
  method RegisterThenActivate(s: AuthServer, name: string, email: string, password: string, r: nat, now: nat, delay: nat)
    returns (first: Reply, second: Reply)
    requires s.Valid() && email !in s.users && s.config.activationSecret != ""
    requires r < 9000 && delay < FiveMinutes
    modifies s`users, s`nextId
    ensures s.Valid()
    ensures first == Reply(201, Activated, [])
    ensures second == Fail(400, Text(EmailExists))
    ensures s.users == old(s.users)[email := User(old(s.nextId), name, email, Some(password), Some(DefaultRole), None)]
  {
    var registered, mail := s.RegisterUser(name, email, password, r, None, None, now);
    var token := Some(registered.body.activationToken);
    first := s.ActivationUser(token, mail.value.activationCode, now + delay);
    second := s.ActivationUser(token, mail.value.activationCode, now + delay);
  }

  /** A code other than the mailed one is refused, and so is the right code once five minutes have passed. */
  method ActivationRefusals(s: AuthServer, name: string, email: string, password: string, r: nat, now: nat, wrongCode: string)
    returns (wrong: Reply, late: Reply)
    requires s.Valid() && email !in s.users && s.config.activationSecret != ""
    requires r < 9000 && wrongCode != ActivationCode(r)
    modifies s`users, s`nextId
    ensures s.Valid() && s.users == old(s.users) && s.nextId == old(s.nextId)
    ensures wrong == Fail(400, Text(InvalidOtp))
    ensures late == Fail(400, JwtMessage(Expired))
  {
    var registered, mail := s.RegisterUser(name, email, password, r, None, None, now);
    var token := Some(registered.body.activationToken);
    wrong := s.ActivationUser(token, wrongCode, now);
    late := s.ActivationUser(token, mail.value.activationCode, now + FiveMinutes);
  }

  /**
   * After a successful login, a request carrying the access cookie it set
   * passes the gate until the token expires, and the gate hands on the
   * logged-in user.
   */
  method LoginThenAuthenticate(s: AuthServer, email: string, password: string, passwordMatches: (User, string) -> bool,
                               now: nat, delay: nat)
    returns (login: Reply, current: Option<User>)
    requires s.Valid() && email != "" && password != "" && email in s.users
    requires passwordMatches(s.users[email], password)
    requires s.config.accessSecret != "" && s.config.refreshSecret != "" && s.CookiesAccepted()
    requires delay < s.config.signAccessLifetime
    modifies s`sessions
    ensures s.Valid()
    ensures Succeeded(login) && login.status == 200
    ensures current == Some(s.users[email])
  {
    login := s.LoginUser(email, password, passwordMatches, now);
    var req := new Request(map["access_token" := login.cookies[0].value], None);
    var refusal := s.IsAuthenticated(req, now + delay);
    current := req.user;
  }

  /**
   * A lifetime setting that is not a number does not stop a login from caching
   * the session, but `res.cookie` then throws where nothing awaits it, so the
   * request is never answered.
   */
  method LoginWithRefusedCookie(s: AuthServer, email: string, password: string, passwordMatches: (User, string) -> bool, now: nat)
    returns (login: Reply)
    requires s.Valid() && email != "" && password != "" && email in s.users
    requires passwordMatches(s.users[email], password)
    requires s.config.accessSecret != "" && s.config.refreshSecret != "" && !s.CookiesAccepted()
    modifies s`sessions
    ensures s.Valid()
    ensures login == NoReply
    ensures s.users[email].id in s.sessions
  {
    login := s.LoginUser(email, password, passwordMatches, now);
  }

  /**
   * A refresh token that renews the tokens before logout no longer does
   * after it: logout removed the session the refresh depends on.
   */
  method LogoutEndsRefresh(s: AuthServer, id: UserId, accessExpiry: int, refreshExpiry: int, now: nat)
    returns (before: Reply, logout: Reply, after: Reply)
    requires s.Valid() && id in s.sessions
    requires s.config.accessSecret != "" && s.config.refreshSecret != "" && s.CookiesAccepted()
    requires now < accessExpiry && now < refreshExpiry
    modifies s`sessions
    ensures s.Valid() && s.sessions == old(s.sessions) - {id}
    ensures Succeeded(before) && before.status == 200
    ensures logout.Reply? && logout.status == 200
    ensures after == Fail(400, Text(CannotRefresh))
  {
    var refreshToken := Signed(IdClaims(id), s.config.refreshSecret, refreshExpiry);
    var refreshReq := new Request(map["refresh_token" := refreshToken], None);
    assert Cookie(refreshReq.cookies, "refresh_token") == Some(refreshToken);
    before := s.UpdateAccessToken(refreshReq, now);
    var accessToken := Signed(IdClaims(id), s.config.accessSecret, accessExpiry);
    var req := new Request(map["access_token" := accessToken], None);
    assert Gate(s.sessions, Cookie(req.cookies, "access_token"), s.config.accessSecret, now) == Success(s.sessions[id]);
    logout := s.Logout(req, now);
    after := s.UpdateAccessToken(refreshReq, now);
  }

  /** Social sign-in twice with one email creates one user, and both sign-ins leave a session for it. */
  method SocialSignInTwice(s: AuthServer, email: string, name: string, avatar: string, now: nat)
    returns (first: Reply, second: Reply)
    requires s.Valid() && email !in s.users
    requires s.config.accessSecret != "" && s.config.refreshSecret != "" && s.CookiesAccepted()
    modifies s`users, s`nextId, s`sessions
    ensures s.Valid()
    ensures s.users == old(s.users)[email := User(old(s.nextId), name, email, None, Some(DefaultRole), Some(avatar))]
    ensures Succeeded(first) && Succeeded(second) && s.users[email].id in s.sessions
  {
    first := s.SocialAuthentication(email, name, avatar, now);
    second := s.SocialAuthentication(email, name, avatar, now);
  }
}
