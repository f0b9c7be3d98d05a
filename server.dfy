/**
 * The handlers of controllers/user.controller.ts and `sendToken` of
 * utils/jwt.ts, as methods of one object holding the two pieces of state they
 * change: the primary user store (by email) and the session cache (by user
 * id). Each handler is one atomic step.
 */
module Server {
  import opened Wrappers
  import opened Tokens
  import opened CookieOptions
  import opened Activation
  import opened Users
  import opened Replies
  import opened Auth

  /** Process-wide configuration, read once at start-up ("" for an unset secret). */
  datatype Config = Config(
    activationSecret: string,            // ACTIVATION_SECRET
    accessSecret: string,                // ACCESS_TOKEN
    refreshSecret: string,               // REFRESH_TOKEN
    accessTokenExpireEnv: Option<string>,  // ACCESS_TOKEN_EXPIRE
    refreshTokenExpireEnv: Option<string>, // REFRESH_TOKEN_EXPIRE
    signAccessLifetime: nat,             // seconds, as the user model's SignAccessToken signs
    signRefreshLifetime: nat,            // seconds, as the user model's SignRefreshToken signs
    loadTimeMs: nat)                     // Date.now() when utils/jwt.ts is loaded

  /** The activation mail handed to `sendMail`. */
  datatype ActivationMail = ActivationMail(to: string, subject: string, template: string, name: string, activationCode: string)

  const EmailTaken := "email already exists"
  const EmailExists := "Email already exists"
  const InvalidOtp := "Invalid OTP"
  const MissingCredentials := "Please enter email and password"
  const UnknownEmail := "Invalid email or password"
  const WrongPassword := "Invalid password"
  const CannotRefresh := "Could not refresh token"
  const LoggedOutMessage := "Logged Out successfully"

  function PleaseActivate(email: string): string
  {
    "Please activate your email : " + email + " to activate your account"
  }

  class AuthServer {
    const config: Config
    const accessTokenOptions: Options
    const refreshTokenOptions: Options
    /** The primary user store, by email. */
    var users: map<string, User>
    /** The session cache: user id to the serialised user. */
    var sessions: map<UserId, User>
    /** The id the store gives the next user it creates. */
    var nextId: UserId

    /**
     * Each stored user sits under its own email and has an id of its own, and
     * each session sits under the id of the user it holds.
     */
    ghost predicate Valid()
      reads this
    {
      && (forall e :: e in users ==> users[e].email == e && users[e].id < nextId)
      && (forall e1, e2 :: e1 in users && e2 in users && users[e1].id == users[e2].id ==> e1 == e2)
      && (forall id :: id in sessions ==> sessions[id].id == id)
    }

    constructor (config: Config)
      ensures Valid()
      ensures this.config == config && users == map[] && sessions == map[] && nextId == 0
      ensures accessTokenOptions == AccessTokenOptions(AccessTokenExpire(config.accessTokenExpireEnv), config.loadTimeMs)
      ensures refreshTokenOptions == RefreshTokenOptions(RefreshTokenExpire(config.refreshTokenExpireEnv), config.loadTimeMs)
    {
      this.config := config;
      var accessTokenExpire := AccessTokenExpire(config.accessTokenExpireEnv);
      var refreshTokenExpire := RefreshTokenExpire(config.refreshTokenExpireEnv);
      accessTokenOptions := AccessTokenOptions(accessTokenExpire, config.loadTimeMs);
      refreshTokenOptions := RefreshTokenOptions(refreshTokenExpire, config.loadTimeMs);
      users, sessions, nextId := map[], map[], 0;
    }

    /** Whether Express's `res.cookie` takes both option records, so that neither cookie call throws. */
    predicate CookiesAccepted()
    {
      Accepted(accessTokenOptions) && Accepted(refreshTokenOptions)
    }

    /** The two cookies a token pair is sent in. */
    function TokenCookies(accessToken: Jwt, refreshToken: Jwt): seq<SetCookie>
    {
      [SetCookie("access_token", accessToken, accessTokenOptions),
       SetCookie("refresh_token", refreshToken, refreshTokenOptions)]
    }

    /**
     * What `sendToken(user, status)` does at clock `now`, given the session
     * cache `before` it and `after` it: with both secrets set, it caches
     * `user` under its id, overwriting any entry there and with no expiry, and
     * answers `status` with the user and the access token, setting both
     * cookies. With a secret unset the signing throws where no caller awaits
     * it, so nothing is cached and the request is never answered. When
     * `res.cookie` refuses an option record, the session is already cached
     * but the throw again goes unawaited, and the request is never answered.
     */
    ghost predicate TokenSent(before: map<UserId, User>, user: User, status: nat, now: nat, reply: Reply, after: map<UserId, User>)
    {
      if config.accessSecret == "" || config.refreshSecret == "" then
        reply == NoReply && after == before
      else
        var accessToken := Signed(IdClaims(user.id), config.accessSecret, now + config.signAccessLifetime);
        var refreshToken := Signed(IdClaims(user.id), config.refreshSecret, now + config.signRefreshLifetime);
        && after == before[user.id := user]
        && reply == (if CookiesAccepted() then Reply(status, SignedIn(user, accessToken), TokenCookies(accessToken, refreshToken)) else NoReply)
    }

    /** `sendToken(user, statusCode, res)` (utils/jwt.ts). */
    method SendToken(user: User, status: nat, now: nat) returns (reply: Reply)
      requires Valid()
      modifies this`sessions
      ensures Valid()
      ensures TokenSent(old(sessions), user, status, now, reply, sessions)
    {
      var accessToken := Sign(IdClaims(user.id), config.accessSecret, now, config.signAccessLifetime);
      if accessToken.Failure? {
        reply := NoReply;
        return;
      }
      var refreshToken := Sign(IdClaims(user.id), config.refreshSecret, now, config.signRefreshLifetime);
      if refreshToken.Failure? {
        reply := NoReply;
        return;
      }
      sessions := sessions[user.id := user];
      if !CookiesAccepted() {
        reply := NoReply;
        return;
      }
      reply := Reply(status, SignedIn(user, accessToken.value), TokenCookies(accessToken.value, refreshToken.value));
    }

    /**
     * `registerUser`, with `r` the random draw behind the code, `renderError`
     * the error rendering the mail template raised and `sendError` the error
     * sending it raised, if any; `mail` is the mail handed to `sendMail`. It never creates
     * a user: the candidate travels inside the activation token.
     */
    method RegisterUser(name: string, email: string, password: string, r: nat,
                        renderError: Option<string>, sendError: Option<string>, now: nat)
      returns (reply: Reply, mail: Option<ActivationMail>)
      requires r < 9000
      ensures email in users ==> reply == Fail(400, Text(EmailTaken)) && mail.None?
      ensures email !in users && config.activationSecret == "" ==> reply == Fail(400, Text(MissingSecret)) && mail.None?
      ensures email !in users && config.activationSecret != "" && renderError.Some? ==>
        reply == Fail(400, Text(renderError.value)) && mail.None?
      ensures email !in users && config.activationSecret != "" && renderError.None? ==>
        mail == Some(ActivationMail(email, "Activate your account", "activation-email.ejs", name, ActivationCode(r)))
      ensures email !in users && config.activationSecret != "" && renderError.None? && sendError.Some? ==>
        reply == Fail(400, Text(sendError.value))
      ensures Succeeded(reply) <==>
        email !in users && config.activationSecret != "" && renderError.None? && sendError.None?
      ensures Succeeded(reply) ==>
        && reply.status == 201 && reply.cookies == []
        && reply.body.Registered? && reply.body.message == PleaseActivate(email) && reply.body.email == email
        && LastsFiveMinutes(reply.body.activationToken, config.activationSecret,
                            ActivationClaims(Candidate(name, email, password), mail.value.activationCode), now)
    {
      mail := None;
      if email in users {
        reply := Fail(400, Text(EmailTaken));
        return;
      }
      var user := Candidate(name, email, password);
      var created := CreateActivationToken(user, r, config.activationSecret, now);
      if created.Failure? {
        reply := Fail(400, Text(created.error));
        return;
      }
      var activationToken := created.value;
      if renderError.Some? {
        reply := Fail(400, Text(renderError.value));
        return;
      }
      mail := Some(ActivationMail(email, "Activate your account", "activation-email.ejs", name, activationToken.activationCode));
      if sendError.Some? {
        reply := Fail(400, Text(sendError.value));
        return;
      }
      reply := Reply(201, Registered(PleaseActivate(email), activationToken.token, email), []);
    }

    /** The user `activationUser` creates from a candidate, with the next id. */
    function NewUser(candidate: Candidate): User
      reads this
    {
      User(nextId, candidate.name, candidate.email, Some(candidate.password), Some(DefaultRole), None)
    }

    /**
     * `activationUser`: verify the token, compare the code, re-check the
     * email, then create exactly one user from the token's candidate.
     */
    method ActivationUser(activationToken: Option<Jwt>, activationCode: string, now: nat) returns (reply: Reply)
      requires Valid()
      modifies this`users, this`nextId
      ensures Valid()
      ensures var v := Verify(activationToken, config.activationSecret, now);
        && (v.Failure? ==>
              reply == Fail(400, JwtMessage(v.error)) && users == old(users) && nextId == old(nextId))
        && (v.Success? && !CodeMatches(v.value, activationCode) ==>
              reply == Fail(400, Text(InvalidOtp)) && users == old(users) && nextId == old(nextId))
        && (v.Success? && CodeMatches(v.value, activationCode) && v.value.user.email in old(users) ==>
              reply == Fail(400, Text(EmailExists)) && users == old(users) && nextId == old(nextId))
        && (v.Success? && CodeMatches(v.value, activationCode) && v.value.user.email !in old(users) ==>
              && reply == Reply(201, Activated, [])
              && users == old(users)[v.value.user.email := old(NewUser(v.value.user))]
              && nextId == old(nextId) + 1)
    {
      var decoded := Verify(activationToken, config.activationSecret, now);
      if decoded.Failure? {
        reply := Fail(400, JwtMessage(decoded.error));
        return;
      }
      var newUser := decoded.value;
      if !CodeMatches(newUser, activationCode) {
        reply := Fail(400, Text(InvalidOtp));
        return;
      }
      var email := newUser.user.email;
      if email in users {
        reply := Fail(400, Text(EmailExists));
        return;
      }
      users := users[email := NewUser(newUser.user)];
      nextId := nextId + 1;
      reply := Reply(201, Activated, []);
    }

    /**
     * `loginUser`, with `passwordMatches` standing for the user model's
     * password comparison. Every refusal leaves the session cache as it was.
     */
    method LoginUser(email: string, password: string, passwordMatches: (User, string) -> bool, now: nat)
      returns (reply: Reply)
      requires Valid()
      modifies this`sessions
      ensures Valid()
      ensures email == "" || password == "" ==>
        reply == Fail(400, Text(MissingCredentials)) && sessions == old(sessions)
      ensures email != "" && password != "" && email !in users ==>
        reply == Fail(400, Text(UnknownEmail)) && sessions == old(sessions)
      ensures email != "" && password != "" && email in users && !passwordMatches(users[email], password) ==>
        reply == Fail(400, Text(WrongPassword)) && sessions == old(sessions)
      ensures email != "" && password != "" && email in users && passwordMatches(users[email], password) ==>
        TokenSent(old(sessions), users[email], 200, now, reply, sessions)
    {
      if email == "" || password == "" {
        reply := Fail(400, Text(MissingCredentials));
        return;
      }
      if email !in users {
        reply := Fail(400, Text(UnknownEmail));
        return;
      }
      var user := users[email];
      if !passwordMatches(user, password) {
        reply := Fail(400, Text(WrongPassword));
        return;
      }
      reply := SendToken(user, 200, now);
    }

    /**
     * `logOutUser`: clear both cookies and drop the session of `req.user`,
     * answering the same whether or not there was one.
     */
    method LogOutUser(req: Request) returns (reply: Reply)
      requires Valid()
      modifies this`sessions
      ensures Valid()
      ensures req.user.Some? ==> sessions == old(sessions) - {req.user.value.id}
      ensures req.user.None? ==> sessions == old(sessions)
      ensures reply == Reply(200, LoggedOut(LoggedOutMessage),
                             [SetCookie("access_token", Blank, ClearingOptions),
                              SetCookie("refresh_token", Blank, ClearingOptions)])
    {
      var cookies := [SetCookie("access_token", Blank, ClearingOptions),
                      SetCookie("refresh_token", Blank, ClearingOptions)];
      if req.user.Some? {
        sessions := sessions - {req.user.value.id};
      }
      reply := Reply(200, LoggedOut(LoggedOutMessage), cookies);
    }

    /**
     * `updateAccessToken`: only reads the session cache. A refresh token that
     * verifies and has a session yields a new pair for the cached user's id,
     * lasting five minutes and three days; the session itself is left as it
     * was.
     */
    method UpdateAccessToken(req: Request, now: nat) returns (reply: Reply)
      requires Valid()
      ensures var v := Verify(Cookie(req.cookies, "refresh_token"), config.refreshSecret, now);
        && (v.Failure? ==> reply == Fail(400, JwtMessage(v.error)))
        && (v.Success? && !(v.value.IdClaims? && v.value.id in sessions) ==>
              reply == Fail(400, Text(CannotRefresh)))
        && (v.Success? && v.value.IdClaims? && v.value.id in sessions && config.accessSecret == "" ==>
              reply == Fail(400, JwtMessage(NoSigningKey)))
        && (v.Success? && v.value.IdClaims? && v.value.id in sessions && config.accessSecret != "" ==>
              var cached := sessions[v.value.id];
              var accessToken := Signed(IdClaims(cached.id), config.accessSecret, now + FiveMinutes);
              var refreshToken := Signed(IdClaims(cached.id), config.refreshSecret, now + ThreeDays);
              && cached.id == v.value.id
              && (!CookiesAccepted() ==> reply == Fail(400, Text(InvalidMaxAge)))
              && (CookiesAccepted() ==> reply == Reply(200, Refreshed(accessToken), TokenCookies(accessToken, refreshToken))))
    {
      var decoded := Verify(Cookie(req.cookies, "refresh_token"), config.refreshSecret, now);
      if decoded.Failure? {
        reply := Fail(400, JwtMessage(decoded.error));
        return;
      }
      var key := SessionKey(decoded.value);
      if key.None? || key.value !in sessions {
        reply := Fail(400, Text(CannotRefresh));
        return;
      }
      var user := sessions[key.value];
      var accessToken := Sign(IdClaims(user.id), config.accessSecret, now, FiveMinutes);
      if accessToken.Failure? {
        reply := Fail(400, JwtMessage(accessToken.error));
        return;
      }
      // the refresh secret verified the presented token, so it is set
      var refreshToken := Sign(IdClaims(user.id), config.refreshSecret, now, ThreeDays).value;
      if !CookiesAccepted() {
        reply := Fail(400, Text(InvalidMaxAge));
        return;
      }
      reply := Reply(200, Refreshed(accessToken.value), TokenCookies(accessToken.value, refreshToken));
    }

    /**
     * `socialAuthentication`: create a user for the email only when there is
     * none, then send tokens for that email's user.
     */
    method SocialAuthentication(email: string, name: string, avatar: string, now: nat) returns (reply: Reply)
      requires Valid()
      modifies this`users, this`nextId, this`sessions
      ensures Valid()
      ensures email in old(users) ==>
        && users == old(users) && nextId == old(nextId)
        && TokenSent(old(sessions), WithoutPassword(users[email]), 200, now, reply, sessions)
      ensures email !in old(users) ==>
        && users == old(users)[email := User(old(nextId), name, email, None, Some(DefaultRole), Some(avatar))]
        && nextId == old(nextId) + 1
        && TokenSent(old(sessions), users[email], 200, now, reply, sessions)
      ensures email in users && users[email].email == email
      ensures reply.Reply? ==> users[email].id in sessions
    {
      var user: User;
      if email !in users {
        user := User(nextId, name, email, None, Some(DefaultRole), Some(avatar));
        users := users[email := user];
        nextId := nextId + 1;
      } else {
        user := WithoutPassword(users[email]);
      }
      reply := SendToken(user, 200, now);
    }

    /**
     * `isAuthenticated` on `req`: on success `req.user` is the cached user and
     * the request goes on (None); otherwise the 400 refusal. The session cache
     * is only read.
     */
    method IsAuthenticated(req: Request, now: nat) returns (refusal: Option<Reply>)
      modifies req`user
      ensures var g := Gate(sessions, Cookie(req.cookies, "access_token"), config.accessSecret, now);
        && (g.Success? ==> refusal.None? && req.user == Some(g.value))
        && (g.Failure? ==> refusal == Some(Fail(400, Text(g.error))) && req.user == old(req.user))
    {
      var g := Gate(sessions, Cookie(req.cookies, "access_token"), config.accessSecret, now);
      if g.Failure? {
        refusal := Some(Fail(400, Text(g.error)));
        return;
      }
      req.user := Some(g.value);
      refusal := None;
    }

    /** The `/logout` route: `isAuthenticated`, then `logOutUser`. */
    method Logout(req: Request, now: nat) returns (reply: Reply)
      requires Valid()
      modifies this`sessions, req`user
      ensures Valid()
      ensures var g := Gate(old(sessions), Cookie(req.cookies, "access_token"), config.accessSecret, now);
        && (g.Failure? ==> reply == Fail(400, Text(g.error)) && sessions == old(sessions) && req.user == old(req.user))
        && (g.Success? ==>
              && reply == Reply(200, LoggedOut(LoggedOutMessage),
                                [SetCookie("access_token", Blank, ClearingOptions),
                                 SetCookie("refresh_token", Blank, ClearingOptions)])
              && req.user == Some(g.value)
              && sessions == old(sessions) - {g.value.id})
    {
      var refusal := IsAuthenticated(req, now);
      if refusal.Some? {
        reply := refusal.value;
        return;
      }
      reply := LogOutUser(req);
    }
  }
}
