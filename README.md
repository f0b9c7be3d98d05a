# Authentication and session lifecycle of an LMS back end, in Dafny

This project models the account and session core of a Node/Express learning-platform
back end: registration with an emailed one-time code, activation, credential login,
social login, logout, access-token refresh, the request gate that admits a request
carrying a valid access cookie, and the role check.

The system keeps two pieces of state, and the model keeps them as two maps in one
object (`Server.AuthServer`):

- the **user store**, from email to a user record (id, name, optional password hash,
  optional role, optional avatar);
- the **session cache**, from user id to the serialised user, written by `sendToken`
  and removed by logout.

Tokens are values (`Tokens.Jwt`): a signed token records its payload, the secret it was
signed with and its expiry in whole seconds. Verifying one means "same secret and the
clock is still before the expiry". Whether a token is an activation, access or refresh
token is decided by the secret it was signed with. Each handler is one atomic step.
When it refuses, it answers with the message and status the code uses and leaves both
maps as they were. Otherwise its changes are these:

- registration changes neither map;
- activation creates one user;
- login caches one session;
- logout drops one session;
- refresh changes neither map;
- social login with a known email caches one session;
- social login with a new email creates one user and caches one session for it.

Every path that ends in `sendToken` (login, social login) depends on the access and
refresh secrets. `sendToken` is not awaited, so when either secret is unset the signing
error escapes the handler. The request then gets no answer (`NoReply`) and no session
is cached. A social login with a new email has already created its user at that point,
so that user stays in the store.

A lifetime setting that is not a number (`ACCESS_TOKEN_EXPIRE=abc`) makes `parseInt` give
NaN, so that cookie's `maxAge` is NaN. Express's `res.cookie` refuses such options and
throws "option maxAge is invalid". In `sendToken` the session is already cached when it
throws, and the throw goes unawaited, so the request gets no answer. The refresh handler
catches the throw and answers 400 with that message.

The invariant `AuthServer.Valid()` holds throughout:

- each user is stored under its own email;
- user ids are distinct;
- each session is stored under the id of the user it holds.

Behaviour follows the code as written, in particular:

- `sendToken` caches the session with no expiry at all.
- Refresh neither rewrites the session nor extends it.
- Refresh hard-codes the new tokens' lifetimes as five minutes and three days.
- Login answers "Invalid email or password" for an unknown email but "Invalid password"
  for a wrong password, so the two failures are distinguishable.
- The cookie lifetimes count the access setting in hours and the refresh setting in
  days. `CookieOptions.DefaultCookiesOutliveRefreshedTokens` proves that, with the
  default settings, the cookies outlive the refreshed tokens: by a factor of 3600 for
  access and 400 for refresh.
- The cookie option records are module constants, so their `expires` is computed from
  the clock when the module is loaded (`Config.loadTimeMs`).

Time is a parameter: `now` in seconds for tokens and `loadTimeMs` in milliseconds for
cookies. The random draw behind the activation code is a parameter `r` in `[0, 9000)`.
Rendering the activation mail and sending it each have an outcome parameter: `renderError`
and `sendError`.
The password comparison is a function parameter `passwordMatches`.

Files: `wrappers.dfy` (Option, Result), `decimal.dfy` (`toString`/`parseInt` on
integers), `tokens.dfy` (signing and verifying), `cookie_options.dfy` (utils/jwt.ts
settings and cookie options), `activation.dfy` (activation token and code),
`users.dfy`, `replies.dfy` (status, body, cookies of a reply), `auth.dfy`
(middleware/auth.ts), `server.dfy` (the handlers and `sendToken`), `scenarios.dfy`
(requests in sequence).

## Model

| member | source | states |
|---|---|---|
| `Decimal.DecimalString` | controllers/user.controller.ts:76 | `toString` of a non-negative integer below 10^21 (the only ones it writes in plain decimal) is a non-empty string of digits with no leading zero |
| `Decimal.FourDigits` | controllers/user.controller.ts:76 | every integer from 1000 to 9999 is written with exactly four digits |
| `Decimal.ParseInt` | utils/jwt.ts:14-21 | `parseInt` gives NaN for a string that holds no digit at all |
| `Decimal.ParseDigits` | utils/jwt.ts:14-21 | `parseInt` reads a plain run of digits as the number it spells |
| `Decimal.ParseNegative` | utils/jwt.ts:14-21 | `parseInt` reads a minus sign followed by digits as the negated number |
| `Decimal.ParseDecimalString` | utils/jwt.ts:14-21 | `parseInt` reads back exactly the integer `toString` wrote (round trip) |
| `Tokens.Verify` | controllers/user.controller.ts:105-108 | verification succeeds exactly when the token is signed, the key is non-empty and equals the signing secret, and the clock is before the expiry, and then yields the payload; otherwise it reports, in this order, no token, a malformed token, no key, a bad signature, or expiry (the same call verifies the refresh token at controllers/user.controller.ts:206-209 and the access token at middleware/auth.ts:20-23) |
| `Tokens.Sign` | controllers/user.controller.ts:225-238 | signing refuses an empty secret; a signed token gives back exactly its payload under its own secret and no other, until its expiry, and reports "expired" from then on and a bad signature under any other non-empty secret |
| `CookieOptions.AccessTokenExpire` | utils/jwt.ts:14-17 | the access setting is 300 when the variable is unset or empty, and otherwise `parseInt` of its value |
| `CookieOptions.RefreshTokenExpire` | utils/jwt.ts:18-21 | the refresh setting is 1200 when the variable is unset or empty, and otherwise `parseInt` of its value |
| `CookieOptions.AccessTokenOptions` | utils/jwt.ts:25-31 | the access cookie is http-only, same-site lax and secure; its `maxAge` is the setting times 3600000 ms (NaN when the setting is NaN) and `expires` is load time plus `maxAge` |
| `CookieOptions.RefreshTokenOptions` | utils/jwt.ts:33-39 | the refresh cookie is http-only, same-site lax and secure; its `maxAge` is the setting times 86400000 ms (NaN when the setting is NaN) and `expires` is load time plus `maxAge` |
| `CookieOptions.NumericSettingsAccepted` | utils/jwt.ts:14-39 | an unset, empty or all-digit lifetime setting gives a cookie option record with a numeric `maxAge`, which `res.cookie` takes |
| `CookieOptions.NonNumericSettingsRefused` | utils/jwt.ts:14-39 | a non-empty setting with no digit gives a NaN `maxAge`, which `res.cookie` refuses |
| `CookieOptions.DefaultCookiesOutliveRefreshedTokens` | utils/jwt.ts:23-39 | with the defaults the access cookie lasts 3600 times the refreshed access token's five minutes, and the refresh cookie 400 times the refreshed refresh token's three days |
| `Activation.ActivationCode` | controllers/user.controller.ts:76 | the activation code is four decimal digits that read back as 1000 + r |
| `Activation.CodeMatches` | controllers/user.controller.ts:111 | the submitted code is accepted exactly when the verified payload is an activation payload whose code equals it |
| `Activation.CreateActivationToken` | controllers/user.controller.ts:75-89 | fails with "ACTIVATION_SECRET is not defined" exactly when the secret is unset; otherwise it returns the given user and the code for the draw, with a token that yields exactly that user and code for five minutes and is expired from then on |
| `Users.WithoutPassword` | controllers/user.controller.ts:280 | a lookup without the password field yields the same record with no password hash and every other field unchanged |
| `Auth.Gate` | middleware/auth.ts:7-44 | a missing or empty cookie gets "Please login to access this resource."; a token that does not verify gets "Access token is not valid"; a verified token with no session gets "User is not found"; the gate passes exactly when the token is signed with the access secret, is unexpired and names an id with a session, and then yields the cached user |
| `Auth.AuthorizedRole` | middleware/auth.ts:48-60 | passes exactly when the user's role is listed, or, when there is no user or no role, when "" is listed; otherwise it refuses with 403 and names the role ("undefined" when absent) |
| `Server.AuthServer.constructor` | utils/jwt.ts:25-39 | starts with an empty store and cache and fixes the two cookie option records from the settings and the load time |
| `Server.AuthServer.SendToken` | utils/jwt.ts:41-71 | with both secrets set: caches the user under its id, overwriting any entry and with no expiry, leaves every other session alone, and answers the status with the user and access token and both cookies; with a secret unset: no session and no answer; with a cookie option record Express refuses (a NaN `maxAge`): the session is cached but no answer is sent |
| `Server.AuthServer.RegisterUser` | controllers/user.controller.ts:24-67 | never changes the store; refuses a known email with "email already exists"/400 and an unset activation secret with its message/400, and sends no mail in either case; a failed render is refused with its error/400 and sends no mail; a rendered mail is handed to `sendMail`, and a failed send is refused with its error/400; succeeds exactly when none of these happens, and then the mail carries the code for the draw and answers 201 with a token that carries exactly the candidate and that code for five minutes |
| `Server.AuthServer.ActivationUser` | controllers/user.controller.ts:98-136 | a token that does not verify, a code that differs from the embedded one ("Invalid OTP"), or an email that now exists ("Email already exists") is refused with 400 and the store is unchanged; otherwise exactly one user is added, under the embedded email, with the embedded name and password, and the answer is 201 |
| `Server.AuthServer.LoginUser` | controllers/user.controller.ts:143-169 | an empty email or password, an unknown email and a wrong password are refused with their three distinct messages and status 400, leaving the session cache unchanged; only a matching password leads to `sendToken` with status 200 |
| `Server.AuthServer.LogOutUser` | controllers/user.controller.ts:171-196 | removes the session of the current user id and no other, answers 200 "Logged Out successfully" whether or not a session existed, and clears both cookies to "" with maxAge 1 |
| `Server.AuthServer.UpdateAccessToken` | controllers/user.controller.ts:200-253 | reads the cache only; a refresh token that does not verify is refused with the verification error/400, one with no session with "Could not refresh token"/400; otherwise a new five-minute access token and three-day refresh token for the cached user's id, which is the id the refresh token named, are set as cookies and the access token is returned with status 200, unless Express refuses a cookie option record (a NaN `maxAge`), which answers "option maxAge is invalid"/400 |
| `Server.AuthServer.SocialAuthentication` | controllers/user.controller.ts:276-297 | creates a user, without password and with the given avatar, only when the email is unknown; afterwards exactly one user has the email, and tokens are sent for that user (with a known email, the stored record without its password), leaving a session for its id whenever an answer is sent; with a new email and an unset token secret the user is created but no answer is sent |
| `Server.AuthServer.IsAuthenticated` | middleware/auth.ts:7-44 | on a request whose access cookie passes `Gate`, sets `req.user` to the cached user and lets the request go on; otherwise it refuses with the gate's message and status 400 and leaves `req.user` alone; the cache is never written |
| `Server.AuthServer.Logout` | routes/user.route.ts:21-26 | the logout route: a request refused by the gate gets the gate's message with status 400 and leaves the cache and `req.user` unchanged; an admitted one sets `req.user` to the gate's user, drops exactly that user's session and answers 200 "Logged Out successfully" with both cookies cleared |
| `Scenarios.RegisterThenActivate` | controllers/user.controller.ts:24-136 | registering a free email and activating within five minutes with the mailed code creates exactly that user; a second activation of the same token is refused with "Email already exists" |
| `Scenarios.ActivationRefusals` | controllers/user.controller.ts:105-113 | a code other than the mailed one gets "Invalid OTP", and the right code five minutes later gets the expiry error; neither changes the store |
| `Scenarios.LoginThenAuthenticate` | controllers/user.controller.ts:143-169 | after a successful login, the access cookie it set passes the gate until the token expires, and the gate hands on the logged-in user |
| `Scenarios.LoginWithRefusedCookie` | utils/jwt.ts:45-64 | with both secrets set but a cookie option record `res.cookie` refuses, a successful login caches the session and sends no answer |
| `Scenarios.LogoutEndsRefresh` | controllers/user.controller.ts:171-253 | a refresh token that renews the tokens before logout is refused with "Could not refresh token" after it |
| `Scenarios.SocialSignInTwice` | controllers/user.controller.ts:276-297 | two social sign-ins with one new email create one user and leave a session for it |

## Left out

- Signing internals of `jsonwebtoken` (header, HMAC, base64) are left out. A token is a value, and errors are named by kind (`Tokens.JwtError`) rather than by the library's message text.
- The user model file (`models/user.model`) is not part of this model. This leaves out its schema validation, the hashing of passwords on save and the password comparison. The comparison is the parameter `passwordMatches`.
- The lifetimes `SignAccessToken` and `SignRefreshToken` sign with come from that same file. They are configuration values (`signAccessLifetime`, `signRefreshLifetime`), and the model assumes these methods sign `{ id }` with the `ACCESS_TOKEN` and `REFRESH_TOKEN` secrets.
- New users get the role "user". This is the schema default the model assumes.
- A lookup without `select("+password")` returns the record without its password hash. This is also assumed from the schema.
- The store's unique index, and the race between two concurrent activations, are left out. Each handler is one atomic step, so a second activation is refused by the handler's own check.
- The Redis client is a map. A key for a payload with no `id` (an activation token presented where an access or refresh token is expected) is treated as a missing session.
- Server.AuthServer.LogOutUser: with no `req.user` it deletes nothing and still answers 200. The route only reaches this handler behind the gate, which sets `req.user`, so the client library's handling of an undefined key is not modelled.
- Rendering the mail template (`ejs.renderFile`) and sending it (`sendMail`) are I/O. Their outcomes are the parameters `renderError` and `sendError`. Either failure becomes the error's message with status 400, and a failed render means no mail reaches `sendMail`.
- `Math.random` is replaced by the integer draw `r`. `Date.now` is replaced by the parameters `now` and `loadTimeMs`.
- `console.log` and the Express request and response objects are left out, beyond the status, body, cookies and `req.user` recorded in the model. Also left out is the error middleware that turns `next(error)` into a JSON reply.
- The `if (!decoded)` branches of the gate and the refresh handler are left out. `jwt.verify` either throws or returns an object, so those branches cannot be taken.
- `parseInt` skips only the common white-space characters. Floating-point precision of very long digit strings, "-0" and "Infinity" are left out.
- `getUserInfo`, `getUserById` and the profile, password and avatar update handlers are left out. They are plain store reads and updates outside the session lifecycle.
- The async wrapper (middleware/catchAsyncError.ts), server start-up (server.ts) and route wiring are left out. The one exception is the logout route's composition, modelled as `Logout`.
- Concurrency between requests is left out.
- Express's own processing inside `res.cookie` is modelled only as far as refusing a NaN `maxAge`. For a numeric `maxAge`, Express sends an `expires` of request time plus `maxAge` in place of the load-time `expires` of the record. The model's cookies are the records the code passes to `res.cookie`, so they carry the load-time value.
- Server.AuthServer.UpdateAccessToken: when only the refresh record is refused, Express has already added the access cookie to the response before the throw. The 400 reply of the model carries no cookies.
