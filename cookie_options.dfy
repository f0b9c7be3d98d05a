/**
 * The cookie settings of utils/jwt.ts: the two lifetime settings read from
 * the environment with their fallbacks, and the option records the access
 * and refresh cookies are set with. Both records are module constants, so
 * their `expires` is computed from the clock at load time (`loadMs`).
 */
module CookieOptions {
  import opened Wrappers
  import opened Decimal
  import opened Tokens

  datatype SameSite = Unset | Lax

  /** Options passed to `res.cookie`; `expires` is None when not given. Times in milliseconds. */
  datatype Options = Options(expires: Option<Num>, maxAge: Num, httpOnly: bool, sameSite: SameSite, secure: bool)

  const MsPerHour: nat := 60 * 60 * 1000
  const MsPerDay: nat := 24 * 60 * 60 * 1000

  /** `parseInt(env || fallback, 10)`: an unset or empty setting falls back. */
  function Setting(env: Option<string>, fallback: string): string
  {
    if env.None? || env.value == "" then fallback else env.value
  }

  /** `accessTokenExpire`: 300 unless the environment says otherwise. */
  function AccessTokenExpire(env: Option<string>): (r: Num)
    ensures env.None? || env == Some("") ==> r == Finite(300)
    ensures env.Some? && env.value != "" ==> r == ParseInt(env.value)
  {
    DecimalDefaults();
    ParseDecimalString(300);
    ParseInt(Setting(env, "300"))
  }

  /** `refreshTokenExpire`: 1200 unless the environment says otherwise. */
  function RefreshTokenExpire(env: Option<string>): (r: Num)
    ensures env.None? || env == Some("") ==> r == Finite(1200)
    ensures env.Some? && env.value != "" ==> r == ParseInt(env.value)
  {
    DecimalDefaults();
    ParseDecimalString(1200);
    ParseInt(Setting(env, "1200"))
  }

  /** `x * unit`, NaN staying NaN. */
  function Times(x: Num, unit: nat): Num
  {
    if x.NaN? then NaN else Finite(x.n * unit)
  }

  /** `loadMs + x`, NaN staying NaN (an invalid Date). */
  function After(loadMs: nat, x: Num): Num
  {
    if x.NaN? then NaN else Finite(loadMs + x.n)
  }

  /** A secure, http-only, same-site "lax" cookie that lives `maxAge` ms from `loadMs`. */
  function Lasting(maxAge: Num, loadMs: nat): Options
  {
    Options(Some(After(loadMs, maxAge)), maxAge, true, Lax, true)
  }

  /** `accessTokenOptions`: the access setting `accessTokenExpire` counted in hours. */
  function AccessTokenOptions(accessTokenExpire: Num, loadMs: nat): (o: Options)
    ensures o.httpOnly && o.sameSite == Lax && o.secure
    ensures o.maxAge.NaN? <==> accessTokenExpire.NaN?
    ensures o.maxAge.Finite? ==> o.maxAge.n == accessTokenExpire.n * MsPerHour
    ensures o.maxAge.Finite? ==> o.expires == Some(Finite(loadMs + o.maxAge.n))
  {
    Lasting(Times(accessTokenExpire, MsPerHour), loadMs)
  }

  /** `refreshTokenOptions`: the refresh setting `refreshTokenExpire` counted in days. */
  function RefreshTokenOptions(refreshTokenExpire: Num, loadMs: nat): (o: Options)
    ensures o.httpOnly && o.sameSite == Lax && o.secure
    ensures o.maxAge.NaN? <==> refreshTokenExpire.NaN?
    ensures o.maxAge.Finite? ==> o.maxAge.n == refreshTokenExpire.n * MsPerDay
    ensures o.maxAge.Finite? ==> o.expires == Some(Finite(loadMs + o.maxAge.n))
  {
    Lasting(Times(refreshTokenExpire, MsPerDay), loadMs)
  }

  /** What Express's `res.cookie` throws for options whose `maxAge` is not a number. */
  const InvalidMaxAge := "option maxAge is invalid"

  /** Whether Express's `res.cookie` takes the options: it refuses a `maxAge` that is not a number. */
  predicate Accepted(o: Options)
  {
    o.maxAge.Finite?
  }

  /** An unset, empty or all-digit setting gives both cookies a lifetime `res.cookie` takes. */
  lemma NumericSettingsAccepted(env: Option<string>, loadMs: nat)
    requires env.None? || env.value == "" || AllDigits(env.value)
    ensures Accepted(AccessTokenOptions(AccessTokenExpire(env), loadMs))
    ensures Accepted(RefreshTokenOptions(RefreshTokenExpire(env), loadMs))
  {
    if env.Some? && env.value != "" {
      ParseDigits(env.value);
    }
  }

  /** A setting with no digit in it makes `res.cookie` refuse the cookie it times. */
  lemma NonNumericSettingsRefused(env: Option<string>, loadMs: nat)
    requires env.Some? && env.value != "" && forall i :: 0 <= i < |env.value| ==> !IsDigit(env.value[i])
    ensures !Accepted(AccessTokenOptions(AccessTokenExpire(env), loadMs))
    ensures !Accepted(RefreshTokenOptions(RefreshTokenExpire(env), loadMs))
  {
  }

  /** The options `logOutUser` clears both cookies with: `{ maxAge: 1 }` and nothing else. */
  const ClearingOptions := Options(None, Finite(1), false, Unset, false)

  /**
   * With the default settings the cookies outlive the tokens the refresh
   * handler puts in them: the access cookie lasts 300 hours, 3600 times the
   * token's five minutes, and the refresh cookie 1200 days, 400 times the
   * token's three days.
   */
  lemma DefaultCookiesOutliveRefreshedTokens(loadMs: nat)
    ensures AccessTokenOptions(AccessTokenExpire(None), loadMs).maxAge == Finite(3600 * (FiveMinutes * 1000))
    ensures RefreshTokenOptions(RefreshTokenExpire(None), loadMs).maxAge == Finite(400 * (ThreeDays * 1000))
  {
  }
}
