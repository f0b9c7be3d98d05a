/**
 * Signed, time-limited tokens as the core uses them through `jwt.sign` and
 * `jwt.verify`. Signing internals are abstract: a signed token records its
 * payload, the secret it was signed with and its expiry (whole seconds), and
 * verifying means "same secret and not yet expired". Which kind of token it
 * is (activation, access, refresh) is given by the secret it is signed with.
 */
module Tokens {
  import opened Wrappers

  /** A user's persistent identity (the store's `_id`). */
  type UserId = nat

  /** The registration fields carried by an activation token. */
  datatype Candidate = Candidate(name: string, email: string, password: string)

  datatype Payload =
    | ActivationClaims(user: Candidate, activationCode: string)
    | IdClaims(id: UserId)

  /** What a client presents where a token is expected: "", something that is not a token, or a token. */
  datatype Jwt = Blank | Garbled | Signed(payload: Payload, secret: string, expiry: int)

  /** The kinds of error `jwt.sign` and `jwt.verify` throw. */
  datatype JwtError =
    | NotProvided    // no token, or ""
    | Malformed      // not a token at all
    | NoVerifyKey    // verifying with an empty secret
    | BadSignature   // signed with another secret
    | Expired        // the clock has reached the expiry
    | NoSigningKey   // signing with an empty secret

  /** `expiresIn: "5m"` */
  const FiveMinutes: nat := 5 * 60
  /** `expiresIn: "3d"` */
  const ThreeDays: nat := 3 * 24 * 60 * 60

  /** `jwt.verify(token, secret)` at clock `now`; `None` is an absent token. */
  function Verify(token: Option<Jwt>, secret: string, now: int): (r: Result<Payload, JwtError>)
    ensures r.Success? <==>
      token.Some? && token.value.Signed? && secret != "" && token.value.secret == secret && now < token.value.expiry
    ensures r.Success? ==> r.value == token.value.payload
    ensures token.None? || token == Some(Blank) ==> r == Failure(NotProvided)
    ensures token == Some(Garbled) ==> r == Failure(Malformed)
    ensures token.Some? && token.value.Signed? && secret == "" ==> r == Failure(NoVerifyKey)
    ensures token.Some? && token.value.Signed? && secret != "" && token.value.secret != secret ==> r == Failure(BadSignature)
    ensures token.Some? && token.value.Signed? && token.value.secret == secret && secret != "" && now >= token.value.expiry ==>
      r == Failure(Expired)
  {
    if token.None? || token.value.Blank? then Failure(NotProvided)
    else if token.value.Garbled? then Failure(Malformed)
    else if secret == "" then Failure(NoVerifyKey)
    else if token.value.secret != secret then Failure(BadSignature)
    else if now >= token.value.expiry then Failure(Expired)
    else Success(token.value.payload)
  }

  /**
   * `jwt.sign(payload, secret, { expiresIn: lifetime })` at clock `now`: refused
   * for an empty secret; otherwise a token that gives back exactly `payload`
   * under that secret and no other, from `now` until just before `now + lifetime`.
   */
  function Sign(payload: Payload, secret: string, now: int, lifetime: nat): (r: Result<Jwt, JwtError>)
    ensures r.Failure? <==> secret == ""
    ensures r.Failure? ==> r.error == NoSigningKey
    ensures r.Success? ==> forall key, t ::
      Verify(Some(r.value), key, t) == Success(payload) <==> key == secret && t < now + lifetime
    ensures r.Success? ==> forall key, t :: key != "" && key != secret ==>
      Verify(Some(r.value), key, t) == Failure(BadSignature)
    ensures r.Success? ==> forall t :: now + lifetime <= t ==>
      Verify(Some(r.value), secret, t) == Failure(Expired)
  {
    if secret == "" then Failure(NoSigningKey) else Success(Signed(payload, secret, now + lifetime))
  }

  /** The user id a verified payload names, if it names one (`decoded.id`). */
  function SessionKey(claims: Payload): Option<UserId>
  {
    if claims.IdClaims? then Some(claims.id) else None
  }
}
