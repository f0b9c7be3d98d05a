/**
 * The pure part of registration and activation in
 * controllers/user.controller.ts: `createActivationToken` and the comparison
 * of the submitted code with the one inside the token.
 */
module Activation {
  import opened Wrappers
  import opened Decimal
  import opened Tokens

  /** What `createActivationToken` returns. */
  datatype ActivationToken = ActivationToken(token: Jwt, activationCode: string, user: Candidate)

  const MissingSecret := "ACTIVATION_SECRET is not defined"

  /**
   * `Math.floor(1000 + Math.random() * 9000).toString()`, where `r` stands for
   * `Math.floor(Math.random() * 9000)`: four decimal digits naming 1000 + r.
   */
  function ActivationCode(r: nat): (code: string)
    requires r < 9000
    ensures |code| == 4 && AllDigits(code)
    ensures ParseInt(code) == Finite(1000 + r)
  {
    var n: nat := 1000 + r;
    FourDigits(n);
    ParseDecimalString(n);
    DecimalString(n)
  }

  /**
   * `token` gives back exactly `claims` under `secret` from `now` until five
   * minutes later, and has expired from then on.
   */
  ghost predicate LastsFiveMinutes(token: Jwt, secret: string, claims: Payload, now: int)
  {
    && (forall t :: now <= t < now + FiveMinutes ==> Verify(Some(token), secret, t) == Success(claims))
    && (forall t :: now + FiveMinutes <= t ==> Verify(Some(token), secret, t) == Failure(Expired))
  }

  /**
   * `createActivationToken(user)` with the activation secret `secret` at clock
   * `now`: fails when the secret is unset; otherwise returns the code and a
   * token that carries exactly `user` with that code for five minutes.
   */
  function CreateActivationToken(user: Candidate, r: nat, secret: string, now: int): (res: Result<ActivationToken, string>)
    requires r < 9000
    ensures res.Failure? <==> secret == ""
    ensures res.Failure? ==> res.error == MissingSecret
    ensures res.Success? ==> res.value.user == user && res.value.activationCode == ActivationCode(r)
    ensures res.Success? ==> LastsFiveMinutes(res.value.token, secret, ActivationClaims(user, res.value.activationCode), now)
  {
    var activationCode := ActivationCode(r);
    if secret == "" then Failure(MissingSecret)
    else
      var token := Sign(ActivationClaims(user, activationCode), secret, now, FiveMinutes);
      Success(ActivationToken(token.value, activationCode, user))
  }

  /**
   * `newUser.activationCode === activation_code`: only activation claims carry
   * a code, so verified claims of any other shape never match.
   */
  function CodeMatches(claims: Payload, submitted: string): (ok: bool)
    ensures ok <==> claims.ActivationClaims? && claims == ActivationClaims(claims.user, submitted)
  {
    claims.ActivationClaims? && claims.activationCode == submitted
  }
}
