/** The desktop-companion access token: the shared signing secret, the claims the
    issuer signs, and the verification that the receipt endpoint applies.

    The HS256 signature itself is not modelled: signing and decoding are oracles
    (`Signer`, `Decoder`) supplied by the caller. What the model keeps is the
    check on the `exp` claim that verification performs after the signature
    has been accepted. */
module Tokens {
  import opened Js

  /** The development fallback used when `TOKEN_SECRET` is unset or empty. */
  const FallbackSecret: string := "finbox-receipt-scanner-secret-key"

  /** Seconds in the token's 30-day validity window. */
  const ThirtyDays: int := 30 * 24 * 60 * 60

  /** The claims carried by an issued token; times are seconds since the epoch. */
  datatype Claims = Claims(userId: string, clerkUserId: string, iat: int, exp: int)

  /** What is handed to the signer: the protected header's algorithm and the claims. */
  datatype SignRequest = SignRequest(alg: string, claims: Claims)

  /** The outcome of `jwtVerify`: the accepted payload, or the thrown error's message. */
  datatype Verification = Accepted(payload: Claims) | Rejected(message: string)

  /** `new SignJWT(claims).setProtectedHeader(..).sign(key)`: a compact token, or a thrown error. */
  type Signer = (SignRequest, string) -> Result<string>

  /** Parsing a compact token and checking its signature under a key: the signed claims,
      or the thrown error's message. */
  type Decoder = (string, string) -> Result<Claims>

  /** The signing/verification key both routes derive from the environment:
      `process.env.TOKEN_SECRET || "finbox-receipt-scanner-secret-key"`. */
  function SecretKey(tokenSecret: Option<string>): (key: string)
    ensures key != []
    ensures Truthy(tokenSecret) ==> key == tokenSecret.value
    ensures !Truthy(tokenSecret) ==> key == FallbackSecret
  {
    OrElse(tokenSecret, FallbackSecret)
  }

  /** The message with which verification rejects a token whose `exp` has passed. */
  const ExpiredMessage: string := "\"exp\" claim timestamp check failed"

  /** `jwtVerify(token, key)` at time `now`: a token is accepted exactly when its signature
      checks out under the key and `now` is before its expiry. */
  function JwtVerify(token: string, key: string, now: int, decode: Decoder): (v: Verification)
    ensures v.Accepted? <==> decode(token, key).Ok? && now < decode(token, key).value.exp
    ensures v.Accepted? ==> v.payload == decode(token, key).value
    ensures decode(token, key).Thrown? ==> v == Rejected(decode(token, key).message)
    ensures decode(token, key).Ok? && decode(token, key).value.exp <= now ==> v == Rejected(ExpiredMessage)
  {
    match decode(token, key)
    case Thrown(m) => Rejected(m)
    case Ok(claims) => if claims.exp <= now then Rejected(ExpiredMessage) else Accepted(claims)
  }

  /** A token signed with `exp` 30 days after `iat` is accepted 29 days after issue and
      rejected as expired 31 days after issue. */
  lemma ThirtyDayWindow(token: string, key: string, decode: Decoder, c: Claims)
    requires decode(token, key) == Ok(c) && c.exp == c.iat + ThirtyDays
    ensures JwtVerify(token, key, c.iat + 29 * 24 * 60 * 60, decode) == Accepted(c)
    ensures JwtVerify(token, key, c.iat + 31 * 24 * 60 * 60, decode) == Rejected(ExpiredMessage)
  {
  }
}
