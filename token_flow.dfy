/** The two token routes together: a token issued by the token route is accepted by the
    receipt route for as long as it has not expired and its user still exists, because both
    routes derive their key from the same configuration. The only assumptions about the
    signature scheme are that a compact token is a non-empty string without spaces, and
    that decoding a token signed under a key, with that key, gives back the signed claims. */
module TokenFlow {
  import opened Js
  import opened Users
  import opened Tokens
  import GenerateToken
  import ReceiptScanner

  /** An issued token, sent as "Bearer <token>" before its expiry, authenticates the
      session's own user record, on both the receipt upload check and the token check. */
  lemma {:induction false} IssuedTokenAccepted(tokenSecret: Option<string>, session: string, users: seq<User>,
                                               user: User, token: string, iat: int, now: int,
                                               sign: Signer, decode: Decoder)
    requires UniqueKeys(users)
    requires FindUnique(users, ByClerkUserId, session) == Some(user)
    requires GenerateToken.Get(Some(session), users, SecretKey(tokenSecret), iat, sign) == GenerateToken.Issued(token, "30 days")
    requires ' ' !in token && token != []
    requires decode(token, SecretKey(tokenSecret)) == Ok(GenerateToken.TokenClaims(user, session, iat))
    requires now < iat + ThirtyDays
    ensures ReceiptScanner.VerifyToken(Some("Bearer " + token), ReceiptScanner.Verifier(SecretKey(tokenSecret), now, decode, users))
            == ReceiptScanner.Valid(user)
    ensures ReceiptScanner.Get(Some("Bearer " + token), ReceiptScanner.Verifier(SecretKey(tokenSecret), now, decode, users))
            == ReceiptScanner.TokenValid
  {
    ReceiptScanner.BearerTokenExact(token);
    assert StartsWith("Bearer " + token, "Bearer ");
    FindUniqueExact(users, ById, user);
  }

  /** Once `exp` has passed, the same token is rejected with the expiry message. */
  lemma IssuedTokenExpires(key: string, users: seq<User>, user: User, session: string,
                           token: string, iat: int, now: int, decode: Decoder)
    requires ' ' !in token && token != []
    requires decode(token, key) == Ok(GenerateToken.TokenClaims(user, session, iat))
    requires now >= iat + ThirtyDays
    ensures ReceiptScanner.VerifyToken(Some("Bearer " + token), ReceiptScanner.Verifier(key, now, decode, users))
            == ReceiptScanner.Invalid(ExpiredMessage)
  {
    ReceiptScanner.BearerTokenExact(token);
    assert StartsWith("Bearer " + token, "Bearer ");
  }

  /** A token whose user record has since been deleted is refused as "User not found",
      although its signature and expiry still check out. */
  lemma DeletedUserRejected(key: string, later: seq<User>, user: User, session: string,
                            token: string, iat: int, now: int, decode: Decoder)
    requires ' ' !in token && token != []
    requires decode(token, key) == Ok(GenerateToken.TokenClaims(user, session, iat))
    requires now < iat + ThirtyDays
    requires forall u :: u in later ==> u.id != user.id
    ensures ReceiptScanner.VerifyToken(Some("Bearer " + token), ReceiptScanner.Verifier(key, now, decode, later))
            == ReceiptScanner.Invalid(ReceiptScanner.UserNotFoundMessage)
  {
    ReceiptScanner.BearerTokenExact(token);
    assert StartsWith("Bearer " + token, "Bearer ");
  }
}
