/** Token issuance for the desktop companion (`GET /api/auth/generate-token`): the signed-in
    session's user is looked up by provider id and a 30-day HS256 token is signed for it.

    The session (`auth()`), the clock and the signer are inputs; the user table is read only. */
module GenerateToken {
  import opened Js
  import opened Users
  import opened Tokens

  /** The response: `{ success: true, token, expiresIn: "30 days" }`, or `{ error }` with a status. */
  datatype IssueResponse = Issued(token: string, expiresIn: string) | IssueError(error: string, status: int)

  /** The claims of a token for `user`, issued at `now` to the session `clerkUserId`. */
  function TokenClaims(user: User, clerkUserId: string, now: int): (c: Claims)
    ensures c.userId == user.id && c.clerkUserId == clerkUserId
    ensures c.iat == now && c.exp - c.iat == ThirtyDays
  {
    Claims(user.id, clerkUserId, now, now + ThirtyDays)
  }

  /** What is signed: the HS256 header and the claims. */
  function TokenRequest(user: User, clerkUserId: string, now: int): (req: SignRequest)
    ensures req.alg == "HS256" && req.claims == TokenClaims(user, clerkUserId, now)
  {
    SignRequest("HS256", TokenClaims(user, clerkUserId, now))
  }

  /** The handler. Without a session user it answers 401 before touching the table; a session
      whose provider id has no user record answers 404 and signs nothing; a signing failure
      answers 500 with its message (or a fixed one); otherwise the signed token. */
  function Get(session: Option<string>, users: seq<User>, key: string, now: int, sign: Signer): (r: IssueResponse)
    ensures !Truthy(session) ==> r == IssueError("Unauthorized", 401)
    ensures Truthy(session) && FindUnique(users, ByClerkUserId, session.value).None? ==> r == IssueError("User not found", 404)
    ensures r.Issued? <==>
      Truthy(session) && FindUnique(users, ByClerkUserId, session.value).Some?
      && sign(TokenRequest(FindUnique(users, ByClerkUserId, session.value).value, session.value, now), key).Ok?
    ensures r.Issued? ==>
      r.expiresIn == "30 days"
      && r.token == sign(TokenRequest(FindUnique(users, ByClerkUserId, session.value).value, session.value, now), key).value
    ensures r.IssueError? && r.status == 500 ==>
      Truthy(session) && FindUnique(users, ByClerkUserId, session.value).Some?
      && var m := sign(TokenRequest(FindUnique(users, ByClerkUserId, session.value).value, session.value, now), key);
         m.Thrown? && r.error == OrElse(Some(m.message), "Failed to generate token")
  {
    if !Truthy(session) then
      IssueError("Unauthorized", 401)
    else
      match FindUnique(users, ByClerkUserId, session.value)
      case None => IssueError("User not found", 404)
      case Some(user) =>
        match sign(TokenRequest(user, session.value, now), key)
        case Thrown(m) => IssueError(OrElse(Some(m), "Failed to generate token"), 500)
        case Ok(token) => Issued(token, "30 days")
  }

  /** A request without a session is refused whatever the table and the signer hold. */
  lemma NoSessionIgnoresTable(session: Option<string>, u1: seq<User>, u2: seq<User>, key: string, now: int, s1: Signer, s2: Signer)
    requires !Truthy(session)
    ensures Get(session, u1, key, now, s1) == Get(session, u2, key, now, s2) == IssueError("Unauthorized", 401)
  {
  }

  /** When the session's user is missing, no token is signed: the signer is irrelevant. */
  lemma MissingUserSignsNothing(clerkUserId: string, users: seq<User>, key: string, now: int, s1: Signer, s2: Signer)
    requires clerkUserId != "" && forall u :: u in users ==> u.clerkUserId != clerkUserId
    ensures Get(Some(clerkUserId), users, key, now, s1) == Get(Some(clerkUserId), users, key, now, s2)
    ensures Get(Some(clerkUserId), users, key, now, s1) == IssueError("User not found", 404)
  {
  }
}
