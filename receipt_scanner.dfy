/** The receipt endpoint used by the desktop companion (`/api/receipt-scanner`): bearer-token
    verification, then `POST` (scan an uploaded receipt) and `GET` (check a token only).

    The receipt scanner is an oracle passed in as a function; token decoding is the
    `Decoder` oracle of module Tokens. */
module ReceiptScanner {
  import opened Js
  import opened Users
  import opened Tokens

  const BadHeaderMessage: string := "Missing or invalid Authorization header"
  const NoTokenMessage: string := "No token provided"
  const UserNotFoundMessage: string := "User not found"

  /** What `verifyToken` returns: `{ valid: true, user }` or `{ valid: false, error }`. */
  datatype TokenCheck = Valid(user: User) | Invalid(error: string)

  /** What verification depends on besides the request: the key, the clock (seconds since
      the epoch), the token decoder and the user table. */
  datatype Verifier = Verifier(key: string, now: int, decode: Decoder, users: seq<User>)

  /** A transaction draft as the receipt scanner extracts it; amounts are integer cents. */
  datatype Draft = Draft(amount: int, date: string, description: string, category: string)

  /** A value of the multipart form: an uploaded file or a text field. */
  datatype FormEntry = FileEntry(name: string, bytes: seq<int>) | TextEntry(text: string)

  /** The outcome of `req.formData()`: a thrown error's message, or the fields by name. */
  datatype FormBody = Malformed(message: string) | Form(fields: map<string, FormEntry>)

  /** `POST`'s response: `{ success: true, data }`, or `{ error }` with a status. */
  datatype ScanResponse = Scanned(data: Draft) | ScanError(error: string, status: int)

  /** `GET`'s response: `{ success: true, message: "Token is valid" }`, or `{ error }` with 401. */
  datatype CheckResponse = TokenValid | CheckError(error: string, status: int)

  /** `authHeader.split(" ")[1]`: the second space-separated field, undefined when there is none. */
  function SecondField(header: string): (token: Option<string>)
    ensures token.Some? ==> ' ' !in token.value
    ensures token.None? <==> ' ' !in header
  {
    var fields := Split(header, ' ');
    if |fields| >= 2 then Some(fields[1]) else None
  }

  /** The token of a header that starts with "Bearer ": the text after that prefix up to
      the next space. So "Bearer " and "Bearer  x" carry the empty token. */
  lemma BearerToken(rest: string)
    ensures SecondField("Bearer " + rest) == Some(rest[..IndexOrEnd(rest, ' ')])
  {
    assert "Bearer " + rest == "Bearer" + [' '] + rest;
    SplitCons("Bearer", ' ', rest);
    SplitFirstField(rest, ' ');
  }

  /** A token without spaces, presented after "Bearer ", is extracted as it is. */
  lemma BearerTokenExact(token: string)
    requires ' ' !in token
    ensures SecondField("Bearer " + token) == Some(token)
  {
    BearerToken(token);
    assert IndexOrEnd(token, ' ') == |token|;
    assert token[..|token|] == token;
  }

  /** `verifyToken`: the header must be present and start with "Bearer "; its second field
      must be non-empty; the token must verify; and the user named by its `userId` claim must
      exist. The first failing step's message is the result. */
  function VerifyToken(authorization: Option<string>, v: Verifier): (r: TokenCheck)
    ensures (authorization.None? || !StartsWith(authorization.value, "Bearer ")) ==>
      r == Invalid(BadHeaderMessage)
    ensures r.Valid? <==>
      && authorization.Some? && StartsWith(authorization.value, "Bearer ")
      && SecondField(authorization.value).Some? && SecondField(authorization.value).value != ""
      && JwtVerify(SecondField(authorization.value).value, v.key, v.now, v.decode).Accepted?
      && FindUnique(v.users, ById, JwtVerify(SecondField(authorization.value).value, v.key, v.now, v.decode).payload.userId).Some?
    ensures authorization.Some? && StartsWith(authorization.value, "Bearer ")
            && !Truthy(SecondField(authorization.value)) ==>
      r == Invalid(NoTokenMessage)
    ensures authorization.Some? && StartsWith(authorization.value, "Bearer ")
            && Truthy(SecondField(authorization.value))
            && JwtVerify(SecondField(authorization.value).value, v.key, v.now, v.decode).Rejected? ==>
      r == Invalid(JwtVerify(SecondField(authorization.value).value, v.key, v.now, v.decode).message)
    ensures authorization.Some? && StartsWith(authorization.value, "Bearer ")
            && Truthy(SecondField(authorization.value))
            && JwtVerify(SecondField(authorization.value).value, v.key, v.now, v.decode).Accepted?
            && FindUnique(v.users, ById, JwtVerify(SecondField(authorization.value).value, v.key, v.now, v.decode).payload.userId).None? ==>
      r == Invalid(UserNotFoundMessage)
    ensures r.Valid? ==>
      (r.user in v.users
       && r.user.id == JwtVerify(SecondField(authorization.value).value, v.key, v.now, v.decode).payload.userId)
  {
    if authorization.None? || !StartsWith(authorization.value, "Bearer ") then
      Invalid(BadHeaderMessage)
    else
      var token := SecondField(authorization.value);
      if !Truthy(token) then
        Invalid(NoTokenMessage)
      else
        match JwtVerify(token.value, v.key, v.now, v.decode)
        case Rejected(m) => Invalid(m)
        case Accepted(payload) =>
          match FindUnique(v.users, ById, payload.userId)
          case None => Invalid(UserNotFoundMessage)
          case Some(user) => Valid(user)
  }

  /** A header that is missing or not a bearer header fails before any signature check or
      user lookup: the decoder and the table do not matter. */
  lemma BadHeaderIgnoresVerifier(authorization: Option<string>, v1: Verifier, v2: Verifier)
    requires authorization.None? || !StartsWith(authorization.value, "Bearer ")
    ensures VerifyToken(authorization, v1) == VerifyToken(authorization, v2) == Invalid(BadHeaderMessage)
  {
  }

  /** "Bearer " with nothing after it, or with a second space right after it, carries no token.
      A parsed header value never ends in white space, so only the second form reaches the
      handler. */
  lemma EmptyTokenRejected(rest: string, v: Verifier)
    requires rest == [] || rest[0] == ' '
    ensures VerifyToken(Some("Bearer " + rest), v) == Invalid(NoTokenMessage)
  {
    BearerToken(rest);
    assert IndexOrEnd(rest, ' ') == 0;
    assert StartsWith("Bearer " + rest, "Bearer ");
  }

  /** `POST`: an invalid token gives 401 before the form is read; a form without a truthy
      `receipt` field gives 400 without calling the scanner; a scanner or form failure gives 500;
      otherwise the scanner's draft. */
  function Post(authorization: Option<string>, v: Verifier, form: FormBody,
                scan: FormEntry -> Result<Draft>): (r: ScanResponse)
    ensures VerifyToken(authorization, v).Invalid? ==>
      r == ScanError(OrElse(Some(VerifyToken(authorization, v).error), "Unauthorized"), 401)
    ensures VerifyToken(authorization, v).Valid? && form.Form? && !ReceiptPresent(form.fields) ==>
      r == ScanError("No receipt file provided", 400)
    ensures VerifyToken(authorization, v).Valid? && form.Malformed? ==>
      r == ScanError(OrElse(Some(form.message), "Failed to scan receipt"), 500)
    ensures r.Scanned? <==>
      VerifyToken(authorization, v).Valid? && form.Form? && ReceiptPresent(form.fields)
      && scan(form.fields["receipt"]).Ok?
    ensures r.Scanned? ==> r.data == scan(form.fields["receipt"]).value
    ensures VerifyToken(authorization, v).Valid? && form.Form? && ReceiptPresent(form.fields)
            && scan(form.fields["receipt"]).Thrown? ==>
      r == ScanError(OrElse(Some(scan(form.fields["receipt"]).message), "Failed to scan receipt"), 500)
    ensures r.ScanError? && r.status == 500 ==> VerifyToken(authorization, v).Valid?
  {
    match VerifyToken(authorization, v)
    case Invalid(e) => ScanError(OrElse(Some(e), "Unauthorized"), 401)
    case Valid(_) =>
      match form
      case Malformed(m) => ScanError(OrElse(Some(m), "Failed to scan receipt"), 500)
      case Form(fields) =>
        if !ReceiptPresent(fields) then
          ScanError("No receipt file provided", 400)
        else
          match scan(fields["receipt"])
          case Thrown(m) => ScanError(OrElse(Some(m), "Failed to scan receipt"), 500)
          case Ok(draft) => Scanned(draft)
  }

  /** `formData.get("receipt")` is truthy: a file, or a non-empty text field. */
  function ReceiptPresent(fields: map<string, FormEntry>): (b: bool)
    ensures b ==> "receipt" in fields
    ensures "receipt" in fields && fields["receipt"].FileEntry? ==> b
    ensures "receipt" in fields && fields["receipt"].TextEntry? ==> (b <==> fields["receipt"].text != "")
  {
    "receipt" in fields && (fields["receipt"].FileEntry? || fields["receipt"].text != "")
  }

  /** A request with an invalid token is answered without reading the form or calling the scanner. */
  lemma InvalidTokenIgnoresForm(authorization: Option<string>, v: Verifier, f1: FormBody, f2: FormBody,
                                s1: FormEntry -> Result<Draft>, s2: FormEntry -> Result<Draft>)
    requires VerifyToken(authorization, v).Invalid?
    ensures Post(authorization, v, f1, s1) == Post(authorization, v, f2, s2)
    ensures Post(authorization, v, f1, s1).status == 401
  {
  }

  /** A form without a receipt is refused whatever the scanner would do. */
  lemma MissingReceiptIgnoresScanner(authorization: Option<string>, v: Verifier, fields: map<string, FormEntry>,
                                     s1: FormEntry -> Result<Draft>, s2: FormEntry -> Result<Draft>)
    requires VerifyToken(authorization, v).Valid? && !ReceiptPresent(fields)
    ensures Post(authorization, v, Form(fields), s1) == Post(authorization, v, Form(fields), s2)
  {
  }

  /** `GET`: success exactly when the token is valid; every failure is a 401, never a 500. */
  function Get(authorization: Option<string>, v: Verifier): (r: CheckResponse)
    ensures r.TokenValid? <==> VerifyToken(authorization, v).Valid?
    ensures r.CheckError? ==> r.status == 401
    ensures r.CheckError? ==> r.error == OrElse(Some(VerifyToken(authorization, v).error), "Invalid token")
  {
    match VerifyToken(authorization, v)
    case Valid(_) => TokenValid
    case Invalid(e) => CheckError(OrElse(Some(e), "Invalid token"), 401)
  }

  /** `GET` and `POST` agree on which requests are authorised. */
  lemma GetAgreesWithPost(authorization: Option<string>, v: Verifier, form: FormBody, scan: FormEntry -> Result<Draft>)
    ensures Get(authorization, v).TokenValid? <==>
      !(Post(authorization, v, form, scan).ScanError? && Post(authorization, v, form, scan).status == 401)
  {
  }
}
