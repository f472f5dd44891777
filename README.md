# FinBox core, modelled in Dafny

FinBox is a personal-finance web application. Most of it is React UI and thin glue around the
Clerk authentication service, the Prisma database client, the `jose` JWT library and the Gemini
generative-language API. This project models the decision logic inside that glue:

- **Finance chat** (`POST /api/finance-chatbot`, module `FinanceChatbot`): the API-key check,
  the local arithmetic intercept (a character-class test on the trimmed message), the prompt sent
  to the provider, and how the provider's reply becomes an `{ answer }` or an `{ error }` with
  status 500.
- **Receipt endpoint** (`/api/receipt-scanner`, module `ReceiptScanner`): bearer-token
  extraction (`startsWith("Bearer ")`, then `split(" ")[1]`), the verification chain, and how
  `POST` and `GET` map its results to 401/400/500/200.
- **Token issuance** (`GET /api/auth/generate-token`, module `GenerateToken`): session check,
  user lookup by provider id, the claims and the 30-day expiry, and the 401/404/500/200 mapping.
  Module `Tokens` holds the signing key that both token routes derive from `TOKEN_SECRET` and
  the expiry check of `jwtVerify`. Module `TokenFlow` proves that a token issued by one route is
  accepted by the other until it expires.
- **Get-or-create user** (`lib/auth-helpers.js`, module `AuthHelpers`): lookup-or-insert on the
  user table. It is a specification function plus a `UserTable` class whose method updates the
  table in place.
- **Seeding** (`actions/seed.js`, module `Seed`): the nested loops that generate 91 days of
  random transactions with a running balance, the default-account fallback, and the commit
  that replaces the account's transactions and sets its balance. The commit is a `Database`
  class whose method reads the user table and updates the account and transaction tables in
  place.
- **Database URL fix** (`scripts/fix-prisma-env.js`, module `FixPrismaEnv`): under Vercel, the
  `postgresql://` scheme of `DATABASE_URL` and `DIRECT_URL` is rewritten to `postgres://` in the
  process environment. This is an `Environment` class with a mutable variable map.

Shared modules:
- `Js` states the JavaScript semantics the handlers rely on: truthiness, `||`, `${undefined}`,
  `trim`, `startsWith`, `split`, `replace` with a string pattern (and a replacement without `$`
  patterns), and decimal rendering of a count.
- `Users` holds the user table and its two unique lookups.

Foreign calls become inputs:
- Arrow-typed parameters: the arithmetic evaluator, the Gemini call, the JWT signer and decoder,
  and the receipt scanner.
- Plain values: the Clerk session id and profile, the clock (seconds since the epoch), the
  environment map, `Math.random()` (the oracle `draws`, whose residues pick equally likely
  outcomes) and `randomUUID()` (the oracle `uuids`, or a fresh id argument).

Money is in integer cents. A seeded transaction's date is its number of days before seeding.

## Model

| member | source | states |
|---|---|---|
| Js.OrElse | app/api/receipt-scanner/route.js:49 | `a \|\| b` on a possibly undefined string: the left value exactly when it is present and non-empty, otherwise the fallback |
| Js.TrimStart | app/api/finance-chatbot/route.js:18 | leading part of `trim()`: the result is a suffix of the input, every removed character is white space, and the result does not begin with white space |
| Js.TrimEnd | app/api/finance-chatbot/route.js:18 | trailing part of `trim()`: the result is a prefix of the input, every removed character is white space, and the result does not end with white space |
| Js.Template | app/api/finance-chatbot/route.js:70 | a defined value is inserted as itself; `${undefined}` renders as "undefined" |
| Js.Trim | app/api/finance-chatbot/route.js:18 | `trim()` is the slice of the message left after the leading and trailing white space, every removed character is white space, and the result neither begins nor ends with white space |
| Js.TrimEmptyIff | app/api/finance-chatbot/route.js:18 | `message.trim()` is non-empty iff the message has a non-space character, and every character of the trimmed string occurs in the message |
| Js.StartsWithIff | scripts/fix-prisma-env.js:15 | `startsWith(p)` holds exactly when the string is `p` followed by the rest of the string |
| Js.IndexOrEnd | app/api/receipt-scanner/route.js:19 | the first occurrence of the separator, or the length when it does not occur |
| Js.Split | app/api/receipt-scanner/route.js:19 | `split(" ")` gives at least one field, and no field contains the separator |
| Js.SplitJoin | app/api/receipt-scanner/route.js:19 | splitting loses nothing: joining the fields with the separator gives the header back |
| Js.SplitCons | app/api/receipt-scanner/route.js:19 | a string made of a separator-free field, a separator and a rest splits into that field followed by the fields of the rest |
| Js.SplitFirstField | app/api/receipt-scanner/route.js:19 | the first field is the text before the first separator |
| Js.IndexOfSub | scripts/fix-prisma-env.js:20 | the first occurrence of a substring: the pattern occurs there and at no earlier position, or it occurs nowhere |
| Js.ReplaceFirstAt | scripts/fix-prisma-env.js:20 | `replace(pat, rep)` replaces the first occurrence of `pat`, and only it |
| Js.ReplaceFirstAbsent | scripts/fix-prisma-env.js:20 | `replace(pat, rep)` returns a string without an occurrence of `pat` unchanged |
| Js.ReplacePrefix | scripts/fix-prisma-env.js:20 | `replace(pat, rep)` on a string that starts with `pat` swaps exactly that prefix |
| Js.NatToString | actions/seed.js:142 | `${n}` is a non-empty string of decimal digits with no leading zero unless n is 0 |
| Js.NatToStringValue | actions/seed.js:142 | reading the rendered digits back gives the count: rendering loses nothing |
| Users.FindUnique | app/api/receipt-scanner/route.js:28-30 | `findUnique` by id (or, at app/api/auth/generate-token/route.js:22-24 and lib/auth-helpers.js:8-10, by `clerkUserId`) returns a record of the table carrying that key value, and nothing exactly when no record carries it |
| Users.FindUniqueExact | app/api/receipt-scanner/route.js:28-30 | under unique keys, the lookup by a record's key value finds exactly that record |
| Users.FindUniqueAppend | lib/auth-helpers.js:16-23 | appending a record with a new key value makes that value resolve to it and leaves every other lookup unchanged |
| Tokens.SecretKey | app/api/auth/generate-token/route.js:7 | the key is `TOKEN_SECRET` when it is set and non-empty, else the fixed fallback; it is never empty. The receipt route (line 7 of its file) uses the same expression, so both routes use one key |
| Tokens.JwtVerify | app/api/receipt-scanner/route.js:25 | a token is accepted iff its signature checks out under the key and the clock is before `exp`; the payload is the signed claims; a signature failure carries its own message, and an expired token is rejected with the `exp` check message |
| Tokens.ThirtyDayWindow | app/api/auth/generate-token/route.js:38-41 | a token whose `exp` is 30 days after `iat` is accepted 29 days after issue and rejected as expired 31 days after issue |
| FinanceChatbot.IsCalculation | app/api/finance-chatbot/route.js:17-18 | the intercept fires iff the message has a non-space character and every character is a digit, one of `+ - * / ( ) . % ^`, or white space |
| FinanceChatbot.TrimmedCalcChars | app/api/finance-chatbot/route.js:18 | testing the class on `message.trim()` accepts exactly the messages whose every character is in the class, because the trimmed-off characters are white space and white space is in the class |
| FinanceChatbot.CombinedMessage | app/api/finance-chatbot/route.js:30 | the text sent starts with the system prompt, followed by a blank line, "User question: " and the message |
| FinanceChatbot.RequestFor | app/api/finance-chatbot/route.js:31-39 | the payload holds one content with one part, the combined message |
| FinanceChatbot.SelectAnswer | app/api/finance-chatbot/route.js:64-76 | the answer from the first candidate: its first part's text, else "Error from AI: ..." when it has an error, else the default; with no candidates "API Error: ..." or the default |
| FinanceChatbot.OnlyFirstCandidate | app/api/finance-chatbot/route.js:65-66 | candidates after the first, and the top-level error when candidates exist, never change the answer |
| FinanceChatbot.FromReply | app/api/finance-chatbot/route.js:41-79 | a failed call gives 500 "Failed to contact Gemini API: ...". Non-JSON gives 500 "Gemini API returned non-JSON: " + text, before the status check. A non-ok status gives 500 with the reply's error message or else the raw text. A `null` reply fails like a call. Otherwise the response is the selected answer |
| FinanceChatbot.Post | app/api/finance-chatbot/route.js:4-80 | no key gives 500 "Gemini API key not set."; then an intercepted message gives "Result: " + value, or the apology when evaluation throws; any other message is answered from the provider's reply to its request |
| FinanceChatbot.MissingKeyBeforeIntercept | app/api/finance-chatbot/route.js:6-10 | without a key (unset or empty), even a pure calculation is refused with 500 |
| FinanceChatbot.InterceptSkipsProvider | app/api/finance-chatbot/route.js:19-26 | an intercepted message gives the same answer whatever the provider would reply, and never an error status |
| FinanceChatbot.NonCalculationSkipsEvaluator | app/api/finance-chatbot/route.js:18 | a message that is not a calculation is never evaluated locally |
| FinanceChatbot.CalculationExample | app/api/finance-chatbot/route.js:17-18 | "2 + 2 * 3" is intercepted |
| FinanceChatbot.NonCalcCharNotIntercepted | app/api/finance-chatbot/route.js:17-18 | a message with any character outside the class (a letter of a question in words, say) is never intercepted |
| FinanceChatbot.BlankExample | app/api/finance-chatbot/route.js:17-18 | a blank message is not intercepted, because trimming leaves nothing |
| ReceiptScanner.SecondField | app/api/receipt-scanner/route.js:19 | `split(" ")[1]` contains no space, and it is undefined exactly when the header has no space |
| ReceiptScanner.BearerToken | app/api/receipt-scanner/route.js:19 | after "Bearer ", the token is the text up to the next space, so "Bearer " and "Bearer  x" give the empty token |
| ReceiptScanner.BearerTokenExact | app/api/receipt-scanner/route.js:19 | a token without spaces sent after "Bearer " is extracted unchanged |
| ReceiptScanner.VerifyToken | app/api/receipt-scanner/route.js:10-41 | a missing or non-bearer header is invalid with "Missing or invalid Authorization header"; an empty token with "No token provided"; a token `jwtVerify` rejects with the verifier's own message; an accepted token whose `userId` names no user with "User not found". The result is valid iff the header is a bearer header, the token is non-empty, `jwtVerify` accepts it, and a user has the `userId` claim as id. A valid result carries that user |
| ReceiptScanner.BadHeaderIgnoresVerifier | app/api/receipt-scanner/route.js:13-16 | a missing or non-bearer header fails whatever the key, clock, decoder and user table are |
| ReceiptScanner.EmptyTokenRejected | app/api/receipt-scanner/route.js:19-22 | "Bearer " followed by nothing, or by a second space, is invalid with "No token provided" |
| ReceiptScanner.ReceiptPresent | app/api/receipt-scanner/route.js:56-58 | `formData.get("receipt")` is truthy: the field is present and is a file or a non-empty text |
| ReceiptScanner.Post | app/api/receipt-scanner/route.js:43-79 | an invalid token gives 401 with its error; a form without a truthy `receipt` gives 400; a form or scanner failure gives 500 with its message or the fallback; success iff the token is valid, the receipt is present and the scanner returns, with the scanner's draft; 500 only after a valid token |
| ReceiptScanner.InvalidTokenIgnoresForm | app/api/receipt-scanner/route.js:46-52 | with an invalid token the answer is 401 whatever the form and the scanner are, so the form is never read |
| ReceiptScanner.MissingReceiptIgnoresScanner | app/api/receipt-scanner/route.js:56-63 | without a receipt the answer does not depend on the scanner, so it is not called |
| ReceiptScanner.Get | app/api/receipt-scanner/route.js:82-103 | success iff the token is valid; every failure is 401 with the error or "Invalid token", never 500 |
| ReceiptScanner.GetAgreesWithPost | app/api/receipt-scanner/route.js:43-103 | `GET` accepts a request iff `POST` does not refuse it with 401 |
| GenerateToken.TokenClaims | app/api/auth/generate-token/route.js:34-40 | the claims name the user's id and the session's provider id; `iat` is the issue time and `exp` is exactly 30 days later |
| GenerateToken.TokenRequest | app/api/auth/generate-token/route.js:34-41 | the signed header declares HS256 and the claims are the token claims |
| GenerateToken.Get | app/api/auth/generate-token/route.js:10-55 | no session gives 401; an unknown provider id gives 404; issued iff the user exists and signing succeeds, with the signed token and "30 days"; a signing failure gives 500 with its message or the fallback. The table is only read |
| GenerateToken.NoSessionIgnoresTable | app/api/auth/generate-token/route.js:13-19 | without a session the answer is 401 whatever the table and the signer are, so no lookup happens |
| GenerateToken.MissingUserSignsNothing | app/api/auth/generate-token/route.js:26-31 | an unknown user gives 404 whatever the signer is, so nothing is signed |
| TokenFlow.IssuedTokenAccepted | app/api/receipt-scanner/route.js:10-41 | a token issued for a session's user and sent as "Bearer <token>" before expiry makes `verifyToken` return that user and `GET` succeed |
| TokenFlow.IssuedTokenExpires | app/api/receipt-scanner/route.js:25 | once 30 days have passed, the same token is rejected with the expiry message |
| TokenFlow.DeletedUserRejected | app/api/receipt-scanner/route.js:28-34 | a token whose user record is gone is refused with "User not found", though its signature and expiry check out |
| AuthHelpers.NewUser | lib/auth-helpers.js:16-23 | the created record takes the session's provider id, the first e-mail address, firstName + " " + lastName (a missing name reads "null") and the image URL |
| AuthHelpers.GetOrCreate | lib/auth-helpers.js:4-27 | a throw leaves the table unchanged. No session throws "Unauthorized"; an unknown session without a profile throws "No clerk user found"; a profile without addresses throws the TypeError of reading the first address. Success iff there is a session and the user exists or a profile with an address is available. The result always carries the session's provider id. An existing record is returned with the table unchanged; otherwise exactly the new record is appended |
| AuthHelpers.GetOrCreateKeepsKeys | lib/auth-helpers.js:16-23 | with a fresh id, the table keeps both keys unique |
| AuthHelpers.GetOrCreateIdempotent | lib/auth-helpers.js:8-26 | a second call with the same session returns the same record and leaves the table as the first call left it, whatever its profile |
| AuthHelpers.UserTable.GetOrCreateUser | lib/auth-helpers.js:4-27 | the in-place operation returns and leaves exactly what `GetOrCreate` specifies, and keeps the keys unique |
| FixPrismaEnv.FixUrl | scripts/fix-prisma-env.js:15-27 | a value starting with "postgresql://" becomes "postgres://" + the unchanged rest; every other value is kept |
| FixPrismaEnv.SchemesExclusive | scripts/fix-prisma-env.js:15-20 | no value starts with both schemes, so the "already postgres://" test never hides a "postgresql://" value |
| FixPrismaEnv.FixUrlIdempotent | scripts/fix-prisma-env.js:15-20 | fixing a fixed value changes nothing |
| FixPrismaEnv.FixedEnv | scripts/fix-prisma-env.js:6-46 | the variables stay the same. Outside Vercel nothing changes. Every variable other than the two URLs is kept. Under Vercel each URL that is set gets the fix |
| FixPrismaEnv.FixedEnvIdempotent | scripts/fix-prisma-env.js:6-46 | running the script twice leaves the environment as running it once does |
| FixPrismaEnv.Environment.FixDatabaseUrl | scripts/fix-prisma-env.js:6-46 | the in-place rewrite of the process environment leaves exactly `FixedEnv` of the old one |
| Seed.Categories | actions/seed.js:9-28 | each type has at least one category, and every range has min <= max |
| Seed.RandomAmount | actions/seed.js:31-33 | a random amount lies in [min, max], in cents |
| Seed.RandomAmountReaches | actions/seed.js:31-33 | every two-decimal value in [min, max] is reachable |
| Seed.RandomCategory | actions/seed.js:36-41 | the pick is a category of the requested type, with an amount in that category's range |
| Seed.IncomeShare | actions/seed.js:97 | among any five consecutive draw values (residues 5d to 5d+4), exactly two give income and three give expense (the 40% income chance) |
| Seed.PerDay | actions/seed.js:93 | one to three transactions per day |
| Seed.BalanceIsIncomeMinusExpense | actions/seed.js:87-116 | the running balance is the total of income amounts minus the total of expense amounts |
| Seed.Description | actions/seed.js:104-106 | "Received " + category for income, "Paid for " + category for expense |
| Seed.DescriptionInjective | actions/seed.js:104-106 | a description determines its type and its category |
| Seed.NewTransaction | actions/seed.js:100-114 | the record carries the given id, drawn type, category and amount, and has the day's date (also as `createdAt` and `updatedAt`), the matching "Received"/"Paid for" description, status "COMPLETED", and the seeding user and account |
| Seed.AppendOne | actions/seed.js:116-117 | pushing a transaction adds its signed amount to the balance and one to the count of its own day only |
| Seed.DrawTransaction | actions/seed.js:98-112 | one pass of the inner loop builds a well-formed record of the day whose type is the first draw, whose category and amount are `getRandomCategory` of the next two draws, and whose id is the next generated one |
| Seed.GenerateDay | actions/seed.js:93-118 | one day of the inner loop appends as many transactions as the day's count draw gives (1 to 3), each built from its own triple of draws and carrying its own generated id, all well-formed and of that day; it keeps the earlier ones and keeps the running balance equal to the list's balance |
| Seed.GenerateTransactions | actions/seed.js:86-119 | the loops produce 91 to 273 well-formed transactions, dated from 90 days ago to today in order, one to three on each of the 91 days, and the running total equals their net balance |
| Seed.FirstAccountOf | actions/seed.js:63-65 | `findFirst` gives the user's first account in table order, and nothing iff the user has none |
| Seed.DefaultAccount | actions/seed.js:69-78 | the created account has the given id and user, the name "Default Account", balance 0, color "#3b82f6" and is the default |
| Seed.SeedAccount | actions/seed.js:63-80 | the seeded account belongs to the first user: the user's first account when there is one, otherwise the new default account |
| Seed.EnsureAccount | actions/seed.js:67-80 | an existing account leaves the table unchanged; otherwise exactly the default account ("Default Account", balance 0, "#3b82f6", default) is appended; the seeded account is in the table |
| Seed.SetBalance | actions/seed.js:133-136 | `update` by id changes only the balance of the rows with that id; the other rows are kept |
| Seed.OfAccount | actions/seed.js:124-126 | the transactions of an account are exactly the table's transactions with that account id |
| Seed.WithoutAccount | actions/seed.js:124-126 | `deleteMany` keeps exactly the transactions of other accounts |
| Seed.ReplaceAccountTransactions | actions/seed.js:122-131 | after delete and insert, the account's transactions are exactly the inserted list and every other account keeps its own |
| Seed.SeedCommit | actions/seed.js:122-138 | after the commit the account's transactions are exactly the generated list, its balance is their net total, and every other account row and every other account's transactions are unchanged |
| Seed.Database.SeedTransactions | actions/seed.js:43-148 | with no users, the fixed failure and nothing written. Otherwise: the generated list satisfies the generation properties; the transactions become the others plus the generated list; the account table becomes the ensured table with the account's balance set; the message names the count and the account |

## Left out

- UI components, the desktop companion app, the middleware, icon generation, build scripts and
  configuration: these are rendering, I/O or configuration, not decision logic.
- The seeding API route that calls `seedTransactions` is not part of this model.
- `evaluate` from mathjs and its floating-point arithmetic: an oracle returns the rendered
  value, or nothing when it throws.
- HMAC signing and the JWT format: signing and decoding are oracles. Only `jwtVerify`'s `exp`
  check is kept. The `TextEncoder` UTF-8 encoding of the key is left out, because key strings
  are only compared for equality.
- The Gemini HTTP request (URL, headers, JSON serialisation): an oracle returns the response's
  `ok` flag, its text and the parse of that text. A reply is read only through the fields the
  handler inspects, as optional fields. A `candidates` value that is not an array, and a
  candidate that is `null`, are not modelled.
- FinanceChatbot.SelectAnswer: a first part that is `null` or not an object is not modelled.
  In the handler, reading `.text` from a `null` part throws, and the `catch` at
  app/api/finance-chatbot/route.js:77-78 answers 500 "Failed to contact Gemini API: Cannot read
  properties of null (reading 'text')". The model always reads the part's `text` field.
- FinanceChatbot.SelectAnswer and FinanceChatbot.FromReply: an `error.message` that is JSON `null` and
  one that is absent are the same `None` in the model. The template literals at
  app/api/finance-chatbot/route.js:70 and :73 would print "null" for the first and
  "undefined" for the second, but the model renders both as "undefined". At :61 both are
  falsy, so that branch is faithful.
- FinanceChatbot.Post: a request body without a `message` string makes `message.trim()` throw
  outside any `try`. The framework answers that with its own error, which is not modelled, so
  the message is always a string.
- Clerk's `auth()` and `currentUser()` are inputs. The receipt scanner (`scanReceipt`) is an
  oracle. Form parsing is an input that is either an error or a map of fields.
- ReceiptScanner.VerifyToken: HTTP header names are case-insensitive and headers can repeat.
  The model takes the single value `headers.get` returns. HTTP parsing strips trailing white
  space from header values, so the handler never receives "Bearer " itself. The model still
  accepts that value and answers it with "No token provided" (the `rest == []` case of
  ReceiptScanner.EmptyTokenRejected). In the handler, only headers such as "Bearer  x", with
  a second space, reach that message. Only tokens signed by the issuing
  route are modelled, so decoded claims always carry a `userId`. A token signed with the
  public fallback key and without a `userId` would make Prisma's `findUnique` throw. That
  throw is caught as 401 with Prisma's own message, and it is not modelled.
- ReceiptScanner.Get: its `catch` (401 "Authentication failed") is unreachable, since
  `verifyToken` catches every error itself. The model has no such branch.
- TokenFlow.IssuedTokenAccepted: it assumes the signer's compact token is non-empty and has no
  spaces, and that decoding a signed token with the same key gives back the signed claims.
  Those are properties of the JWS compact format, not of this code.
- GenerateToken.TokenClaims: `setIssuedAt` and the verifier read separate clocks. The model
  passes the issue time and the verification time as separate inputs. It also fixes
  `exp = iat + 30 days`. jose computes `setExpirationTime("30d")` from its own clock read,
  separate from `setIssuedAt()`'s. So the signed `exp` can be one second above that when a
  second boundary falls between the two calls.
- Prisma: tables are in-memory sequences, and lookups follow table order. Database failures
  are not modelled: the `catch` of `seedTransactions`, a failed insert in `getOrCreateUser`,
  and unique-constraint violations on e-mail. The atomicity of `$transaction` is modelled as
  the three writes happening together.
- Seed.Database.SeedTransactions: the new account's `randomUUID()` is an argument that the
  caller must supply distinct from every existing account id. Transaction ids are the
  `uuids` oracle, and their uniqueness is not stated.
- Seed.RandomAmount: `Number((Math.random() * (max - min) + min).toFixed(2))` is modelled as an
  integer number of cents chosen by a residue of the draw. How likely each value is, and the
  binary rounding of `toFixed`, are not modelled. The balance is summed exactly in cents rather
  than in floating point.
- Seed.GenerateTransactions: which draws produced each record is stated per day, by
  Seed.GenerateDay. Across the 91 days the contract states the shape, the dates, the per-day
  counts and the balance, but not the draw indices.
- Seed.GenerateTransactions: `subDays(new Date(), i)` is modelled as the offset `i` (days before
  seeding). Calendar arithmetic and time zones are not modelled.
- Console logging in every file is left out.
