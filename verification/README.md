# Session lifecycle, bearer gate and webhook handshake — a Dafny model

This project models the authentication core of a TypeScript/Express backend:

- the four session flows of `auth.controller.ts` — signup, login, logout and
  refresh — as pure transitions `(store, request, now) -> (store', reply, cookies)`
  over two tables: `users`, keyed by its unique email, and `refresh_tokens`,
  one row per session;
- the `authMiddleware` bearer-header gate, and its composition in front of
  logout and refresh as the auth router wires it;
- the Meta webhook handshake and the two webhook receivers;
- the `ApiResponse` and `ApiError` envelopes that every outcome is written into.

Files: `wrappers.dfy` (Option), `text.dfy` (JavaScript truthiness, `startsWith`,
`split`/`join`), `envelope.dfy`, `store.dfy`, `auth.dfy`, `middleware.dfy`,
`routes.dfy`, `webhook.dfy`, and `lifecycle.dfy`, which holds the properties
that span several requests.

Abstractions. bcrypt hashing and comparison and JWT signing are the fields of a
`Crypto` record of functions. Every value a request draws at random arrives in
a `Fresh` record: the bcrypt salt, the `uuidv4` verification token, the
database-generated user id and the `randomBytes(64)` refresh token. JWT
verification is a function from (token, secret) to a verdict. The cookie
lifetimes derived from the `*_EXPIRY` settings are natural numbers in a
`Config`. A value thrown inside a `try` block is a `Fault` that names the step
that throws. Store writes made before that step persist, because the flows run
no transaction.

Behaviours reproduced as written and worth knowing:

- Refresh tokens are never rotated, and an expired row is not deleted when it
  is refused. The refresh handler on its own, with `req.cookies` populated by
  a cookie parser and nothing throwing, therefore accepts a signup's token at
  any instant up to `issued + refreshTokenMaxAge` until its owner logs out
  (`Lifecycle.SignupTokenRefreshesUntilLogout`). As wired in this app the
  route also needs a valid bearer header, and the cookie read throws (both
  below).
- Logout deletes every session of the caller, not just the current one.
- The middleware reads only the `Authorization` header, yet the flows deliver
  the access token only as a cookie. The refresh route also demands a valid
  bearer token, so a client that holds only its cookies can never refresh
  (`AuthRoutes.RefreshRoute`). The access token is minted for the refresh
  session's owner, whoever the bearer token names.
- With `META_WEBHOOK_VERIFY_TOKEN` unset, a subscribe request without
  `hub.verify_token` passes the handshake, because undefined === undefined.
- `ApiError` always sends the caught error's message and stack in `debug`,
  whatever the environment.
- A signup whose token signing or session insert throws leaves the new user
  stored without a session.
- The app installs no cookie parser: `server.ts` sets up only cors, helmet,
  `express.json` and morgan. `req.cookies` is therefore undefined, and reading
  `req.cookies.refresh_token` throws inside the refresh handler's `try`. This
  is the `ReadCookies` step of `AuthController.Step`; under this app's setup it
  always throws, and a refresh then answers 500 "Failed to refresh access
  token." before any 404 or 401 can be reached.

Behaviours of the code that a reader might not expect:

- A login with a missing email or password is a 400 "Missing email or
  password.", not an invalid-credentials 401.
- The access token is taken from the header only, never from a cookie.
- Email uniqueness is checked by a SELECT before the insert, with exact string
  equality.
- The error body's debug details are not withheld in production.

## Model

| member | source | states |
|---|---|---|
| Envelope.ApiResponse | src/utils/ApiResponse.ts:13-26 | the HTTP status is `code`; `success` holds exactly when code < 400; the body gives back code, message and data unchanged; the call returns true |
| Envelope.ApiResponseDefaults | src/utils/ApiResponse.ts:15-17 | with no arguments the reply is a successful 200 "OK" with a null payload |
| Envelope.ApiResponseInjective | src/utils/ApiResponse.ts:19-24 | distinct (code, message, data) give distinct replies, so a client recovers exactly what was passed |
| Envelope.ApiError | src/utils/ApiError.ts:14-34 | always status 500 with body code 500 and success false; `error` is the message; `debug.error` is the Error's message or String(value); `debug.stack` is present only for Error instances; `debug.meta` echoes meta |
| Envelope.ApiErrorDefaults | src/utils/ApiError.ts:14 | the message defaults to "Internal Server Error" and meta to an empty object |
| Text.Split | src/middlewares/auth.middleware.ts:26 | `split(" ")` always yields at least one piece, so element 1 is the only index that can be missing, and no piece contains a space |
| Text.JoinSplit | src/middlewares/auth.middleware.ts:26 | `split(" ")` loses nothing: joining its pieces gives back the header |
| Text.SplitJoin | src/middlewares/auth.middleware.ts:26 | `split` is the inverse of joining separator-free pieces |
| Text.SplitHeadIsTakeUntil | src/middlewares/auth.middleware.ts:26 | the first piece of a split is the text before the first separator |
| Store.Public | src/controllers/auth.controller.ts:42 | the returned user omits exactly the password digest and the verification token; putting them back restores the row |
| Store.PublicHidesOnlySecrets | src/controllers/auth.controller.ts:89-104 | two users look alike to a client exactly when they differ only in password digest and verification token |
| Store.FindSession | src/controllers/auth.controller.ts:174-175 | the lookup finds a session carrying the token whenever one exists, and finds nothing otherwise |
| Store.FindSessionAppend | src/controllers/auth.controller.ts:112-116 | inserting a session never changes what an existing token finds; a new token finds the inserted row |
| Store.Others | src/controllers/auth.controller.ts:145 | after the delete no row of the user remains and every other user's row is kept |
| Store.RevocationPartitions | src/controllers/auth.controller.ts:145 | the kept rows and the user's rows together make up the table, duplicates included |
| Store.FindSessionAfterRevocation | src/controllers/auth.controller.ts:145 | deleting one user's sessions leaves other users' tokens resolving as before and makes a token held only by that user unknown |
| AuthController.StoredUserAgent | src/controllers/auth.controller.ts:56 | an absent or empty User-Agent is stored as null, any other is stored as sent |
| AuthController.Signup | src/controllers/auth.controller.ts:23-79 | falsy name, email or password gives 400 "Missing required fields." with nothing written; a known email gives 400 "User already exists." with nothing written; 201 exactly when complete, new and nothing throws; then one user is added (plan "free", unverified, digest of the password, the drawn verification token, no avatar, created and updated at now) and one session for it expiring at now + max age; the reply carries the public user and both cookies; a throw at the lookup, hashing or user insert gives the 500 envelope with nothing written; a throw at token signing or session insert gives the 500 envelope with the new user already stored and no session; the store's integrity is kept |
| AuthController.Login | src/controllers/auth.controller.ts:81-139 | a missing email or password gives 400 before any lookup; an unknown email and a wrong password give the identical 401 with the store unchanged; 200 exactly for matching credentials; then one session is appended and every existing one kept; a throw at any step the request reaches (lookup, comparison, signing, session insert) gives the 500 "Failed to log in." envelope with nothing written; users are never written |
| AuthController.Logout | src/controllers/auth.controller.ts:141-164 | removes exactly the caller's sessions, keeps every other user's, never touches users, clears both cookies |
| AuthController.Refresh | src/controllers/auth.controller.ts:166-202 | never changes the store; a throw while reading the cookie comes first and gives the 500 envelope; then, in order: missing cookie 404, unknown token 401 "Invalid refresh token.", expires_at < now 401 "Refresh token has expired."; 200 exactly when the session exists and now <= expires_at; then only the access cookie is set, for the session's owner; a throw at the lookup (cookie present) or at signing (session unexpired) gives the 500 envelope |
| AuthMiddleware.SecondPieceIsBearerToken | src/middlewares/auth.middleware.ts:26 | for a header starting "Bearer ", element 1 of `split(" ")` exists and is the text up to the next space |
| AuthMiddleware.Authenticate | src/middlewares/auth.middleware.ts:19-50 | a missing, empty or non-"Bearer " header gives 401 "Authentication token required." whatever the secret; the secret check comes next (500); admits exactly when the extracted token verifies, with its decoded userId; expiry gives 401 "expired", tested before other JWT errors (401 "invalid"); any other failure gives 500 |
| AuthMiddleware.ExtraWordsAreIgnored | src/middlewares/auth.middleware.ts:26 | "Bearer a b" yields the token "a" |
| AuthMiddleware.DoubleSpaceGivesEmptyToken | src/middlewares/auth.middleware.ts:26 | "Bearer  a" yields the empty token |
| AuthMiddleware.SchemeIsCaseSensitive | src/middlewares/auth.middleware.ts:22 | "bearer abc" and "Bearer" are refused, "Bearer abc" passes |
| AuthRoutes.LogoutRoute | src/routes/auth.routes.ts:9 | logout runs only for an admitted request and deletes the sessions of the user the token names; a halted request gets exactly the middleware's reply, with the store unchanged and no cookies |
| AuthRoutes.RefreshRoute | src/routes/auth.routes.ts:10 | without a bearer header a refresh is refused with 401 whatever the cookie; a 200 needs both an admitted bearer token and an unexpired session; a halted request gets exactly the middleware's reply, with the store unchanged and no cookies |
| AuthRoutes.RefreshIgnoresBearerIdentity | src/controllers/auth.controller.ts:186-187 | the reply to a refresh is the same whichever admitted user presents the cookie |
| Webhook.VerifyHandshake | src/controllers/webhook.controller.ts:5-24 | 200 exactly when mode is "subscribe" and the token strictly equals the configured one; the body is then the challenge verbatim; otherwise 403; a throw gives the ApiError envelope |
| Webhook.UnsetTokenAdmitsTokenlessRequest | src/controllers/webhook.controller.ts:10-15 | with the verify token unset, a subscribe request without a token is admitted |
| Webhook.RefusalIgnoresChallenge | src/controllers/webhook.controller.ts:19 | a refused handshake replies 403 whatever the challenge |
| Webhook.Receive | src/controllers/webhook.controller.ts:26-50 | each receiver always answers 200 with its fixed "<platform> Webhook received successfully" and no data; a throw gives the ApiError envelope with its own message and function name |
| Webhook.ReceiveIgnoresBody | src/controllers/webhook.controller.ts:31-33 | the acknowledgement is the same whatever body was delivered |
| Lifecycle.Run | src/controllers/auth.controller.ts:23-202 | every sequence of handler calls keeps users keyed by email and every session owned by a stored user |
| Lifecycle.SessionSurvivesUntilLogout | src/controllers/auth.controller.ts:182-196 | a session that is the only row with its token stays so, and stays findable by that token, through any calls that neither log its owner out nor draw the same token |
| Lifecycle.SignupTokenRefreshesUntilLogout | src/controllers/auth.controller.ts:48-57 | a complete signup for a new email answers 201; for the refresh handler with readable cookies and no throw, its refresh token renews access for the new user at any instant up to issue time + max age, when no later call logs that user out or draws the same token; past that instant it is refused as expired |
| Lifecycle.LogoutEndsRefresh | src/controllers/auth.controller.ts:145 | after a logout, a refresh token held only by that user is refused as invalid |
| Lifecycle.SignupThenLogin | src/controllers/auth.controller.ts:99-102 | with a hash and comparison that agree, the email and password of a signup log in, returning the same public user |

## Left out

- Database pool, SSL, query logging, the Express app, CORS, helmet, morgan and the log file stream are process plumbing. The store is the two tables above. `server.ts` mounts only the users router; the auth and webhook routes are modelled as their route files wire them.
- bcrypt, JWT signing and verification, `randomBytes`, `uuidv4` and the database id generator are external. They are parameters, not computed. Token uniqueness comes from entropy in the source. The lemmas that need it take it as hypotheses: the session is the only row with its token (`Store.SoleHolder`), and no later signup or login draws that token.
- Store.FindSession: reads `rows[0]` of the token SELECT as the earliest inserted row. SQL without ORDER BY promises no row order. Only a lookup of a token held by several rows depends on this, and the lifecycle lemmas exclude that case by their hypotheses.
- Parsing the `*_EXPIRY` duration strings with `ms` is external. The lifetimes are natural numbers, so an unparsable setting, which `ms` would turn into undefined, is not modelled.
- Envelope.ApiError: `meta` is narrowed from `Record<string, any>` to a map from strings to strings. The flows only pass `{ function: <handler name> }`.
- Envelope.Data: `ApiResponse`'s `data: T | null` is narrowed to the one payload the flows send, `{ user }` with a public user. This is why `Envelope` imports `Store`.
- Cookie attributes other than the lifetime (httpOnly, secure, sameSite, path) and all console logging are transport concerns.
- Request body fields, query parameters and header values are optional strings. Numbers, booleans, arrays and objects, which JavaScript truthiness and strict equality would also accept, are not modelled.
- Each request uses one `now`. The source reads the clock again after its awaits. The new user's `avatar_url` (null) and timestamps (the insertion time) are column defaults assumed here, because the schema is not part of this model.
- `randomBytes` and `uuidv4` are not modelled as throwing; only the steps named in `AuthController.Step` can throw.
- A decoded token without a `userId` claim, which would leave `req.userId` undefined, is not modelled. An admitted request always carries a user id.
- Concurrent signups racing on the same email are not modelled, because the model is sequential.
- `user.controller.ts`, `FBGraphApi.ts`, `error.middleware.ts` and the users router are not part of this model. The first two are a passthrough read and a network client; the error middleware only delegates to `ApiError`.
