/** The four authentication flows as pure transitions
    `(store, request, now) -> (store', reply, cookies)`.

    bcrypt, JWT signing, `randomBytes`, `uuidv4` and the database's id
    generator are not computed here: the digest, the comparison and the
    signature come from a `Crypto` record of functions, and every value a
    request draws at random arrives in a `Fresh` record. Whatever a `try`
    block can throw is injected as a `Fault` naming the step that throws;
    the store writes made before that step stay, since the flows run no
    transaction. */
module AuthController {
  import opened Wrappers
  import opened Text
  import opened Envelope
  import opened Store

  /** Cookie lifetimes in milliseconds, parsed from ACCESS_TOKEN_EXPIRY and
      REFRESH_TOKEN_EXPIRY at start-up; `refreshTokenMaxAge` also fixes how
      long a stored session lasts. */
  datatype Config = Config(accessTokenMaxAge: nat, refreshTokenMaxAge: nat)

  /** The salt bcrypt draws for one hashing call. */
  type Salt = nat

  /** `bcrypt.hash(password, 10)`, `bcrypt.compare(password, digest)` and
      `jwt.sign({ userId }, secret)` issued at a given instant. */
  datatype Crypto = Crypto(
    hash: (string, Salt) -> string,
    compare: (string, string) -> bool,
    sign: (UserId, int) -> string)

  /** A comparison that accepts every password against its own digest. */
  ghost predicate Sound(c: Crypto) {
    forall password, salt :: c.compare(password, c.hash(password, salt))
  }

  /** The values one request draws at random: the bcrypt salt, the `uuidv4`
      verification token, the id the database assigns to a new user and the
      hex text of `randomBytes(64)` used as the refresh token. */
  datatype Fresh = Fresh(salt: Salt, verifyToken: string, userId: UserId, refreshToken: string)

  /** The operations inside the flows' `try` blocks that can throw. */
  datatype Step =
    | LookupUser        // SELECT on users by email
    | HashPassword      // bcrypt.hash
    | InsertUser        // INSERT INTO users
    | ComparePassword   // bcrypt.compare
    | SignAccessToken   // generateAccessToken
    | InsertSession     // INSERT INTO refresh_tokens
    | DeleteSessions    // DELETE FROM refresh_tokens
    | LookupSession     // SELECT on refresh_tokens by token
    | ReadCookies       // req.cookies, undefined unless a cookie parser is installed

  /** Either nothing throws, or the given step throws the given value. */
  datatype Fault = NoFault | ThrowsAt(step: Step, error: Thrown)

  predicate Throws(f: Fault, s: Step) {
    f.ThrowsAt? && f.step == s
  }

  /** None of `steps` throws. */
  predicate Survives(f: Fault, steps: set<Step>) {
    !(f.ThrowsAt? && f.step in steps)
  }

  /** A cookie the reply sets or clears (attributes other than the lifetime
      are not modelled). */
  datatype Cookie = SetCookie(name: string, value: string, maxAge: nat) | ClearCookie(name: string)

  const AccessCookie := "access_token"
  const RefreshCookie := "refresh_token"

  datatype Outcome = Outcome(db: Db, reply: Reply, cookies: seq<Cookie>)

  /** The request fields a flow reads: body fields, the User-Agent header and `req.ip`. */
  datatype SignupRequest = SignupRequest(
    fullName: Option<string>,
    email: Option<string>,
    password: Option<string>,
    userAgent: Option<string>,
    ip: Option<string>)

  datatype LoginRequest = LoginRequest(
    email: Option<string>,
    password: Option<string>,
    userAgent: Option<string>,
    ip: Option<string>)

  /** An envelope reply that leaves the store as it is and sets no cookie. */
  function Respond(db: Db, code: int, message: string): Outcome {
    Outcome(db, ApiResponse(code, message).reply, [])
  }

  /** The `catch` branch: the error reply, with the store as the thrown step left it. */
  function Fail(db: Db, error: Thrown, message: string, handler: string): Outcome {
    Outcome(db, ApiError(error, message, map["function" := handler]), [])
  }

  /** `req.headers["user-agent"] || null`. */
  function StoredUserAgent(ua: Option<string>): (r: Option<string>)
    ensures r.Some? <==> Truthy(ua)
    ensures r.Some? ==> r == ua
  {
    if Truthy(ua) then ua else None
  }

  /** The session row a signup or login inserts. */
  function NewSession(userId: UserId, drawn: Fresh, userAgent: Option<string>, ip: Option<string>, now: int, cfg: Config): Session {
    Session(userId, drawn.refreshToken, StoredUserAgent(userAgent), ip, now + cfg.refreshTokenMaxAge)
  }

  /** The two cookies a signup or login sets. */
  function IssuedCookies(access: string, drawn: Fresh, cfg: Config): seq<Cookie> {
    [SetCookie(AccessCookie, access, cfg.accessTokenMaxAge), SetCookie(RefreshCookie, drawn.refreshToken, cfg.refreshTokenMaxAge)]
  }

  predicate SignupComplete(req: SignupRequest) {
    Truthy(req.fullName) && Truthy(req.email) && Truthy(req.password)
  }

  /** The user row a signup writes. */
  function NewUser(req: SignupRequest, now: int, crypto: Crypto, drawn: Fresh): User
    requires SignupComplete(req)
  {
    User(drawn.userId, req.fullName.value, req.email.value, crypto.hash(req.password.value, drawn.salt),
         "free", false, drawn.verifyToken, None, now, now)
  }

  /** Storing a user under a new email, then a session for it, keeps the
      store's integrity at each step. */
  lemma RegistrationKeepsValid(db: Db, user: User, session: Session)
    requires user.email !in db.users
    requires session.userId == user.id
    ensures Valid(db) ==> Valid(db.(users := db.users[user.email := user]))
    ensures Valid(db) ==> Valid(db.(users := db.users[user.email := user], sessions := db.sessions + [session]))
  {
    UserIdsGrow(db.users, user.email, user);
  }

  const SignupSteps := {LookupUser, HashPassword, InsertUser, SignAccessToken, InsertSession}

  /** `signupUser`. */
  function Signup(db: Db, req: SignupRequest, now: int, cfg: Config, crypto: Crypto, drawn: Fresh, fault: Fault): (o: Outcome)
    ensures Consistent(o.reply) && !o.reply.body.Raw?
    ensures Valid(db) ==> Valid(o.db)
    // validation precedes everything, the duplicate check precedes any write
    ensures !SignupComplete(req) ==> o == Respond(db, 400, "Missing required fields.")
    ensures (SignupComplete(req) && !Throws(fault, LookupUser) && req.email.value in db.users)
              ==> o == Respond(db, 400, "User already exists.")
    // success, and exactly what it writes
    ensures o.reply.status == 201 <==> SignupComplete(req) && req.email.value !in db.users && Survives(fault, SignupSteps)
    ensures o.reply.status == 201 ==>
              var email := req.email.value;
              && o.db.users.Keys == db.users.Keys + {email}
              && email in o.db.users
              && o.db.users[email].id == drawn.userId
              && o.db.users[email].fullName == req.fullName.value
              && o.db.users[email].email == email
              && o.db.users[email].password == crypto.hash(req.password.value, drawn.salt)
              && o.db.users[email].plan == "free"
              && !o.db.users[email].isVerified
              && o.db.users[email].verifyToken == drawn.verifyToken
              && o.db.users[email].avatarUrl.None?
              && o.db.users[email].createdAt == now && o.db.users[email].updatedAt == now
              && o.db.sessions == db.sessions + [NewSession(drawn.userId, drawn, req.userAgent, req.ip, now, cfg)]
              && o.db.sessions[|db.sessions|].expiresAt == now + cfg.refreshTokenMaxAge
              && Read(o.reply) == Some((201, "User signed up successfully.", Some(UserData(Public(o.db.users[email])))))
              && o.cookies == IssuedCookies(crypto.sign(drawn.userId, now), drawn, cfg)
    // no existing row is ever changed, and no other outcome adds a session
    ensures forall e :: e in db.users ==> e in o.db.users && o.db.users[e] == db.users[e]
    ensures o.reply.status != 201 ==> o.db.sessions == db.sessions && o.cookies == []
    // a thrown error after the user insert leaves that user without a session
    ensures o.reply.status == 500 ==>
              && fault.ThrowsAt?
              && o.reply == ApiError(fault.error, "Failed to sign up user.", map["function" := "signupUser"])
              && (o.db.users == db.users || fault.step in {SignAccessToken, InsertSession})
    // every step the flow reaches that throws ends in the error reply
    ensures (SignupComplete(req) && Throws(fault, LookupUser))
              ==> o == Fail(db, fault.error, "Failed to sign up user.", "signupUser")
    ensures (SignupComplete(req) && req.email.value !in db.users && (Throws(fault, HashPassword) || Throws(fault, InsertUser)))
              ==> o == Fail(db, fault.error, "Failed to sign up user.", "signupUser")
    // a throw after the user insert leaves the new user stored, without a session
    ensures (SignupComplete(req) && req.email.value !in db.users
             && (Throws(fault, SignAccessToken) || Throws(fault, InsertSession)))
              ==> o == Fail(db.(users := db.users[req.email.value := NewUser(req, now, crypto, drawn)]),
                            fault.error, "Failed to sign up user.", "signupUser")
  {
    if !SignupComplete(req) then Respond(db, 400, "Missing required fields.")
    else if Throws(fault, LookupUser) then Fail(db, fault.error, "Failed to sign up user.", "signupUser")
    else if req.email.value in db.users then Respond(db, 400, "User already exists.")
    else if Throws(fault, HashPassword) || Throws(fault, InsertUser) then
      Fail(db, fault.error, "Failed to sign up user.", "signupUser")
    else
      var user := NewUser(req, now, crypto, drawn);
      var db1 := db.(users := db.users[user.email := user]);
      var session := NewSession(user.id, drawn, req.userAgent, req.ip, now, cfg);
      RegistrationKeepsValid(db, user, session);
      if Throws(fault, SignAccessToken) || Throws(fault, InsertSession) then
        Fail(db1, fault.error, "Failed to sign up user.", "signupUser")
      else
        var access := crypto.sign(user.id, now);
        Outcome(
          db1.(sessions := db1.sessions + [session]),
          ApiResponse(201, "User signed up successfully.", Some(UserData(Public(user)))).reply,
          IssuedCookies(access, drawn, cfg))
  }

  predicate LoginComplete(req: LoginRequest) {
    Truthy(req.email) && Truthy(req.password)
  }

  /** The credentials name a stored user and the password matches its digest. */
  predicate Authentic(db: Db, req: LoginRequest, crypto: Crypto)
    requires LoginComplete(req)
  {
    req.email.value in db.users && crypto.compare(req.password.value, db.users[req.email.value].password)
  }

  const LoginSteps := {LookupUser, ComparePassword, SignAccessToken, InsertSession}

  /** `loginUser`. */
  function Login(db: Db, req: LoginRequest, now: int, cfg: Config, crypto: Crypto, drawn: Fresh, fault: Fault): (o: Outcome)
    ensures Consistent(o.reply) && !o.reply.body.Raw?
    ensures Valid(db) ==> Valid(o.db)
    ensures o.db.users == db.users
    // the presence check precedes any lookup
    ensures !LoginComplete(req) ==> o == Respond(db, 400, "Missing email or password.")
    // an unknown email and a wrong password get one and the same reply
    ensures (LoginComplete(req) && !Throws(fault, LookupUser) && req.email.value !in db.users)
              ==> o == Respond(db, 401, "Invalid credentials.")
    ensures (LoginComplete(req) && Survives(fault, {LookupUser, ComparePassword}) && !Authentic(db, req, crypto))
              ==> o == Respond(db, 401, "Invalid credentials.")
    ensures o.reply.status == 200 <==> LoginComplete(req) && Authentic(db, req, crypto) && Survives(fault, LoginSteps)
    // a success appends one session for the user and keeps every other one
    ensures o.reply.status == 200 ==>
              var user := db.users[req.email.value];
              && o.db.sessions == db.sessions + [NewSession(user.id, drawn, req.userAgent, req.ip, now, cfg)]
              && Read(o.reply) == Some((200, "User logged in successfully.", Some(UserData(Public(user)))))
              && o.cookies == IssuedCookies(crypto.sign(user.id, now), drawn, cfg)
    ensures o.reply.status != 200 ==> o.db == db && o.cookies == []
    ensures o.reply.status == 500 ==>
              fault.ThrowsAt? && o.reply == ApiError(fault.error, "Failed to log in.", map["function" := "loginUser"])
    // every step the flow reaches that throws ends in the error reply, with nothing written
    ensures (LoginComplete(req) && Throws(fault, LookupUser))
              ==> o == Fail(db, fault.error, "Failed to log in.", "loginUser")
    ensures (LoginComplete(req) && req.email.value in db.users && Throws(fault, ComparePassword))
              ==> o == Fail(db, fault.error, "Failed to log in.", "loginUser")
    ensures (LoginComplete(req) && Authentic(db, req, crypto) && (Throws(fault, SignAccessToken) || Throws(fault, InsertSession)))
              ==> o == Fail(db, fault.error, "Failed to log in.", "loginUser")
  {
    if !LoginComplete(req) then Respond(db, 400, "Missing email or password.")
    else if Throws(fault, LookupUser) then Fail(db, fault.error, "Failed to log in.", "loginUser")
    else if req.email.value !in db.users then Respond(db, 401, "Invalid credentials.")
    else
      var user := db.users[req.email.value];
      if Throws(fault, ComparePassword) then Fail(db, fault.error, "Failed to log in.", "loginUser")
      else if !crypto.compare(req.password.value, user.password) then Respond(db, 401, "Invalid credentials.")
      else if Throws(fault, SignAccessToken) || Throws(fault, InsertSession) then
        Fail(db, fault.error, "Failed to log in.", "loginUser")
      else
        var access := crypto.sign(user.id, now);
        assert user.id in UserIds(db.users);
        Outcome(
          db.(sessions := db.sessions + [NewSession(user.id, drawn, req.userAgent, req.ip, now, cfg)]),
          ApiResponse(200, "User logged in successfully.", Some(UserData(Public(user)))).reply,
          IssuedCookies(access, drawn, cfg))
  }

  /** `logoutUser`, for the user id the middleware attached. */
  function Logout(db: Db, userId: UserId, fault: Fault): (o: Outcome)
    ensures Consistent(o.reply) && !o.reply.body.Raw?
    ensures Valid(db) ==> Valid(o.db)
    ensures o.db.users == db.users
    ensures !Throws(fault, DeleteSessions) ==>
              // every session of the caller is gone ...
              && (forall i :: 0 <= i < |o.db.sessions| ==> o.db.sessions[i].userId != userId)
              // ... every other user's session is kept ...
              && (forall i :: 0 <= i < |db.sessions| && db.sessions[i].userId != userId ==> db.sessions[i] in o.db.sessions)
              // ... and exactly the caller's rows were removed
              && multiset(o.db.sessions) + multiset(OwnedBy(db.sessions, userId)) == multiset(db.sessions)
              && Read(o.reply) == Some((200, "User logged out successfully.", None))
              && o.cookies == [ClearCookie(AccessCookie), ClearCookie(RefreshCookie)]
    ensures Throws(fault, DeleteSessions) ==>
              o == Fail(db, fault.error, "Failed to log out.", "logoutUser")
  {
    if Throws(fault, DeleteSessions) then Fail(db, fault.error, "Failed to log out.", "logoutUser")
    else
      RevocationPartitions(db.sessions, userId);
      Outcome(
        db.(sessions := Others(db.sessions, userId)),
        ApiResponse(200, "User logged out successfully.").reply,
        [ClearCookie(AccessCookie), ClearCookie(RefreshCookie)])
  }

  /** The session a refresh cookie designates, when the cookie is present. */
  function Designated(db: Db, cookie: Option<string>): Option<Session> {
    if Truthy(cookie) then FindSession(db.sessions, cookie.value) else None
  }

  /** `refreshAccessToken`. */
  function Refresh(db: Db, cookie: Option<string>, now: int, cfg: Config, crypto: Crypto, fault: Fault): (o: Outcome)
    ensures Consistent(o.reply) && !o.reply.body.Raw?
    // no rotation, and no deletion of expired rows either
    ensures o.db == db
    // the checks in order: cookie present, token known, not yet expired
    ensures (!Throws(fault, ReadCookies) && !Truthy(cookie)) ==> o == Respond(db, 404, "Refresh token not found.")
    ensures (Truthy(cookie) && Survives(fault, {ReadCookies, LookupSession}) && Designated(db, cookie).None?)
              ==> o == Respond(db, 401, "Invalid refresh token.")
    ensures (Truthy(cookie) && Survives(fault, {ReadCookies, LookupSession}) && Designated(db, cookie).Some?
              && Designated(db, cookie).value.expiresAt < now)
              ==> o == Respond(db, 401, "Refresh token has expired.")
    ensures o.reply.status == 200 <==>
              && Designated(db, cookie).Some? && now <= Designated(db, cookie).value.expiresAt
              && Survives(fault, {ReadCookies, LookupSession, SignAccessToken})
    // only the access cookie is set, for the session's owner
    ensures o.reply.status == 200 ==>
              && Read(o.reply) == Some((200, "Access token refreshed successfully.", None))
              && o.cookies == [SetCookie(AccessCookie, crypto.sign(Designated(db, cookie).value.userId, now), cfg.accessTokenMaxAge)]
    ensures o.reply.status != 200 ==> o.cookies == []
    ensures o.reply.status == 500 ==>
              fault.ThrowsAt? && o.reply == ApiError(fault.error, "Failed to refresh access token.", map["function" := "refreshAccessToken"])
    // every step the flow reaches that throws ends in the error reply
    ensures Throws(fault, ReadCookies) ==>
              o == Fail(db, fault.error, "Failed to refresh access token.", "refreshAccessToken")
    ensures (Truthy(cookie) && Throws(fault, LookupSession))
              ==> o == Fail(db, fault.error, "Failed to refresh access token.", "refreshAccessToken")
    ensures (Designated(db, cookie).Some? && now <= Designated(db, cookie).value.expiresAt && Throws(fault, SignAccessToken))
              ==> o == Fail(db, fault.error, "Failed to refresh access token.", "refreshAccessToken")
  {
    if Throws(fault, ReadCookies) then
      Fail(db, fault.error, "Failed to refresh access token.", "refreshAccessToken")
    else if !Truthy(cookie) then Respond(db, 404, "Refresh token not found.")
    else if Throws(fault, LookupSession) then
      Fail(db, fault.error, "Failed to refresh access token.", "refreshAccessToken")
    else match FindSession(db.sessions, cookie.value)
      case None => Respond(db, 401, "Invalid refresh token.")
      case Some(session) =>
        if session.expiresAt < now then Respond(db, 401, "Refresh token has expired.")
        else if Throws(fault, SignAccessToken) then
          Fail(db, fault.error, "Failed to refresh access token.", "refreshAccessToken")
        else
          Outcome(db, ApiResponse(200, "Access token refreshed successfully.").reply,
                  [SetCookie(AccessCookie, crypto.sign(session.userId, now), cfg.accessTokenMaxAge)])
  }
}
