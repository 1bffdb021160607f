/** The protected routes: `authMiddleware` runs before `logoutUser` and
    before `refreshAccessToken`, and the handler runs only when it calls
    `next()`. Signup and login are mounted without the middleware. */
module AuthRoutes {
  import opened Wrappers
  import opened Envelope
  import opened Store
  import opened AuthController
  import opened AuthMiddleware

  /** `POST /logout`. */
  function LogoutRoute(db: Db, authorization: Option<string>, secret: Option<string>,
                       verify: (string, string) -> Verdict, fault: Fault): (o: Outcome)
    ensures Valid(db) ==> Valid(o.db)
    ensures o.db.users == db.users
    ensures !HasBearer(authorization) ==> o == Outcome(db, ApiResponse(401, "Authentication token required.").reply, [])
    // the sessions deleted are those of the user the access token names
    ensures Authenticate(authorization, secret, verify).Next? ==>
              o == Logout(db, Authenticate(authorization, secret, verify).userId, fault)
    // a halted request gets the middleware's reply and reaches no handler
    ensures Authenticate(authorization, secret, verify).Halt? ==>
              o == Outcome(db, Authenticate(authorization, secret, verify).reply, [])
  {
    match Authenticate(authorization, secret, verify)
    case Next(userId) => Logout(db, userId, fault)
    case Halt(reply) => Outcome(db, reply, [])
  }

  /** `POST /refresh_access_token`: needs a valid bearer token as well as the cookie. */
  function RefreshRoute(db: Db, authorization: Option<string>, secret: Option<string>,
                        verify: (string, string) -> Verdict, cookie: Option<string>,
                        now: int, cfg: Config, crypto: Crypto, fault: Fault): (o: Outcome)
    ensures o.db == db
    // a client holding only its cookies is turned away, whatever its refresh cookie
    ensures !HasBearer(authorization) ==> o == Outcome(db, ApiResponse(401, "Authentication token required.").reply, [])
    ensures o.reply.status == 200 ==>
              && Authenticate(authorization, secret, verify).Next?
              && Designated(db, cookie).Some? && now <= Designated(db, cookie).value.expiresAt
              && o.cookies == [SetCookie(AccessCookie, crypto.sign(Designated(db, cookie).value.userId, now), cfg.accessTokenMaxAge)]
    ensures Authenticate(authorization, secret, verify).Next? ==>
              o == Refresh(db, cookie, now, cfg, crypto, fault)
    ensures Authenticate(authorization, secret, verify).Halt? ==>
              o == Outcome(db, Authenticate(authorization, secret, verify).reply, [])
  {
    match Authenticate(authorization, secret, verify)
    case Next(_) => Refresh(db, cookie, now, cfg, crypto, fault)
    case Halt(reply) => Outcome(db, reply, [])
  }

  /** The access cookie issues the access token for the refresh session's
      owner, not for the user the bearer token names: two callers with
      different bearer identities presenting the same cookie get the same reply. */
  lemma RefreshIgnoresBearerIdentity(db: Db, a1: Option<string>, a2: Option<string>, secret: Option<string>,
                                     verify: (string, string) -> Verdict, cookie: Option<string>,
                                     now: int, cfg: Config, crypto: Crypto, fault: Fault)
    requires Authenticate(a1, secret, verify).Next?
    requires Authenticate(a2, secret, verify).Next?
    ensures RefreshRoute(db, a1, secret, verify, cookie, now, cfg, crypto, fault)
         == RefreshRoute(db, a2, secret, verify, cookie, now, cfg, crypto, fault)
  {
  }
}
