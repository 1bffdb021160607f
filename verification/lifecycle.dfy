/** Properties that relate several requests: what a session issued by a
    signup or login allows later on, and what ends it. */
module Lifecycle {
  import opened Wrappers
  import opened Envelope
  import opened Store
  import opened AuthController

  /** One handler invocation against the store, with its inputs. */
  datatype Call =
    | SignupCall(signup: SignupRequest, now: int, drawn: Fresh, fault: Fault)
    | LoginCall(login: LoginRequest, now: int, drawn: Fresh, fault: Fault)
    | LogoutCall(userId: UserId, fault: Fault)
    | RefreshCall(cookie: Option<string>, now: int, fault: Fault)

  function Apply(db: Db, call: Call, cfg: Config, crypto: Crypto): Outcome {
    match call
    case SignupCall(req, now, drawn, fault) => Signup(db, req, now, cfg, crypto, drawn, fault)
    case LoginCall(req, now, drawn, fault) => Login(db, req, now, cfg, crypto, drawn, fault)
    case LogoutCall(userId, fault) => Logout(db, userId, fault)
    case RefreshCall(cookie, now, fault) => Refresh(db, cookie, now, cfg, crypto, fault)
  }

  /** The store after the calls, one after the other. */
  function Run(db: Db, calls: seq<Call>, cfg: Config, crypto: Crypto): (db': Db)
    ensures Valid(db) ==> Valid(db')
    decreases |calls|
  {
    if |calls| == 0 then db
    else Run(Apply(db, calls[0], cfg, crypto).db, calls[1..], cfg, crypto)
  }

  /** No call in the trace is a logout of `userId`. */
  predicate NoLogoutOf(calls: seq<Call>, userId: UserId) {
    forall i :: 0 <= i < |calls| ==> !(calls[i].LogoutCall? && calls[i].userId == userId)
  }

  /** The call may insert a session carrying `token`. */
  predicate Draws(call: Call, token: string) {
    || (call.SignupCall? && call.drawn.refreshToken == token)
    || (call.LoginCall? && call.drawn.refreshToken == token)
  }

  /** No call in the trace draws `token` as its refresh token. */
  predicate NoneDraws(calls: seq<Call>, token: string) {
    forall i :: 0 <= i < |calls| ==> !Draws(calls[i], token)
  }

  /** Appending a row with another token keeps `s` the sole holder of its token. */
  lemma AppendKeepsSoleHolder(sessions: seq<Session>, s: Session, added: Session)
    requires SoleHolder(sessions, s)
    requires added.token != s.token
    ensures SoleHolder(sessions + [added], s)
  {
    var after := sessions + [added];
    forall i | 0 <= i < |after| && after[i].token == s.token ensures after[i] == s {
      assert i < |sessions|;
      assert after[i] == sessions[i];
    }
  }

  /** Deleting another user's rows keeps `s` the sole holder of its token. */
  lemma RevocationKeepsSoleHolder(sessions: seq<Session>, s: Session, userId: UserId)
    requires SoleHolder(sessions, s)
    requires s.userId != userId
    ensures SoleHolder(Others(sessions, userId), s)
  {
    var after := Others(sessions, userId);
    var j :| 0 <= j < |sessions| && sessions[j] == s;
    assert sessions[j] in after;
    forall i | 0 <= i < |after| && after[i].token == s.token ensures after[i] == s {
      var k :| 0 <= k < |sessions| && sessions[k] == after[i];
    }
  }

  /** One call keeps `s` the sole holder of its token unless it logs its
      owner out or draws the same token. */
  lemma ApplyKeepsSession(db: Db, call: Call, cfg: Config, crypto: Crypto, s: Session)
    requires SoleHolder(db.sessions, s)
    requires !(call.LogoutCall? && call.userId == s.userId)
    requires !Draws(call, s.token)
    ensures SoleHolder(Apply(db, call, cfg, crypto).db.sessions, s)
  {
    var o := Apply(db, call, cfg, crypto);
    match call
    case LogoutCall(userId, fault) =>
      if !Throws(fault, DeleteSessions) {
        RevocationKeepsSoleHolder(db.sessions, s, userId);
      }
    case SignupCall(req, now, drawn, fault) =>
      if o.reply.status == 201 {
        AppendKeepsSoleHolder(db.sessions, s, NewSession(drawn.userId, drawn, req.userAgent, req.ip, now, cfg));
      }
    case LoginCall(req, now, drawn, fault) =>
      if o.reply.status == 200 {
        var user := db.users[req.email.value];
        AppendKeepsSoleHolder(db.sessions, s, NewSession(user.id, drawn, req.userAgent, req.ip, now, cfg));
      }
    case RefreshCall(_, _, _) =>
  }

  /** A session that is the only holder of its token stays findable through
      any trace that neither logs its owner out nor draws the same token
      again: logins and signups only append, refreshes write nothing, other
      users' logouts delete only their own rows. */
  lemma {:induction false} SessionSurvivesUntilLogout(db: Db, calls: seq<Call>, cfg: Config, crypto: Crypto, s: Session)
    requires SoleHolder(db.sessions, s)
    requires NoLogoutOf(calls, s.userId)
    requires NoneDraws(calls, s.token)
    ensures SoleHolder(Run(db, calls, cfg, crypto).sessions, s)
    ensures FindSession(Run(db, calls, cfg, crypto).sessions, s.token) == Some(s)
    decreases |calls|
  {
    if |calls| > 0 {
      ApplyKeepsSession(db, calls[0], cfg, crypto, s);
      assert NoLogoutOf(calls[1..], s.userId) && NoneDraws(calls[1..], s.token) by {
        forall i | 0 <= i < |calls[1..]| ensures calls[1..][i] == calls[i + 1] { }
      }
      SessionSurvivesUntilLogout(Apply(db, calls[0], cfg, crypto).db, calls[1..], cfg, crypto, s);
    }
  }

  /** The refresh token a signup sets, drawn fresh, renews the access token
      for the new user at any instant up to `issued + refreshTokenMaxAge`,
      whatever calls came in between, provided none logged that user out or
      drew the same token; past that instant it is refused as expired. It is
      never rotated. */
  lemma SignupTokenRefreshesUntilLogout(db: Db, req: SignupRequest, issued: int, cfg: Config, crypto: Crypto,
                                        drawn: Fresh, calls: seq<Call>, now: int)
    // exactly the signups that succeed: complete and for a new email
    requires SignupComplete(req) && req.email.value !in db.users
    requires drawn.refreshToken != ""
    requires FindSession(db.sessions, drawn.refreshToken).None?
    requires NoLogoutOf(calls, drawn.userId)
    requires NoneDraws(calls, drawn.refreshToken)
    ensures Signup(db, req, issued, cfg, crypto, drawn, NoFault).reply.status == 201
    ensures var later := Run(Signup(db, req, issued, cfg, crypto, drawn, NoFault).db, calls, cfg, crypto);
            now <= issued + cfg.refreshTokenMaxAge ==>
              && Refresh(later, Some(drawn.refreshToken), now, cfg, crypto, NoFault).reply.status == 200
              && Refresh(later, Some(drawn.refreshToken), now, cfg, crypto, NoFault).cookies
                   == [SetCookie(AccessCookie, crypto.sign(drawn.userId, now), cfg.accessTokenMaxAge)]
    ensures var later := Run(Signup(db, req, issued, cfg, crypto, drawn, NoFault).db, calls, cfg, crypto);
            now > issued + cfg.refreshTokenMaxAge ==>
              Refresh(later, Some(drawn.refreshToken), now, cfg, crypto, NoFault) == Respond(later, 401, "Refresh token has expired.")
  {
    var after := Signup(db, req, issued, cfg, crypto, drawn, NoFault).db;
    var s := NewSession(drawn.userId, drawn, req.userAgent, req.ip, issued, cfg);
    assert after.sessions == db.sessions + [s];
    assert after.sessions[|db.sessions|] == s;
    assert SoleHolder(after.sessions, s);
    SessionSurvivesUntilLogout(after, calls, cfg, crypto, s);
  }

  /** After a user logs out, no refresh token that only that user held is
      accepted any more. */
  lemma LogoutEndsRefresh(db: Db, userId: UserId, fault: Fault, token: string, now: int, cfg: Config, crypto: Crypto)
    requires !Throws(fault, DeleteSessions)
    requires token != ""
    requires forall i :: 0 <= i < |db.sessions| && db.sessions[i].token == token ==> db.sessions[i].userId == userId
    ensures var after := Logout(db, userId, fault).db;
            Refresh(after, Some(token), now, cfg, crypto, NoFault) == Respond(after, 401, "Invalid refresh token.")
  {
  }

  /** A user who signed up can log in with the same email and password, and
      gets back the same public record. */
  lemma SignupThenLogin(db: Db, req: SignupRequest, t1: int, cfg: Config, crypto: Crypto, d1: Fresh,
                        t2: int, ua: Option<string>, ip: Option<string>, d2: Fresh)
    requires Sound(crypto)
    requires Signup(db, req, t1, cfg, crypto, d1, NoFault).reply.status == 201
    ensures var signup := Signup(db, req, t1, cfg, crypto, d1, NoFault);
            var login := Login(signup.db, LoginRequest(req.email, req.password, ua, ip), t2, cfg, crypto, d2, NoFault);
            && login.reply.status == 200
            && Read(login.reply).value.2 == Read(signup.reply).value.2
  {
  }
}
