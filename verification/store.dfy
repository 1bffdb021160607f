/** The two tables the authentication flows read and write: `users`, whose
    email column is unique (so the table is a map keyed by email), and
    `refresh_tokens`, one row per session, kept in insertion order. */
module Store {
  import opened Wrappers

  /** The `id` the database generates for a user. */
  type UserId = string

  /** A row of `users`. `password` holds the bcrypt digest, never the plaintext. */
  datatype User = User(
    id: UserId,
    fullName: string,
    email: string,
    password: string,
    plan: string,
    isVerified: bool,
    verifyToken: string,
    avatarUrl: Option<string>,
    createdAt: int,
    updatedAt: int)

  /** The columns a flow hands back to the client: those of `User` without
      `password` and `verify_token`. */
  datatype PublicUser = PublicUser(
    id: UserId,
    fullName: string,
    email: string,
    plan: string,
    isVerified: bool,
    avatarUrl: Option<string>,
    createdAt: int,
    updatedAt: int)

  /** A row of `refresh_tokens`. */
  datatype Session = Session(
    userId: UserId,
    token: string,
    userAgent: Option<string>,
    ipAddress: Option<string>,
    expiresAt: int)

  datatype Db = Db(users: map<string, User>, sessions: seq<Session>)

  /** Puts the two withheld columns back onto a public record. */
  function WithSecrets(p: PublicUser, password: string, verifyToken: string): User {
    User(p.id, p.fullName, p.email, password, p.plan, p.isVerified, verifyToken, p.avatarUrl, p.createdAt, p.updatedAt)
  }

  /** The user as returned to the client: exactly the password digest and the
      verification token are withheld. */
  function Public(u: User): (p: PublicUser)
    ensures WithSecrets(p, u.password, u.verifyToken) == u
  {
    PublicUser(u.id, u.fullName, u.email, u.plan, u.isVerified, u.avatarUrl, u.createdAt, u.updatedAt)
  }

  /** Two users look the same to a client exactly when they differ at most in
      their password digest and verification token. */
  lemma PublicHidesOnlySecrets(u1: User, u2: User)
    ensures Public(u1) == Public(u2) <==> u1 == u2.(password := u1.password, verifyToken := u1.verifyToken)
  {
  }

  /** The ids of all stored users. */
  function UserIds(users: map<string, User>): set<UserId> {
    set e | e in users :: users[e].id
  }

  /** Each user is stored under its own email. */
  ghost predicate KeyedByEmail(users: map<string, User>) {
    forall e :: e in users ==> users[e].email == e
  }

  /** The store's integrity: users keyed by their email, and every session
      owned by a stored user. */
  ghost predicate Valid(db: Db) {
    && KeyedByEmail(db.users)
    && forall i :: 0 <= i < |db.sessions| ==> db.sessions[i].userId in UserIds(db.users)
  }

  /** Adding a user under a new email keeps every existing id. */
  lemma UserIdsGrow(users: map<string, User>, email: string, u: User)
    requires email !in users
    ensures UserIds(users[email := u]) == UserIds(users) + {u.id}
  {
    var after := users[email := u];
    forall x | x in UserIds(users) ensures x in UserIds(after) {
      var e :| e in users && users[e].id == x;
      assert after[e] == users[e];
    }
    assert after[email].id == u.id;
  }

  /** `SELECT ... FROM refresh_tokens WHERE token = $1` followed by
      `rows[0]`: the first session carrying `token`, if any. */
  function FindSession(sessions: seq<Session>, token: string): (r: Option<Session>)
    ensures r.Some? ==> r.value in sessions && r.value.token == token
    ensures r.None? <==> forall i :: 0 <= i < |sessions| ==> sessions[i].token != token
    decreases |sessions|
  {
    if |sessions| == 0 then None
    else if sessions[0].token == token then Some(sessions[0])
    else FindSession(sessions[1..], token)
  }

  /** `s` is stored and no other row carries its token, so the lookup finds
      it whatever order the rows come back in. */
  predicate SoleHolder(sessions: seq<Session>, s: Session) {
    s in sessions && forall i :: 0 <= i < |sessions| && sessions[i].token == s.token ==> sessions[i] == s
  }

  /** Appending a session never changes what an already present token finds,
      and a token seen for the first time finds the appended session. */
  lemma {:induction false} FindSessionAppend(sessions: seq<Session>, s: Session, token: string)
    ensures FindSession(sessions, token).Some? ==> FindSession(sessions + [s], token) == FindSession(sessions, token)
    ensures FindSession(sessions, token).None? && s.token == token ==> FindSession(sessions + [s], token) == Some(s)
    ensures FindSession(sessions, token).None? && s.token != token ==> FindSession(sessions + [s], token).None?
    decreases |sessions|
  {
    if |sessions| > 0 {
      assert (sessions + [s])[1..] == sessions[1..] + [s];
      FindSessionAppend(sessions[1..], s, token);
    } else {
      assert sessions + [s] == [s];
    }
  }

  /** `DELETE FROM refresh_tokens WHERE user_id = $1`: the sessions that
      remain, in their original order. */
  function Others(sessions: seq<Session>, userId: UserId): (r: seq<Session>)
    ensures forall i :: 0 <= i < |r| ==> r[i] in sessions && r[i].userId != userId
    ensures forall i :: 0 <= i < |sessions| && sessions[i].userId != userId ==> sessions[i] in r
    decreases |sessions|
  {
    if |sessions| == 0 then []
    else if sessions[0].userId == userId then Others(sessions[1..], userId)
    else [sessions[0]] + Others(sessions[1..], userId)
  }

  /** The sessions owned by `userId`, in order: the rows the delete removes. */
  function OwnedBy(sessions: seq<Session>, userId: UserId): (r: seq<Session>)
    ensures forall i :: 0 <= i < |r| ==> r[i] in sessions && r[i].userId == userId
    decreases |sessions|
  {
    if |sessions| == 0 then []
    else if sessions[0].userId == userId then [sessions[0]] + OwnedBy(sessions[1..], userId)
    else OwnedBy(sessions[1..], userId)
  }

  /** Deleting a user's sessions removes exactly the rows it owns: what is
      kept and what is removed together make up the table, duplicates included. */
  lemma {:induction false} RevocationPartitions(sessions: seq<Session>, userId: UserId)
    ensures multiset(Others(sessions, userId)) + multiset(OwnedBy(sessions, userId)) == multiset(sessions)
    decreases |sessions|
  {
    if |sessions| > 0 {
      RevocationPartitions(sessions[1..], userId);
      assert sessions == [sessions[0]] + sessions[1..];
      assert multiset(sessions) == multiset{sessions[0]} + multiset(sessions[1..]);
      if sessions[0].userId == userId {
        assert OwnedBy(sessions, userId) == [sessions[0]] + OwnedBy(sessions[1..], userId);
        assert Others(sessions, userId) == Others(sessions[1..], userId);
      } else {
        assert Others(sessions, userId) == [sessions[0]] + Others(sessions[1..], userId);
        assert OwnedBy(sessions, userId) == OwnedBy(sessions[1..], userId);
      }
    }
  }

  /** Deleting another user's sessions does not change what a token finds;
      deleting the only owner of a token's sessions makes the token unknown. */
  lemma {:induction false} FindSessionAfterRevocation(sessions: seq<Session>, userId: UserId, token: string)
    ensures (FindSession(sessions, token).Some? && FindSession(sessions, token).value.userId != userId)
              ==> FindSession(Others(sessions, userId), token) == FindSession(sessions, token)
    ensures (forall i :: 0 <= i < |sessions| && sessions[i].token == token ==> sessions[i].userId == userId)
              ==> FindSession(Others(sessions, userId), token).None?
    decreases |sessions|
  {
    if |sessions| > 0 {
      FindSessionAfterRevocation(sessions[1..], userId, token);
    }
  }
}
