/** `authMiddleware`: the gate in front of protected handlers. It reads the
    `Authorization` header only, in the form `Bearer <token>` of section 2.1
    of RFC 6750 except that the scheme must match case-sensitively and the
    token is taken as `header.split(" ")[1]`. Verification of the JWT itself
    (RFC 7519) is a parameter: it maps the token and the secret to a verdict. */
module AuthMiddleware {
  import opened Wrappers
  import opened Text
  import opened Envelope

  const BearerPrefix := "Bearer "

  /** What `jwt.verify` throws. `TokenExpiredError` and `NotBeforeError` are
      subclasses of `JsonWebTokenError`; anything else is `Other`. */
  datatype VerifyError =
    | TokenExpiredError
    | NotBeforeError
    | JsonWebTokenError
    | Other(error: Thrown)

  /** `error instanceof jwt.TokenExpiredError` */
  predicate IsTokenExpired(e: VerifyError) {
    e.TokenExpiredError?
  }

  /** `error instanceof jwt.JsonWebTokenError`: true of the subclasses too. */
  predicate IsJsonWebTokenError(e: VerifyError) {
    !e.Other?
  }

  /** The outcome of `jwt.verify(token, secret)`: the decoded `userId`, or what it threw. */
  datatype Verdict = Decoded(userId: string) | Threw(error: VerifyError)

  /** Either `next()` runs with `req.userId` set and nothing is written, or
      the request stops with a reply. */
  datatype Gate = Next(userId: string) | Halt(reply: Reply)

  /** The header passes the first check: present, non-empty, with the exact prefix. */
  predicate HasBearer(authorization: Option<string>) {
    Truthy(authorization) && StartsWith(authorization.value, BearerPrefix)
  }

  /** The token the middleware hands to verification: the text after
      "Bearer " up to the next space. */
  function BearerToken(header: string): string
    requires StartsWith(header, BearerPrefix)
  {
    TakeUntil(header[|BearerPrefix|..], ' ')
  }

  /** `authHeader.split(" ")[1]` is the bearer token: "Bearer" is the first piece. */
  lemma SecondPieceIsBearerToken(header: string)
    requires StartsWith(header, BearerPrefix)
    ensures |Split(header, ' ')| >= 2
    ensures Split(header, ' ')[1] == BearerToken(header)
  {
    var rest := header[|BearerPrefix|..];
    assert header == "Bearer" + [' '] + rest;
    SplitAfterFirstSeparator("Bearer", ' ', rest);
    SplitHeadIsTakeUntil(rest, ' ');
  }

  /** `authMiddleware`, given the header, ACCESS_TOKEN_SECRET and the verifier. */
  function Authenticate(authorization: Option<string>, secret: Option<string>, verify: (string, string) -> Verdict): (g: Gate)
    // the header check comes first, whatever the secret
    ensures !HasBearer(authorization) <==> g == Halt(ApiResponse(401, "Authentication token required.").reply)
    ensures HasBearer(authorization) && !Truthy(secret) ==> g == Halt(ApiResponse(500, "Server configuration error.").reply)
    // admission exactly when the extracted token verifies, for the decoded user
    ensures g.Next? <==>
              && HasBearer(authorization) && Truthy(secret)
              && verify(BearerToken(authorization.value), secret.value).Decoded?
    ensures g.Next? ==> g.userId == verify(BearerToken(authorization.value), secret.value).userId
    // expiry is the more specific error, so it is tested first
    ensures (HasBearer(authorization) && Truthy(secret) && verify(BearerToken(authorization.value), secret.value).Threw?) ==>
              var e := verify(BearerToken(authorization.value), secret.value).error;
              && (IsTokenExpired(e) ==> g == Halt(ApiResponse(401, "Authentication token expired.").reply))
              && (!IsTokenExpired(e) && IsJsonWebTokenError(e) ==> g == Halt(ApiResponse(401, "Invalid authentication token.").reply))
              && (!IsJsonWebTokenError(e) ==> g == Halt(ApiResponse(500, "Failed to authenticate token.").reply))
    ensures g.Halt? ==> Consistent(g.reply) && !g.reply.body.success
  {
    if !Truthy(authorization) || !StartsWith(authorization.value, BearerPrefix) then
      Halt(ApiResponse(401, "Authentication token required.").reply)
    else
      SecondPieceIsBearerToken(authorization.value);
      var token := Split(authorization.value, ' ')[1];
      if !Truthy(secret) then Halt(ApiResponse(500, "Server configuration error.").reply)
      else match verify(token, secret.value)
        case Decoded(userId) => Next(userId)
        case Threw(e) =>
          if IsTokenExpired(e) then Halt(ApiResponse(401, "Authentication token expired.").reply)
          else if IsJsonWebTokenError(e) then Halt(ApiResponse(401, "Invalid authentication token.").reply)
          else Halt(ApiResponse(500, "Failed to authenticate token.").reply)
  }

  /** Only the first space-separated word after the scheme is the token. */
  lemma ExtraWordsAreIgnored()
    ensures BearerToken("Bearer a b") == "a"
  {
    assert "Bearer a b"[7..] == "a b";
    assert "a b"[1..] == " b";
  }

  /** A second space right after the scheme yields the empty token. */
  lemma DoubleSpaceGivesEmptyToken()
    ensures BearerToken("Bearer  a") == ""
  {
  }

  /** The scheme is matched case-sensitively, and a bare "Bearer" lacks the space. */
  lemma SchemeIsCaseSensitive()
    ensures !HasBearer(Some("bearer abc"))
    ensures !HasBearer(Some("Bearer"))
    ensures HasBearer(Some("Bearer abc"))
  {
    assert "bearer abc"[..7] != BearerPrefix by { assert "bearer abc"[0] != BearerPrefix[0]; }
  }
}
