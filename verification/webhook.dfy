/** The Meta webhook endpoints: the GET handshake that echoes the challenge
    back when mode and shared token match, and the two POST receivers that
    acknowledge every delivery. Query parameters and the configured token are
    optional strings, so that an absent parameter and an unset
    META_WEBHOOK_VERIFY_TOKEN are both `None`. A `failure` stands for a value
    thrown inside the handler's `try` block. */
module Webhook {
  import opened Wrappers
  import opened Envelope

  const Subscribe := "subscribe"

  /** The reply of `res.sendStatus(403)`: the status text as body. */
  function Forbidden(): Reply {
    Reply(403, Raw(Some("Forbidden")))
  }

  /** `mode === "subscribe" && token === VERIFY_TOKEN`, with JavaScript's strict equality. */
  predicate Admits(mode: Option<string>, token: Option<string>, verifyToken: Option<string>) {
    mode == Some(Subscribe) && token == verifyToken
  }

  /** `webhookVerify`. */
  function VerifyHandshake(mode: Option<string>, token: Option<string>, challenge: Option<string>,
                              verifyToken: Option<string>, failure: Option<Thrown>): (r: Reply)
    ensures failure.None? ==> (r.status == 200 <==> mode == Some("subscribe") && token == verifyToken)
    ensures failure.None? && r.status == 200 ==> r.body == Raw(challenge)
    ensures failure.None? && r.status != 200 ==> r == Forbidden()
    ensures failure.Some? ==>
              r == ApiError(failure.value, "Failed to verify Meta webhook.", map["function" := "webhookVerify"])
  {
    if failure.Some? then ApiError(failure.value, "Failed to verify Meta webhook.", map["function" := "webhookVerify"])
    else if Admits(mode, token, verifyToken) then Reply(200, Raw(challenge))
    else Forbidden()
  }

  /** With META_WEBHOOK_VERIFY_TOKEN unset, a subscribe request that omits
      `hub.verify_token` is admitted: undefined === undefined. */
  lemma UnsetTokenAdmitsTokenlessRequest(challenge: Option<string>)
    ensures VerifyHandshake(Some("subscribe"), None, challenge, None, None) == Reply(200, Raw(challenge))
  {
  }

  /** A refused handshake reveals nothing of the challenge: the reply is the
      same whatever it was. */
  lemma RefusalIgnoresChallenge(mode: Option<string>, token: Option<string>, c1: Option<string>, c2: Option<string>, verifyToken: Option<string>)
    requires !Admits(mode, token, verifyToken)
    ensures VerifyHandshake(mode, token, c1, verifyToken, None) == VerifyHandshake(mode, token, c2, verifyToken, None) == Forbidden()
  {
  }

  /** The two event receivers, which differ only in their wording. */
  datatype Platform = Facebook | Instagram

  /** `webhookFacebook` and `webhookInstagram`: the delivered body is only
      logged, and every delivery is acknowledged. */
  function Receive(platform: Platform, body: string, failure: Option<Thrown>): (r: Reply)
    ensures failure.None? ==> Consistent(r) && r.status == 200
    ensures (failure.None? && platform == Facebook) ==>
              Read(r) == Some((200, "Facebook Webhook received successfully", None))
    ensures (failure.None? && platform == Instagram) ==>
              Read(r) == Some((200, "Instagram Webhook received successfully", None))
    ensures (failure.Some? && platform == Facebook) ==>
              r == ApiError(failure.value, "Failed to receive Facebook webhook.", map["function" := "webhookFacebook"])
    ensures (failure.Some? && platform == Instagram) ==>
              r == ApiError(failure.value, "Failed to receive Instagram webhook.", map["function" := "webhookInstagram"])
  {
    match platform
    case Facebook =>
      if failure.Some? then
        ApiError(failure.value, "Failed to receive Facebook webhook.", map["function" := "webhookFacebook"])
      else ApiResponse(200, "Facebook Webhook received successfully").reply
    case Instagram =>
      if failure.Some? then
        ApiError(failure.value, "Failed to receive Instagram webhook.", map["function" := "webhookInstagram"])
      else ApiResponse(200, "Instagram Webhook received successfully").reply
  }

  /** The acknowledgement does not depend on what was delivered. */
  lemma ReceiveIgnoresBody(platform: Platform, b1: string, b2: string)
    ensures Receive(platform, b1, None) == Receive(platform, b2, None)
  {
  }
}
