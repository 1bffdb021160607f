/** The response envelope every handler writes into: `ApiResponse` for the
    ordinary outcomes of a flow and `ApiError` for anything thrown inside one.
    A reply is the HTTP status together with the JSON (or raw) body sent. */
module Envelope {
  import opened Wrappers
  import opened Store

  /** A value caught by a `catch` block: an `Error` instance (with its
      message and its possibly undefined stack) or any other value, which
      carries its `String(value)` rendering. */
  datatype Thrown =
    | ErrorInstance(message: string, stack: Option<string>)
    | NonError(rendering: string)

  /** The `debug` block of an error body. */
  datatype Debug = Debug(error: string, stack: Option<string>, meta: map<string, string>)

  /** The payloads this application puts in an envelope's `data`: the
      `{ user }` object of a successful signup or login. */
  datatype Data = UserData(user: PublicUser)

  datatype Body =
      /** `{ success, code, message, data }` written by `ApiResponse`; a
          `null` payload is `None`. */
    | Envelope(success: bool, code: int, message: string, data: Option<Data>)
      /** `{ success, code, error, debug }` written by `ApiError`. */
    | Failure(success: bool, code: int, error: string, debug: Debug)
      /** A body sent as is, outside the envelope (`res.send`, `res.sendStatus`);
          `None` is `res.send(undefined)`, an empty body. */
    | Raw(content: Option<string>)

  datatype Reply = Reply(status: int, body: Body)

  /** What `ApiResponse` does: the reply it writes, and the value it returns. */
  datatype Sent = Sent(reply: Reply, returned: bool)

  const DefaultMessage := "OK"
  const DefaultErrorMessage := "Internal Server Error"

  /** A reply whose status line and body agree: an envelope carries the
      status as its `code` and is successful exactly below 400; an error body
      is always a 500 that is not successful. */
  predicate Consistent(r: Reply) {
    match r.body
    case Envelope(success, code, _, _) => r.status == code && (success <==> code < 400)
    case Failure(success, code, _, _) => r.status == 500 && code == 500 && !success
    case Raw(_) => true
  }

  /** What a client reads back from an envelope reply: code, message and data. */
  function Read(r: Reply): Option<(int, string, Option<Data>)> {
    match r.body
    case Envelope(_, code, message, data) => Some((code, message, data))
    case _ => None
  }

  /** `ApiResponse(res, code, message, data)`: writes the envelope with the
      given status and returns `true`. */
  function ApiResponse(code: int := 200, message: string := DefaultMessage, data: Option<Data> := None): (s: Sent)
    ensures s.returned
    ensures s.reply.status == code && s.reply.body.Envelope?
    ensures s.reply.body.success <==> code < 400
    ensures Consistent(s.reply)
    ensures Read(s.reply) == Some((code, message, data))
  {
    Sent(Reply(code, Envelope(code < 400, code, message, data)), true)
  }

  /** With no arguments the envelope is a successful 200 "OK" with a null payload. */
  lemma ApiResponseDefaults()
    ensures ApiResponse().reply == Reply(200, Envelope(true, 200, "OK", None))
  {
  }

  /** Distinct arguments give distinct replies: a client can always recover
      what the handler passed. */
  lemma ApiResponseInjective(c1: int, m1: string, d1: Option<Data>, c2: int, m2: string, d2: Option<Data>)
    requires ApiResponse(c1, m1, d1).reply == ApiResponse(c2, m2, d2).reply
    ensures c1 == c2 && m1 == m2 && d1 == d2
  {
  }

  /** `error.message` for an `Error`, `String(error)` otherwise. */
  function ErrorText(e: Thrown): string {
    match e
    case ErrorInstance(message, _) => message
    case NonError(rendering) => rendering
  }

  /** `error.stack` for an `Error`, undefined otherwise. */
  function ErrorStack(e: Thrown): Option<string> {
    match e
    case ErrorInstance(_, stack) => stack
    case NonError(_) => None
  }

  /** `ApiError(error, res, message, meta)`: always a 500 error body; the
      caught value's details are sent in `debug` in every environment. */
  function ApiError(error: Thrown, message: string := DefaultErrorMessage, meta: map<string, string> := map[]): (r: Reply)
    ensures r.status == 500 && r.body.Failure?
    ensures r.body.code == 500 && !r.body.success
    ensures r.body.error == message
    ensures r.body.debug.meta == meta
    ensures error.ErrorInstance? ==> r.body.debug.error == error.message && r.body.debug.stack == error.stack
    ensures error.NonError? ==> r.body.debug.error == error.rendering && r.body.debug.stack.None?
    ensures Consistent(r)
  {
    Reply(500, Failure(false, 500, message, Debug(ErrorText(error), ErrorStack(error), meta)))
  }

  /** Without a message or meta the error body says "Internal Server Error"
      and carries an empty meta object. */
  lemma ApiErrorDefaults(e: Thrown)
    ensures ApiError(e).body.error == "Internal Server Error"
    ensures ApiError(e).body.debug.meta == map[]
  {
  }
}
