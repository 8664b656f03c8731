/**
 The console's view of the remote API: the requests a handler issues and the outcome of a
 request as the handler's `try`/`catch` sees it. The HTTP client itself is not modelled.
 */
module Http {
  import opened Js

  datatype Verb = GET | POST | PUT | DELETE

  /** A field value of a request body, as the JavaScript object literal holds it. */
  datatype Value = Str(text: string) | Num(n: int) | NaN | Undefined

  /** A request body: the fields of an object literal, in source order. */
  type Fields = seq<(string, Value)>

  /** One request: verb, path, the `Authorization` header when one is set, and the body. */
  datatype Request = Request(verb: Verb, path: string, authorization: Option<string>, body: Fields)

  /** The header value `Bearer ${token}`; a missing token is interpolated as "null". */
  function Bearer(token: Option<string>): Option<string> {
    Some("Bearer " + Interpolate(token))
  }

  /** `parseInt(...)` as a body field: a number, or NaN when there are no digits. */
  function Number(p: Option<int>): Value {
    match p
    case Some(n) => Num(n)
    case None => NaN
  }

  /** `text || undefined` as a body field. */
  function TextOrUndefined(text: string): Value {
    if text != "" then Str(text) else Undefined
  }

  function Keys(f: Fields): seq<string> {
    seq(|f|, i requires 0 <= i < |f| => f[i].0)
  }

  /**
   What a handler's `await api.x(...)` ends in: a body (`Ok`), a thrown error that carries a
   response (`HttpError`, with `response.status` and `response.data?.message`), a thrown error
   with a request but no response (`NoResponse`), or any other thrown error (`Thrown`).
   */
  datatype Outcome<+T> =
    | Ok(body: T)
    | HttpError(status: int, message: Option<string>)
    | NoResponse
    | Thrown

  /** The `{ data, message }` envelope the API wraps its resources in. */
  datatype Envelope<+T> = Envelope(data: Option<T>, message: Option<string>)

  /**
   The error taxonomy of the console: every outcome falls in exactly one class. A 401 is the
   only signal that the credential is no longer valid.
   */
  datatype Class = Accepted | SessionExpired | RemoteRejection(message: Option<string>) | TransportFailure | Unexpected

  function Classify<T>(o: Outcome<T>): (c: Class)
    ensures c == Accepted <==> o.Ok?
    ensures c == SessionExpired <==> (o.HttpError? && o.status == 401)
    ensures c.RemoteRejection? <==> (o.HttpError? && o.status != 401)
    ensures c == TransportFailure <==> o == NoResponse
    ensures c == Unexpected <==> o == Thrown
  {
    match o
    case Ok(_) => Accepted
    case HttpError(status, message) => if status == 401 then SessionExpired else RemoteRejection(message)
    case NoResponse => TransportFailure
    case Thrown => Unexpected
  }

  /** `error.response?.status === 401`. */
  predicate Unauthorized<T>(o: Outcome<T>) {
    o.HttpError? && o.status == 401
  }

  /** `error.response?.data?.message`: the server's message when the error carries a response. */
  function ResponseMessage<T>(o: Outcome<T>): Option<string> {
    if o.HttpError? then o.message else None
  }
}
