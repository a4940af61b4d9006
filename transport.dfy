/** The HTTP exchange as the client sees it. The transport itself (session,
    headers, query-string rendering, timeouts) is not modelled: a session is
    an oracle from request to response, and every operation is described by
    the requests it sends and the value it returns or the failure it raises. */
module Transport {
  import opened Values
  import opened Utilities

  /** A decoded JSON body: opaque, except a listing whose "results" member
      is a list of records (what `/projects` returns). */
  datatype Json = Opaque(text: string) | Listing(results: seq<Record>)

  /** A filter value: the callers pass integers and date strings. */
  datatype Value = IntVal(i: int) | StrVal(s: string)

  /** Python truthiness of an optional filter value: None, 0 and "" are false. */
  predicate ValueTruthy(v: Option<Value>)
  {
    match v
    case None => false
    case Some(IntVal(i)) => i != 0
    case Some(StrVal(s)) => s != ""
  }

  /** The `params` handed to the request: none, a bare string rendered as
      a valueless query flag, or a one-entry dictionary. */
  datatype Payload = NoParams | Flag(name: string) | KeyVal(key: string, val: Value)

  /** One GET request: full URL and query payload. */
  datatype Request = Request(url: string, params: Payload)

  datatype Response = Response(status: int, body: Json)

  /** The remote service, answering each request. */
  type Session = Request -> Response

  /** What one call did: the requests it sent, in order, and its outcome. */
  datatype Exchange<+T> = Exchange(sent: seq<Request>, result: T)

  // Status codes, section 15.3.1, 15.5.2 and 15.5.5 of RFC 9110.
  const HttpOk := 200
  const HttpUnauthorized := 401
  const HttpNotFound := 404
}
