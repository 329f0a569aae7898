/**
 * The OkHttp values the interceptor reads and builds: requests with their
 * headers and form bodies, responses, and the outcome of one network call.
 */
module Http {
  import opened Wrappers

  /** okhttp3.Protocol; a cache replay is marked with Http1_0. */
  datatype Protocol = Http1_0 | Http1_1 | Spdy3 | Http2 | H2PriorKnowledge | Quic

  /** One field of a FormBody, as its already-encoded name and value. */
  datatype Field = Field(name: string, value: string)

  /** A request body is either a url-encoded form or some other kind. */
  datatype RequestBody = FormBody(fields: seq<Field>) | OtherBody

  /**
   * A request; `verb` is `request.method()`. `headers` maps a header name
   * to the value `request.header(name)` returns for it; a name not in the
   * map has no header (Java null).
   */
  datatype Request = Request(verb: string, url: string, headers: map<string, string>, body: Option<RequestBody>)

  /** What `ResponseBody.string()` does on a body: give a text, give null, or throw. */
  datatype Content = Text(text: string) | NullText | Unreadable

  datatype ResponseBody = ResponseBody(contentType: Option<string>, content: Content)

  datatype Response = Response(
    request: Request,
    code: int,
    message: string,
    protocol: Protocol,
    headers: map<string, string>,
    body: Option<ResponseBody>)

  /** The exceptions the interceptor can let escape. */
  datatype Exception = IOException | StringIndexOutOfBounds

  /** The result of one `chain.proceed(request)`: a response, or an exception. */
  datatype Outcome = Delivered(response: Response) | Failed

  /** What `intercept` does for its caller: return a response or throw. */
  datatype Reply = Returned(response: Response) | Thrown(error: Exception)

  /** Response.isSuccessful(): the status code lies in [200, 300). */
  predicate IsSuccessful(r: Response) {
    200 <= r.code < 300
  }

  /** `request.header(name)`: the header's value, or None (Java null) when absent. */
  function Header(r: Request, name: string): Option<string> {
    if name in r.headers then Some(r.headers[name]) else None
  }

  /** `ResponseBody.string()`: the text (None for Java null), or a thrown IOException. */
  function ReadString(c: Content): Result<Option<string>, Exception> {
    match c
    case Text(s) => Success(Some(s))
    case NullText => Success(None)
    case Unreadable => Failure(IOException)
  }

  /** A call's outcome as seen by a caller that does not catch: passed on unchanged. */
  function Relay(o: Outcome): Reply {
    match o
    case Delivered(resp) => Returned(resp)
    case Failed => Thrown(IOException)
  }
}
