/**
 * The HTTP vocabulary shared by the client and the operations: status codes and
 * header names, the request a method sends, the reply the transport gives back
 * (a response or a thrown exception), and the credentials that produce the
 * `Authorization` header.
 *
 * The transport itself (okhttp's connection handling, TLS, cookies on the
 * wire) is a parameter of type `Server`: a function from the request sent to
 * the reply received.
 */
module Http {
  import opened Wrappers
  import opened Strings
  import opened Headers

  const HttpOk := 200
  const HttpCreated := 201
  const HttpNoContent := 204
  const HttpMultiStatus := 207
  const HttpMovedPermanently := 301
  const HttpMovedTemporarily := 302
  const HttpTemporaryRedirect := 307
  const HttpUnauthorized := 401
  const HttpNotFound := 404
  const HttpPreconditionFailed := 412

  const RequestIdHeader := "X-Request-ID"
  const UserAgentHeader := "User-Agent"
  const AcceptEncodingHeader := "Accept-Encoding"
  const AcceptEncodingIdentity := "identity"
  const AuthorizationHeader := "Authorization"
  const SingleCookieHeader := "http.protocol.single-cookie-header"
  const LocationHeader := "Location"
  const LocationHeaderLower := "location"

  const HttpsScheme := "https"
  const HttpScheme := "http"

  /** The URLs okhttp's `HttpUrl` parser accepts (scheme case and host syntax are not modelled). */
  predicate IsHttpUrl(u: string) {
    StartsWith(u, "http://") || StartsWith(u, "https://")
  }

  datatype TimeUnit = Milliseconds | Seconds

  datatype Timeout = Timeout(value: int, unit: TimeUnit)

  /** The request method; a PROPFIND carries the `Depth` it is sent with. */
  datatype Verb = GET | PUT | POST | COPY | PROPFIND(depth: int)

  /** What goes on the wire, with the per-call client settings `HttpBaseMethod.execute` applies. */
  datatype Request = Request(
    verb: Verb,
    url: string,
    headers: HeaderList,
    followRedirects: bool,
    retryOnConnectionFailure: bool,
    connectTimeout: Option<Timeout>,
    readTimeout: Option<Timeout>,
    body: Option<string>)

  /**
   * A response, with the URLs of every request the transport sent to obtain it
   * (the original request first, then each redirect it followed on its own).
   */
  datatype Response = Response(status: int, headers: HeaderList, body: Option<string>, hops: seq<string>)

  /** The exceptions the modelled code raises, catches or tells apart. */
  datatype Exception =
    | HttpException(message: string)        // a WebDAV error carrying the status line in its message
    | IOException(message: string)
    | SslRecoverableException                // a certificate problem the user may accept
    | IllegalArgument(message: string)
    | StringIndexOutOfBounds
    | NullPointer
    | JsonException
    | XmlParserException
    | MalformedUrl
    | AccountNotFound(message: string)     // an account without a stored base URL

  datatype Reply = Answered(response: Response) | Failed(exception: Exception)

  /** The network as the library sees it. */
  type Server = Request -> Reply

  /** A Java call that returns a value or throws. */
  datatype Outcome<T> = Returned(value: T) | Threw(exception: Exception)

  /** `OwnCloudCredentials` and its implementations. */
  datatype Credentials =
    | Anonymous
    | Basic(username: string, password: string)
    | Bearer(username: string, accessToken: string)

  /**
   * `getHeaderAuth()`: empty for anonymous credentials, the scheme and the
   * secret otherwise (the Base64 step of the basic scheme is not modelled).
   */
  function HeaderAuth(c: Credentials): (r: string)
    ensures c.Anonymous? <==> r == ""
  {
    match c
    case Anonymous => ""
    case Basic(u, p) => "Basic " + u + ":" + p
    case Bearer(_, t) => "Bearer " + t
  }
}
