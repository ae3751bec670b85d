/**
 * `HttpBaseMethod`: one HTTP request under construction and, once executed, its
 * response. Every setter rebuilds the request in place; `Execute` hands the
 * request, with the per-call client options, to the transport.
 */
module HttpMethods {
  import opened Wrappers
  import opened Headers
  import opened Http
  import opened RedirectChain

  /** A timeout is applied only when both its value and its unit are known. */
  function EffectiveTimeout(value: Option<int>, unit: Option<TimeUnit>): (r: Option<Timeout>)
    ensures r.Some? <==> value.Some? && unit.Some?
    ensures r.Some? ==> r.value.value == value.value && r.value.unit == unit.value
  {
    if value.Some? && unit.Some? then Some(Timeout(value.value, unit.value)) else None
  }

  class HttpMethod {
    /** The kind of method the object was created as, which fixes the request method sent. */
    const verb: Verb
    var url: string
    var requestHeaders: HeaderList
    var followRedirects: bool
    /** Read by the client's retry loop; not declared in the method class itself, so it starts false. */
    var followPermanentRedirects: bool
    var retryOnConnectionFailure: bool
    var connectionTimeoutVal: Option<int>
    var connectionTimeoutUnit: Option<TimeUnit>
    var readTimeoutVal: Option<int>
    var readTimeoutUnit: Option<TimeUnit>
    /** The request entity of a method that sends one (a form, for a POST). */
    var requestBody: Option<string>
    /** The response of the last execution; `None` before the first one. */
    var response: Option<Response>
    /** Whether the last response's body stream is still open. */
    var bodyOpen: bool
    /** An interceptor registered on the method, if any. */
    var redirectChainHandler: RedirectChainHandler?

    /** The request `execute` sends: the stored request plus the client options it applies. */
    function RequestToSend(): (r: Request)
      reads this`url, this`requestHeaders, this`followRedirects, this`retryOnConnectionFailure
      reads this`connectionTimeoutVal, this`connectionTimeoutUnit, this`readTimeoutVal, this`readTimeoutUnit
      reads this`requestBody
      ensures r.verb == verb && r.url == url && r.headers == requestHeaders
      ensures r.followRedirects == followRedirects
      ensures r.connectTimeout.Some? <==> connectionTimeoutVal.Some? && connectionTimeoutUnit.Some?
      ensures r.readTimeout.Some? <==> readTimeoutVal.Some? && readTimeoutUnit.Some?
      ensures r.body == requestBody
    {
      Request(verb, url, requestHeaders, followRedirects, retryOnConnectionFailure,
              EffectiveTimeout(connectionTimeoutVal, connectionTimeoutUnit),
              EffectiveTimeout(readTimeoutVal, readTimeoutUnit), requestBody)
    }

    /** The per-call options a method carries besides its URL, headers and follow flag. */
    function Options(): (bool, bool, Option<int>, Option<TimeUnit>, Option<int>, Option<TimeUnit>, Option<string>)
      reads this`followPermanentRedirects, this`retryOnConnectionFailure
      reads this`connectionTimeoutVal, this`connectionTimeoutUnit, this`readTimeoutVal, this`readTimeoutUnit
      reads this`requestBody
    {
      (followPermanentRedirects, retryOnConnectionFailure,
       connectionTimeoutVal, connectionTimeoutUnit, readTimeoutVal, readTimeoutUnit, requestBody)
    }

    /**
     * A method for a URL okhttp accepts (any other URL makes the Kotlin
     * constructor throw `MalformedURLException`; callers check `IsHttpUrl`).
     * Redirects are followed by default and no timeout is applied: the
     * connection timeout has a value but no unit.
     */
    constructor (v: Verb, u: string)
      requires IsHttpUrl(u)
      ensures verb == v && url == u && requestHeaders == []
      ensures followRedirects && !followPermanentRedirects && !retryOnConnectionFailure
      ensures connectionTimeoutVal == Some(10) && connectionTimeoutUnit.None?
      ensures readTimeoutVal.None? && readTimeoutUnit.None? && requestBody.None?
      ensures RequestToSend().connectTimeout.None? && RequestToSend().readTimeout.None?
      ensures response.None? && !bodyOpen && redirectChainHandler == null
    {
      verb := v;
      url := u;
      requestHeaders := [];
      followRedirects := true;
      followPermanentRedirects := false;
      retryOnConnectionFailure := false;
      connectionTimeoutVal := Some(10);
      connectionTimeoutUnit := None;
      readTimeoutVal := None;
      readTimeoutUnit := None;
      requestBody := None;
      response := None;
      bodyOpen := false;
      redirectChainHandler := null;
    }

    /**
     * `execute`: sends `RequestToSend()`. A response is stored and its status
     * returned; a transport failure is thrown and leaves the previous response.
     * A registered chain handler sees the URL of every request of the call.
     */
    method Execute(server: Server) returns (out: Outcome<int>)
      modifies this`response, this`bodyOpen, redirectChainHandler
      ensures url == old(url) && requestHeaders == old(requestHeaders) && followRedirects == old(followRedirects) && Options() == old(Options())
      ensures redirectChainHandler == old(redirectChainHandler)
      ensures match server(old(RequestToSend()))
        case Answered(r) =>
          out == Returned(r.status) && response == Some(r) && bodyOpen == r.body.Some? &&
          (redirectChainHandler != null ==> redirectChainHandler.chain == old(redirectChainHandler.chain) + r.hops)
        case Failed(e) =>
          out == Threw(e) && response == old(response) && bodyOpen == old(bodyOpen) &&
          (redirectChainHandler != null ==> redirectChainHandler.chain == old(redirectChainHandler.chain) + [old(url)])
    {
      var reply := server(RequestToSend());
      match reply {
        case Answered(r) =>
          if redirectChainHandler != null {
            redirectChainHandler.InterceptAll(r.hops);
          }
          response := Some(r);
          bodyOpen := r.body.Some?;
          out := Returned(r.status);
        case Failed(e) =>
          if redirectChainHandler != null {
            redirectChainHandler.Intercept(url);
          }
          out := Threw(e);
      }
    }

    /** `addRedirectChainHandler`. */
    method AddRedirectChainHandler(h: RedirectChainHandler)
      modifies this`redirectChainHandler
      ensures redirectChainHandler == h
      ensures url == old(url) && requestHeaders == old(requestHeaders) && followRedirects == old(followRedirects) && Options() == old(Options()) && response == old(response) && bodyOpen == old(bodyOpen)
    {
      redirectChainHandler := h;
    }

    /** `setUrl`: only the URL changes; headers and options are kept. */
    method SetUrl(u: string)
      requires IsHttpUrl(u)
      modifies this`url
      ensures url == u
      ensures requestHeaders == old(requestHeaders) && followRedirects == old(followRedirects) && Options() == old(Options())
      ensures response == old(response) && bodyOpen == old(bodyOpen)
      ensures redirectChainHandler == old(redirectChainHandler)
    {
      url := u;
    }

    /** `getRequestHeader`: the last value stored under the name, any letter case. */
    function GetRequestHeader(name: string): Option<string>
      reads this`requestHeaders
    {
      Get(requestHeaders, name)
    }

    /** `addRequestHeader`: appends a value and keeps the earlier ones. */
    method AddRequestHeader(name: string, value: string)
      modifies this`requestHeaders
      ensures requestHeaders == Add(old(requestHeaders), name, value)
      ensures url == old(url) && followRedirects == old(followRedirects) && Options() == old(Options())
      ensures response == old(response) && bodyOpen == old(bodyOpen)
      ensures redirectChainHandler == old(redirectChainHandler)
    {
      requestHeaders := Add(requestHeaders, name, value);
    }

    /** `setRequestHeader`: leaves exactly the one new value under the name. */
    method SetRequestHeader(name: string, value: string)
      modifies this`requestHeaders
      ensures requestHeaders == Set(old(requestHeaders), name, value)
      ensures url == old(url) && followRedirects == old(followRedirects) && Options() == old(Options())
      ensures response == old(response) && bodyOpen == old(bodyOpen)
      ensures redirectChainHandler == old(redirectChainHandler)
    {
      requestHeaders := Set(requestHeaders, name, value);
    }

    /** `getResponseHeader`: the last value of the named response header. */
    function GetResponseHeader(name: string): Option<string>
      requires response.Some?
      reads this`response
    {
      Get(response.value.headers, name)
    }

    /** `getResponseBodyAsString`. */
    function GetResponseBodyAsString(): Option<string>
      requires response.Some?
      reads this`response
    {
      response.value.body
    }

    /** `setReadTimeout`: value and unit are stored together. */
    method SetReadTimeout(value: int, unit: TimeUnit)
      modifies this`readTimeoutVal, this`readTimeoutUnit
      ensures readTimeoutVal == Some(value) && readTimeoutUnit == Some(unit)
      ensures requestBody == old(requestBody)
      ensures RequestToSend().readTimeout == Some(Timeout(value, unit))
      ensures url == old(url) && requestHeaders == old(requestHeaders)
      ensures followRedirects == old(followRedirects) && followPermanentRedirects == old(followPermanentRedirects)
      ensures retryOnConnectionFailure == old(retryOnConnectionFailure)
      ensures connectionTimeoutVal == old(connectionTimeoutVal) && connectionTimeoutUnit == old(connectionTimeoutUnit)
      ensures response == old(response) && bodyOpen == old(bodyOpen)
      ensures redirectChainHandler == old(redirectChainHandler)
    {
      readTimeoutVal := Some(value);
      readTimeoutUnit := Some(unit);
    }

    /** `setConnectionTimeout`: value and unit are stored together. */
    method SetConnectionTimeout(value: int, unit: TimeUnit)
      modifies this`connectionTimeoutVal, this`connectionTimeoutUnit
      ensures connectionTimeoutVal == Some(value) && connectionTimeoutUnit == Some(unit)
      ensures requestBody == old(requestBody)
      ensures RequestToSend().connectTimeout == Some(Timeout(value, unit))
      ensures url == old(url) && requestHeaders == old(requestHeaders)
      ensures followRedirects == old(followRedirects) && followPermanentRedirects == old(followPermanentRedirects)
      ensures retryOnConnectionFailure == old(retryOnConnectionFailure)
      ensures readTimeoutVal == old(readTimeoutVal) && readTimeoutUnit == old(readTimeoutUnit)
      ensures response == old(response) && bodyOpen == old(bodyOpen)
      ensures redirectChainHandler == old(redirectChainHandler)
    {
      connectionTimeoutVal := Some(value);
      connectionTimeoutUnit := Some(unit);
    }

    /** `setRequestBody` of the methods that send an entity: only the body changes. */
    method SetRequestBody(body: string)
      modifies this`requestBody
      ensures requestBody == Some(body)
      ensures url == old(url) && requestHeaders == old(requestHeaders) && followRedirects == old(followRedirects)
      ensures followPermanentRedirects == old(followPermanentRedirects) && retryOnConnectionFailure == old(retryOnConnectionFailure)
      ensures connectionTimeoutVal == old(connectionTimeoutVal) && connectionTimeoutUnit == old(connectionTimeoutUnit)
      ensures readTimeoutVal == old(readTimeoutVal) && readTimeoutUnit == old(readTimeoutUnit)
      ensures response == old(response) && bodyOpen == old(bodyOpen)
      ensures redirectChainHandler == old(redirectChainHandler)
    {
      requestBody := Some(body);
    }

    /** Kotlin's `followRedirects` property setter. */
    method SetFollowRedirects(b: bool)
      modifies this`followRedirects
      ensures followRedirects == b
      ensures url == old(url) && requestHeaders == old(requestHeaders) && Options() == old(Options())
      ensures response == old(response) && bodyOpen == old(bodyOpen)
      ensures redirectChainHandler == old(redirectChainHandler)
    {
      followRedirects := b;
    }

    /** Closing the stream `getResponseBodyAsStream` returns (nothing to close without a body). */
    method CloseResponseBody()
      requires response.Some?
      modifies this`bodyOpen
      ensures !bodyOpen
      ensures url == old(url) && requestHeaders == old(requestHeaders) && followRedirects == old(followRedirects) && Options() == old(Options()) && response == old(response)
      ensures redirectChainHandler == old(redirectChainHandler)
    {
      bodyOpen := false;
    }
  }
}
