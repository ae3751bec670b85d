/**
 * `StatusRequester`: asks a server for its `status.php` document through a
 * method carrying a redirect-chain handler, then turns the answer into a
 * result: a failure for any status but 200, "not configured" when the server
 * says it is not installed, and otherwise a success carrying the version whose
 * code tells whether the connection is secure.
 */
module StatusRequester {
  import opened Wrappers
  import opened Strings
  import opened Http
  import opened HttpMethods
  import opened Client
  import opened RemoteResults
  import opened RedirectChain

  const TryConnectionTimeout := 5000

  /**
   * The two members of the status document the code reads; `None` for a
   * member that is absent or of the wrong type, on which `getBoolean` and
   * `getString` throw.
   */
  datatype StatusDocument = StatusDocument(installed: Option<bool>, version: Option<string>)

  /** `JSONObject(text)`: the document, or `None` for text that is not a JSON object. */
  type StatusParser = string -> Option<StatusDocument>

  /**
   * `RequestResult`. The method itself is represented by the response it
   * holds, which is all that is read from it afterwards.
   */
  datatype RequestResult = RequestResult(
    response: Response,
    status: int,
    result: RemoteResult<string>,
    redirectedToUnsecureLocation: bool)

  /** The URL of the status document under a base location. */
  function StatusUrl(baseLocation: string): (r: string)
    ensures StartsWith(r, baseLocation) && EndsWith(r, StatusPath)
  {
    assert (baseLocation + StatusPath)[..|baseLocation|] == baseLocation;
    assert (baseLocation + StatusPath)[|baseLocation|..] == StatusPath;
    baseLocation + StatusPath
  }

  /** The preliminary result `requestStatus` builds from the status. */
  function StatusResult(status: int, response: Response): (r: RemoteResult<string>)
    ensures r.IsSuccess() <==> status == HttpOk
    ensures status != HttpOk ==> r.httpStatus == response.status && r.headers == response.headers
  {
    if status == HttpOk then OfCode(Ok) else OfResponse(response)
  }

  /** The code of an installed server's result. */
  function SecurityCode(redirectedToUnsecureLocation: bool, baseUrl: string): (r: ResultCode)
    ensures r == OkRedirectToNonSecureConnection || r == OkSsl || r == OkNoSsl
    ensures r == OkSsl <==> !redirectedToUnsecureLocation && StartsWith(baseUrl, HttpsScheme)
    ensures r == OkRedirectToNonSecureConnection <==> redirectedToUnsecureLocation
  {
    if redirectedToUnsecureLocation then OkRedirectToNonSecureConnection
    else if StartsWith(baseUrl, HttpsScheme) then OkSsl
    else OkNoSsl
  }

  /** The text `getResponseBodyAsString() ?: ""` gives. */
  function BodyText(response: Response): string {
    if response.body.Some? then response.body.value else ""
  }

  /**
   * `handleRequestResult`. The body is read only after a 200; the parse and
   * the two member reads can throw `JSONException`, which the caller sees.
   */
  function HandleRequestResult(rr: RequestResult, baseUrl: string, parse: StatusParser): (r: Outcome<RemoteResult<string>>)
    ensures rr.status != HttpOk ==> r == Returned(OfResponse(rr.response))
    ensures r.Threw? ==> r.exception == JsonException
    ensures r.Returned? && r.value.code == InstanceNotConfigured ==>
              rr.status == HttpOk && parse(BodyText(rr.response)).Some? && parse(BodyText(rr.response)).value.installed == Some(false)
  {
    if rr.status != HttpOk then Returned(OfResponse(rr.response))
    else
      match parse(BodyText(rr.response))
      case None => Threw(JsonException)
      case Some(document) =>
        match document.installed
        case None => Threw(JsonException)
        case Some(false) => Returned(OfCode(InstanceNotConfigured))
        case Some(true) =>
          match document.version
          case None => Threw(JsonException)
          case Some(version) =>
            Returned(OfCode(SecurityCode(rr.redirectedToUnsecureLocation, baseUrl)).WithData(version))
  }

  /** Whether the server's document says it is installed and names a version. */
  predicate InstalledWithVersion(rr: RequestResult, parse: StatusParser) {
    var document := parse(BodyText(rr.response));
    document.Some? && document.value.installed == Some(true) && document.value.version.Some?
  }

  /**
   * The verdict is a success exactly for a 200 from an installed server that
   * names its version, and then it carries that version, even one that is
   * not a valid version string.
   */
  lemma HandleSuccess(rr: RequestResult, baseUrl: string, parse: StatusParser)
    ensures var r := HandleRequestResult(rr, baseUrl, parse);
      (r.Returned? && r.value.IsSuccess()) <==> rr.status == HttpOk && InstalledWithVersion(rr, parse)
    ensures var r := HandleRequestResult(rr, baseUrl, parse);
      r.Returned? && r.value.IsSuccess() ==>
        r.value.data == parse(BodyText(rr.response)).value.version &&
        r.value.code == SecurityCode(rr.redirectedToUnsecureLocation, baseUrl)
  {
  }

  /** A response that was not a 200 is judged without looking at its body. */
  lemma FailureIgnoresBody(rr: RequestResult, baseUrl: string, parse1: StatusParser, parse2: StatusParser)
    requires rr.status != HttpOk
    ensures HandleRequestResult(rr, baseUrl, parse1) == HandleRequestResult(rr, baseUrl, parse2)
    ensures HandleRequestResult(rr, baseUrl, parse1).value.httpStatus == rr.response.status
  {
  }

  /** A server that says it is not installed gives "not configured", whatever the version says. */
  lemma NotInstalled(rr: RequestResult, baseUrl: string, parse: StatusParser)
    requires rr.status == HttpOk
    requires parse(BodyText(rr.response)).Some? && parse(BodyText(rr.response)).value.installed == Some(false)
    ensures HandleRequestResult(rr, baseUrl, parse) == Returned(OfCode(InstanceNotConfigured))
  {
  }

  /**
   * An unsecure redirect outranks the scheme of the base URL: the result is
   * the same for an https and an http base.
   */
  lemma UnsecureRedirectWins(rr: RequestResult, httpsBase: string, httpBase: string, parse: StatusParser)
    requires rr.redirectedToUnsecureLocation && rr.status == HttpOk && InstalledWithVersion(rr, parse)
    ensures HandleRequestResult(rr, httpsBase, parse) == HandleRequestResult(rr, httpBase, parse)
    ensures HandleRequestResult(rr, httpsBase, parse).value.code == OkRedirectToNonSecureConnection
  {
  }

  /**
   * The execution `requestStatus` asks the client for: a GET of `url` that
   * follows redirects, with both time-outs set and no header of its own,
   * run by the client's retry loop from the client's current state.
   */
  function StatusRun(url: string, server: Server, validator: Option<Validator>, clientFollows: bool, userAgent: string,
                     credentials: Credentials, counter: nat): RunResult
  {
    var timeout := Some(Timeout(TryConnectionTimeout, Seconds));
    Run(ExecContext(GET, server, validator, clientFollows, false, userAgent, url, false, timeout, timeout, None),
        LoopState([], true, credentials, counter), 0)
  }

  /**
   * `requestStatus`. `URL(...)` refuses a location that is not an http URL
   * before anything is sent; an exception of the execution reaches the
   * caller. Otherwise the outcome is that of the client's execution, the
   * result is judged on the response it left, and the flag is the handler's
   * verdict on the URLs of every request of that execution.
   */
  method RequestStatus(baseLocation: string, client: OwnCloudClient, server: Server)
    returns (out: Outcome<RequestResult>, ghost sent: Option<Request>, ghost handler: RedirectChainHandler?)
    modifies client`credentials, client`requestCounter
    ensures sent.None? <==> !IsHttpUrl(StatusUrl(baseLocation))
    ensures sent.None? ==> out == Threw(MalformedUrl)
    ensures sent.Some? ==>
              sent.value.verb == GET && sent.value.url == StatusUrl(baseLocation) && sent.value.followRedirects &&
              sent.value.readTimeout == Some(Timeout(TryConnectionTimeout, Seconds)) &&
              sent.value.connectTimeout == Some(Timeout(TryConnectionTimeout, Seconds))
    ensures out.Returned? ==>
              handler != null && fresh(handler) &&
              out.value.status == out.value.response.status &&
              out.value.result == StatusResult(out.value.status, out.value.response) &&
              out.value.redirectedToUnsecureLocation == MixedSchemes(handler.chain)
    ensures sent.Some? ==>
              var res := StatusRun(StatusUrl(baseLocation), server, old(client.validator), old(client.followRedirects),
                                   old(client.userAgent), old(client.credentials), old(client.requestCounter));
              (res.outcome.Threw? ==> out == Threw(res.outcome.exception)) &&
              (res.outcome.Returned? ==>
                 out.Returned? && out.value.status == res.outcome.value &&
                 Some(out.value.response) == LastResponse(res.attempts, None) &&
                 handler.chain == Hops(res.attempts) &&
                 out.value.redirectedToUnsecureLocation == MixedSchemes(Hops(res.attempts)))
  {
    var currentLocation := StatusUrl(baseLocation);
    handler := null;
    if !IsHttpUrl(currentLocation) {
      return Threw(MalformedUrl), None, null;
    }
    var getMethod := new HttpMethod(GET, currentLocation);
    getMethod.SetReadTimeout(TryConnectionTimeout, Seconds);
    getMethod.SetConnectionTimeout(TryConnectionTimeout, Seconds);
    var redirectChainHandler := new RedirectChainHandler();
    getMethod.AddRedirectChainHandler(redirectChainHandler);
    handler := redirectChainHandler;
    sent := Some(getMethod.RequestToSend());
    var executed := client.ExecuteHttpMethod(getMethod, server);
    if executed.Threw? {
      return Threw(executed.exception), sent, handler;
    }
    var status := executed.value;
    var response := getMethod.response.value;
    var result := StatusResult(status, response);
    var unsecure := redirectChainHandler.HasBeenRedirectedUnsecureLocation();
    out := Returned(RequestResult(response, status, result, unsecure));
  }
}
