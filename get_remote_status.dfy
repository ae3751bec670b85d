/**
 * `GetRemoteStatusOperation`: the older server probe. It fetches
 * `status.php` under the client's base URI with redirects switched off and
 * follows `Location` headers by hand for as long as the server keeps
 * redirecting, remembering whether an https base was sent to an http
 * location. A base without a scheme is tried over https first and over http
 * only when that failed for a reason other than a certificate the user may
 * accept.
 */
module GetRemoteStatus {
  import opened Wrappers
  import opened Strings
  import opened Headers
  import opened Http
  import opened Client
  import opened RemoteResults
  import StatusRequester

  const TryConnectionTimeout := 5000
  const HttpsPrefix := "https://"
  const HttpPrefix := "http://"

  /** What the older HTTP library throws for a `GetMethod` on a text that is not an http URL. */
  const InvalidUri := IllegalArgument("Invalid uri")

  /**
   * The request the older client's `executeMethod` sends for a `GetMethod`:
   * the user agent, the client's credentials applied up front, no redirect
   * following and both timeouts in milliseconds.
   */
  function ProbeRequest(url: string, userAgent: string, credentials: Credentials): (r: Request)
    ensures r.verb == GET && r.url == url && !r.followRedirects
    ensures Get(r.headers, UserAgentHeader) == Some(userAgent)
    ensures Get(r.headers, AuthorizationHeader) == (if credentials.Anonymous? then None else Some(HeaderAuth(credentials)))
  {
    var traced := Set([], UserAgentHeader, userAgent);
    GetSet([], UserAgentHeader, userAgent, AuthorizationHeader);
    GetSet([], UserAgentHeader, userAgent, UserAgentHeader);
    var headers := if HeaderAuth(credentials) != "" then Set(traced, AuthorizationHeader, HeaderAuth(credentials)) else traced;
    GetSet(traced, AuthorizationHeader, HeaderAuth(credentials), UserAgentHeader);
    GetSet(traced, AuthorizationHeader, HeaderAuth(credentials), AuthorizationHeader);
    Request(GET, url, headers, false, false,
            Some(Timeout(TryConnectionTimeout, Milliseconds)), Some(Timeout(TryConnectionTimeout, Milliseconds)), None)
  }

  /**
   * The credentials after the user-info check: user information split on
   * its first ':' into exactly two parts becomes basic credentials; anything
   * else leaves the credentials as they were.
   */
  function UserInfoCredentials(userInfo: Option<string>, c: Credentials): (r: Credentials)
    ensures userInfo.Some? && ':' in userInfo.value ==>
              r.Basic? && r.username + ":" + r.password == userInfo.value && ':' !in r.username
    ensures userInfo.None? || ':' !in userInfo.value ==> r == c
  {
    if userInfo.None? then c
    else
      var parts := SplitFirst(userInfo.value, ':');
      if |parts| == 2 then Basic(parts[0], parts[1]) else c
  }

  /** Whether the loop goes on after a result: a non-empty redirected location and no success. */
  predicate Continues(latest: RemoteResult<string>) {
    latest.RedirectedLocation().Some? && |latest.RedirectedLocation().value| > 0 && !latest.IsSuccess()
  }

  /** The result `RemoteOperationResult(status == 200, get)` gives for a response. */
  function ProbeResult(response: Response): (r: RemoteResult<string>)
    ensures r.IsSuccess() <==> response.status == HttpOk
    ensures r.httpStatus == response.status && r.RedirectedLocation() == Get(response.headers, LocationHeader)
  {
    OfFlaggedResponse(response.status == HttpOk, response)
  }

  /** The sticky flag after a hop to `location`. */
  function NextUnsecure(unsecure: bool, baseUrl: string, location: string): bool {
    unsecure || (StartsWith(baseUrl, HttpsPrefix) && StartsWith(location, HttpPrefix))
  }

  /** Where a probe ended: the last reply (or what was thrown) and the non-secure flag. */
  datatype ProbeEnd = ProbeEnd(reply: Outcome<Response>, unsecure: bool)

  /**
   * The redirect loop from `response` on, with at most `n` more hops; `None`
   * when the server is still redirecting after `n` hops. A response that
   * ends the loop gives it no reason to go on (a 200, even one with a
   * `Location`, or no usable location), and once raised the non-secure
   * flag stays raised.
   */
  function Chase(server: Server, userAgent: string, credentials: Credentials, baseUrl: string,
                 response: Response, unsecure: bool, n: nat): (r: Option<ProbeEnd>)
    ensures r.Some? && r.value.reply.Returned? ==> !Continues(ProbeResult(r.value.reply.value))
    ensures r.Some? && unsecure ==> r.value.unsecure
    decreases n
  {
    var latest := ProbeResult(response);
    if !Continues(latest) then Some(ProbeEnd(Returned(response), unsecure))
    else if n == 0 then None
    else
      var location := latest.RedirectedLocation().value;
      var flag := NextUnsecure(unsecure, baseUrl, location);
      if !IsHttpUrl(location) then Some(ProbeEnd(Threw(InvalidUri), flag))
      else
        match server(ProbeRequest(location, userAgent, credentials))
        case Failed(e) => Some(ProbeEnd(Threw(e), flag))
        case Answered(r) => Chase(server, userAgent, credentials, baseUrl, r, flag, n - 1)
  }

  /** A response that does not redirect ends the loop. */
  lemma ChaseEnds(server: Server, userAgent: string, credentials: Credentials, baseUrl: string,
                  response: Response, unsecure: bool, n: nat)
    requires !Continues(ProbeResult(response))
    ensures Chase(server, userAgent, credentials, baseUrl, response, unsecure, n) == Some(ProbeEnd(Returned(response), unsecure))
  {
  }

  /**
   * The loop has no bound of its own: a server that answers the redirected
   * request with the same redirect keeps it going past any number of hops.
   */
  lemma {:induction false} ChaseSelfRedirectNeverEnds(server: Server, userAgent: string, credentials: Credentials,
                                                     baseUrl: string, response: Response, unsecure: bool, n: nat)
    requires Continues(ProbeResult(response)) && IsHttpUrl(ProbeResult(response).RedirectedLocation().value)
    requires server(ProbeRequest(ProbeResult(response).RedirectedLocation().value, userAgent, credentials)) == Answered(response)
    ensures Chase(server, userAgent, credentials, baseUrl, response, unsecure, n).None?
    decreases n
  {
    if n > 0 {
      var flag := NextUnsecure(unsecure, baseUrl, ProbeResult(response).RedirectedLocation().value);
      ChaseSelfRedirectNeverEnds(server, userAgent, credentials, baseUrl, response, flag, n - 1);
    }
  }

  /** The whole probe of `baseUrl`: the first request, then the redirect loop. */
  function Probe(server: Server, userAgent: string, credentials: Credentials, baseUrl: string, n: nat)
    : (r: Option<ProbeEnd>)
    ensures r.Some? && r.value.reply.Returned? ==> !Continues(ProbeResult(r.value.reply.value))
    ensures !IsHttpUrl(baseUrl + StatusPath) ==> r == Some(ProbeEnd(Threw(InvalidUri), false))
  {
    var first := baseUrl + StatusPath;
    if !IsHttpUrl(first) then Some(ProbeEnd(Threw(InvalidUri), false))
    else
      match server(ProbeRequest(first, userAgent, credentials))
      case Failed(e) => Some(ProbeEnd(Threw(e), false))
      case Answered(r) => Chase(server, userAgent, credentials, baseUrl, r, false, n)
  }

  /**
   * The verdict on where a probe ended, and the value `tryConnection` returns.
   * The body is read as a string, which is null for a response without one,
   * and the JSON parser throws `NullPointerException` on null.
   */
  function Verdict(end: ProbeEnd, baseUrl: string, parse: StatusRequester.StatusParser): (r: (bool, RemoteResult<string>))
    ensures r.0 <==> r.1.IsSuccess()
    ensures end.reply.Threw? ==> r.1 == OfException(end.reply.exception)
    ensures end.reply.Returned? && end.reply.value.status != HttpOk ==>
              r.1.code == HttpFailure && r.1.httpStatus == end.reply.value.status && r.1.headers == end.reply.value.headers
    ensures end.reply.Returned? && end.reply.value.status == HttpOk && end.reply.value.body.None? ==>
              r == (false, OfException(NullPointer))
  {
    match end.reply
    case Threw(e) => (false, OfException(e))
    case Returned(response) =>
      if response.status != HttpOk then (false, OfFlaggedResponse(false, response))
      else if response.body.None? then (false, OfException(NullPointer))
      else
        match parse(response.body.value)
        case None => (false, OfCode(InstanceNotConfigured))
        case Some(document) =>
          if document.installed != Some(true) || document.version.None? then (false, OfCode(InstanceNotConfigured))
          else
            var code :=
              if end.unsecure then OkRedirectToNonSecureConnection
              else if StartsWith(baseUrl, HttpsPrefix) then OkSsl
              else OkNoSsl;
            (true, OfCode(code).WithData(document.version.value))
  }

  /** Whether a 200 has a body whose status document says installed and names a version. */
  predicate InstalledWithVersion(response: Response, parse: StatusRequester.StatusParser) {
    response.body.Some? &&
    var document := parse(response.body.value);
    document.Some? && document.value.installed == Some(true) && document.value.version.Some?
  }

  /**
   * A probe succeeds exactly when it ended on a 200 from an installed
   * server naming its version; the result carries the version and says
   * non-secure when the flag is set, else secure iff the base is https.
   * A 200 without a body is the `NullPointerException` result; everything
   * else on a 200 with a body (not installed, a text that is not JSON, a
   * missing member) is "not configured".
   */
  lemma VerdictClassification(end: ProbeEnd, baseUrl: string, parse: StatusRequester.StatusParser)
    ensures var r := Verdict(end, baseUrl, parse);
      r.0 <==> end.reply.Returned? && end.reply.value.status == HttpOk && InstalledWithVersion(end.reply.value, parse)
    ensures var r := Verdict(end, baseUrl, parse);
      r.0 ==> r.1.data == parse(end.reply.value.body.value).value.version &&
              r.1.code == (if end.unsecure then OkRedirectToNonSecureConnection
                           else if StartsWith(baseUrl, HttpsPrefix) then OkSsl else OkNoSsl)
    ensures var r := Verdict(end, baseUrl, parse);
      end.reply.Returned? && end.reply.value.status == HttpOk && end.reply.value.body.Some? &&
      !InstalledWithVersion(end.reply.value, parse) ==>
        r.1 == OfCode(InstanceNotConfigured)
    ensures var r := Verdict(end, baseUrl, parse);
      end.reply.Returned? && end.reply.value.status == HttpOk && end.reply.value.body.None? ==>
        r.1 == OfException(NullPointer)
  {
  }

  /** The flag can only be raised when the base URL is an https one. */
  lemma {:induction false} ChaseUnsecureNeedsHttps(server: Server, userAgent: string, credentials: Credentials,
                                                  baseUrl: string, response: Response, n: nat)
    requires !StartsWith(baseUrl, HttpsPrefix)
    requires Chase(server, userAgent, credentials, baseUrl, response, false, n).Some?
    ensures !Chase(server, userAgent, credentials, baseUrl, response, false, n).value.unsecure
    decreases n
  {
    var latest := ProbeResult(response);
    if Continues(latest) {
      var location := latest.RedirectedLocation().value;
      if IsHttpUrl(location) {
        match server(ProbeRequest(location, userAgent, credentials))
        case Failed(_) =>
        case Answered(r) => ChaseUnsecureNeedsHttps(server, userAgent, credentials, baseUrl, r, n - 1);
      }
    }
  }

  /** The credentials `tryConnection` sends with: the user-info ones once the first URL was accepted. */
  function ProbeCredentials(baseUrl: string, userInfoOf: string -> Option<string>, c: Credentials): Credentials {
    if IsHttpUrl(baseUrl + StatusPath) then UserInfoCredentials(userInfoOf(baseUrl), c) else c
  }

  /** `tryConnection` of `baseUrl` as a function: its return value and latest result. */
  function TryOutcome(server: Server, userAgent: string, c: Credentials, baseUrl: string, userInfoOf: string -> Option<string>,
                   parse: StatusRequester.StatusParser, n: nat): (r: Option<(bool, RemoteResult<string>)>)
    ensures r.Some? ==> (r.value.0 <==> r.value.1.IsSuccess())
    ensures !IsHttpUrl(baseUrl + StatusPath) ==> r == Some((false, OfException(InvalidUri)))
    ensures var end := Probe(server, userAgent, ProbeCredentials(baseUrl, userInfoOf, c), baseUrl, n);
      end.Some? && end.value.reply.Returned? && end.value.reply.value.status == HttpOk &&
      end.value.reply.value.body.None? ==>
        r == Some((false, OfException(NullPointer)))
  {
    var end := Probe(server, userAgent, ProbeCredentials(baseUrl, userInfoOf, c), baseUrl, n);
    if end.None? then None else Some(Verdict(end.value, baseUrl, parse))
  }

  /** The base URI already names the scheme. */
  predicate HasScheme(base: string) {
    StartsWith(base, HttpPrefix) || StartsWith(base, HttpsPrefix)
  }

  /**
   * The assumption under which `run` returns: every base URI it may try
   * stops redirecting within `n` hops. The source sets no bound of its own.
   */
  predicate ProbesEnd(server: Server, userAgent: string, c: Credentials, base: string,
                      userInfoOf: string -> Option<string>, parse: StatusRequester.StatusParser, n: nat)
  {
    if HasScheme(base) then TryOutcome(server, userAgent, c, base, userInfoOf, parse, n).Some?
    else
      TryOutcome(server, userAgent, c, HttpsPrefix + base, userInfoOf, parse, n).Some? &&
      TryOutcome(server, userAgent, ProbeCredentials(HttpsPrefix + base, userInfoOf, c), HttpPrefix + base, userInfoOf, parse, n).Some?
  }

  /** Whether a failed https attempt is followed by an http one. */
  predicate FallsBack(attempt: (bool, RemoteResult<string>)) {
    !attempt.0 && !attempt.1.IsSslRecoverableException()
  }

  class GetRemoteStatusOperation {
    /** `mLatestResult`; `None` before the first attempt. */
    var latestResult: Option<RemoteResult<string>>

    constructor ()
      ensures latestResult.None?
    {
      latestResult := None;
    }

    /** The user-info check of `tryConnection`. */
    method ApplyUserInfo(client: OwnCloudClient, userInfo: Option<string>)
      modifies client`credentials
      ensures client.credentials == UserInfoCredentials(userInfo, old(client.credentials))
    {
      if userInfo.Some? {
        var userInfoParts := SplitFirst(userInfo.value, ':');
        if |userInfoParts| == 2 {
          client.SetCredentials(Some(Basic(userInfoParts[0], userInfoParts[1])));
        }
      }
    }

    /**
     * The redirect loop of `tryConnection`, from the first response on.
     * `hops` is the bound of the assumption that the server stops
     * redirecting; the loop itself has none.
     */
    method RedirectLoop(client: OwnCloudClient, server: Server, baseUrlSt: string, first: Response, ghost hops: nat)
      returns (end: ProbeEnd)
      requires Chase(server, client.userAgent, client.credentials, baseUrlSt, first, false, hops).Some?
      ensures Some(end) == Chase(server, client.userAgent, client.credentials, baseUrlSt, first, false, hops)
    {
      var userAgent, credentials := client.userAgent, client.credentials;
      var isRedirectToNonSecureConnection := false;
      var response := first;
      var latest := ProbeResult(response);
      var redirectedLocation := latest.RedirectedLocation();
      ghost var fuel := hops;
      ghost var target := Chase(server, userAgent, credentials, baseUrlSt, first, false, hops);
      while redirectedLocation.Some? && |redirectedLocation.value| > 0 && !latest.IsSuccess()
        invariant latest == ProbeResult(response) && redirectedLocation == latest.RedirectedLocation()
        invariant Chase(server, userAgent, credentials, baseUrlSt, response, isRedirectToNonSecureConnection, fuel) == target
        decreases fuel
      {
        var stop;
        stop, response, isRedirectToNonSecureConnection :=
          Hop(server, userAgent, credentials, baseUrlSt, response, isRedirectToNonSecureConnection, fuel);
        if stop.Some? {
          assert Some(stop.value) == target;
          return stop.value;
        }
        fuel := fuel - 1;
        assert Chase(server, userAgent, credentials, baseUrlSt, response, isRedirectToNonSecureConnection, fuel) == target;
        latest := ProbeResult(response);
        redirectedLocation := latest.RedirectedLocation();
      }
      assert !Continues(latest);
      ChaseEnds(server, userAgent, credentials, baseUrlSt, response, isRedirectToNonSecureConnection, fuel);
      end := ProbeEnd(Returned(response), isRedirectToNonSecureConnection);
    }

    /**
     * One pass of the redirect loop: the non-secure flag is updated and the
     * location requested; an invalid location or a failed request ends the
     * loop with what was thrown.
     */
    method Hop(server: Server, userAgent: string, credentials: Credentials, baseUrlSt: string,
               response: Response, unsecure: bool, ghost n: nat)
      returns (stop: Option<ProbeEnd>, next: Response, isRedirectToNonSecureConnection: bool)
      requires Continues(ProbeResult(response))
      requires Chase(server, userAgent, credentials, baseUrlSt, response, unsecure, n).Some?
      ensures n > 0
      ensures stop.Some? ==> stop == Chase(server, userAgent, credentials, baseUrlSt, response, unsecure, n)
      ensures stop.None? ==>
        Chase(server, userAgent, credentials, baseUrlSt, response, unsecure, n) ==
        Chase(server, userAgent, credentials, baseUrlSt, next, isRedirectToNonSecureConnection, n - 1)
    {
      var location := ProbeResult(response).RedirectedLocation().value;
      isRedirectToNonSecureConnection :=
        unsecure || (StartsWith(baseUrlSt, HttpsPrefix) && StartsWith(location, HttpPrefix));
      next := response;
      if !IsHttpUrl(location) {
        return Some(ProbeEnd(Threw(InvalidUri), isRedirectToNonSecureConnection)), next, isRedirectToNonSecureConnection;
      }
      var reply := server(ProbeRequest(location, userAgent, credentials));
      if reply.Failed? {
        return Some(ProbeEnd(Threw(reply.exception), isRedirectToNonSecureConnection)), next, isRedirectToNonSecureConnection;
      }
      next := reply.response;
      stop := None;
    }

    /**
     * `tryConnection`. `userInfoOf` stands for `Uri.parse(url).getUserInfo()`
     * and `parse` for the JSON parser; `hops` is the bound of the
     * assumption that the server stops redirecting. Every exception ends
     * as the latest result.
     */
    method TryConnection(client: OwnCloudClient, server: Server, userInfoOf: string -> Option<string>,
                         parse: StatusRequester.StatusParser, ghost hops: nat)
      returns (retval: bool)
      requires TryOutcome(server, client.userAgent, client.credentials, client.baseUri, userInfoOf, parse, hops).Some?
      modifies this`latestResult, client`credentials, client`followRedirects
      ensures latestResult.Some? &&
              Some((retval, latestResult.value)) ==
              TryOutcome(server, client.userAgent, old(client.credentials), client.baseUri, userInfoOf, parse, hops)
      ensures client.credentials == ProbeCredentials(client.baseUri, userInfoOf, old(client.credentials))
      ensures client.followRedirects == (old(client.followRedirects) && !IsHttpUrl(client.baseUri + StatusPath))
    {
      var baseUrlSt := client.baseUri;
      var first := baseUrlSt + StatusPath;
      if !IsHttpUrl(first) {
        latestResult := Some(OfException(InvalidUri));
        return false;
      }
      ghost var target := TryOutcome(server, client.userAgent, client.credentials, baseUrlSt, userInfoOf, parse, hops);
      ghost var userAgent := client.userAgent;
      ApplyUserInfo(client, userInfoOf(baseUrlSt));
      assert client.baseUri == baseUrlSt && client.userAgent == userAgent && client.followRedirects == old(client.followRedirects);
      client.SetFollowRedirects(false);
      assert client.baseUri == baseUrlSt && client.userAgent == userAgent &&
             client.credentials == ProbeCredentials(baseUrlSt, userInfoOf, old(client.credentials));
      ghost var probe := Probe(server, client.userAgent, client.credentials, baseUrlSt, hops);
      assert target == if probe.None? then None else Some(Verdict(probe.value, baseUrlSt, parse));
      var reply := server(ProbeRequest(first, client.userAgent, client.credentials));
      if reply.Failed? {
        assert probe == Some(ProbeEnd(Threw(reply.exception), false));
        latestResult := Some(OfException(reply.exception));
        return false;
      }
      var end := RedirectLoop(client, server, baseUrlSt, reply.response, hops);
      var verdict := Verdict(end, baseUrlSt, parse);
      assert target == Some(verdict);
      latestResult := Some(verdict.1);
      retval := verdict.0;
    }

    /**
     * `run`. `online` is what the connectivity service says. The base URIs
     * tried are returned in order; the result is the latest result of the
     * last one tried.
     */
    method Run(client: OwnCloudClient, online: bool, server: Server, userInfoOf: string -> Option<string>,
               parse: StatusRequester.StatusParser, ghost hops: nat)
      returns (result: RemoteResult<string>, ghost tried: seq<string>)
      requires online ==> ProbesEnd(server, client.userAgent, client.credentials, client.baseUri, userInfoOf, parse, hops)
      modifies this`latestResult, client`credentials, client`followRedirects, client`baseUri
      ensures !online ==> result == OfCode(NoNetworkConnection) && tried == [] && unchanged(client)
      ensures online && HasScheme(old(client.baseUri)) ==>
                tried == [old(client.baseUri)] &&
                TryOutcome(server, client.userAgent, old(client.credentials), tried[0], userInfoOf, parse, hops).value.1 == result
      ensures online && !HasScheme(old(client.baseUri)) ==>
                var first := TryOutcome(server, client.userAgent, old(client.credentials), HttpsPrefix + old(client.baseUri),
                                     userInfoOf, parse, hops).value;
                1 <= |tried| <= 2 && tried[0] == HttpsPrefix + old(client.baseUri) &&
                (|tried| == 2 <==> FallsBack(first)) &&
                (|tried| == 1 ==> result == first.1) &&
                (|tried| == 2 ==>
                   tried[1] == HttpPrefix + old(client.baseUri) &&
                   result == TryOutcome(server, client.userAgent,
                                     ProbeCredentials(tried[0], userInfoOf, old(client.credentials)),
                                     tried[1], userInfoOf, parse, hops).value.1)
      ensures online ==> client.baseUri == tried[|tried| - 1] && latestResult == Some(result)
    {
      if !online {
        return OfCode(NoNetworkConnection), [];
      }
      var baseUriStr := client.baseUri;
      if StartsWith(baseUriStr, HttpPrefix) || StartsWith(baseUriStr, HttpsPrefix) {
        var ok := TryConnection(client, server, userInfoOf, parse, hops);
        tried := [baseUriStr];
      } else {
        var httpsUri := HttpsPrefix + baseUriStr;
        var thrown := client.SetBaseUri(Some(httpsUri));
        tried := [httpsUri];
        var httpsSuccess := TryConnection(client, server, userInfoOf, parse, hops);
        if !httpsSuccess && !latestResult.value.IsSslRecoverableException() {
          var httpUri := HttpPrefix + baseUriStr;
          thrown := client.SetBaseUri(Some(httpUri));
          tried := tried + [httpUri];
          httpsSuccess := TryConnection(client, server, userInfoOf, parse, hops);
        }
      }
      result := latestResult.value;
    }
  }
}
