/**
 * `CheckPathExistenceRemoteOperation`: a PROPFIND on a remote path, with the
 * client's redirect following switched off for the request and, when it was
 * on, the redirections followed by hand afterwards. The path exists when the
 * final status is 200 or 207 Multi-Status (section 9.1 of RFC 4918).
 */
module CheckPathExistence {
  import opened Wrappers
  import opened Strings
  import opened Headers
  import opened Http
  import opened HttpMethods
  import opened Client
  import opened RemoteResults
  import opened Redirection

  const ExistenceTimeout := 10000

  /** `isSuccess` on a status. */
  predicate IsExistenceSuccess(status: int) {
    status == HttpOk || status == HttpMultiStatus
  }

  /** `getRequestUrl`. */
  function RequestUrl(isUserLoggedIn: bool, baseFilesWebDavUri: string, userFilesWebDavUri: string, remotePath: string)
    : (r: string)
    ensures isUserLoggedIn ==> r == baseFilesWebDavUri
    ensures !isUserLoggedIn ==> StartsWith(r, userFilesWebDavUri) && r[|userFilesWebDavUri|..] == remotePath
  {
    if isUserLoggedIn then baseFilesWebDavUri
    else
      assert (userFilesWebDavUri + remotePath)[..|userFilesWebDavUri|] == userFilesWebDavUri;
      userFilesWebDavUri + remotePath
  }

  /**
   * `handleResult`: success carries `true`; any other status gives the
   * result of the method's response carrying `false`.
   */
  function HandleResult(status: int, response: Response): (r: RemoteResult<bool>)
    ensures r.data == Some(IsExistenceSuccess(status))
    ensures r.IsSuccess() <==> IsExistenceSuccess(status)
    ensures !IsExistenceSuccess(status) ==> r.code == HttpFailure && r.httpStatus == response.status
  {
    if IsExistenceSuccess(status) then OfCode<bool>(Ok).WithData(true)
    else OfResponse<bool>(response).WithData(false)
  }

  /** The last status of a redirection path (`getLastStatus`). */
  function LastStatus(path: RedirectionPath): int
    requires |path.statuses| >= 1
  {
    path.statuses[|path.statuses| - 1]
  }

  /**
   * The response the method holds at the end: the one the last hop left,
   * or the one the execution left when no hop was made.
   */
  function FinalResponse(run: RunResult, hops: seq<HopRecord>): Response {
    if hops != [] then ResponseAfter(hops[|hops| - 1])
    else match LastResponse(run.attempts, None)
      case Some(r) => r
      case None => Response(0, [], None, [])
  }

  /**
   * What the existence check decides once its PROPFIND was executed as `run`, with
   * redirections followed by hand when `follow` is on: an exception of the
   * execution or of a hop becomes the result; otherwise the verdict is taken
   * on the executed status, or on the last status of the recorded path,
   * from the final response. The hops form the redirect chain that starts
   * from the state the execution left.
   */
  ghost predicate Judged(env: HopEnv, follow: bool, run: RunResult, hops: seq<HopRecord>, status: Option<int>,
                         path: Option<RedirectionPath>, result: RemoteResult<bool>, last: Response) {
    && (run.outcome.Threw? ==> result == OfException(run.outcome.exception) && status.None? && hops == [])
    && (run.outcome.Returned? && !follow ==> status == Some(run.outcome.value) && hops == [])
    && (run.outcome.Returned? && follow ==>
          HopChain(hops, env, MethodState(LastResponse(run.attempts, None), BodyOpenAfter(run.attempts, false),
                                          Get(run.final.headers, DestinationHeader), run.final.counter)) &&
          |hops| <= MaxRedirectionsCount)
    && (run.outcome.Returned? && follow && status.None? ==>
          hops != [] && hops[|hops| - 1].outcome.Threw? && result == OfException(hops[|hops| - 1].outcome.exception))
    && (path.Some? <==> follow && status.Some?)
    && (path.Some? ==>
          run.outcome.Returned? && PathRecords(path.value, hops) && path.value.statuses[0] == run.outcome.value &&
          status.value == LastStatus(path.value))
    && (status.Some? ==> result == HandleResult(status.value, last) && last == FinalResponse(run, hops))
    && (status.None? ==> result.code.ExceptionThrown?)
  }

  /**
   * The PROPFIND of `run`, built on `requestUrl` with the existence timeouts
   * and executed by the client: the specified execution of that request.
   */
  method SendPropfind(client: OwnCloudClient, server: Server, requestUrl: string)
    returns (m: HttpMethod, executed: Outcome<int>, ghost sent: Request, ghost run: RunResult)
    requires IsHttpUrl(requestUrl)
    modifies client`credentials, client`requestCounter
    ensures fresh(m) && m.redirectChainHandler == null
    ensures sent.verb == PROPFIND(0) && sent.url == requestUrl && sent.readTimeout == Some(Timeout(ExistenceTimeout, Seconds)) &&
            sent.connectTimeout == Some(Timeout(ExistenceTimeout, Seconds))
    ensures run == old(client.RunFor(sent, client.followRedirects, false, server)) && executed == run.outcome
    ensures m.response == LastResponse(run.attempts, None) && m.bodyOpen == BodyOpenAfter(run.attempts, false)
    ensures m.requestHeaders == run.final.headers && client.credentials == run.final.credentials &&
            client.requestCounter == run.final.counter
    ensures executed.Returned? ==> m.response.Some? && m.response.value.status == executed.value
  {
    m := new HttpMethod(PROPFIND(0), requestUrl);
    m.SetReadTimeout(ExistenceTimeout, Seconds);
    m.SetConnectionTimeout(ExistenceTimeout, Seconds);
    sent := m.RequestToSend();
    client.RunForMethod(m, server);
    run := client.RunFor(sent, client.followRedirects, false, server);
    executed := client.ExecuteHttpMethod(m, server);
  }

  /**
   * The redirections `run` follows by hand after the PROPFIND answered, and
   * the verdict on the last status of their path: the hops start from the
   * state the execution `run` left on the method and the client.
   */
  method FollowThenJudge(client: OwnCloudClient, m: HttpMethod, server: Server,
                         checkUnauthorizedAccess: (int, nat) -> bool, bound: nat, ghost run: RunResult)
    returns (result: RemoteResult<bool>, ghost hops: seq<HopRecord>, status: Option<int>,
             path: Option<RedirectionPath>, ghost last: Response)
    requires RepeatsBounded(checkUnauthorizedAccess, bound)
    requires run.outcome.Returned? && m.response == LastResponse(run.attempts, None) && m.response.Some?
    requires m.response.value.status == run.outcome.value
    requires m.bodyOpen == BodyOpenAfter(run.attempts, false) && m.requestHeaders == run.final.headers
    requires client.credentials == run.final.credentials && client.requestCounter == run.final.counter
    modifies client`requestCounter, m`url, m`requestHeaders, m`response, m`bodyOpen, m.redirectChainHandler
    ensures Judged(ClientEnv(client, run.final.credentials, server, checkUnauthorizedAccess), true, run, hops,
                   status, path, result, last)
  {
    var manager := new RedirectionManager(client);
    var followed;
    followed, hops := manager.FollowRedirection(m, server, checkUnauthorizedAccess, bound);
    if followed.Threw? {
      return OfException(followed.exception), hops, None, None, Response(0, [], None, []);
    }
    path := Some(followed.value);
    status := Some(LastStatus(followed.value));
    last := m.response.value;
    result := HandleResult(status.value, m.response.value);
  }

  /**
   * What `run` does once the request URL is known to be an HTTP URL and the
   * client's follow switch is off: the PROPFIND, and when `follow` (the
   * switch as it was) is on, the redirections followed by hand. `path` is
   * the redirection path to record, if any.
   */
  method CheckFrom(client: OwnCloudClient, server: Server, requestUrl: string, follow: bool,
                   checkUnauthorizedAccess: (int, nat) -> bool, bound: nat)
    returns (result: RemoteResult<bool>, ghost sent: Request, ghost run: RunResult, ghost hops: seq<HopRecord>,
             status: Option<int>, path: Option<RedirectionPath>, ghost last: Response)
    requires IsHttpUrl(requestUrl) && !client.followRedirects && RepeatsBounded(checkUnauthorizedAccess, bound)
    modifies client`credentials, client`requestCounter
    ensures sent.verb == PROPFIND(0) && sent.url == requestUrl && sent.readTimeout == Some(Timeout(ExistenceTimeout, Seconds)) &&
            sent.connectTimeout == Some(Timeout(ExistenceTimeout, Seconds))
    ensures run == old(client.RunFor(sent, false, false, server)) && client.credentials == run.final.credentials
    ensures Judged(ClientEnv(client, run.final.credentials, server, checkUnauthorizedAccess), follow, run, hops,
                   status, path, result, last)
  {
    var m, executed;
    m, executed, sent, run := SendPropfind(client, server, requestUrl);
    if executed.Threw? {
      return OfException(executed.exception), sent, run, [], None, None, Response(0, [], None, []);
    }
    if follow {
      result, hops, status, path, last := FollowThenJudge(client, m, server, checkUnauthorizedAccess, bound, run);
    } else {
      hops, status, path, last := [], Some(executed.value), None, m.response.value;
      result := HandleResult(executed.value, m.response.value);
    }
  }

  class CheckPathExistenceRemoteOperation {
    const remotePath: string
    const isUserLoggedIn: bool
    /** The redirections followed by the last run; `None` until redirections are followed. */
    var redirectionPath: Option<RedirectionPath>

    constructor (remotePath: string, isUserLoggedIn: bool)
      ensures this.remotePath == remotePath && this.isUserLoggedIn == isUserLoggedIn && redirectionPath.None?
    {
      this.remotePath := remotePath;
      this.isUserLoggedIn := isUserLoggedIn;
      redirectionPath := None;
    }

    /**
     * `run`. `checkUnauthorizedAccess` and `bound` are those of the
     * redirection follower. The client's follow flag is restored on every
     * path out; redirections are followed only when it was on, and then the
     * verdict is taken on the path's last status.
     */
    method Run(client: OwnCloudClient, server: Server, checkUnauthorizedAccess: (int, nat) -> bool, bound: nat)
      returns (result: RemoteResult<bool>, ghost sent: Option<Request>, ghost run: RunResult,
               ghost hops: seq<HopRecord>, ghost status: Option<int>, ghost path: Option<RedirectionPath>,
               ghost last: Response)
      requires RepeatsBounded(checkUnauthorizedAccess, bound)
      modifies this`redirectionPath, client`credentials, client`requestCounter, client`followRedirects
      ensures client.followRedirects == old(client.followRedirects)
      ensures var url := RequestUrl(isUserLoggedIn, old(client.BaseFilesWebDavUri()), old(client.GetUserFilesWebDavUri()),
                                    remotePath);
        sent.None? <==> !IsHttpUrl(url)
      ensures sent.None? ==> result == OfException(MalformedUrl) && status.None? && path.None?
      ensures sent.Some? ==>
                sent.value.verb == PROPFIND(0) && sent.value.url == RequestUrl(isUserLoggedIn, old(client.BaseFilesWebDavUri()),
                                             old(client.GetUserFilesWebDavUri()), remotePath) &&
                sent.value.readTimeout == Some(Timeout(ExistenceTimeout, Seconds)) &&
                sent.value.connectTimeout == Some(Timeout(ExistenceTimeout, Seconds))
      ensures sent.Some? ==>
                run == old(client.RunFor(sent.value, false, false, server)) && client.credentials == run.final.credentials &&
                Judged(ClientEnv(client, run.final.credentials, server, checkUnauthorizedAccess), old(client.followRedirects),
                       run, hops, status, path, result, last)
      ensures redirectionPath == if path.Some? then path else old(redirectionPath)
    {
      var previousFollowRedirects := client.followRedirects;
      var requestUrl := RequestUrl(isUserLoggedIn, client.BaseFilesWebDavUri(), client.GetUserFilesWebDavUri(), remotePath);
      run := RunResult(Threw(MalformedUrl), [], LoopState([], false, client.credentials, client.requestCounter));
      if !IsHttpUrl(requestUrl) {
        return OfException(MalformedUrl), None, run, [], None, None, Response(0, [], None, []);
      }
      client.SetFollowRedirects(false);
      ghost var request;
      var followedPath;
      result, request, run, hops, status, followedPath, last := CheckFrom(client, server, requestUrl, previousFollowRedirects,
                                                                           checkUnauthorizedAccess, bound);
      sent, path := Some(request), followedPath;
      if followedPath.Some? {
        redirectionPath := followedPath;
      }
      client.SetFollowRedirects(previousFollowRedirects);
    }
  }
}
