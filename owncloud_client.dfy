/**
 * `OwnCloudClient`: the client every remote operation runs through. It owns
 * the server's base URI, the current credentials and the follow-redirects
 * switch, and executes a method with a bounded retry loop driven by a
 * pluggable connection validator.
 */
module Client {
  import opened Wrappers
  import opened Strings
  import opened Headers
  import opened Http
  import opened HttpMethods
  import opened Cookies

  const WebdavFilesPath := "/remote.php/dav/files/"
  const StatusPath := "/status.php"
  const MaxRetryCount := 2

  /**
   * What `ConnectionValidator.validate` decides: whether to repeat the
   * request, and the credentials the client holds afterwards (it may refresh
   * or drop them).
   */
  datatype Validation = Validation(retry: bool, credentials: Credentials)

  type Validator = Credentials -> Validation

  /** The value of the request-id header for the `n`-th request the client prepares. */
  function RequestId(n: nat): string {
    NatToString(n)
  }

  /** Distinct request numbers give distinct request ids. */
  lemma RequestIdFresh(a: nat, b: nat)
    requires a != b
    ensures RequestId(a) != RequestId(b)
  {
    if RequestId(a) == RequestId(b) {
      NatToStringInjective(a, b);
    }
  }

  /** `shouldConnectionValidatorBeCalled`. */
  predicate ShouldConnectionValidatorBeCalled(
    hasValidator: bool, credentials: Credentials, clientFollows: bool, methodFollows: bool, status: int): (call: bool)
    ensures call ==> hasValidator && (status == HttpUnauthorized || status == HttpMovedTemporarily)
    ensures call && status == HttpUnauthorized ==> !credentials.Anonymous?
  {
    hasValidator &&
    ((!credentials.Anonymous? && status == HttpUnauthorized) ||
     (!clientFollows && !methodFollows && status == HttpMovedTemporarily))
  }

  /** The headers of one attempt: fresh id, user agent, identity encoding, and the authorization if any. */
  function AttemptHeaders(hs: HeaderList, id: string, userAgent: string, c: Credentials): HeaderList {
    var traced := Set(Set(Set(hs, RequestIdHeader, id), UserAgentHeader, userAgent),
                      AcceptEncodingHeader, AcceptEncodingIdentity);
    if HeaderAuth(c) != "" then Set(traced, AuthorizationHeader, HeaderAuth(c)) else traced
  }

  lemma AttemptHeadersGet(hs: HeaderList, id: string, userAgent: string, c: Credentials)
    ensures var h := AttemptHeaders(hs, id, userAgent, c);
      Get(h, RequestIdHeader) == Some(id) &&
      Get(h, UserAgentHeader) == Some(userAgent) &&
      Get(h, AcceptEncodingHeader) == Some(AcceptEncodingIdentity) &&
      Get(h, AuthorizationHeader) ==
        (if HeaderAuth(c) != "" then Some(HeaderAuth(c)) else Get(hs, AuthorizationHeader))
  {
    var h1 := Set(hs, RequestIdHeader, id);
    var h2 := Set(h1, UserAgentHeader, userAgent);
    var h3 := Set(h2, AcceptEncodingHeader, AcceptEncodingIdentity);
    GetSet(hs, RequestIdHeader, id, RequestIdHeader);
    GetSet(h1, UserAgentHeader, userAgent, RequestIdHeader);
    GetSet(h2, AcceptEncodingHeader, AcceptEncodingIdentity, RequestIdHeader);
    GetSet(h1, UserAgentHeader, userAgent, UserAgentHeader);
    GetSet(h2, AcceptEncodingHeader, AcceptEncodingIdentity, UserAgentHeader);
    GetSet(h2, AcceptEncodingHeader, AcceptEncodingIdentity, AcceptEncodingHeader);
    GetSet(hs, RequestIdHeader, id, AuthorizationHeader);
    GetSet(h1, UserAgentHeader, userAgent, AuthorizationHeader);
    GetSet(h2, AcceptEncodingHeader, AcceptEncodingIdentity, AuthorizationHeader);
    if HeaderAuth(c) != "" {
      var a := HeaderAuth(c);
      GetSet(h3, AuthorizationHeader, a, RequestIdHeader);
      GetSet(h3, AuthorizationHeader, a, UserAgentHeader);
      GetSet(h3, AuthorizationHeader, a, AcceptEncodingHeader);
      GetSet(h3, AuthorizationHeader, a, AuthorizationHeader);
    }
  }

  /** The parts of an execution that stay fixed while the retry loop runs. */
  datatype ExecContext = ExecContext(
    verb: Verb,
    server: Server,
    validator: Option<Validator>,
    clientFollows: bool,
    followPermanentRedirects: bool,
    userAgent: string,
    url: string,
    retryOnConnectionFailure: bool,
    connectTimeout: Option<Timeout>,
    readTimeout: Option<Timeout>,
    body: Option<string>)

  /** The parts the loop changes: the method's headers and follow flag, the credentials and the id counter. */
  datatype LoopState = LoopState(headers: HeaderList, methodFollows: bool, credentials: Credentials, counter: nat)

  datatype Attempt = Attempt(request: Request, reply: Reply)

  datatype RunResult = RunResult(outcome: Outcome<int>, attempts: seq<Attempt>, final: LoopState)

  function AttemptRequest(ctx: ExecContext, st: LoopState): Request {
    Request(ctx.verb, ctx.url, AttemptHeaders(st.headers, RequestId(st.counter), ctx.userAgent, st.credentials),
            st.methodFollows, ctx.retryOnConnectionFailure, ctx.connectTimeout, ctx.readTimeout, ctx.body)
  }

  /** The state after an answered attempt: the validator's verdict, or the permanent-redirect rule. */
  function Decide(ctx: ExecContext, st: LoopState, status: int): (r: (bool, LoopState))
    ensures r.0 ==> ShouldConnectionValidatorBeCalled(ctx.validator.Some?, st.credentials, ctx.clientFollows,
                                                      st.methodFollows, status) ||
                    (ctx.followPermanentRedirects && status == HttpMovedPermanently && r.1.methodFollows)
    ensures r.1.headers == st.headers && r.1.counter == st.counter
    ensures r.1.methodFollows == st.methodFollows || r.1.methodFollows
  {
    if ShouldConnectionValidatorBeCalled(ctx.validator.Some?, st.credentials, ctx.clientFollows, st.methodFollows, status) then
      var v := ctx.validator.value(st.credentials);
      (v.retry, st.(credentials := v.credentials))
    else if ctx.followPermanentRedirects && status == HttpMovedPermanently then
      (true, st.(methodFollows := true))
    else
      (false, st)
  }

  /** One pass of the loop body: the attempt made, whether to go round again, and the state after it. */
  datatype Step = Step(attempt: Attempt, retry: bool, next: LoopState)

  function StepFrom(ctx: ExecContext, st: LoopState): (step: Step)
    ensures step.attempt.request == AttemptRequest(ctx, st) && step.attempt.reply == ctx.server(step.attempt.request)
    ensures step.retry ==> step.attempt.reply.Answered?
    ensures step.next.counter == st.counter + 1 && step.next.headers == step.attempt.request.headers
  {
    var req := AttemptRequest(ctx, st);
    var sent := st.(headers := req.headers, counter := st.counter + 1);
    match ctx.server(req)
    case Failed(e) => Step(Attempt(req, Failed(e)), false, sent)
    case Answered(r) =>
      var (retry, next) := Decide(ctx, sent, r.status);
      Step(Attempt(req, Answered(r)), retry, next)
  }

  /** The parts of one pass, spelled out. */
  lemma StepFromParts(ctx: ExecContext, st: LoopState)
    ensures var req := AttemptRequest(ctx, st);
      var sent := st.(headers := req.headers, counter := st.counter + 1);
      var step := StepFrom(ctx, st);
      && step.attempt == Attempt(req, ctx.server(req))
      && (ctx.server(req).Failed? ==> !step.retry && step.next == sent)
      && (ctx.server(req).Answered? ==> (step.retry, step.next) == Decide(ctx, sent, ctx.server(req).response.status))
  {
  }

  /** What `execute` did for an attempt: returned the status or threw. */
  function AttemptOutcome(a: Attempt): Outcome<int> {
    match a.reply
    case Answered(r) => Returned(r.status)
    case Failed(e) => Threw(e)
  }

  /**
   * The retry loop of `saveExecuteHttpMethod` from the attempt numbered
   * `repeat` (counting from 0): prepare and send one request, stop on a
   * transport failure, otherwise decide and go round again while a retry is
   * asked for and attempts remain.
   */
  function Run(ctx: ExecContext, st: LoopState, repeat: nat): RunResult
    requires repeat < MaxRetryCount
    decreases MaxRetryCount - repeat
  {
    var step := StepFrom(ctx, st);
    if step.retry && repeat + 1 < MaxRetryCount then
      Prepend([step.attempt], Run(ctx, step.next, repeat + 1))
    else
      RunResult(AttemptOutcome(step.attempt), [step.attempt], step.next)
  }

  /** The URLs a registered redirect-chain handler records for a sequence of attempts. */
  function Hops(attempts: seq<Attempt>): seq<string> {
    if attempts == [] then []
    else
      (match attempts[0].reply
       case Answered(r) => r.hops
       case Failed(_) => [attempts[0].request.url]) + Hops(attempts[1..])
  }

  /** The response left on the method after the attempts: the last one answered, or the earlier one. */
  function LastResponse(attempts: seq<Attempt>, before: Option<Response>): Option<Response> {
    if attempts == [] then before
    else
      var last := attempts[|attempts| - 1];
      if last.reply.Answered? then Some(last.reply.response)
      else LastResponse(attempts[..|attempts| - 1], before)
  }

  function Prepend(done: seq<Attempt>, r: RunResult): RunResult {
    r.(attempts := done + r.attempts)
  }

  /** The loop makes at least one and at most `MaxRetryCount` attempts. */
  lemma {:induction false} RunAttemptsBounded(ctx: ExecContext, st: LoopState, repeat: nat)
    requires repeat < MaxRetryCount
    ensures 1 <= |Run(ctx, st, repeat).attempts| <= MaxRetryCount - repeat
    decreases MaxRetryCount - repeat
  {
    var step := StepFrom(ctx, st);
    if step.retry && repeat + 1 < MaxRetryCount {
      RunAttemptsBounded(ctx, step.next, repeat + 1);
    }
  }

  /** A single pass sets the tracing headers and advances the request counter by one. */
  lemma StepHeaders(ctx: ExecContext, st: LoopState)
    ensures var step := StepFrom(ctx, st);
      var h := step.attempt.request.headers;
      Get(h, RequestIdHeader) == Some(RequestId(st.counter)) &&
      Get(h, UserAgentHeader) == Some(ctx.userAgent) &&
      Get(h, AcceptEncodingHeader) == Some(AcceptEncodingIdentity) &&
      Get(h, AuthorizationHeader) ==
        (if HeaderAuth(st.credentials) != "" then Some(HeaderAuth(st.credentials)) else Get(st.headers, AuthorizationHeader)) &&
      step.next.counter == st.counter + 1
  {
    AttemptHeadersGet(st.headers, RequestId(st.counter), ctx.userAgent, st.credentials);
  }

  /**
   * Every attempt carries a fresh request id (the counter advances by one per
   * attempt), the user agent and identity encoding.
   */
  lemma {:induction false} RunAttemptHeaders(ctx: ExecContext, st: LoopState, repeat: nat, i: nat)
    requires repeat < MaxRetryCount
    requires i < |Run(ctx, st, repeat).attempts|
    ensures var h := Run(ctx, st, repeat).attempts[i].request.headers;
      Get(h, RequestIdHeader) == Some(RequestId(st.counter + i)) &&
      Get(h, UserAgentHeader) == Some(ctx.userAgent) &&
      Get(h, AcceptEncodingHeader) == Some(AcceptEncodingIdentity)
    decreases MaxRetryCount - repeat
  {
    var step := StepFrom(ctx, st);
    StepHeaders(ctx, st);
    if i == 0 {
      assert Run(ctx, st, repeat).attempts[0] == step.attempt;
    } else {
      assert step.retry && repeat + 1 < MaxRetryCount;
      var rest := Run(ctx, step.next, repeat + 1);
      assert Run(ctx, st, repeat).attempts == [step.attempt] + rest.attempts;
      RunAttemptHeaders(ctx, step.next, repeat + 1, i - 1);
      assert Run(ctx, st, repeat).attempts[i] == rest.attempts[i - 1];
      assert step.next.counter + (i - 1) == st.counter + i;
    }
  }

  /** No two attempts of one execution share a request id. */
  lemma RunRequestIdsDistinct(ctx: ExecContext, st: LoopState, i: nat, j: nat)
    requires i < j < |Run(ctx, st, 0).attempts|
    ensures Get(Run(ctx, st, 0).attempts[i].request.headers, RequestIdHeader) !=
            Get(Run(ctx, st, 0).attempts[j].request.headers, RequestIdHeader)
  {
    RunAttemptHeaders(ctx, st, 0, i);
    RunAttemptHeaders(ctx, st, 0, j);
    RequestIdFresh(st.counter + i, st.counter + j);
  }

  /**
   * The call returns the status of the last attempt, or throws what the last
   * attempt threw; every earlier attempt was answered.
   */
  lemma {:induction false} RunOutcomeIsLastAttempt(ctx: ExecContext, st: LoopState, repeat: nat)
    requires repeat < MaxRetryCount
    ensures var res := Run(ctx, st, repeat);
      |res.attempts| >= 1 &&
      (forall k :: 0 <= k < |res.attempts| - 1 ==> res.attempts[k].reply.Answered?) &&
      res.outcome == AttemptOutcome(res.attempts[|res.attempts| - 1])
    decreases MaxRetryCount - repeat
  {
    var step := StepFrom(ctx, st);
    if step.retry && repeat + 1 < MaxRetryCount {
      RunOutcomeIsLastAttempt(ctx, step.next, repeat + 1);
      var rest := Run(ctx, step.next, repeat + 1);
      assert Run(ctx, st, repeat).attempts == [step.attempt] + rest.attempts;
    }
  }

  /**
   * A second attempt happens only for a reason: the validator was consulted
   * on the first status and asked for it, or the first status was 301 with
   * permanent-redirect following on, in which case the second request
   * follows redirects.
   */
  lemma RunRetryReason(ctx: ExecContext, st: LoopState)
    requires |Run(ctx, st, 0).attempts| == 2
    ensures var res := Run(ctx, st, 0);
      var status := res.attempts[0].reply.response.status;
      res.attempts[0].reply.Answered? &&
      ((ShouldConnectionValidatorBeCalled(ctx.validator.Some?, st.credentials, ctx.clientFollows, st.methodFollows, status) &&
        ctx.validator.value(st.credentials).retry) ||
       (!ShouldConnectionValidatorBeCalled(ctx.validator.Some?, st.credentials, ctx.clientFollows, st.methodFollows, status) &&
        ctx.followPermanentRedirects && status == HttpMovedPermanently &&
        res.attempts[1].request.followRedirects))
  {
    var step := StepFrom(ctx, st);
    assert step.retry;
    var rest := Run(ctx, step.next, 1);
    assert Run(ctx, st, 0).attempts == [step.attempt] + rest.attempts;
    assert rest.attempts[0] == StepFrom(ctx, step.next).attempt;
  }

  /** Without a validator and without permanent-redirect following there is exactly one attempt. */
  lemma RunSingleAttempt(ctx: ExecContext, st: LoopState)
    requires ctx.validator.None? && !ctx.followPermanentRedirects
    ensures |Run(ctx, st, 0).attempts| == 1
  {
    assert !StepFrom(ctx, st).retry;
  }

  /** When the method follows redirects at the start, every request of the execution asks the transport to follow them. */
  lemma {:induction false} RunFollowsRedirects(ctx: ExecContext, st: LoopState, repeat: nat, i: nat)
    requires repeat < MaxRetryCount
    requires st.methodFollows
    requires i < |Run(ctx, st, repeat).attempts|
    ensures Run(ctx, st, repeat).attempts[i].request.followRedirects
    decreases MaxRetryCount - repeat
  {
    var step := StepFrom(ctx, st);
    if i > 0 {
      assert step.retry && repeat + 1 < MaxRetryCount;
      var rest := Run(ctx, step.next, repeat + 1);
      assert Run(ctx, st, repeat).attempts == [step.attempt] + rest.attempts;
      RunFollowsRedirects(ctx, step.next, repeat + 1, i - 1);
    }
  }

  /** The path part of the user-files WebDAV URI: the files root, followed by the user id when there is a user. */
  function UserFilesPath(credentials: Credentials, userId: Option<string>): string {
    if credentials.Anonymous? || userId.None? then WebdavFilesPath else WebdavFilesPath + userId.value
  }

  /** `Uri.parse(baseUri + WEBDAV_FILES_PATH_4_0 [+ userId])`. */
  function UserFilesWebDavUri(baseUri: string, credentials: Credentials, userId: Option<string>): (r: string)
    ensures r == baseUri + UserFilesPath(credentials, userId)
    ensures StartsWith(r, baseUri + WebdavFilesPath)
    ensures credentials.Anonymous? || userId.None? ==> r == baseUri + WebdavFilesPath
    ensures !credentials.Anonymous? && userId.Some? ==> r[|baseUri + WebdavFilesPath|..] == userId.value
  {
    if credentials.Anonymous? || userId.None? then baseUri + WebdavFilesPath
    else baseUri + WebdavFilesPath + userId.value
  }

  class OwnCloudClient {
    var baseUri: string
    var credentials: Credentials
    /** The user id of the client's account; `None` when the client has no account. */
    var userId: Option<string>
    var followRedirects: bool
    var validator: Option<Validator>
    var userAgent: string
    /** The number of requests prepared so far, the source of fresh request ids. */
    var requestCounter: nat
    /** The process-wide cookie store of `HttpClient`. */
    var cookieStore: CookieStore

    /**
     * The constructor for a non-null base URI (a null one throws
     * `IllegalArgumentException`; see `NewClient`). The client starts
     * anonymous, without redirect following, and empties the shared cookie store.
     */
    constructor (uri: string, v: Option<Validator>, agent: string, store: CookieStore)
      modifies store
      ensures baseUri == uri && validator == v && userAgent == agent
      ensures credentials == Anonymous && userId.None? && !followRedirects
      ensures cookieStore == store && store.store == map[]
    {
      baseUri := uri;
      validator := v;
      userAgent := agent;
      userId := None;
      followRedirects := false;
      requestCounter := 0;
      cookieStore := store;
      credentials := Anonymous;
      store.Clear();
    }

    /** `clearCredentials`: anonymous credentials afterwards, whatever came before. */
    method ClearCredentials()
      modifies this`credentials
      ensures credentials == Anonymous
    {
      if !credentials.Anonymous? {
        credentials := Anonymous;
      }
    }

    /** `setCredentials`: null is the same as `clearCredentials`. */
    method SetCredentials(c: Option<Credentials>)
      modifies this`credentials
      ensures credentials == if c.Some? then c.value else Anonymous
    {
      if c.Some? {
        credentials := c.value;
      } else {
        ClearCredentials();
      }
    }

    /** `setBaseUri`: a null URI throws and leaves the base URI alone. */
    method SetBaseUri(uri: Option<string>) returns (thrown: Option<Exception>)
      modifies this`baseUri
      ensures uri.None? ==> thrown == Some(IllegalArgument("URI cannot be NULL")) && baseUri == old(baseUri)
      ensures uri.Some? ==> thrown.None? && baseUri == uri.value
    {
      if uri.None? {
        return Some(IllegalArgument("URI cannot be NULL"));
      }
      baseUri := uri.value;
      thrown := None;
    }

    method SetFollowRedirects(b: bool)
      modifies this`followRedirects
      ensures followRedirects == b
    {
      followRedirects := b;
    }

    method SetUserId(id: Option<string>)
      modifies this`userId
      ensures userId == id
    {
      userId := id;
    }

    function BaseFilesWebDavUri(): string
      reads this
    {
      baseUri + WebdavFilesPath
    }

    function GetUserFilesWebDavUri(): (r: string)
      reads this`baseUri, this`credentials, this`userId
      ensures StartsWith(r, baseUri + WebdavFilesPath)
      ensures credentials.Anonymous? || userId.None? ==> r == baseUri + WebdavFilesPath
    {
      UserFilesWebDavUri(baseUri, credentials, userId)
    }

    /** `exhaustResponse`: closes the body stream of the method's response, if it has one. */
    method ExhaustResponse(m: HttpMethod)
      requires m.response.Some?
      modifies m`bodyOpen
      ensures !m.bodyOpen
      ensures m.url == old(m.url) && m.requestHeaders == old(m.requestHeaders) && m.followRedirects == old(m.followRedirects)
      ensures m.Options() == old(m.Options()) && m.response == old(m.response)
      ensures m.redirectChainHandler == old(m.redirectChainHandler)
    {
      m.CloseResponseBody();
    }

    /** `RandomUtils.generateRandomUUID`, modelled as the rendering of the next request number. */
    method NextRequestId() returns (id: string)
      modifies this`requestCounter
      ensures id == RequestId(old(requestCounter)) && requestCounter == old(requestCounter) + 1
    {
      id := RequestId(requestCounter);
      requestCounter := requestCounter + 1;
    }

    /** The header preparation at the top of each attempt. */
    method PrepareAttempt(m: HttpMethod)
      modifies this`requestCounter, m
      ensures requestCounter == old(requestCounter) + 1
      ensures m.requestHeaders == AttemptHeaders(old(m.requestHeaders), RequestId(old(requestCounter)), userAgent, credentials)
      ensures m.url == old(m.url) && m.followRedirects == old(m.followRedirects) && m.Options() == old(m.Options())
      ensures m.response == old(m.response) && m.bodyOpen == old(m.bodyOpen)
      ensures m.redirectChainHandler == old(m.redirectChainHandler)
    {
      var requestId := NextRequestId();
      m.SetRequestHeader(RequestIdHeader, requestId);
      m.SetRequestHeader(UserAgentHeader, userAgent);
      m.SetRequestHeader(AcceptEncodingHeader, AcceptEncodingIdentity);
      if HeaderAuth(credentials) != "" {
        m.SetRequestHeader(AuthorizationHeader, HeaderAuth(credentials));
      }
    }

    /** The fixed part of an execution of `m` starting now. */
    function ContextFor(m: HttpMethod, server: Server): ExecContext
      reads this, m
    {
      ExecContext(m.verb, server, validator, followRedirects, m.followPermanentRedirects, userAgent, m.url,
                  m.retryOnConnectionFailure,
                  EffectiveTimeout(m.connectionTimeoutVal, m.connectionTimeoutUnit),
                  EffectiveTimeout(m.readTimeoutVal, m.readTimeoutUnit), m.requestBody)
    }

    /** The loop state at the start of an execution of `m`, after the client's follow flag is applied. */
    function StartState(m: HttpMethod): LoopState
      reads this, m
    {
      LoopState(m.requestHeaders, m.followRedirects || followRedirects, credentials, requestCounter)
    }

    /**
     * The specified execution of a freshly built method that sends `req`,
     * started now with the client's follow switch at `follows` and the
     * method's permanent-redirect switch at `permanent`.
     */
    ghost function RunFor(req: Request, follows: bool, permanent: bool, server: Server): RunResult
      reads this`validator, this`userAgent, this`credentials, this`requestCounter
    {
      Run(ExecContext(req.verb, server, validator, follows, permanent, userAgent, req.url, req.retryOnConnectionFailure,
                      req.connectTimeout, req.readTimeout, req.body),
          LoopState(req.headers, req.followRedirects || follows, credentials, requestCounter), 0)
    }

    /** Executing `m` now is the specified execution of the request `m` would send. */
    lemma RunForMethod(m: HttpMethod, server: Server)
      ensures RunFor(m.RequestToSend(), followRedirects, m.followPermanentRedirects, server) ==
              Run(ContextFor(m, server), StartState(m), 0)
    {
    }

    /** The loop state of an execution of `m` as it stands. */
    function CurrentState(m: HttpMethod): LoopState
      reads this, m
    {
      LoopState(m.requestHeaders, m.followRedirects, credentials, requestCounter)
    }

    /** The decision after an answered attempt: consult the validator, or apply the permanent-redirect rule. */
    method DecideRetry(m: HttpMethod, status: int, ghost ctx: ExecContext) returns (retry: bool)
      requires ContextFor(m, server := ctx.server) == ctx
      modifies this`credentials, m`followRedirects
      ensures (retry, CurrentState(m)) == Decide(ctx, old(CurrentState(m)), status)
    {
      retry := false;
      if ShouldConnectionValidatorBeCalled(validator.Some?, credentials, followRedirects, m.followRedirects, status) {
        var verdict := validator.value(credentials);
        retry := verdict.retry;
        credentials := verdict.credentials;
      } else if m.followPermanentRedirects && status == HttpMovedPermanently {
        retry := true;
        m.followRedirects := true;
      }
    }

    /** The header preparation and the execution of one attempt. */
    method SendAttempt(m: HttpMethod, server: Server, ghost ctx: ExecContext) returns (executed: Outcome<int>)
      requires ContextFor(m, server) == ctx
      modifies this`requestCounter, m, m.redirectChainHandler
      ensures m.redirectChainHandler == old(m.redirectChainHandler)
      ensures var req := AttemptRequest(ctx, old(CurrentState(m)));
        executed == AttemptOutcome(Attempt(req, server(req))) &&
        CurrentState(m) == old(CurrentState(m)).(headers := req.headers, counter := old(requestCounter) + 1) &&
        m.response == LastResponse([Attempt(req, server(req))], old(m.response)) &&
        m.bodyOpen == BodyOpenAfter([Attempt(req, server(req))], old(m.bodyOpen)) &&
        (m.redirectChainHandler != null ==>
           m.redirectChainHandler.chain == old(m.redirectChainHandler.chain) + Hops([Attempt(req, server(req))]))
      ensures m.url == old(m.url) && m.Options() == old(m.Options())
    {
      ghost var req := AttemptRequest(ctx, CurrentState(m));
      PrepareAttempt(m);
      assert m.RequestToSend() == req;
      executed := m.Execute(server);
      BodyOpenAppend([], Attempt(req, server(req)), old(m.bodyOpen));
      assert [] + [Attempt(req, server(req))] == [Attempt(req, server(req))];
    }

    /** One pass of the do-while body of `saveExecuteHttpMethod`, as `StepFrom` describes it. */
    method RunAttempt(m: HttpMethod, server: Server, ghost ctx: ExecContext)
      returns (executed: Outcome<int>, retry: bool, ghost step: Step)
      requires ContextFor(m, server) == ctx
      modifies this`credentials, this`requestCounter, m, m.redirectChainHandler
      ensures m.redirectChainHandler == old(m.redirectChainHandler)
      ensures step == StepFrom(ctx, old(CurrentState(m)))
      ensures executed == AttemptOutcome(step.attempt) && retry == step.retry && CurrentState(m) == step.next
      ensures m.response == LastResponse([step.attempt], old(m.response))
      ensures m.bodyOpen == BodyOpenAfter([step.attempt], old(m.bodyOpen))
      ensures m.redirectChainHandler != null ==>
                m.redirectChainHandler.chain == old(m.redirectChainHandler.chain) + Hops([step.attempt])
      ensures ContextFor(m, server) == ctx && m.Options() == old(m.Options())
    {
      ghost var st0 := CurrentState(m);
      ghost var req := AttemptRequest(ctx, st0);
      step := StepFrom(ctx, st0);
      StepFromParts(ctx, st0);
      executed := SendAttempt(m, server, ctx);
      ghost var sent := st0.(headers := req.headers, counter := st0.counter + 1);
      assert CurrentState(m) == sent;
      retry := false;
      if executed.Returned? {
        retry := DecideRetry(m, executed.value, ctx);
      }
    }

    /**
     * The loop of `saveExecuteHttpMethod` after the attempts `done`: the
     * remaining attempts from the current state complete the run `target`,
     * and the method's response and the handler's chain reflect `done`.
     */
    ghost predicate Progress(m: HttpMethod, ctx: ExecContext, target: RunResult, done: seq<Attempt>, repeat: nat,
                             response0: Option<Response>, open0: bool, chain0: seq<string>)
      reads this, m, m.redirectChainHandler
    {
      repeat < MaxRetryCount &&
      Prepend(done, Run(ctx, CurrentState(m), repeat)) == target &&
      m.response == LastResponse(done, response0) && m.bodyOpen == BodyOpenAfter(done, open0) &&
      (m.redirectChainHandler != null ==> m.redirectChainHandler.chain == chain0 + Hops(done))
    }

    /** One round of the loop: the attempt is made and either the run is complete or the loop goes on. */
    method RetryRound(m: HttpMethod, server: Server, repeat: nat, ghost ctx: ExecContext, ghost target: RunResult,
                      ghost done: seq<Attempt>, ghost response0: Option<Response>, ghost open0: bool,
                      ghost chain0: seq<string>)
      returns (executed: Outcome<int>, again: bool, ghost done': seq<Attempt>)
      requires ContextFor(m, server) == ctx
      requires Progress(m, ctx, target, done, repeat, response0, open0, chain0)
      modifies this`credentials, this`requestCounter, m, m.redirectChainHandler
      ensures m.redirectChainHandler == old(m.redirectChainHandler)
      ensures ContextFor(m, server) == ctx && m.Options() == old(m.Options())
      ensures again ==> Progress(m, ctx, target, done', repeat + 1, response0, open0, chain0)
      ensures !again ==>
        target == RunResult(executed, done', CurrentState(m)) &&
        m.response == LastResponse(done', response0) && m.bodyOpen == BodyOpenAfter(done', open0) &&
        (m.redirectChainHandler != null ==> m.redirectChainHandler.chain == chain0 + Hops(done'))
    {
      ghost var rest := Run(ctx, CurrentState(m), repeat);
      ghost var handler := m.redirectChainHandler;
      ghost var chain1 := if handler != null then handler.chain else [];
      var retry;
      ghost var step;
      executed, retry, step := RunAttempt(m, server, ctx);
      assert handler != null ==> handler.chain == chain1 + Hops([step.attempt]);
      LastResponseAppend(done, step.attempt, response0);
      BodyOpenStep(done, step.attempt, open0);
      ChainAppend(chain0, done, step.attempt);
      PrependAssoc(done, step.attempt, rest);
      done' := done + [step.attempt];
      again := retry && repeat + 1 < MaxRetryCount;
    }

    /**
     * The retry loop of `saveExecuteHttpMethod`, entered with no attempt made
     * yet: the rounds it runs make up the whole of the specified `target`.
     */
    method RetryLoop(m: HttpMethod, server: Server, ghost ctx: ExecContext, ghost target: RunResult,
                     ghost response0: Option<Response>, ghost open0: bool, ghost chain0: seq<string>)
      returns (out: Outcome<int>, ghost done: seq<Attempt>)
      requires ContextFor(m, server) == ctx
      requires Progress(m, ctx, target, [], 0, response0, open0, chain0)
      modifies this`credentials, this`requestCounter, m, m.redirectChainHandler
      ensures m.redirectChainHandler == old(m.redirectChainHandler)
      ensures m.url == old(m.url) && m.Options() == old(m.Options())
      ensures target == RunResult(out, done, CurrentState(m))
      ensures m.response == LastResponse(done, response0) && m.bodyOpen == BodyOpenAfter(done, open0)
      ensures m.redirectChainHandler != null ==> m.redirectChainHandler.chain == chain0 + Hops(done)
    {
      done := [];
      var repeatCounter := 0;
      while true
        invariant ContextFor(m, server) == ctx && m.url == old(m.url) && m.Options() == old(m.Options())
        invariant m.redirectChainHandler == old(m.redirectChainHandler)
        invariant Progress(m, ctx, target, done, repeatCounter, response0, open0, chain0)
        decreases MaxRetryCount - repeatCounter
      {
        var executed, again;
        executed, again, done := RetryRound(m, server, repeatCounter, ctx, target, done, response0, open0, chain0);
        if !again {
          return executed, done;
        }
        repeatCounter := repeatCounter + 1;
      }
    }

    /**
     * `saveExecuteHttpMethod` (the body of `executeHttpMethod`): the attempts,
     * the returned status or thrown exception, and the final headers, follow
     * flag, credentials and counter are those of `Run`.
     */
    method SaveExecuteHttpMethod(m: HttpMethod, server: Server) returns (out: Outcome<int>)
      modifies this`credentials, this`requestCounter, m, m.redirectChainHandler
      ensures m.redirectChainHandler == old(m.redirectChainHandler)
      ensures var res := Run(old(ContextFor(m, server)), old(StartState(m)), 0);
        out == res.outcome && CurrentState(m) == res.final &&
        m.response == LastResponse(res.attempts, old(m.response)) && m.bodyOpen == BodyOpenAfter(res.attempts, old(m.bodyOpen)) &&
        (m.redirectChainHandler != null ==>
           m.redirectChainHandler.chain == old(m.redirectChainHandler.chain) + Hops(res.attempts))
      ensures m.url == old(m.url) && m.Options() == old(m.Options())
    {
      ghost var ctx := ContextFor(m, server);
      ghost var start := StartState(m);
      ghost var target := Run(ctx, start, 0);
      ghost var chain0 := if m.redirectChainHandler != null then m.redirectChainHandler.chain else [];
      ghost var response0, open0 := m.response, m.bodyOpen;
      if followRedirects {
        m.SetFollowRedirects(true);
      }
      assert CurrentState(m) == start;
      assert Prepend([], target) == target by {
        assert [] + target.attempts == target.attempts;
      }
      ghost var done;
      out, done := RetryLoop(m, server, ctx, target, response0, open0, chain0);
    }

    /**
     * `executeHttpMethod` without its lock: the execution as
     * `saveExecuteHttpMethod` does it, so the outcome, the final state, the
     * response and the handler's chain are those of `Run`. A returned status
     * is the status of the response left on the method.
     */
    method ExecuteHttpMethod(m: HttpMethod, server: Server) returns (out: Outcome<int>)
      modifies this`credentials, this`requestCounter, m, m.redirectChainHandler
      ensures m.redirectChainHandler == old(m.redirectChainHandler)
      ensures var res := Run(old(ContextFor(m, server)), old(StartState(m)), 0);
        out == res.outcome && CurrentState(m) == res.final &&
        m.response == LastResponse(res.attempts, old(m.response)) && m.bodyOpen == BodyOpenAfter(res.attempts, old(m.bodyOpen)) &&
        (m.redirectChainHandler != null ==>
           m.redirectChainHandler.chain == old(m.redirectChainHandler.chain) + Hops(res.attempts))
      ensures out.Returned? ==> m.response.Some? && m.response.value.status == out.value
      ensures m.url == old(m.url) && m.Options() == old(m.Options())
    {
      ghost var res := Run(ContextFor(m, server), StartState(m), 0);
      RunOutcomeIsLastAttempt(ContextFor(m, server), StartState(m), 0);
      out := SaveExecuteHttpMethod(m, server);
    }
  }

  lemma PrependAssoc(done: seq<Attempt>, a: Attempt, r: RunResult)
    ensures Prepend(done, Prepend([a], r)) == Prepend(done + [a], r)
  {
    assert done + ([a] + r.attempts) == (done + [a]) + r.attempts;
  }

  /** A method that had a response keeps having one, whatever the attempts. */
  lemma {:induction false} LastResponseSome(attempts: seq<Attempt>, before: Option<Response>)
    requires before.Some?
    ensures LastResponse(attempts, before).Some?
  {
    if attempts != [] && attempts[|attempts| - 1].reply.Failed? {
      LastResponseSome(attempts[..|attempts| - 1], before);
    }
  }

  lemma LastResponseAppend(done: seq<Attempt>, a: Attempt, before: Option<Response>)
    ensures LastResponse(done + [a], before) ==
              if a.reply.Answered? then Some(a.reply.response) else LastResponse(done, before)
  {
    assert (done + [a])[..|done|] == done;
  }

  /** The method's response body stream is open after the attempts, given whether it was open before. */
  function BodyOpenAfter(attempts: seq<Attempt>, before: bool): bool {
    match LastResponse(attempts, None)
    case Some(r) => r.body.Some?
    case None => before
  }

  lemma BodyOpenAppend(done: seq<Attempt>, a: Attempt, before: bool)
    ensures BodyOpenAfter(done + [a], before) ==
              if a.reply.Answered? then a.reply.response.body.Some? else BodyOpenAfter(done, before)
  {
    LastResponseAppend(done, a, None);
  }

  /** One more attempt after `done` leaves the stream as that attempt alone leaves it. */
  lemma BodyOpenStep(done: seq<Attempt>, a: Attempt, open0: bool)
    ensures BodyOpenAfter([a], BodyOpenAfter(done, open0)) == BodyOpenAfter(done + [a], open0)
  {
    BodyOpenAppend(done, a, open0);
    BodyOpenAppend([], a, BodyOpenAfter(done, open0));
    assert [] + [a] == [a];
  }

  lemma ChainAppend(chain0: seq<string>, done: seq<Attempt>, a: Attempt)
    ensures (chain0 + Hops(done)) + Hops([a]) == chain0 + Hops(done + [a])
  {
    HopsAppend(done, a);
  }

  lemma {:induction false} HopsAppend(done: seq<Attempt>, a: Attempt)
    ensures Hops(done + [a]) == Hops(done) + Hops([a])
  {
    if done != [] {
      assert (done + [a])[1..] == done[1..] + [a];
      HopsAppend(done[1..], a);
    } else {
      assert done + [a] == [a];
    }
  }

  /**
   * `OwnCloudClient(baseUri, …)`: a null base URI throws
   * `IllegalArgumentException`; otherwise a fresh anonymous client on that URI.
   */
  method NewClient(uri: Option<string>, v: Option<Validator>, agent: string, store: CookieStore)
    returns (r: Outcome<OwnCloudClient>)
    modifies store
    ensures uri.None? <==> r.Threw?
    ensures r.Threw? ==> r.exception == IllegalArgument("Parameter 'baseUri' cannot be NULL") && store.store == old(store.store)
    ensures r.Returned? ==> fresh(r.value) && r.value.baseUri == uri.value && r.value.credentials == Anonymous &&
                            r.value.cookieStore == store && store.store == map[]
  {
    if uri.None? {
      return Threw(IllegalArgument("Parameter 'baseUri' cannot be NULL"));
    }
    var c := new OwnCloudClient(uri.value, v, agent, store);
    r := Returned(c);
  }
}
