# ownCloud Android library: request engine, operations and models in Dafny

This project models the core of the ownCloud Android library, the layer an
Android app uses to talk to an ownCloud server over WebDAV and the OCS
sharing API, and proves properties of that model.

What is modelled:

- **The client** (`Client`, owncloud_client.dfy): `OwnCloudClient` as a class
  with its base URI, credentials, account and redirect flag. Its
  `saveExecuteHttpMethod` loop makes at most two attempts. It re-sends the
  request when the connection validator, consulted on a 401 with
  credentials or on a 302 that is not being followed, asks for a retry, or
  when a 301 arrives for a method that follows permanent redirects. The loop
  is proved against a specification function `Run` that counts attempts and
  tracks responses.
- **The HTTP method** (`HttpMethods`, http_base_method.dfy): `HttpBaseMethod`
  as a class holding its URL, its request header list, its time-outs and its
  optional redirect-chain handler. Adding a header appends, setting one
  replaces every earlier value, and executing applies the handler.
- **Headers** (`Headers`, headers.dfy): the header list with case-insensitive
  names, as OkHttp keeps it.
- **Redirect chain** (`RedirectChain`, redirect_chain_handler.dfy): the
  network interceptor that records the URL of each request in the chain, and
  the flag that tells whether the chain mixed https and http URLs.
- **Redirection** (`Redirection`, redirection_manager.dfy): the
  `RedirectionManager` loop, which follows up to 3 redirects (301, 302 or
  307). Each hop rebuilds the `Destination` header by searching the new
  location for the client's whole user-files URI, as the code does, and
  re-sends the request. The rebuild throws for a location on another host
  (see "## Findings").
- **Cookies** (`Cookies`, cookie_jar.dfy): the cookie jar of `HttpClient`,
  keyed by host.
- **Operations**: the operations the app runs against a server:
  - `CopyRemoteFileOperation`, `CheckPathExistenceRemoteOperation`,
    `StatusRequester`, `GetRemoteStatusOperation` and
    `OwnCloudServerCheckOperation`;
  - `UpdateRemoteShareOperation` and `CreateRemoteShareOperation`, with the
    parser that turns an OCS reply into a result;
  - `FileUtils`' path checks.
- **Models**: `RemoteFile` (built from WebDAV properties),
  `CapabilityResponse` (turned into `RemoteCapability`) and the account helpers
  of `AccountUtils`.
- **Shared pieces**:
  - `Wrappers` holds `Option`.
  - `Strings` holds the Java/Kotlin string functions the code relies on
    (`indexOf`, `lastIndexOf`, `split` and `replace`).
  - `Http` holds requests, responses and the outcome of a call, which either
    returns a value or throws an exception.
  - `Results` holds `RemoteOperationResult`.

The network is a parameter. A `Server` is a function from a request to a
reply, or to a transport failure. Parsers, validators and Android's `Uri`
accessors are function parameters too.

Two behaviours of the code that the model keeps as they are:

- A redirect reply without a `Location` header ends the redirect loop. The
  final status is that reply's, and nothing is appended to the redirection
  path.
- `CreateRemoteShareOperation` hands a reply of any status to the share
  parser, not only a 200 reply.

## Model

| member | source | states |
|---|---|---|
| Client.RequestIdFresh | owncloudComLibrary/src/main/java/com/owncloud/android/lib/common/OwnCloudClient.java:125 | two different values of the request counter render two different request ids (the counter stands in for the random UUID) |
| Client.AttemptHeadersGet | owncloudComLibrary/src/main/java/com/owncloud/android/lib/common/OwnCloudClient.java:129-134 | after an attempt's header preparation, reading back the request id, user agent and Accept-Encoding gives the values just set, and Authorization holds the credentials' header when it is non-empty and keeps its earlier value otherwise |
| Client.StepHeaders | owncloudComLibrary/src/main/java/com/owncloud/android/lib/common/OwnCloudClient.java:123-134 | one pass of the retry loop sets the tracing headers and moves the request counter on by exactly one |
| Client.RunAttemptsBounded | owncloudComLibrary/src/main/java/com/owncloud/android/lib/common/OwnCloudClient.java:122-145 | the do-while loop makes at least one attempt and never more than MAX_RETRY_COUNT |
| Client.RunAttemptHeaders | owncloudComLibrary/src/main/java/com/owncloud/android/lib/common/OwnCloudClient.java:122-134 | every attempt is sent with a request id built from its own counter value, the session user agent and the identity encoding |
| Client.RunRequestIdsDistinct | owncloudComLibrary/src/main/java/com/owncloud/android/lib/common/OwnCloudClient.java:122-129 | the attempts of one execution take distinct counter values, so no two of them carry the same request id |
| Client.RunOutcomeIsLastAttempt | owncloudComLibrary/src/main/java/com/owncloud/android/lib/common/OwnCloudClient.java:122-147 | the execution returns the status of its last attempt, or throws what that attempt threw, and every earlier attempt got an answer |
| Client.RunRetryReason | owncloudComLibrary/src/main/java/com/owncloud/android/lib/common/OwnCloudClient.java:138-145 | a second attempt happens only when the validator was consulted and asked for a retry, or when the first answer was 301 with permanent-redirect following on, and then the second request follows redirects |
| Client.RunSingleAttempt | owncloudComLibrary/src/main/java/com/owncloud/android/lib/common/OwnCloudClient.java:138-159 | with no connection validator and no permanent-redirect following, exactly one attempt is made |
| Client.RunFollowsRedirects | owncloudComLibrary/src/main/java/com/owncloud/android/lib/common/OwnCloudClient.java:117-119 | once the method follows redirects at the start, every request of the execution asks the transport to follow them |
| Client.UserFilesWebDavUri | owncloudComLibrary/src/main/java/com/owncloud/android/lib/common/OwnCloudClient.java:182-189 | the user-files URI starts with the base URI and the files path, and ends with the user id exactly when the client has non-anonymous credentials and an account |
| Client.OwnCloudClient.GetUserFilesWebDavUri | owncloudComLibrary/src/main/java/com/owncloud/android/lib/common/OwnCloudClient.java:182-189 | the user-files URI starts with the base URI and the files path, and is exactly that for anonymous credentials or a client without account |
| Client.ShouldConnectionValidatorBeCalled | owncloudComLibrary/src/main/java/com/owncloud/android/lib/common/OwnCloudClient.java:150-160 | the validator is consulted only when there is one and the status is 401 or 302; on a 401 only when the credentials are not anonymous |
| Client.Decide | owncloudComLibrary/src/main/java/com/owncloud/android/lib/common/OwnCloudClient.java:138-143 | a retry is asked for only by the validator when it is consulted or by a 301 on a method that follows permanent redirects, which then follows redirects; the headers and the counter are kept and a method that followed redirects still does |
| Client.StepFrom | owncloudComLibrary/src/main/java/com/owncloud/android/lib/common/OwnCloudClient.java:122-145 | one pass sends the attempt request built from the state and gets the server's reply; it asks for a retry only after an answer, moves the counter on by one and keeps the headers it sent |
| Client.OwnCloudClient.constructor | owncloudComLibrary/src/main/java/com/owncloud/android/lib/common/OwnCloudClient.java:75-95 | a new client holds the given base URI, anonymous credentials, no account and no redirect following, and its cookie store is empty |
| Client.NewClient | owncloudComLibrary/src/main/java/com/owncloud/android/lib/common/OwnCloudClient.java:82-95 | a null base URI throws IllegalArgumentException and creates nothing; any other gives a fresh anonymous client on that URI |
| Client.OwnCloudClient.ClearCredentials | owncloudComLibrary/src/main/java/com/owncloud/android/lib/common/OwnCloudClient.java:97-101 | afterwards the credentials are anonymous, whatever they were before |
| Client.OwnCloudClient.SetCredentials | owncloudComLibrary/src/main/java/com/owncloud/android/lib/common/OwnCloudClient.java:222-228 | non-null credentials are stored; null ones reset the client to anonymous |
| Client.OwnCloudClient.SetBaseUri | owncloudComLibrary/src/main/java/com/owncloud/android/lib/common/OwnCloudClient.java:211-216 | a null URI throws IllegalArgumentException and keeps the old base URI; any other URI replaces it |
| Client.OwnCloudClient.SetFollowRedirects | owncloudComLibrary/src/main/java/com/owncloud/android/lib/common/OwnCloudClient.java:250-252 | the client-wide follow-redirects switch takes the given value |
| Client.OwnCloudClient.SetUserId | owncloudComLibrary/src/main/java/com/owncloud/android/lib/common/OwnCloudClient.java:246-248 | the account the client acts for, reduced to its user id, is the one given |
| Client.OwnCloudClient.ExhaustResponse | owncloudComLibrary/src/main/java/com/owncloud/android/lib/common/OwnCloudClient.java:167-176 | the response body stream is closed and nothing else about the method changes |
| Client.OwnCloudClient.NextRequestId | owncloudComLibrary/src/main/java/com/owncloud/android/lib/common/OwnCloudClient.java:125 | each request id is the decimal rendering of the current counter value, which then moves on by one; the counter stands in for the random UUID |
| Client.OwnCloudClient.PrepareAttempt | owncloudComLibrary/src/main/java/com/owncloud/android/lib/common/OwnCloudClient.java:123-134 | the method's headers become the tracing headers over the old ones (request id, user agent, Accept-Encoding, Authorization when the credentials have a header); URL, options and response are kept |
| Client.OwnCloudClient.DecideRetry | owncloudComLibrary/src/main/java/com/owncloud/android/lib/common/OwnCloudClient.java:138-143 | the retry decision and the new credentials and follow flag are those of consulting the validator when it must be called, else of the 301 rule |
| Client.OwnCloudClient.SendAttempt | owncloudComLibrary/src/main/java/com/owncloud/android/lib/common/OwnCloudClient.java:129-136 | the request sent is the attempt's request built from the state before it, and its outcome is what the server answers |
| Client.OwnCloudClient.RunAttempt | owncloudComLibrary/src/main/java/com/owncloud/android/lib/common/OwnCloudClient.java:122-145 | one loop pass changes the client and method exactly as the specification step of the loop does and reports its outcome and retry decision |
| Client.OwnCloudClient.RetryRound | owncloudComLibrary/src/main/java/com/owncloud/android/lib/common/OwnCloudClient.java:122-145 | each round keeps the invariant that the attempts made so far are a prefix of the specified run, and a finished loop has made all of them |
| Client.OwnCloudClient.RetryLoop | owncloudComLibrary/src/main/java/com/owncloud/android/lib/common/OwnCloudClient.java:121-145 | entered with no attempt made, the loop ends with exactly the attempts, outcome and final state of the specified run, the response of its last answered attempt, and the chain extended by its hops |
| Client.OwnCloudClient.SaveExecuteHttpMethod | owncloudComLibrary/src/main/java/com/owncloud/android/lib/common/OwnCloudClient.java:113-148 | the attempts, the returned status or thrown exception, and the final headers, follow flag, credentials and counter are exactly those of the specified run |
| Client.OwnCloudClient.ExecuteHttpMethod | owncloudComLibrary/src/main/java/com/owncloud/android/lib/common/OwnCloudClient.java:103-111 | the outcome, the final state, the stored response and the chain handler's recorded URLs are those of the specified retry loop; a returned status is that of the stored response, and URL, options and handler are kept |
| Client.LastResponseSome | owncloudComLibrary/src/main/java/com/owncloud/android/lib/common/OwnCloudClient.java:136 | a method that already had a response keeps having one after further attempts |
| Http.HeaderAuth | owncloudComLibrary/src/main/java/com/owncloud/android/lib/common/OwnCloudClient.java:132-134 | the authorization header text is empty exactly for anonymous credentials, so only non-anonymous clients send Authorization |
| HttpMethods.EffectiveTimeout | owncloudComLibrary/src/main/java/com/owncloud/android/lib/common/http/methods/HttpBaseMethod.kt:43-48 | a timeout reaches the okhttp client only when both its value and its unit are set, and then with those |
| HttpMethods.HttpMethod.RequestToSend | owncloudComLibrary/src/main/java/com/owncloud/android/lib/common/http/methods/HttpBaseMethod.kt:39-51 | the request sent carries the method's verb, its stored URL, headers, body and follow flag, and each timeout exactly when both its value and unit are set |
| HttpMethods.HttpMethod.constructor | owncloudComLibrary/src/main/java/com/owncloud/android/lib/common/http/methods/HttpBaseMethod.kt:16-36 | a new method has the given verb (GET, PUT, POST, COPY, or PROPFIND with its depth) and targets the URL with no headers, follows redirects, retries nothing, and applies no timeout since the connection timeout has a value but no unit |
| HttpMethods.HttpMethod.Execute | owncloudComLibrary/src/main/java/com/owncloud/android/lib/common/http/methods/HttpBaseMethod.kt:38-52 | a transport answer is stored and its status returned, a failure is thrown with the old response kept, and a registered chain handler sees every request URL of the call |
| HttpMethods.HttpMethod.AddRedirectChainHandler | owncloudComLibrary/src/main/java/com/owncloud/android/lib/resources/status/StatusRequester.kt:57-58 | the handler is registered and nothing else about the method changes |
| HttpMethods.HttpMethod.SetUrl | owncloudComLibrary/src/main/java/com/owncloud/android/lib/common/http/methods/HttpBaseMethod.kt:54-58 | only the URL changes; headers and options are kept |
| HttpMethods.HttpMethod.AddRequestHeader | owncloudComLibrary/src/main/java/com/owncloud/android/lib/common/http/methods/HttpBaseMethod.kt:77-81 | the value is appended after the earlier values of that name |
| HttpMethods.HttpMethod.SetRequestHeader | owncloudComLibrary/src/main/java/com/owncloud/android/lib/common/http/methods/HttpBaseMethod.kt:89-93 | the name afterwards holds exactly the one new value; other headers are untouched |
| HttpMethods.HttpMethod.SetReadTimeout | owncloudComLibrary/src/main/java/com/owncloud/android/lib/common/http/methods/HttpBaseMethod.kt:135-138 | value and unit are stored together, so the next request applies this read timeout |
| HttpMethods.HttpMethod.SetConnectionTimeout | owncloudComLibrary/src/main/java/com/owncloud/android/lib/common/http/methods/HttpBaseMethod.kt:140-146 | value and unit are stored together, so the next request applies this connection timeout |
| HttpMethods.HttpMethod.SetRequestBody | owncloudComLibrary/src/main/java/com/owncloud/android/lib/resources/shares/CreateRemoteShareOperation.kt:131 | only the body of the request changes |
| HttpMethods.HttpMethod.SetFollowRedirects | owncloudComLibrary/src/main/java/com/owncloud/android/lib/common/http/methods/HttpBaseMethod.kt:21 | only the follow-redirects flag changes |
| HttpMethods.HttpMethod.CloseResponseBody | owncloudComLibrary/src/main/java/com/owncloud/android/lib/common/http/methods/HttpBaseMethod.kt:116-118 | the response body stream is closed and the response itself is kept |
| Headers.Get | owncloudComLibrary/src/main/java/com/owncloud/android/lib/common/http/methods/HttpBaseMethod.kt:109-111 | a header read is absent exactly when no value is stored under the name, and is otherwise the last value stored |
| Headers.ValuesRemoveAll | owncloudComLibrary/src/main/java/com/owncloud/android/lib/common/http/methods/HttpBaseMethod.kt:89-93 | removing a name leaves no value for it and every other name's values untouched |
| Headers.ValuesSet | owncloudComLibrary/src/main/java/com/owncloud/android/lib/common/http/methods/HttpBaseMethod.kt:89-93 | after a set, the name holds exactly the new value and other names keep theirs |
| Headers.ValuesAdd | owncloudComLibrary/src/main/java/com/owncloud/android/lib/common/http/methods/HttpBaseMethod.kt:77-81 | after an add, the new value follows the earlier values of that name |
| Headers.GetSet | owncloudComLibrary/src/main/java/com/owncloud/android/lib/common/http/methods/HttpBaseMethod.kt:89-93 | reading a header after setting it gives the value set, whatever the letter case of either name |
| Headers.SetSet | owncloudComLibrary/src/main/java/com/owncloud/android/lib/common/http/methods/HttpBaseMethod.kt:89-93 | setting a header twice is the same as setting the second value once |
| Headers.ValuesSameName | owncloudComLibrary/src/main/java/com/owncloud/android/lib/common/http/methods/HttpBaseMethod.kt:64-66 | header names that differ only in ASCII case select the same values |
| Headers.GetAdd | owncloudComLibrary/src/main/java/com/owncloud/android/lib/common/http/methods/HttpBaseMethod.kt:77-81 | reading a header after adding a value gives that value |
| RedirectChain.SchemesExclusive | owncloudComLibrary/src/main/java/com/owncloud/android/lib/common/http/methods/RedirectChainHandler.kt:23-26 | no URL is both an https one and an http one, so the order of the two tests never matters |
| RedirectChain.HasSchemesSubset | owncloudComLibrary/src/main/java/com/owncloud/android/lib/common/http/methods/RedirectChainHandler.kt:20-27 | visiting more URLs never clears a scheme already seen |
| RedirectChain.MixedSchemesOrderIrrelevant | owncloudComLibrary/src/main/java/com/owncloud/android/lib/common/http/methods/RedirectChainHandler.kt:18-30 | the unsecure-redirect flag depends only on which URLs were visited, not on their order or repetition |
| RedirectChain.MixedSchemesMonotone | owncloudComLibrary/src/main/java/com/owncloud/android/lib/common/http/methods/RedirectChainHandler.kt:18-30 | once the chain holds both schemes, further hops cannot clear the flag |
| RedirectChain.SingleSchemeNotMixed | owncloudComLibrary/src/main/java/com/owncloud/android/lib/common/http/methods/RedirectChainHandler.kt:16-30 | a chain whose URLs all use one scheme is never flagged |
| RedirectChain.RedirectChainHandler.constructor | owncloudComLibrary/src/main/java/com/owncloud/android/lib/common/http/methods/RedirectChainHandler.kt:10 | a new handler has recorded no URL |
| RedirectChain.RedirectChainHandler.Intercept | owncloudComLibrary/src/main/java/com/owncloud/android/lib/common/http/methods/RedirectChainHandler.kt:32-35 | the request URL is appended to the chain before the call proceeds |
| RedirectChain.RedirectChainHandler.InterceptAll | owncloudComLibrary/src/main/java/com/owncloud/android/lib/common/http/methods/RedirectChainHandler.kt:32-35 | the URLs of a call's requests are appended in call order |
| RedirectChain.RedirectChainHandler.HasBeenRedirectedUnsecureLocation | owncloudComLibrary/src/main/java/com/owncloud/android/lib/common/http/methods/RedirectChainHandler.kt:18-30 | the loop's answer is true exactly when the chain holds both an https URL and an http URL |
| Redirection.LocationFromHeaders | owncloudComLibrary/src/main/java/com/owncloud/android/lib/common/RedirectionManager.java:52-56 | the location is the response's Location header; because header names compare without case, the lower-case fallback can never add anything |
| Redirection.DestinationFromHeaders | owncloudComLibrary/src/main/java/com/owncloud/android/lib/common/RedirectionManager.java:65-69 | the destination is the request's Destination header, read without regard to case |
| Redirection.ShouldFollowRedirection | owncloudComLibrary/src/main/java/com/owncloud/android/lib/common/RedirectionManager.java:58-61 | no redirect is followed once three were, and only a 3xx status is followed |
| Redirection.BuildDestinationCrossHostAsWritten | owncloudComLibrary/src/main/java/com/owncloud/android/lib/common/RedirectionManager.java:71-76 | a redirect from host a to host b makes the rewrite as written throw, since the old host's URI never occurs in the new location |
| Redirection.BuildDestinationHeader | owncloudComLibrary/src/main/java/com/owncloud/android/lib/common/RedirectionManager.java:71-76 | the rewrite succeeds exactly when the searched text occurs in the location and the destination is at least as long as the base URI, and throws StringIndexOutOfBounds otherwise |
| Redirection.BuildDestinationHeaderSplices | owncloudComLibrary/src/main/java/com/owncloud/android/lib/common/RedirectionManager.java:71-76 | a successful rewrite is the location up to the last occurrence of the searched text, followed by the destination without the base URI's length of characters |
| Redirection.BuildDestinationOnNewServer | owncloudComLibrary/src/main/java/com/owncloud/android/lib/common/RedirectionManager.java:71-76 | for a location on any new server carrying the user-files path once, the corrected rewrite moves the destination onto that server with its path kept |
| Redirection.BuildDestinationSameServer | owncloudComLibrary/src/main/java/com/owncloud/android/lib/common/RedirectionManager.java:71-76 | on the original server the written rewrite gives the bare path and the corrected one the same path on the base URI, so both name the same resource |
| Redirection.RedirectHeadersGet | owncloudComLibrary/src/main/java/com/owncloud/android/lib/common/RedirectionManager.java:30-40 | each re-execution sets the request id, user agent, single-cookie, Accept-Encoding and Authorization headers and keeps the Destination header |
| Redirection.RepeatedTraceAppend | owncloudComLibrary/src/main/java/com/owncloud/android/lib/common/RedirectionManager.java:29-47 | a repeated attempt that was answered and asked to repeat extends a valid trace of the do-while loop |
| Redirection.RedirectedRunBounded | owncloudComLibrary/src/main/java/com/owncloud/android/lib/common/RedirectionManager.java:43-47 | when the decision to repeat with fresh credentials says no after `bound` repeats, the loop makes at most bound + 1 attempts |
| Redirection.RedirectedRunIdsDistinct | owncloudComLibrary/src/main/java/com/owncloud/android/lib/common/RedirectionManager.java:30-34 | the attempts of a redirected re-execution take distinct counter values, so no two of them carry the same request id |
| Redirection.Recover302 | owncloudComLibrary/src/main/java/com/owncloud/android/lib/common/RedirectionManager.java:84-90 | an HttpException whose message mentions 302 becomes that status, and every other outcome is passed on unchanged |
| Redirection.RewrittenDestination | owncloudComLibrary/src/main/java/com/owncloud/android/lib/common/RedirectionManager.java:79-81 | a request without Destination keeps none; otherwise the header is rebuilt by searching the location for the client's whole user-files URI, as the code does, and the hop fails with StringIndexOutOfBounds exactly when that URI is absent or the destination shorter than the base URI |
| Redirection.RedirectionManager.constructor | owncloudComLibrary/src/main/java/com/owncloud/android/lib/common/RedirectionManager.java:20-22 | the manager works on the client it is given |
| Redirection.RedirectionManager.SetRedirectHeaders | owncloudComLibrary/src/main/java/com/owncloud/android/lib/common/RedirectionManager.java:30-40 | the method's headers become the re-execution header block over the old ones; URL, options and response are kept |
| Redirection.RedirectionManager.RedirectedAttempt | owncloudComLibrary/src/main/java/com/owncloud/android/lib/common/RedirectionManager.java:30-41 | one pass sends a request that fits the specified attempt for its position, with the next request id, and keeps the Destination header |
| Redirection.SingleAttempt | owncloudComLibrary/src/main/java/com/owncloud/android/lib/common/RedirectionManager.java:30-41 | after one attempt the method holds its response and body stream when it was answered, and what it held before otherwise |
| Redirection.RedirectionManager.RedirectRound | owncloudComLibrary/src/main/java/com/owncloud/android/lib/common/RedirectionManager.java:29-47 | each round extends the attempts by one; going round again needs an answered status the repeat decision accepts, and stopping leaves a complete run |
| Redirection.RedirectionManager.ExecuteRedirectedHttpMethod | owncloudComLibrary/src/main/java/com/owncloud/android/lib/common/RedirectionManager.java:24-50 | the attempts form a complete redirected run of at most bound + 1 requests, the counter advances once per attempt and the method keeps the last response |
| Redirection.RedirectionManager.FollowRedirect | owncloudComLibrary/src/main/java/com/owncloud/android/lib/common/RedirectionManager.java:78-91 | a rewrite that throws ends the hop with that exception and sends nothing; otherwise the rewritten Destination is stored, the attempts form a redirected run at the method's URL, the counter advances by their number, and the result is the re-execution's outcome with a 302 HttpException read as 302 |
| Redirection.RedirectionManager.RewriteDestination | owncloudComLibrary/src/main/java/com/owncloud/android/lib/common/RedirectionManager.java:79-82 | the Destination header becomes the rebuilt one when the rebuild succeeds, and the headers are unchanged when it throws |
| Redirection.RedirectionManager.RedirectHop | owncloudComLibrary/src/main/java/com/owncloud/android/lib/common/RedirectionManager.java:99-115 | the hop record starts from the method's response, Destination header and counter and is made as the code makes it: a location okhttp cannot parse throws NullPointerException and sends nothing, otherwise the outcome is the rewrite-and-re-execute at the location; the method is left on the location with the last response and its body stream closed unless a new response came in |
| Redirection.HopChainAt | owncloudComLibrary/src/main/java/com/owncloud/android/lib/common/RedirectionManager.java:98-121 | every recorded hop is one of the first three, is taken from a redirect status (the method's status for the first, the status the hop before it returned for later ones), follows the Location header of the response it starts from and is made as the code makes it; the first starts where the walk started and each later one where the one before it, which returned, ended |
| Redirection.HopStep | owncloudComLibrary/src/main/java/com/owncloud/android/lib/common/RedirectionManager.java:99-121 | a hop that throws ends the walk with it as the last hop; one that returns a status extends the path by its location and that status |
| Redirection.HopGuard | owncloudComLibrary/src/main/java/com/owncloud/android/lib/common/RedirectionManager.java:98 | a hop is only taken while fewer than three were followed and the status the loop tests is a redirect |
| Redirection.FollowingStart | owncloudComLibrary/src/main/java/com/owncloud/android/lib/common/RedirectionManager.java:94-97 | before the first hop the path holds only the method's status and no location |
| Redirection.RedirectionManager.WalkHop | owncloudComLibrary/src/main/java/com/owncloud/android/lib/common/RedirectionManager.java:99-119 | one hop from the loop state either throws, ending the walk, or extends the path by the location and the returned status |
| Redirection.RedirectionManager.FollowStep | owncloudComLibrary/src/main/java/com/owncloud/android/lib/common/RedirectionManager.java:98-121 | one pass follows a redirect with a location, extending the path by one hop or throwing, and turns a redirect without one into status 404 with the path unchanged |
| Redirection.RedirectionManager.FollowLoop | owncloudComLibrary/src/main/java/com/owncloud/android/lib/common/RedirectionManager.java:98-121 | the loop stops only when no further redirect is to be followed, with the walk so far as its result, or ends with the exception of the hop that threw it |
| Redirection.FollowingEnd | owncloudComLibrary/src/main/java/com/owncloud/android/lib/common/RedirectionManager.java:98-123 | once the loop stops, the path is well formed, records every hop in order, and ends for one of the three reasons the code has; the method holds the last hop's response and URL |
| Redirection.RedirectionManager.FollowRedirection | owncloudComLibrary/src/main/java/com/owncloud/android/lib/common/RedirectionManager.java:93-123 | the hops form a chain in which each is one of the first three, is taken from a redirect status, follows the Location of the response it starts from and is made as the code makes it; the returned path starts at the method's status, records hop i's location and returned status at position i, has at most three hops and stops at a non-redirect, a redirect without location or the third hop; a failure is the last hop's exception; the method is left with the last hop's response and URL |
| GetRemoteStatus.ProbeRequest | src/com/owncloud/android/lib/resources/status/GetRemoteStatusOperation.java:83-88 | the status probe is a GET request on the given URL with the session user agent, the client's credentials applied up front, and no redirect following |
| GetRemoteStatus.UserInfoCredentials | src/com/owncloud/android/lib/resources/status/GetRemoteStatusOperation.java:90-98 | user information containing a ':' becomes basic credentials whose user name is the text before its first ':' and whose password is the rest; no user information, or one without ':', leaves the credentials as they were |
| GetRemoteStatus.ProbeResult | src/com/owncloud/android/lib/resources/status/GetRemoteStatusOperation.java:103 | the result for a response is a success exactly on status 200, and carries that status and the response's Location as the redirected location |
| GetRemoteStatus.Chase | src/com/owncloud/android/lib/resources/status/GetRemoteStatusOperation.java:105-121 | the redirect loop ends only on a response that gives it no reason to go on (a 200, even one with a Location, or no non-empty location), and once raised the non-secure flag stays raised |
| GetRemoteStatus.ChaseEnds | src/com/owncloud/android/lib/resources/status/GetRemoteStatusOperation.java:105-107 | a response that gives no reason to go on ends the loop at once, with the flag as it is |
| GetRemoteStatus.ChaseSelfRedirectNeverEnds | src/com/owncloud/android/lib/resources/status/GetRemoteStatusOperation.java:105-121 | the loop has no bound: a server that answers the redirected request with the same redirect keeps it going past any number of hops |
| GetRemoteStatus.Probe | src/com/owncloud/android/lib/resources/status/GetRemoteStatusOperation.java:83-121 | the whole probe ends only on a settled response, and a status URL that is not an http(s) URL throws before anything is sent |
| GetRemoteStatus.TryOutcome | src/com/owncloud/android/lib/resources/status/GetRemoteStatusOperation.java:78-182 | the returned flag is true exactly when the latest result is a success; a status URL that is not an http(s) URL gives false with the invalid-URI exception as result; a probe ending on a 200 without a body gives false with the NullPointerException result, since a null body string reaches the JSON parser |
| GetRemoteStatus.Verdict | src/com/owncloud/android/lib/resources/status/GetRemoteStatusOperation.java:123-163 | the returned flag is true exactly when the latest result is a success; a thrown exception becomes the result of that exception, a non-200 end the failure for that response, and a 200 without a body the NullPointerException result |
| GetRemoteStatus.VerdictClassification | src/com/owncloud/android/lib/resources/status/GetRemoteStatusOperation.java:124-160 | a probe succeeds exactly on a 200 from an installed server naming its version, and then the result carries the version and is OK_REDIRECT_TO_NON_SECURE_CONNECTION when the flag is set, else OK_SSL iff the base is https; a 200 without a body is the NullPointerException result; anything else on a 200 is INSTANCE_NOT_CONFIGURED |
| GetRemoteStatus.ChaseUnsecureNeedsHttps | src/com/owncloud/android/lib/resources/status/GetRemoteStatusOperation.java:109-112 | the non-secure redirect flag can be raised only when the base URL starts with https:// |
| GetRemoteStatus.GetRemoteStatusOperation.constructor | src/com/owncloud/android/lib/resources/status/GetRemoteStatusOperation.java:71-76 | no latest result exists before the first attempt |
| GetRemoteStatus.GetRemoteStatusOperation.ApplyUserInfo | src/com/owncloud/android/lib/resources/status/GetRemoteStatusOperation.java:90-98 | the client's credentials become those the user-info rule gives |
| GetRemoteStatus.GetRemoteStatusOperation.RedirectLoop | src/com/owncloud/android/lib/resources/status/GetRemoteStatusOperation.java:105-121 | the loop ends exactly where the specified redirect walk ends, with the same latest result and non-secure flag |
| GetRemoteStatus.GetRemoteStatusOperation.Hop | src/com/owncloud/android/lib/resources/status/GetRemoteStatusOperation.java:109-119 | one pass raises the non-secure flag for an https base redirected to http, then ends the walk where the specified walk ends when the location is invalid or the request fails, or continues it from the new response |
| GetRemoteStatus.GetRemoteStatusOperation.TryConnection | src/com/owncloud/android/lib/resources/status/GetRemoteStatusOperation.java:78-182 | the latest result and return value are the verdict on where the probe ended, with every exception ending as the latest result, the NullPointerException of a 200 without a body included; the credentials follow the user-info rule and redirect following is off |
| GetRemoteStatus.GetRemoteStatusOperation.Run | src/com/owncloud/android/lib/resources/status/GetRemoteStatusOperation.java:191-210 | offline gives NO_NETWORK_CONNECTION and touches nothing; a base with a scheme is tried once; one without is tried as https and then as http unless https succeeded or failed recoverably; the result is the latest of the last base tried |
| RemoteResults.RemoteResult.IsSslRecoverableException | src/com/owncloud/android/lib/resources/status/GetRemoteStatusOperation.java:203 | only a result that is not a success and carries a thrown exception can be an SSL-recoverable one |
| CheckPathExistence.RequestUrl | owncloudComLibrary/src/main/java/com/owncloud/android/lib/resources/files/CheckPathExistenceRemoteOperation.kt:69-71 | a logged-in check asks the base files URI; otherwise the user-files URI followed by the remote path |
| CheckPathExistence.HandleResult | owncloudComLibrary/src/main/java/com/owncloud/android/lib/resources/files/CheckPathExistenceRemoteOperation.kt:77-83 | the result is a success carrying true exactly on 200 or 207; any other status gives the failure for the method's response carrying false |
| CheckPathExistence.SendPropfind | owncloudComLibrary/src/main/java/com/owncloud/android/lib/resources/files/CheckPathExistenceRemoteOperation.kt:62-66 | the request is a PROPFIND with depth 0 to the request URL with both existence timeouts, and what it returns, the response it leaves and the client's credentials and counter are those of the specified execution of that request |
| CheckPathExistence.FollowThenJudge | owncloudComLibrary/src/main/java/com/owncloud/android/lib/resources/files/CheckPathExistenceRemoteOperation.kt:95-100 | the redirections followed by hand form the redirect chain from the state the execution left, each hop taken from a redirect status, at most three; the recorded path starts at the executed status and records each hop; the verdict is taken on its last status from the final response, and a hop's exception becomes the result |
| CheckPathExistence.CheckFrom | owncloudComLibrary/src/main/java/com/owncloud/android/lib/resources/files/CheckPathExistenceRemoteOperation.kt:89-100 | the PROPFIND with depth 0 to the request URL with the existence timeouts is the specified execution of that request by the client with its follow flag off; an exception becomes the result; otherwise the verdict is taken on the executed status, or, when following, on the last status of the recorded redirection path, from the final response |
| CheckPathExistence.CheckPathExistenceRemoteOperation.constructor | owncloudComLibrary/src/main/java/com/owncloud/android/lib/resources/files/CheckPathExistenceRemoteOperation.kt:50-60 | the operation keeps its path and login flag and has followed no redirections yet |
| CheckPathExistence.CheckPathExistenceRemoteOperation.Run | owncloudComLibrary/src/main/java/com/owncloud/android/lib/resources/files/CheckPathExistenceRemoteOperation.kt:85-108 | a request URL that is not http(s) throws MalformedURLException before any request; otherwise the PROPFIND with depth 0 and the existence timeouts is the specified execution of that request by the client with its follow flag off; when the flag was on, the hops are the redirect chain from the state that execution left, the recorded path starts at the executed status and ends at the status the verdict is taken on, and it becomes the operation's redirection path; when it was off, the verdict is taken on the executed status; the verdict is read from the final response; an exception of the execution or of a hop becomes the result; the follow flag is restored on every way out |
| StatusRequester.StatusUrl | owncloudComLibrary/src/main/java/com/owncloud/android/lib/resources/status/StatusRequester.kt:53 | the status URL is the base location followed by the status path |
| StatusRequester.StatusResult | owncloudComLibrary/src/main/java/com/owncloud/android/lib/resources/status/StatusRequester.kt:61-63 | the preliminary result is a success exactly on 200; any other status gives the failure for the method's response |
| StatusRequester.SecurityCode | owncloudComLibrary/src/main/java/com/owncloud/android/lib/resources/status/StatusRequester.kt:84-92 | an installed server's code is OK_REDIRECT_TO_NON_SECURE_CONNECTION exactly when an unsecure redirect was seen, OK_SSL exactly when none was and the base is https, and OK_NO_SSL otherwise |
| StatusRequester.HandleRequestResult | owncloudComLibrary/src/main/java/com/owncloud/android/lib/resources/status/StatusRequester.kt:70-95 | a non-200 gives the failure for the response; only the JSON reads can throw, and then JSONException; not configured means the server said it is not installed |
| StatusRequester.HandleSuccess | owncloudComLibrary/src/main/java/com/owncloud/android/lib/resources/status/StatusRequester.kt:77-94 | the verdict is a success exactly for a 200 from an installed server naming its version, and then carries that version whether or not it is a valid version string |
| StatusRequester.FailureIgnoresBody | owncloudComLibrary/src/main/java/com/owncloud/android/lib/resources/status/StatusRequester.kt:74-75 | a response that is not a 200 is judged the same whatever its body says, and keeps its status |
| StatusRequester.NotInstalled | owncloudComLibrary/src/main/java/com/owncloud/android/lib/resources/status/StatusRequester.kt:78-79 | a server that says it is not installed gives INSTANCE_NOT_CONFIGURED whatever its version says |
| StatusRequester.UnsecureRedirectWins | owncloudComLibrary/src/main/java/com/owncloud/android/lib/resources/status/StatusRequester.kt:85-92 | an unsecure redirect outranks the base URL's scheme: https and http bases get the same non-secure result |
| StatusRequester.RequestStatus | owncloudComLibrary/src/main/java/com/owncloud/android/lib/resources/status/StatusRequester.kt:52-66 | a status URL okhttp cannot parse throws MalformedURLException before anything is sent; otherwise the GET request of the status URL is sent, the result's status is the execution's and its flag is the chain handler's verdict on the URLs of that execution |
| ServerCheck.NetworkClient.constructor | src/com/owncloud/android/lib/operations/remote/OwnCloudServerCheckOperation.java:161 | the older client starts on the WebDAV URI it is given |
| ServerCheck.NetworkClient.SetWebdavUri | src/com/owncloud/android/lib/operations/remote/OwnCloudServerCheckOperation.java:161 | the older client's WebDAV URI becomes the one given |
| ServerCheck.CheckRequest | src/com/owncloud/android/lib/operations/remote/OwnCloudServerCheckOperation.java:94-95 | the check is a GET request on the given URL, with redirects followed as GetMethod does by default and no extra header |
| ServerCheck.Check | src/com/owncloud/android/lib/operations/remote/OwnCloudServerCheckOperation.java:90-143 | the returned flag is true exactly when the latest result is a success, and a 200 without a body is the NullPointerException result with both version fields kept |
| ServerCheck.CheckClassification | src/com/owncloud/android/lib/operations/remote/OwnCloudServerCheckOperation.java:97-122 | a 200 carrying a complete document with a valid version is OK_SSL iff the URL is https, else OK_NO_SSL; an invalid version is BAD_OC_VERSION; a 200 without a body is the NullPointerException result; any other 200 with a body is INSTANCE_NOT_CONFIGURED; any other status is a failure carrying that status and the headers |
| ServerCheck.CheckRecordsVersions | src/com/owncloud/android/lib/operations/remote/OwnCloudServerCheckOperation.java:99-103 | the version field changes exactly when a 200 with a body from an installed server names a version (a 200 without a body throws before either is read), even if the version string is then missing; the version-string field changes only with a complete document |
| ServerCheck.SharedSupported | src/com/owncloud/android/lib/operations/remote/OwnCloudServerCheckOperation.java:80-88 | sharing is supported exactly when a version string was recorded and it is at least 5.0.13; without one it is not |
| ServerCheck.OwnCloudServerCheckOperation.constructor | src/com/owncloud/android/lib/operations/remote/OwnCloudServerCheckOperation.java:70-75 | a new check keeps its URL and has no latest result and no recorded versions |
| ServerCheck.OwnCloudServerCheckOperation.TryConnection | src/com/owncloud/android/lib/operations/remote/OwnCloudServerCheckOperation.java:90-143 | the latest result and recorded versions afterwards are those the one-attempt classification gives, with an unusable URL, a thrown exception or the NullPointerException of a 200 without a body ending as the latest result |
| ServerCheck.OwnCloudServerCheckOperation.Run | src/com/owncloud/android/lib/operations/remote/OwnCloudServerCheckOperation.java:152-170 | offline gives NO_NETWORK_CONNECTION and touches nothing; a URL with a scheme is tried once at its status path; one without is tried as https and then http unless https succeeded or failed recoverably, the client's WebDAV URI following each guess |
| CopyRemoteFile.CopyPrecheck | owncloudComLibrary/src/main/java/com/owncloud/android/lib/resources/files/CopyRemoteFileOperation.java:89-101 | a target with characters the server refuses gives INVALID_CHARACTER_IN_NAME, a target equal to the source OK, a target under the source INVALID_COPY_INTO_DESCENDANT; the copy goes ahead exactly when the target is valid and does not start with the source |
| CopyRemoteFile.CopyStatusResult | owncloudComLibrary/src/main/java/com/owncloud/android/lib/resources/files/CopyRemoteFileOperation.java:115-128 | the copy succeeds exactly on 201 or 204; 412 without overwrite is INVALID_OVERWRITE; every other status is the failure for the method's response |
| CopyRemoteFile.CopyOntoItselfIsOk | owncloudComLibrary/src/main/java/com/owncloud/android/lib/resources/files/CopyRemoteFileOperation.java:94-97 | copying a valid path onto itself is accepted without any request |
| CopyRemoteFile.CopyIntoDescendantRefused | owncloudComLibrary/src/main/java/com/owncloud/android/lib/resources/files/CopyRemoteFileOperation.java:99-101 | a copy into a path under the source is refused before any request |
| CopyRemoteFile.PreconditionFailedWithOverwrite | owncloudComLibrary/src/main/java/com/owncloud/android/lib/resources/files/CopyRemoteFileOperation.java:117-127 | a 412 with overwriting allowed is an ordinary failure that keeps the status |
| CopyRemoteFile.CopyRemoteFileOperation.constructor | owncloudComLibrary/src/main/java/com/owncloud/android/lib/resources/files/CopyRemoteFileOperation.java:70-75 | the operation keeps its source, target and overwrite flag |
| CopyRemoteFile.NewCopyMethod | owncloudComLibrary/src/main/java/com/owncloud/android/lib/resources/files/CopyRemoteFileOperation.java:106-111 | the request is a COPY to the source URL with the target as Destination, `T` or `F` as Overwrite, and the copy read and connection timeouts |
| CopyRemoteFile.CopyRemoteFileOperation.Run | owncloudComLibrary/src/main/java/com/owncloud/android/lib/resources/files/CopyRemoteFileOperation.java:82-140 | a precheck verdict is returned without a request; otherwise one COPY from the user-files URI of the source, with Destination the target's user-files URI and Overwrite `T` or `F` as the flag says, is the specified execution of that request by the client; its status is classified against the response it leaves, and any exception becomes the result |
| FileUtils.ForbiddenContains | src/com/owncloud/android/lib/resources/files/FileUtils.java:77-80 | the chain of one-character contains tests holds exactly when the text holds one of the nine forbidden characters |
| FileUtils.IsValidName | src/com/owncloud/android/lib/resources/files/FileUtils.java:52-65 | an accepted name never contains the path separator |
| FileUtils.IsValidPath | src/com/owncloud/android/lib/resources/files/FileUtils.java:73-84 | every path is accepted on a server that supports forbidden characters, and a refused path contains one of the forbidden characters |
| FileUtils.NameWithSeparatorInvalid | src/com/owncloud/android/lib/resources/files/FileUtils.java:56-57 | a name holding a separator is refused on every server |
| FileUtils.ValidNameOnOlderServer | src/com/owncloud/android/lib/resources/files/FileUtils.java:52-65 | on a server without forbidden-character support a name is accepted exactly when it has neither a separator nor a forbidden character |
| FileUtils.ValidNameOnNewerServer | src/com/owncloud/android/lib/resources/files/FileUtils.java:52-65 | on a server with forbidden-character support a name is accepted exactly when it has no separator |
| FileUtils.ValidPathCharacterisation | src/com/owncloud/android/lib/resources/files/FileUtils.java:73-84 | every path is accepted on a newer server; on an older one a path is accepted exactly when it has no forbidden character, separators being allowed |
| FileUtils.ValidNameIsValidPath | src/com/owncloud/android/lib/resources/files/FileUtils.java:52-84 | whatever the server, a name that passes the name check also passes the path check |
| FileUtils.CollapseSlashes | src/com/owncloud/android/lib/resources/files/FileUtils.java:40 | collapsing runs of separators never lengthens a path, keeps its first and last characters and leaves no two separators in a row |
| FileUtils.JavaNormalize | src/com/owncloud/android/lib/resources/files/FileUtils.java:40 | the normalisation of java.io.File never lengthens a path and gives a normalised one |
| FileUtils.NormalizeIdempotent | src/com/owncloud/android/lib/resources/files/FileUtils.java:40 | normalising twice is the same as normalising once |
| FileUtils.NormalizeNormalized | src/com/owncloud/android/lib/resources/files/FileUtils.java:40 | normalising a path that is already normalised leaves it as it is |
| FileUtils.FileParent | src/com/owncloud/android/lib/resources/files/FileUtils.java:40 | a parent, when there is one, is a proper prefix of the path |
| FileUtils.GetParentPath | src/com/owncloud/android/lib/resources/files/FileUtils.java:39-43 | the parent path always ends with a separator; a path without parent throws NullPointerException, and only such a path does |
| FileUtils.ParentAtRoot | src/com/owncloud/android/lib/resources/files/FileUtils.java:39-43 | a file directly under the root has the root as its parent path |
| FileUtils.ChildNormalized | src/com/owncloud/android/lib/resources/files/FileUtils.java:40 | a child name appended to a normalised folder other than the root gives a normalised path |
| FileUtils.ParentOfChild | src/com/owncloud/android/lib/resources/files/FileUtils.java:39-43 | a file in a normalised absolute folder other than the root has that folder followed by a separator as its parent path |
| ShareParser.CompleteLink | owncloudComLibrary/src/main/java/com/owncloud/android/lib/resources/shares/ShareToRemoteOperationResultParser.kt:69-79 | a public-link share with a token but no link gets the server base URI, the sharing-link path and its token as link when the base URI is known; every other share, and every other member, is left as it was |
| ShareParser.CompleteLinksPointwise | owncloudComLibrary/src/main/java/com/owncloud/android/lib/resources/shares/ShareToRemoteOperationResultParser.kt:64-81 | the completed list has the answer's shares in the same order, each one completed on its own |
| ShareParser.CompleteLinksIdempotent | owncloudComLibrary/src/main/java/com/owncloud/android/lib/resources/shares/ShareToRemoteOperationResultParser.kt:64-81 | completing links twice is the same as once, and with a known server base URI no share of the result still lacks its link |
| ShareParser.ParseSuccess | owncloudComLibrary/src/main/java/com/owncloud/android/lib/resources/shares/ShareToRemoteOperationResultParser.kt:44-87 | the parse succeeds exactly for a successful answer that has shares or needs none, and then returns the answer's shares in order with their links completed; every other returned result is a failure without HTTP status |
| ShareParser.ParseFailureClassification | owncloudComLibrary/src/main/java/com/owncloud/android/lib/resources/shares/ShareToRemoteOperationResultParser.kt:84-109 | an empty answer, a parser error or a success without required shares is WRONG_SERVER_RESPONSE; an unsuccessful answer is classified by its first flag in the order wrong parameter, not found, forbidden, and carries the message; only a flagged answer without a message throws |
| ShareParser.ParseResponse | owncloudComLibrary/src/main/java/com/owncloud/android/lib/resources/shares/ShareToRemoteOperationResultParser.kt:44-112 | a null or empty answer gives WRONG_SERVER_RESPONSE, the only exception is NullPointerException, and a success carries code OK and data |
| ShareParser.ShareToRemoteOperationResultParser.constructor | owncloudComLibrary/src/main/java/com/owncloud/android/lib/resources/shares/ShareToRemoteOperationResultParser.kt:39-42 | a new parser needs no shares and knows neither the server version nor the base URI |
| ShareParser.ShareToRemoteOperationResultParser.SetOwnCloudVersion | owncloudComLibrary/src/main/java/com/owncloud/android/lib/resources/shares/ShareToRemoteOperationResultParser.kt:41 | the server version is the one given |
| ShareParser.ShareToRemoteOperationResultParser.SetOneOrMoreSharesRequired | owncloudComLibrary/src/main/java/com/owncloud/android/lib/resources/shares/ShareToRemoteOperationResultParser.kt:40 | whether a successful answer must carry a share is as given |
| ShareParser.ShareToRemoteOperationResultParser.SetServerBaseUri | owncloudComLibrary/src/main/java/com/owncloud/android/lib/resources/shares/ShareToRemoteOperationResultParser.kt:42 | the server base URI is the one given |
| ShareParser.ShareToRemoteOperationResultParser.Parse | owncloudComLibrary/src/main/java/com/owncloud/android/lib/resources/shares/ShareToRemoteOperationResultParser.kt:44-112 | the loop that copies and completes the shares gives exactly the result of the specified parse |
| UpdateShare.KeyTextInjective | src/com/owncloud/android/lib/resources/shares/UpdateRemoteShareOperation.java:58-62 | the five parameter names are pairwise different, so a parameter is known from its name |
| UpdateShare.ExpirationValue | src/com/owncloud/android/lib/resources/shares/UpdateRemoteShareOperation.java:179-191 | a negative time sends the empty text to clear the date, a positive one the formatted date, and zero sends nothing |
| UpdateShare.PublicUploadValue | src/com/owncloud/android/lib/resources/shares/UpdateRemoteShareOperation.java:193-195 | the upload permission is sent exactly when it is set, as true or false |
| UpdateShare.PermissionsValue | src/com/owncloud/android/lib/resources/shares/UpdateRemoteShareOperation.java:199-202 | the permissions are sent exactly when positive, as their decimal text without sign |
| UpdateShare.ParametersSteps | src/com/owncloud/android/lib/resources/shares/UpdateRemoteShareOperation.java:171-202 | each of the five guarded appends adds its parameter to the list built so far, in the fixed order |
| UpdateShare.ParametersSelection | src/com/owncloud/android/lib/resources/shares/UpdateRemoteShareOperation.java:171-202 | each setting is sent exactly when it is to change, with the text sent for it: a null name, password or upload permission, a zero expiration and non-positive permissions are left out, and an empty password is sent |
| UpdateShare.ParametersToUpdate | src/com/owncloud/android/lib/resources/shares/UpdateRemoteShareOperation.java:171-202 | the parameter names are the settings to change, each once, in the order name, password, expiration, upload permission, permissions, so the permissions always come after the upload permission |
| UpdateShare.PutRequest | src/com/owncloud/android/lib/resources/shares/UpdateRemoteShareOperation.java:219-225 | each request is a PUT to the share's URI with the OCS API header and the body key=value |
| UpdateShare.RunFromPuts | src/com/owncloud/android/lib/resources/shares/UpdateRemoteShareOperation.java:215-227 | the loop sends one PUT per processed parameter, in order, each to the share's URI with that parameter |
| UpdateShare.RunFrom | src/com/owncloud/android/lib/resources/shares/UpdateRemoteShareOperation.java:215-250 | the loop sends at most one PUT per parameter and at least one when there is a parameter; with none the result is the one it started with |
| UpdateShare.RunFromStops | src/com/owncloud/android/lib/resources/shares/UpdateRemoteShareOperation.java:243-249 | the loop goes past a parameter only when it succeeded or was the name, and stops early only after one that did neither |
| UpdateShare.RunFromResult | src/com/owncloud/android/lib/resources/shares/UpdateRemoteShareOperation.java:215-250 | the loop's result is that of the last parameter processed, or the starting one when there is none |
| UpdateShare.ShareUri | src/com/owncloud/android/lib/resources/shares/UpdateRemoteShareOperation.java:209-213 | the share's URI starts with the base URI and ends with the share's id |
| UpdateShare.UpdateOutcome | src/com/owncloud/android/lib/resources/shares/UpdateRemoteShareOperation.java:166-265 | an empty sharing API path throws StringIndexOutOfBounds before anything is sent, and at most one PUT goes out per parameter |
| UpdateShare.UpdateResultShape | src/com/owncloud/android/lib/resources/shares/UpdateRemoteShareOperation.java:166-265 | with no setting to change nothing is sent and the result is null; otherwise the result is that of the last parameter processed |
| UpdateShare.UpdateRemoteShareOperation.constructor | src/com/owncloud/android/lib/resources/shares/UpdateRemoteShareOperation.java:100-106 | a new operation changes nothing: no name, password or upload permission, expiration zero and the default permissions |
| UpdateShare.UpdateRemoteShareOperation.SetName | src/com/owncloud/android/lib/resources/shares/UpdateRemoteShareOperation.java:116-118 | the name to set is the one given |
| UpdateShare.UpdateRemoteShareOperation.SetPassword | src/com/owncloud/android/lib/resources/shares/UpdateRemoteShareOperation.java:127-129 | the password to set is the one given |
| UpdateShare.UpdateRemoteShareOperation.SetExpirationDate | src/com/owncloud/android/lib/resources/shares/UpdateRemoteShareOperation.java:140-142 | the expiration time is the one given |
| UpdateShare.UpdateRemoteShareOperation.SetPermissions | src/com/owncloud/android/lib/resources/shares/UpdateRemoteShareOperation.java:151-153 | the permissions are the ones given |
| UpdateShare.UpdateRemoteShareOperation.SetPublicUpload | src/com/owncloud/android/lib/resources/shares/UpdateRemoteShareOperation.java:161-163 | the upload permission is the one given |
| UpdateShare.UpdateRemoteShareOperation.BuildParameters | src/com/owncloud/android/lib/resources/shares/UpdateRemoteShareOperation.java:170-202 | the appends build exactly the specified parameter list for the current settings |
| UpdateShare.UpdateRemoteShareOperation.SendParameter | src/com/owncloud/android/lib/resources/shares/UpdateRemoteShareOperation.java:219-242 | one PUT is sent and judged as the specified verdict for that parameter, a 200 through a fresh parser |
| UpdateShare.UpdateRemoteShareOperation.SendAll | src/com/owncloud/android/lib/resources/shares/UpdateRemoteShareOperation.java:215-250 | the loop's result and the PUTs it sent are those of the specified run over the parameters |
| UpdateShare.UpdateRemoteShareOperation.Run | src/com/owncloud/android/lib/resources/shares/UpdateRemoteShareOperation.java:165-265 | the result and PUTs are those of the specified run over the parameters built from the settings, sent to the share's URI |
| Shares.ShareTypeFromValue | owncloudComLibrary/src/main/java/com/owncloud/android/lib/resources/files/RemoteFile.kt:140 | a kind found from a number has that number as its value |
| Shares.ShareTypeValueRoundTrip | owncloudComLibrary/src/main/java/com/owncloud/android/lib/resources/files/RemoteFile.kt:140 | every kind of share is found again from its value, and exactly the numbers that are some kind's value are found |
| Shares.AppendEncodedPath | src/com/owncloud/android/lib/resources/shares/UpdateRemoteShareOperation.java:210-212 | appending a segment keeps the URI as prefix and puts the segment after exactly one slash |
| Shares.FormPair | src/com/owncloud/android/lib/resources/shares/UpdateRemoteShareOperation.java:222 | a pair is the key, '=' and the value, each readable back at its place |
| Shares.FormBodySingle | src/com/owncloud/android/lib/resources/shares/UpdateRemoteShareOperation.java:221-225 | a body of one parameter is that parameter's pair |
| Shares.SplitFormBody | owncloudComLibrary/src/main/java/com/owncloud/android/lib/resources/shares/CreateRemoteShareOperation.kt:108-131 | a form whose keys and values have no '&' splits back into its pairs, field by field |
| Shares.LookupFieldsFor | src/com/owncloud/android/lib/resources/shares/UpdateRemoteShareOperation.java:171-202 | in a list built by guarded appends, a key carries its own value when it is in the order and has one, and is absent otherwise |
| Shares.KeysFieldsFor | src/com/owncloud/android/lib/resources/shares/UpdateRemoteShareOperation.java:171-202 | a list built by guarded appends holds the keys that have a value, in the order given |
| CreateShare.FormSelection | owncloudComLibrary/src/main/java/com/owncloud/android/lib/resources/shares/CreateRemoteShareOperation.kt:98-123 | the form always carries path, kind of share and sharee; the name only when not empty; the expiration only when after the initial value; the upload permission only when true; the password only when set and not empty; the permissions only when not the default; each with the text sent for it |
| CreateShare.FormStepsHead | owncloudComLibrary/src/main/java/com/owncloud/android/lib/resources/shares/CreateRemoteShareOperation.kt:98-105 | the first steps build the path, kind and sharee fields and then the name field when it is sent |
| CreateShare.FormStepsMiddle | owncloudComLibrary/src/main/java/com/owncloud/android/lib/resources/shares/CreateRemoteShareOperation.kt:107-117 | the next steps add the expiration and the upload permission fields when they are sent |
| CreateShare.FormStepsTail | owncloudComLibrary/src/main/java/com/owncloud/android/lib/resources/shares/CreateRemoteShareOperation.kt:118-123 | the last steps add the password and the permissions fields when they are sent |
| CreateShare.FormOrdered | owncloudComLibrary/src/main/java/com/owncloud/android/lib/resources/shares/CreateRemoteShareOperation.kt:98-123 | the form starts with path, kind and sharee and then holds the optional fields that are set, each once, in the order name, expiration, upload permission, password, permissions |
| CreateShare.KeyTextNoAmpersand | owncloudComLibrary/src/main/java/com/owncloud/android/lib/resources/shares/CreateRemoteShareOperation.kt:179-186 | no field name holds an '&' |
| CreateShare.FormBodyPairs | owncloudComLibrary/src/main/java/com/owncloud/android/lib/resources/shares/CreateRemoteShareOperation.kt:131 | when no value holds an '&', the encoded body splits back into the form's pairs, field by field |
| CreateShare.AnswerHasShare | owncloudComLibrary/src/main/java/com/owncloud/android/lib/resources/shares/CreateRemoteShareOperation.kt:142-146 | a successful parse of a 200 answer holds at least one share |
| CreateShare.CreateFollowUp | owncloudComLibrary/src/main/java/com/owncloud/android/lib/resources/shares/CreateRemoteShareOperation.kt:142-161 | the details are fetched exactly after a 200 whose parse succeeded, when they are wanted, and then for the first share the server returned; otherwise the parse is the result |
| CreateShare.CreateSuccess | owncloudComLibrary/src/main/java/com/owncloud/android/lib/resources/shares/CreateRemoteShareOperation.kt:142-146 | without a follow-up, a 200 succeeds exactly when the server reported success with at least one share, and then returns all of them |
| CreateShare.CreateOtherStatus | owncloudComLibrary/src/main/java/com/owncloud/android/lib/resources/shares/CreateRemoteShareOperation.kt:159-161 | after any status but 200 nothing is fetched and no link is completed; a success returns the server's shares as they came, with none required |
| CreateShare.PostHeaders | owncloudComLibrary/src/main/java/com/owncloud/android/lib/resources/shares/CreateRemoteShareOperation.kt:133-134 | the POST carries the urlencoded content type and then the OCS API header |
| CreateShare.CreateRemoteShareOperation.constructor | owncloudComLibrary/src/main/java/com/owncloud/android/lib/resources/shares/CreateRemoteShareOperation.kt:70-92 | a new operation keeps its arguments, fetches no details and has no name and the initial expiration |
| CreateShare.NewPostMethod | owncloudComLibrary/src/main/java/com/owncloud/android/lib/resources/shares/CreateRemoteShareOperation.kt:125-134 | the request is a POST to the sharing URI with the form as body, the url-encoded content type and the OCS API header |
| CreateShare.CreateRemoteShareOperation.BuildForm | owncloudComLibrary/src/main/java/com/owncloud/android/lib/resources/shares/CreateRemoteShareOperation.kt:98-123 | the builder calls give exactly the specified form for the current settings |
| CreateShare.CreateRemoteShareOperation.Answer | owncloudComLibrary/src/main/java/com/owncloud/android/lib/resources/shares/CreateRemoteShareOperation.kt:136-161 | the result after the POST returned is the specified classification of its status and body |
| CreateShare.CreateRemoteShareOperation.Run | owncloudComLibrary/src/main/java/com/owncloud/android/lib/resources/shares/CreateRemoteShareOperation.kt:94-169 | a sharing URI that is not http(s) fails with MalformedURLException before any request; otherwise one POST with the form and headers is the specified execution of that request by the client; an exception becomes the result, and an answer is classified as specified from its status and the response it leaves |
| Cookies.Dedup | owncloudComLibrary/src/main/java/com/owncloud/android/lib/common/http/HttpClient.java:98-100 | the list built from the HashSet holds exactly the given cookies, each once |
| Cookies.LoadSaved | owncloudComLibrary/src/main/java/com/owncloud/android/lib/common/http/HttpClient.java:95-109 | loading for a host after saving for it gives back exactly the saved cookies, each once |
| Cookies.LoadSavedOtherHost | owncloudComLibrary/src/main/java/com/owncloud/android/lib/common/http/HttpClient.java:97-103 | saving for one host leaves every other host's cookies as they were |
| Cookies.SaveReplaces | owncloudComLibrary/src/main/java/com/owncloud/android/lib/common/http/HttpClient.java:97-103 | a later save for a host replaces the earlier one entirely |
| Cookies.CookieStore.constructor | owncloudComLibrary/src/main/java/com/owncloud/android/lib/common/http/HttpClient.java:59 | the shared cookie store starts empty |
| Cookies.CookieStore.SaveFromResponse | owncloudComLibrary/src/main/java/com/owncloud/android/lib/common/http/HttpClient.java:97-103 | the host's list becomes the duplicate-free list of the cookies given; other hosts are untouched |
| Cookies.CookieStore.LoadForRequest | owncloudComLibrary/src/main/java/com/owncloud/android/lib/common/http/HttpClient.java:106-109 | the host's stored list is returned, and an empty list for a host never saved |
| Cookies.CookieStore.GetCookiesFromUrl | owncloudComLibrary/src/main/java/com/owncloud/android/lib/common/http/HttpClient.java:140-142 | the host's stored list is returned, and null exactly for a host never saved |
| Cookies.CookieStore.Clear | owncloudComLibrary/src/main/java/com/owncloud/android/lib/common/http/HttpClient.java:144-146 | every host is forgotten, so every later load is empty |
| RemoteFiles.DefaultsAreFolder | owncloudComLibrary/src/main/java/com/owncloud/android/lib/resources/files/RemoteFile.kt:61-77 | a file given only its path and owner is a folder (mime type DIR) with no size, time, identity, quota, link or share yet |
| RemoteFiles.MarkShareTypes | owncloudComLibrary/src/main/java/com/owncloud/android/lib/resources/files/RemoteFile.kt:137-151 | the share-type loop never clears a flag it starts with |
| RemoteFiles.MarkShareTypesMeaning | owncloudComLibrary/src/main/java/com/owncloud/android/lib/resources/files/RemoteFile.kt:137-151 | the share-type loop sets the link flag iff some value is the public-link kind and the sharee flag iff some value is a user, group or federated kind, and never clears a flag; unknown values are skipped |
| RemoteFiles.ApplyProperty | owncloudComLibrary/src/main/java/com/owncloud/android/lib/resources/files/RemoteFile.kt:103-152 | no property changes the path or the owner, and none clears a share flag |
| RemoteFiles.ApplyAll | owncloudComLibrary/src/main/java/com/owncloud/android/lib/resources/files/RemoteFile.kt:102-153 | after the whole property loop the path and the owner are those the file started with, and a share flag once set stays set |
| RemoteFiles.ApplyPropertyOthers | owncloudComLibrary/src/main/java/com/owncloud/android/lib/resources/files/RemoteFile.kt:103-152 | each property changes only the field it is about |
| RemoteFiles.ApplyAllUntouched | owncloudComLibrary/src/main/java/com/owncloud/android/lib/resources/files/RemoteFile.kt:102-153 | a field that no listed property is about keeps the value it had, so a file keeps the defaults of every field its properties do not name |
| RemoteFiles.LastMimeTypeWins | owncloudComLibrary/src/main/java/com/owncloud/android/lib/resources/files/RemoteFile.kt:110-112 | the mime type is that of the last content-type property carrying a type; later ones without a type leave it alone |
| RemoteFiles.RemotePathFromUrl | owncloudComLibrary/src/main/java/com/owncloud/android/lib/resources/files/RemoteFile.kt:167-172 | corrected: the path is cut once after the first occurrence of the user's WebDAV files path, and kept whole when that path does not occur |
| RemoteFiles.RemotePathFromUrlStrips | owncloudComLibrary/src/main/java/com/owncloud/android/lib/resources/files/RemoteFile.kt:167-172 | whatever follows the first occurrence of the user's WebDAV files path is returned as the remote path |
| RemoteFiles.RemotePathFromUrlAsWritten | owncloudComLibrary/src/main/java/com/owncloud/android/lib/resources/files/RemoteFile.kt:167-172 | as written: a path without the user's WebDAV files path is kept whole; otherwise every occurrence of the text up to and including it is removed |
| RemoteFiles.RemotePathFromUrlAgrees | owncloudComLibrary/src/main/java/com/owncloud/android/lib/resources/files/RemoteFile.kt:167-172 | the code as written and the corrected reading agree unless the remaining path again contains the removed prefix |
| RemoteFiles.RemotePathFromUrlExample | owncloudComLibrary/src/main/java/com/owncloud/android/lib/resources/files/RemoteFile.kt:161 | both readings turn the documented example into /Documents/text.txt |
| RemoteFiles.RemotePathFromUrlTwiceNamed | owncloudComLibrary/src/main/java/com/owncloud/android/lib/resources/files/RemoteFile.kt:167-172 | the corrected reading keeps a folder named like the WebDAV files path whole |
| RemoteFiles.RemotePathFromUrlAsWrittenRemovesTwice | owncloudComLibrary/src/main/java/com/owncloud/android/lib/resources/files/RemoteFile.kt:171 | as written, a folder named like the WebDAV files path loses that part of its name, so the two readings differ |
| RemoteFiles.RemoteFile.constructor | owncloudComLibrary/src/main/java/com/owncloud/android/lib/resources/files/RemoteFile.kt:61-82 | a file made from an accepted path and an owner holds exactly the defaults |
| RemoteFiles.NewRemoteFile | owncloudComLibrary/src/main/java/com/owncloud/android/lib/resources/files/RemoteFile.kt:80-82 | an empty path or one not starting with a separator throws IllegalArgumentException with the path in its message; any other gives a fresh file holding the defaults |
| RemoteFiles.RemoteFile.MarkShared | owncloudComLibrary/src/main/java/com/owncloud/android/lib/resources/files/RemoteFile.kt:137-151 | the loop over the share types leaves the two flags exactly as the specified marking of those values gives them |
| RemoteFiles.RemoteFile.Apply | owncloudComLibrary/src/main/java/com/owncloud/android/lib/resources/files/RemoteFile.kt:103-152 | one pass of the property loop changes the file exactly as applying that property specifies |
| RemoteFiles.RemoteFile.AssignNumber | owncloudComLibrary/src/main/java/com/owncloud/android/lib/resources/files/RemoteFile.kt:104-127 | storing a creation time, length, modification time or size changes the file as applying that property specifies |
| RemoteFiles.RemoteFile.AssignText | owncloudComLibrary/src/main/java/com/owncloud/android/lib/resources/files/RemoteFile.kt:110-136 | storing a mime type, etag, permissions, id, quota or private link changes the file as applying that property specifies |
| RemoteFiles.GetRemoteFileFromDav | owncloudComLibrary/src/main/java/com/owncloud/android/lib/resources/files/RemoteFile.kt:97-155 | the file built from a WebDAV response is on the remote path the code as written derives from the href (every occurrence of the prefix removed), owned by the user, with every property applied in order; a path that is not absolute throws IllegalArgumentException |
| CapabilityResponses.VersionDefaults | owncloudComLibrary/src/main/java/com/owncloud/android/lib/resources/status/responses/CapabilityResponse.kt:39-43 | without a version object the version numbers are 0 and its texts empty; with one, each present member is kept and each missing one defaults |
| CapabilityResponses.CoreAndDavDefaults | owncloudComLibrary/src/main/java/com/owncloud/android/lib/resources/status/responses/CapabilityResponse.kt:44-45 | a missing core capability gives a poll interval of 0 and a missing dav capability an empty chunking version; present ones are kept |
| CapabilityResponses.ExpireDateDaysDefault | owncloudComLibrary/src/main/java/com/owncloud/android/lib/resources/status/responses/CapabilityResponse.kt:63-64 | the expiration days are the server's number when every link of the chain is present, and 0 when any is missing |
| CapabilityResponses.PresentBooleansPassThrough | owncloudComLibrary/src/main/java/com/owncloud/android/lib/resources/status/responses/CapabilityResponse.kt:46-72 | present federation, files and sharing-API switches reach the yes/no conversion unchanged |
| CapabilityResponses.PublicBooleansPassThrough | owncloudComLibrary/src/main/java/com/owncloud/android/lib/resources/status/responses/CapabilityResponse.kt:48-67 | present public-link switches reach the yes/no conversion unchanged |
| CapabilityResponses.NoCapabilities | owncloudComLibrary/src/main/java/com/owncloud/android/lib/resources/status/responses/CapabilityResponse.kt:44-72 | a response without capabilities gives every yes/no capability the value of a missing one, and the numeric and text capabilities their defaults |
| CapabilityResponses.ToRemoteCapability | owncloudComLibrary/src/main/java/com/owncloud/android/lib/resources/status/responses/CapabilityResponse.kt:38-73 | without a version object the version numbers are 0 and its texts empty; without capabilities the poll interval and expiration days are 0, the chunking version empty and the switches take the value of a missing one |
| Accounts.GetBaseUrlForAccount | src/com/owncloud/android/lib/common/accounts/AccountUtils.java:97-106 | an account without a stored base URL throws AccountNotFoundException with the message Account not found, and only such an account does; otherwise the stored base URL is returned |
| Accounts.FullUrlExtendsBaseUrl | src/com/owncloud/android/lib/common/accounts/AccountUtils.java:63-70 | the full URL fails exactly when the base URL does, with the same exception, and is otherwise the base URL followed by /remote.php/webdav |
| Accounts.ConstructFullUrlForAccount | src/com/owncloud/android/lib/common/accounts/AccountUtils.java:63-70 | the full URL throws AccountNotFoundException exactly when no base URL is stored, and otherwise starts with the base URL and ends with /remote.php/webdav |
| Accounts.BuildAccountName | src/com/owncloud/android/lib/common/accounts/AccountUtils.java:212-225 | the account name starts with the user name followed by @ |
| Accounts.BuildAccountNameOld | src/com/owncloud/android/lib/common/accounts/AccountUtils.java:201-210 | the old account name starts with the user name, @ and the host of the address with https:// added when it has no scheme |
| Accounts.GetUsernameForAccount | src/com/owncloud/android/lib/common/accounts/AccountUtils.java:114-122 | a user name is found exactly when the account name holds an '@', and is then the text before its last '@'; a name without '@' gives null |
| Accounts.BuildAccountNameWithoutScheme | src/com/owncloud/android/lib/common/accounts/AccountUtils.java:212-225 | an address without a scheme is kept whole after the user name and '@', the https:// added to it being dropped again |
| Accounts.BuildAccountNameDropsScheme | src/com/owncloud/android/lib/common/accounts/AccountUtils.java:217-222 | an address with a scheme loses the scheme and its :// and keeps the rest after the user name and '@' |
| Accounts.UsernameOfAccountName | src/com/owncloud/android/lib/common/accounts/AccountUtils.java:114-122 | the user name of a user name, '@' and a text without '@' is that user name |
| Accounts.BuildAccountNameRoundTrip | src/com/owncloud/android/lib/common/accounts/AccountUtils.java:212-225 | the user name is found again in the account name built from it, whenever the server address has no '@' of its own |
| Accounts.PortTextHasNoAt | src/com/owncloud/android/lib/common/accounts/AccountUtils.java:206-208 | the port suffix of an old account name never holds an '@' |
| Accounts.BuildAccountNameOldRoundTrip | src/com/owncloud/android/lib/common/accounts/AccountUtils.java:201-210 | the old account name is user name, '@' and host, with ':' and the port exactly when the port is not negative, and gives the user name back when the host has no '@' |
| Accounts.CookieOf | src/com/owncloud/android/lib/common/accounts/AccountUtils.java:268-273 | a piece without '=' gives no cookie (substring throws); otherwise the name is the text before its first '=', the value the rest, on the server's host and path |
| Accounts.RestoreMeaning | src/com/owncloud/android/lib/common/accounts/AccountUtils.java:265-276 | the cookie loop fails exactly when some piece has no '='; it adds one cookie per piece in order up to the first such piece, and one per piece when there is none |
| Accounts.Restore | src/com/owncloud/android/lib/common/accounts/AccountUtils.java:267-276 | the cookie loop adds at most one cookie per piece, and exactly one per piece when it does not fail |
| Accounts.RestoreFails | src/com/owncloud/android/lib/common/accounts/AccountUtils.java:267-271 | the cookie loop fails exactly when some piece has no '=' |
| Accounts.RestoreAdds | src/com/owncloud/android/lib/common/accounts/AccountUtils.java:267-276 | the cookies added are those of the first pieces, in order, and a failure happens at the first piece without '=' right after them |
| Accounts.Pairs | src/com/owncloud/android/lib/common/accounts/AccountUtils.java:265-271 | the saved cookie string is made of one name=value pair per cookie, in order |
| Accounts.SplitCookiesString | src/com/owncloud/android/lib/common/accounts/AccountUtils.java:265 | splitting a cookie string made of pairs without ';' on ';' gives those pairs back |
| Accounts.RestoreRoundTrip | src/com/owncloud/android/lib/common/accounts/AccountUtils.java:263-276 | restoring a cookie string made from cookies whose names have no '=' and no ';' gives those cookies back, in order, each on the server's host and path, without failure |
| Accounts.SplitPairUnique | src/com/owncloud/android/lib/common/accounts/AccountUtils.java:269-271 | a pair is split at its first '=' into the name it was made from whenever that name has no '=' |
| Accounts.HttpState.constructor | src/com/owncloud/android/lib/common/accounts/AccountUtils.java:275 | a new HTTP state holds no cookie |
| Accounts.HttpState.AddCookie | src/com/owncloud/android/lib/common/accounts/AccountUtils.java:275 | the cookie is added after the ones already held |
| Accounts.RestoreCookies | src/com/owncloud/android/lib/common/accounts/AccountUtils.java:251-280 | a null account or no saved string changes nothing; otherwise the cookies of the specified loop over the pieces are added to the state in order, and the call throws StringIndexOutOfBoundsException exactly when a piece has no '=' |
| Accounts.AddCookies | src/com/owncloud/android/lib/common/accounts/AccountUtils.java:267-276 | the loop adds to the state exactly the cookies the specified restoring gives and throws exactly when it fails |
| Accounts.RestoreStops | src/com/owncloud/android/lib/common/accounts/AccountUtils.java:267-271 | once the loop has failed, later pieces change nothing |
| Strings.IndexOf | src/com/owncloud/android/lib/common/accounts/AccountUtils.java:219-220 | the result is -1 exactly when the text does not occur, and otherwise its first occurrence |
| Strings.LastIndexOf | owncloudComLibrary/src/main/java/com/owncloud/android/lib/common/RedirectionManager.java:72 | the result is -1 exactly when the text does not occur, and otherwise its last occurrence |
| Strings.IndexOfChar | src/com/owncloud/android/lib/common/accounts/AccountUtils.java:269 | the result is -1 exactly when the character is absent, and otherwise its first position |
| Strings.LastIndexOfChar | src/com/owncloud/android/lib/common/accounts/AccountUtils.java:117 | the result is -1 exactly when the character is absent, and otherwise its last position |
| Strings.JavaSplit | src/com/owncloud/android/lib/common/accounts/AccountUtils.java:265 | a text without the separator comes back whole, even when empty; otherwise its pieces come back without the trailing empty ones |
| Strings.SplitFirst | src/com/owncloud/android/lib/resources/status/GetRemoteStatusOperation.java:93 | with a limit of 2, a text splits into two parts exactly when it holds the separator, and the first part has none |
| Strings.BeforeFirst | owncloudComLibrary/src/main/java/com/owncloud/android/lib/resources/files/RemoteFile.kt:170 | the first piece of a split is the text before the first occurrence of the delimiter, or the whole text |
| Strings.ReplaceAll | owncloudComLibrary/src/main/java/com/owncloud/android/lib/resources/files/RemoteFile.kt:171 | a text that does not contain the pattern is left unchanged |
| Strings.SplitOnPieces | owncloudComLibrary/src/main/java/com/owncloud/android/lib/resources/files/RemoteFile.kt:171 | the pieces between the occurrences found left to right: each piece is free of the pattern, there is more than one piece exactly when the text contains it, and the first separator is its first occurrence |
| Strings.JoinSplitOn | owncloudComLibrary/src/main/java/com/owncloud/android/lib/resources/files/RemoteFile.kt:171 | joining the pieces again with the pattern gives the text back |
| Strings.ReplaceAllJoinsPieces | owncloudComLibrary/src/main/java/com/owncloud/android/lib/resources/files/RemoteFile.kt:171 | replacing is joining the same pieces with the replacement instead of the pattern |
| Strings.JoinSplitAll | src/com/owncloud/android/lib/common/accounts/AccountUtils.java:265 | splitting and joining again on the same separator gives the text back |
| Strings.SplitAllJoin | src/com/owncloud/android/lib/common/accounts/AccountUtils.java:265 | joining pieces that do not hold the separator and splitting again gives the pieces back |
| Strings.NatToStringInjective | owncloudComLibrary/src/main/java/com/owncloud/android/lib/common/OwnCloudClient.java:125 | different numbers have different decimal renderings |
| Strings.IntToString | src/com/owncloud/android/lib/common/accounts/AccountUtils.java:206-208 | a number's decimal text starts with '-' exactly when it is negative |

## Left out

- `mSynchronizeRequests` and the request mutex around `executeHttpMethod` are not modelled: the call is the retry loop of `saveExecuteHttpMethod` on its own.
- Cookies.Dedup: promises the same set of cookies without duplicates, not their order, because the order of a Java `HashSet` is unspecified.
- Network I/O, connection pooling, TLS, `releaseConnection` and the interceptor plumbing of OkHttp: the transport is the `Server` parameter.
- Concurrency: the client's lock and the static cookie store shared between threads are modelled as single-threaded state.
- Logging (`Timber`, `Log_OC`): it has no effect on results.
- The number of unauthorized retries and of redirect hops is taken to be bounded. The `requires` clauses that carry these bounds stand in for the server's behaviour.
- The redirect loop of `tryConnection` (src/com/owncloud/android/lib/resources/status/GetRemoteStatusOperation.java:105-121) has no bound of its own: a server that keeps redirecting keeps it going, as `GetRemoteStatus.ChaseSelfRedirectNeverEnds` shows for a server that repeats one redirect. `TryConnection` and `Run` of `GetRemoteStatusOperation` require that the walk ends within a given number of hops, so the model does not cover a server that never stops.
- `WebdavUtils.encodePath`, form percent-encoding and `Uri.decode` are not modelled:
  - paths are used as given;
  - `RemoteFile` is built from the already decoded WebDAV path.
- Android's `Uri` and `Uri.Builder` are approximated:
  - `getScheme` is null exactly when the text has no ':';
  - `getHost`, `getPort` and `getPath` are parameters;
  - `appendEncodedPath` is a join on text.
- Base64 encoding in basic authentication: the modelled header value carries `user:password` unencoded after `Basic `, so equal credentials still give equal headers.
- The `Destination` and `Overwrite` headers that `CopyMethod` sets are modelled in the copy operation. `CopyMethod` itself is not part of this model.
- The older client used by `GetRemoteStatusOperation`, `OwnCloudServerCheckOperation` and the PUTs of `UpdateRemoteShareOperation` (src/com/owncloud/android/lib/resources/shares/UpdateRemoteShareOperation.java:227):
  - its `executeMethod` is modelled as one exchange with its own request shape;
  - that client is not part of this model.
- Relative `Location` headers: locations are taken as absolute URLs.
- The user-info part of a URL is given as a parameter.
- `OwnCloudVersion` is abstract: its parser is not part of this model.
- Parameters instead of models:
  - the JSON and XML parsers, and the date formatting;
  - the sharing API path and the public link path;
  - `GetRemoteShareOperation` (the share fetch after a create, owncloudComLibrary/src/main/java/com/owncloud/android/lib/resources/shares/CreateRemoteShareOperation.kt:148-157), which is not part of this model.
- `CapabilityBooleanType.fromBooleanValue` is a parameter whose three values are assumed.
- Account manager lookups (stored base URL, saved cookies) are parameters.
- Constants not among the source files of this model are assumed:
  - `DEFAULT_PERMISSION` is -1;
  - the OCS header is `OCS-APIREQUEST: true`;
  - the share-type values;
  - the form content type and the `HttpConstants` status and header names;
  - the scheme prefixes `https://` and `http://`.
- WebDAV property values arrive already typed:
  - a failing `toLong` of the creation date and a failing `toInt` of a share type are not modelled;
  - quota values (`BigDecimal`) are modelled as integers.
- The `HttpState` of the older client is modelled as a list its `addCookie` appends to.
- The commons-httpclient `Cookie` that `restoreCookies` builds keeps only the name, value, domain and path it sets; its other fields stay at their defaults and are not modelled.
- Client.OwnCloudClient.NextRequestId: the request id is not the random UUID of owncloudComLibrary/src/main/java/com/owncloud/android/lib/common/OwnCloudClient.java:125 (and owncloudComLibrary/src/main/java/com/owncloud/android/lib/common/RedirectionManager.java:30) but the decimal rendering of a per-client counter, so the distinctness of ids that the model proves is a property of the counter; a random UUID is only unique with overwhelming probability.
- `getServerVersionForAccount`, `getCredentialsForAccount` and `saveClient` of `AccountUtils` are not modelled: they read the account manager and build objects the model does not have.
- `constructBasicURLForAccount` is not modelled separately: it returns what `getBaseUrlForAccount` returns.
- Aliasing: the share objects passed between the operations and the app are not modelled.
- CheckPathExistence.SendPropfind: the request carries the PROPFIND verb and depth 0, but not the list of properties in its XML body (`allPropset`, which is not part of this model), nor how dav4jvm turns the depth into a `Depth` header.
- RemoteResults.OfResponse and RemoteResults.OfFlaggedResponse: `RemoteOperationResult` is not part of this model. Every failure built from a response has the one code `HttpFailure` and keeps the status and headers, so the model does not tell apart the codes the source derives from the status (such as UNAUTHORIZED, FILE_NOT_FOUND or SERVICE_UNAVAILABLE).
- RemoteResults.OfException: every exception becomes `ExceptionThrown` carrying the exception itself, so the codes the source derives from the exception's class (such as TIMEOUT, HOST_NOT_AVAILABLE or SSL_ERROR) are not told apart; only `IsSslRecoverableException` looks inside.
- The lower-case `location` and `destination` fallbacks of `RedirectionManager` are not modelled: header names compare without regard to case, so those fallbacks never find anything new.

## Findings

| source | as written | input that shows it | evidently intended | confidence | as-written member | corrected member |
|---|---|---|---|---|---|---|
| owncloudComLibrary/src/main/java/com/owncloud/android/lib/common/RedirectionManager.java:71-76 | the redirect base is found by searching the location for the whole user-files URI, old host included, and `substring(0, -1)` throws when it is absent | location `https://b/remote.php/dav/files/u1/f`, destination `https://a/remote.php/dav/files/u1/t`, base URI `https://a`: `StringIndexOutOfBoundsException` | search the location for the user-files path, so the destination moves to the new server as `https://b/remote.php/dav/files/u1/t` | medium, not executed | Redirection.BuildDestinationCrossHostAsWritten | Redirection.BuildDestinationOnNewServer |
| owncloudComLibrary/src/main/java/com/owncloud/android/lib/resources/files/RemoteFile.kt:167-172 | `replace` removes every occurrence of the prefix and WebDAV files path, not only the leading one | path `/remote.php/dav/files/alice/backup/remote.php/dav/files/alice/x.txt` with user `alice` gives `/backup/x.txt` | `/backup/remote.php/dav/files/alice/x.txt`: only the leading prefix is cut | medium, not executed | RemoteFiles.RemotePathFromUrlAsWrittenRemovesTwice | RemoteFiles.RemotePathFromUrlStrips |
