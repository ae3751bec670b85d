/**
 * `RedirectionManager`: follows the redirects of an executed method by hand.
 * It makes at most three hops over the statuses 301, 302 and 307 (section 15.4
 * of RFC 9110). Each hop re-executes the method at the new location and records
 * the location and the status it got in a `RedirectionPath`. A WebDAV
 * `Destination` header (section 10.3 of RFC 4918) is rewritten to point at the
 * redirected server.
 */
module Redirection {
  import opened Wrappers
  import opened Strings
  import opened Headers
  import opened Http
  import opened HttpMethods
  import opened Client

  const MaxRedirectionsCount := 3
  const DestinationHeader := "Destination"
  const DestinationHeaderLower := "destination"

  /**
   * The statuses a redirection went through, the first one being the status of
   * the original execution, and the location of every hop.
   */
  datatype RedirectionPath = RedirectionPath(statuses: seq<int>, locations: seq<string>)

  predicate IsRedirectStatus(status: int) {
    status == HttpMovedPermanently || status == HttpMovedTemporarily || status == HttpTemporaryRedirect
  }

  /** `shouldFollowRedirection`. */
  predicate ShouldFollowRedirection(redirectionsCount: int, status: int): (follow: bool)
    ensures redirectionsCount >= MaxRedirectionsCount ==> !follow
    ensures follow ==> 300 <= status < 400
  {
    redirectionsCount < MaxRedirectionsCount && IsRedirectStatus(status)
  }

  /**
   * `getLocationFromMethod`: the `Location` response header, or else the
   * `location` one. Header names compare without case, so the fallback never
   * finds anything the first lookup missed.
   */
  function LocationFromHeaders(hs: HeaderList): (r: Option<string>)
    ensures r == Get(hs, LocationHeader)
  {
    var canonical := Get(hs, LocationHeader);
    if canonical.Some? then canonical
    else
      ValuesSameName(hs, LocationHeader, LocationHeaderLower);
      Get(hs, LocationHeaderLower)
  }

  /** `getDestinationFromMethod`: the same lookup on the request's `Destination` header. */
  function DestinationFromHeaders(hs: HeaderList): (r: Option<string>)
    ensures r == Get(hs, DestinationHeader)
  {
    var canonical := Get(hs, DestinationHeader);
    if canonical.Some? then canonical
    else
      ValuesSameName(hs, DestinationHeader, DestinationHeaderLower);
      Get(hs, DestinationHeaderLower)
  }

  /**
   * `buildDestinationHeader`: the part of the location before the last
   * occurrence of `searched`, followed by the destination without its first
   * `|baseUri|` characters. Either `substring` throws
   * `StringIndexOutOfBoundsException` when its index is out of range. The code
   * searches for the whole user-files URI, old host included; searching for
   * the user-files path alone is the correction (see
   * `BuildDestinationOnNewServer`).
   */
  function BuildDestinationHeader(location: string, destination: string, searched: string, baseUri: string)
    : (r: Outcome<string>)
    ensures r.Returned? <==> Contains(location, searched) && |baseUri| <= |destination|
    ensures r.Threw? ==> r.exception == StringIndexOutOfBounds
  {
    var suffixIndex := LastIndexOf(location, searched);
    if suffixIndex < 0 then Threw(StringIndexOutOfBounds)
    else if |baseUri| > |destination| then Threw(StringIndexOutOfBounds)
    else Returned(location[..suffixIndex] + destination[|baseUri|..])
  }

  /**
   * What a rewrite that succeeds is made of: the location up to the last
   * occurrence of `searched`, then the destination without its first
   * `|baseUri|` characters.
   */
  lemma BuildDestinationHeaderSplices(location: string, destination: string, searched: string, baseUri: string)
    ensures var r := BuildDestinationHeader(location, destination, searched, baseUri);
            r.Returned? ==>
              var k := |r.value| - (|destination| - |baseUri|);
              0 <= k <= |location| && r.value[..k] == location[..k] && r.value[k..] == destination[|baseUri|..] &&
              OccursAt(location, searched, k) && forall j :: k < j ==> !OccursAt(location, searched, j)
  {
    var r := BuildDestinationHeader(location, destination, searched, baseUri);
    if r.Returned? {
      var k := LastIndexOf(location, searched);
      assert r.value == location[..k] + destination[|baseUri|..];
      assert |r.value| - (|destination| - |baseUri|) == k;
    }
  }

  /**
   * The correction: searching for the user-files path instead of the whole
   * URI. For a location on a new server `newBase` that carries the user-files
   * path once, and a destination under the old base, the header moves the
   * destination onto the new server, keeping its path.
   */
  lemma BuildDestinationOnNewServer(newBase: string, baseUri: string, userFilesPath: string, rest: string, g: string)
    requires forall j :: |newBase| < j ==> !OccursAt(newBase + userFilesPath + rest, userFilesPath, j)
    ensures BuildDestinationHeader(newBase + userFilesPath + rest, baseUri + userFilesPath + g, userFilesPath, baseUri)
              == Returned(newBase + userFilesPath + g)
  {
    var location := newBase + userFilesPath + rest;
    var destination := baseUri + userFilesPath + g;
    assert location[|newBase|..|newBase| + |userFilesPath|] == userFilesPath;
    assert OccursAt(location, userFilesPath, |newBase|);
    var i := LastIndexOf(location, userFilesPath);
    assert i == |newBase|;
    assert location[..i] == newBase;
    assert destination[|baseUri|..] == userFilesPath + g;
    assert newBase + (userFilesPath + g) == newBase + userFilesPath + g;
  }

  /**
   * When the location stays on the original server, the header as written
   * (searching for the whole URI) is the bare path, and the corrected one
   * (searching for the path) the same path on the base URI.
   */
  lemma BuildDestinationSameServer(baseUri: string, userFilesPath: string, rest: string, g: string)
    requires forall j :: |baseUri| < j ==> !OccursAt(baseUri + userFilesPath + rest, userFilesPath, j)
    ensures var location := baseUri + userFilesPath + rest;
            var destination := baseUri + userFilesPath + g;
            BuildDestinationHeader(location, destination, baseUri + userFilesPath, baseUri)
              == Returned(userFilesPath + g) &&
            BuildDestinationHeader(location, destination, userFilesPath, baseUri)
              == Returned(baseUri + userFilesPath + g)
  {
    var location := baseUri + userFilesPath + rest;
    var uri := baseUri + userFilesPath;
    assert location[..|uri|] == uri;
    assert OccursAt(location, uri, 0);
    forall j | 0 < j
      ensures !OccursAt(location, uri, j)
    {
      if OccursAt(location, uri, j) {
        assert location[j + |baseUri|..j + |uri|] == location[j..j + |uri|][|baseUri|..];
        assert OccursAt(location, userFilesPath, j + |baseUri|);
      }
    }
    assert LastIndexOf(location, uri) == 0;
    assert (baseUri + userFilesPath + g)[|baseUri|..] == userFilesPath + g;
    assert location[..0] + (userFilesPath + g) == userFilesPath + g;
    BuildDestinationOnNewServer(baseUri, baseUri, userFilesPath, rest, g);
  }

  /**
   * A redirect to another host: the rewrite as written throws, because the
   * old host's user-files URI does not occur in the new location.
   */
  lemma BuildDestinationCrossHostAsWritten()
    ensures BuildDestinationHeader("https://b/remote.php/dav/files/u1/f",
              "https://a/remote.php/dav/files/u1/t", "https://a/remote.php/dav/files/u1", "https://a")
            == Threw(StringIndexOutOfBounds)
  {
    var location := "https://b/remote.php/dav/files/u1/f";
    var uri := "https://a/remote.php/dav/files/u1";
    assert |location| == 35 && |uri| == 33;
    forall j | 0 <= j <= |location|
      ensures !OccursAt(location, uri, j)
    {
      if j + |uri| <= |location| {
        if j == 0 {
          assert location[8] != uri[8];
        } else {
          assert location[j] != uri[0];
        }
      }
    }
  }

  /** The headers every redirected re-execution sets, authorization included. */
  predicate CarriesRedirectHeaders(hs: HeaderList, id: string, userAgent: string, c: Credentials) {
    Get(hs, RequestIdHeader) == Some(id) &&
    Get(hs, UserAgentHeader) == Some(userAgent) &&
    Get(hs, SingleCookieHeader) == Some("true") &&
    Get(hs, AcceptEncodingHeader) == Some(AcceptEncodingIdentity) &&
    Get(hs, AuthorizationHeader) == Some(HeaderAuth(c))
  }

  /**
   * What stays fixed across the repeats of one redirected re-execution: the
   * transport, the URL, the first request id, the user agent, the credentials
   * written into each request, the request's `Destination` header and the
   * client's repeat decision.
   */
  datatype Redirected = Redirected(server: Server, url: string, id0: nat, userAgent: string, credentials: Credentials,
                                   destination: Option<string>, checkUnauthorizedAccess: (int, nat) -> bool)

  /**
   * The `i`-th attempt of a redirected re-execution: the server's reply to a
   * request for the URL that carries the id numbered `id0 + i`, the redirect
   * headers and the `Destination` header.
   */
  predicate IsRedirectedAttempt(a: Attempt, r: Redirected, i: nat) {
    a.reply == r.server(a.request) && a.request.url == r.url &&
    CarriesRedirectHeaders(a.request.headers, RequestId(r.id0 + i), r.userAgent, r.credentials) &&
    Get(a.request.headers, DestinationHeader) == r.destination
  }

  /** `checkUnauthorizedAccess(status, counter)`: whether to repeat with fresh credentials. */
  predicate Repeats(checkUnauthorizedAccess: (int, nat) -> bool, status: int, counter: nat) {
    checkUnauthorizedAccess(status, counter)
  }

  /** The repeat decision says no once `bound` repeats have been made. */
  ghost predicate RepeatsBounded(checkUnauthorizedAccess: (int, nat) -> bool, bound: nat) {
    forall status: int, counter: nat :: counter >= bound ==> !Repeats(checkUnauthorizedAccess, status, counter)
  }

  /** Attempts that were each answered and repeated, the `i`-th after `i` repeats. */
  ghost predicate RepeatedTrace(attempts: seq<Attempt>, r: Redirected) {
    forall i :: 0 <= i < |attempts| ==>
      IsRedirectedAttempt(attempts[i], r, i) &&
      attempts[i].reply.Answered? && Repeats(r.checkUnauthorizedAccess, attempts[i].reply.response.status, i)
  }

  /**
   * A whole redirected re-execution: every attempt but the last was answered
   * and repeated, the last was sent like the others, and `out` is its outcome,
   * which was not repeated.
   */
  ghost predicate RedirectedRun(attempts: seq<Attempt>, r: Redirected, out: Outcome<int>) {
    |attempts| >= 1 &&
    RepeatedTrace(attempts[..|attempts| - 1], r) &&
    IsRedirectedAttempt(attempts[|attempts| - 1], r, |attempts| - 1) &&
    out == AttemptOutcome(attempts[|attempts| - 1]) &&
    (out.Returned? ==> !Repeats(r.checkUnauthorizedAccess, out.value, |attempts| - 1))
  }

  lemma RepeatedTraceAppend(attempts: seq<Attempt>, a: Attempt, r: Redirected)
    requires RepeatedTrace(attempts, r)
    requires IsRedirectedAttempt(a, r, |attempts|)
    requires a.reply.Answered? && Repeats(r.checkUnauthorizedAccess, a.reply.response.status, |attempts|)
    ensures RepeatedTrace(attempts + [a], r)
  {
    var all := attempts + [a];
    forall i | 0 <= i < |all|
      ensures IsRedirectedAttempt(all[i], r, i) &&
              all[i].reply.Answered? && Repeats(r.checkUnauthorizedAccess, all[i].reply.response.status, i)
    {
      if i < |attempts| {
        assert all[i] == attempts[i];
      }
    }
  }

  /** A run under a bounded repeat decision makes at most `bound + 1` attempts. */
  lemma RedirectedRunBounded(attempts: seq<Attempt>, r: Redirected, out: Outcome<int>, bound: nat)
    requires RepeatsBounded(r.checkUnauthorizedAccess, bound)
    requires RedirectedRun(attempts, r, out)
    ensures |attempts| <= bound + 1
  {
    var n := |attempts| - 1;
    if n > 0 {
      var a := attempts[..n][n - 1];
      assert Repeats(r.checkUnauthorizedAccess, a.reply.response.status, n - 1);
    }
  }

  /** Every request of a run carries a fresh id: no two attempts share one. */
  lemma RedirectedRunIdsDistinct(attempts: seq<Attempt>, r: Redirected, out: Outcome<int>, i: nat, j: nat)
    requires RedirectedRun(attempts, r, out)
    requires i < j < |attempts|
    ensures Get(attempts[i].request.headers, RequestIdHeader) != Get(attempts[j].request.headers, RequestIdHeader)
  {
    assert attempts[..|attempts| - 1][i] == attempts[i];
    if j < |attempts| - 1 {
      assert attempts[..|attempts| - 1][j] == attempts[j];
    }
    RequestIdFresh(r.id0 + i, r.id0 + j);
  }

  /** The request headers after the header block of a redirected re-execution. */
  function RedirectHeaders(hs: HeaderList, id: string, userAgent: string, c: Credentials): HeaderList {
    Set(Set(Set(Set(Set(hs, RequestIdHeader, id), UserAgentHeader, userAgent), SingleCookieHeader, "true"),
            AcceptEncodingHeader, AcceptEncodingIdentity), AuthorizationHeader, HeaderAuth(c))
  }

  /** The header block sets the five headers and keeps the `Destination` header. */
  lemma RedirectHeadersGet(hs: HeaderList, id: string, userAgent: string, c: Credentials)
    ensures CarriesRedirectHeaders(RedirectHeaders(hs, id, userAgent, c), id, userAgent, c)
    ensures Get(RedirectHeaders(hs, id, userAgent, c), DestinationHeader) == Get(hs, DestinationHeader)
  {
    var h1 := Set(hs, RequestIdHeader, id);
    var h2 := Set(h1, UserAgentHeader, userAgent);
    var h3 := Set(h2, SingleCookieHeader, "true");
    var h4 := Set(h3, AcceptEncodingHeader, AcceptEncodingIdentity);
    var names := [RequestIdHeader, UserAgentHeader, SingleCookieHeader, AcceptEncodingHeader, AuthorizationHeader,
                  DestinationHeader];
    forall n | n in names
      ensures Get(RedirectHeaders(hs, id, userAgent, c), n) ==
        if n == RequestIdHeader then Some(id)
        else if n == UserAgentHeader then Some(userAgent)
        else if n == SingleCookieHeader then Some("true")
        else if n == AcceptEncodingHeader then Some(AcceptEncodingIdentity)
        else if n == AuthorizationHeader then Some(HeaderAuth(c))
        else Get(hs, n)
    {
      GetSet(hs, RequestIdHeader, id, n);
      GetSet(h1, UserAgentHeader, userAgent, n);
      GetSet(h2, SingleCookieHeader, "true", n);
      GetSet(h3, AcceptEncodingHeader, AcceptEncodingIdentity, n);
      GetSet(h4, AuthorizationHeader, HeaderAuth(c), n);
    }
  }

  /** An `HttpException` whose message mentions 302 is taken as that status; anything else stands. */
  function Recover302(o: Outcome<int>): (r: Outcome<int>)
    ensures o.Returned? ==> r == o
    ensures r.Threw? ==> r == o
    ensures r != o <==> o.Threw? && o.exception.HttpException? &&
                        Contains(o.exception.message, IntToString(HttpMovedTemporarily))
  {
    if o.Threw? && o.exception.HttpException? && Contains(o.exception.message, IntToString(HttpMovedTemporarily))
    then Returned(HttpMovedTemporarily)
    else o
  }

  /**
   * The `Destination` header a hop sends: none when the request has none,
   * otherwise the one `buildDestinationHeader` builds against the client's
   * user-files URI, or the exception it throws.
   */
  function RewrittenDestination(location: string, destination: Option<string>, userFilesUri: string, baseUri: string)
    : (r: Outcome<Option<string>>)
    ensures destination.None? ==> r == Returned(None)
    ensures destination.Some? ==>
              (r.Threw? <==> !Contains(location, userFilesUri) || |destination.value| < |baseUri|)
    ensures r.Threw? ==> r.exception == StringIndexOutOfBounds
    ensures r.Returned? && destination.Some? ==>
              r.value == Some(BuildDestinationHeader(location, destination.value, userFilesUri, baseUri).value)
  {
    match destination
    case None => Returned(None)
    case Some(d) =>
      match BuildDestinationHeader(location, d, userFilesUri, baseUri)
      case Threw(e) => Threw(e)
      case Returned(v) => Returned(Some(v))
  }

  /** The response and the body stream after a single attempt. */
  lemma SingleAttempt(a: Attempt, before: Option<Response>, open: bool)
    ensures LastResponse([a], before) == if a.reply.Answered? then Some(a.reply.response) else before
    ensures BodyOpenAfter([a], open) == if a.reply.Answered? then a.reply.response.body.Some? else open
  {
    assert [a][..0] == [];
    assert LastResponse([a], None) == if a.reply.Answered? then Some(a.reply.response) else None;
  }

  /** What one hop of `followRedirection` works with: the transport, the repeat decision and the client's fields. */
  datatype HopEnv = HopEnv(server: Server, checkUnauthorizedAccess: (int, nat) -> bool, userAgent: string,
                           credentials: Credentials, userFilesUri: string, baseUri: string)

  /**
   * One hop of `followRedirection`: the response whose location is followed,
   * the location, the request's `Destination` header at that point, the first
   * request number of the re-execution, what the re-execution returned or
   * threw, its attempts, and the hop's outcome.
   */
  datatype HopRecord = HopRecord(before: Response, location: string, destination: Option<string>, id0: nat,
                                 executed: Outcome<int>, attempts: seq<Attempt>, outcome: Outcome<int>)

  /**
   * A hop as the code makes it: a location okhttp cannot parse throws
   * `NullPointerException` in `setUrl` before anything is sent; a rewrite
   * that throws sends nothing either; otherwise the outcome is the
   * re-execution at the location, with the rewritten `Destination`, after
   * the 302 recovery.
   */
  ghost predicate ValidHop(h: HopRecord, env: HopEnv) {
    if !IsHttpUrl(h.location) then h.outcome == Threw(NullPointer) && h.attempts == []
    else
      var rewritten := RewrittenDestination(h.location, h.destination, env.userFilesUri, env.baseUri);
      if rewritten.Threw? then h.outcome == Threw(rewritten.exception) && h.attempts == []
      else
        RedirectedRun(h.attempts, Redirected(env.server, h.location, h.id0, env.userAgent, env.credentials,
                                             rewritten.value, env.checkUnauthorizedAccess), h.executed) &&
        h.outcome == Recover302(h.executed)
  }

  /** The `Destination` header the request carries after a hop. */
  function DestinationAfter(h: HopRecord, env: HopEnv): Option<string> {
    var rewritten := RewrittenDestination(h.location, h.destination, env.userFilesUri, env.baseUri);
    if rewritten.Returned? then rewritten.value else h.destination
  }

  /** The response left on the method after a hop: the last answered one, or the one the hop started from. */
  function ResponseAfter(h: HopRecord): Response {
    match LastResponse(h.attempts, Some(h.before))
    case Some(r) => r
    case None => h.before
  }

  /**
   * What `followRedirection` reads and changes on the method and the client:
   * the method's response, whether its body stream is open, its
   * `Destination` header and the client's request counter.
   */
  datatype MethodState = MethodState(response: Option<Response>, bodyOpen: bool, destination: Option<string>,
                                     counter: nat)

  /** The state a hop that returned leaves behind. */
  function AfterHop(h: HopRecord, env: HopEnv): MethodState {
    MethodState(Some(ResponseAfter(h)), BodyOpenAfter(h.attempts, false), DestinationAfter(h, env),
                h.id0 + |h.attempts|)
  }

  /** The state after some hops: where the last one left it, or where the walk started. */
  function StateAfter(hops: seq<HopRecord>, env: HopEnv, start: MethodState): MethodState {
    if hops == [] then start else AfterHop(hops[|hops| - 1], env)
  }

  /** A hop starts from a state: its response, `Destination` header and first request number. */
  predicate StartsAt(h: HopRecord, s: MethodState) {
    s.response == Some(h.before) && s.destination == h.destination && s.counter == h.id0
  }

  /**
   * The hops of one `followRedirection`: none, or hops whose last one is
   * valid in the sense of `LastHopValid`.
   */
  ghost predicate HopChain(hops: seq<HopRecord>, env: HopEnv, start: MethodState)
    decreases |hops|, 1
  {
    hops == [] || LastHopValid(hops, env, start)
  }

  /**
   * The hops before the last form a chain; the last is taken while fewer
   * than three hops were made, follows the `Location` header of the response
   * it starts from and is made as the code makes it. The first hop starts
   * where the walk started, from the redirect status of that response; any
   * later one starts where the one before it ended, after that one returned
   * a redirect status (the status the loop tests, which a recovered 302 sets
   * without a 302 response).
   */
  ghost predicate LastHopValid(hops: seq<HopRecord>, env: HopEnv, start: MethodState)
    decreases |hops|, 0
  {
    hops != [] &&
    var h, earlier := hops[|hops| - 1], hops[..|hops| - 1];
    HopChain(earlier, env, start) && |earlier| < MaxRedirectionsCount &&
    ValidHop(h, env) && Some(h.location) == LocationFromHeaders(h.before.headers) &&
    if earlier == [] then StartsAt(h, start) && IsRedirectStatus(h.before.status)
    else
      var previous := earlier[|earlier| - 1];
      previous.outcome.Returned? && IsRedirectStatus(previous.outcome.value) && StartsAt(h, AfterHop(previous, env))
  }

  lemma HopChainAppend(hops: seq<HopRecord>, h: HopRecord, env: HopEnv, start: MethodState)
    requires HopChain(hops, env, start)
    requires ValidHop(h, env) && Some(h.location) == LocationFromHeaders(h.before.headers)
    requires hops != [] ==> hops[|hops| - 1].outcome.Returned?
    requires |hops| < MaxRedirectionsCount
    requires IsRedirectStatus(if hops == [] then h.before.status else hops[|hops| - 1].outcome.value)
    requires StartsAt(h, StateAfter(hops, env, start))
    ensures HopChain(hops + [h], env, start)
  {
    assert (hops + [h])[..|hops|] == hops;
    assert LastHopValid(hops + [h], env, start);
  }

  /**
   * The chain read hop by hop: hop `i` follows the `Location` of the
   * response it starts from and is made as the code makes it; the first hop
   * starts where the walk started and every later one where the one before
   * it, which returned, ended.
   */
  lemma {:induction false} HopChainAt(hops: seq<HopRecord>, env: HopEnv, start: MethodState, i: nat)
    requires HopChain(hops, env, start) && i < |hops|
    ensures ValidHop(hops[i], env) && Some(hops[i].location) == LocationFromHeaders(hops[i].before.headers)
    ensures i < MaxRedirectionsCount
    ensures i == 0 ==> StartsAt(hops[0], start) && IsRedirectStatus(hops[0].before.status)
    ensures 0 < i ==>
              hops[i - 1].outcome.Returned? && IsRedirectStatus(hops[i - 1].outcome.value) &&
              StartsAt(hops[i], AfterHop(hops[i - 1], env))
    decreases |hops|
  {
    assert LastHopValid(hops, env, start);
    var earlier := hops[..|hops| - 1];
    if i < |earlier| {
      HopChainAt(earlier, env, start, i);
      assert hops[i] == earlier[i];
      if 0 < i {
        assert hops[i - 1] == earlier[i - 1];
      }
    }
  }

  /**
   * A redirection path as `followRedirection` builds it: the first status is
   * the one the method had, every hop was taken from a redirect status to an
   * HTTP location, and there are at most three hops.
   */
  predicate WellFormedPath(path: RedirectionPath, status0: int) {
    |path.statuses| == |path.locations| + 1 && |path.locations| <= MaxRedirectionsCount &&
    path.statuses[0] == status0 &&
    (forall i :: 0 <= i < |path.locations| ==> IsRedirectStatus(path.statuses[i]) && IsHttpUrl(path.locations[i]))
  }

  /**
   * Why the walk stopped: three hops were made, or the last status is not a
   * redirect, or the last response is a redirect without a location.
   */
  predicate StopsAt(path: RedirectionPath, lastHeaders: HeaderList)
    requires |path.statuses| >= 1
  {
    |path.locations| == MaxRedirectionsCount || !IsRedirectStatus(path.statuses[|path.statuses| - 1]) ||
    LocationFromHeaders(lastHeaders).None?
  }

  /**
   * The walk after the hops `hops`, as values: the path records their
   * locations and the statuses they returned, and the state is where the
   * last hop left it (or where the walk started).
   */
  ghost predicate Walked(path: RedirectionPath, hops: seq<HopRecord>, env: HopEnv, start: MethodState, now: MethodState)
  {
    |path.locations| == |hops| && |path.statuses| == |hops| + 1 &&
    HopChain(hops, env, start) &&
    (forall i :: 0 <= i < |hops| ==>
       hops[i].outcome.Returned? && path.locations[i] == hops[i].location && path.statuses[i + 1] == hops[i].outcome.value) &&
    now == StateAfter(hops, env, start)
  }

  /** The path records the hops: one location and one status per hop, as the hop found them. */
  ghost predicate PathRecords(path: RedirectionPath, hops: seq<HopRecord>) {
    |path.locations| == |hops| && |path.statuses| == |hops| + 1 &&
    forall i :: 0 <= i < |hops| ==>
      hops[i].outcome.Returned? && path.locations[i] == hops[i].location && path.statuses[i + 1] == hops[i].outcome.value
  }

  /** A hop that returned a status extends the walk by its location and that status. */
  lemma WalkedAppend(path: RedirectionPath, hops: seq<HopRecord>, h: HopRecord, env: HopEnv, start: MethodState,
                     now: MethodState)
    requires Walked(path, hops, env, start, now)
    requires Some(h.location) == LocationFromHeaders(h.before.headers) && StartsAt(h, now)
    requires ValidHop(h, env) && h.outcome.Returned? && HopChain(hops + [h], env, start)
    ensures Walked(RedirectionPath(path.statuses + [h.outcome.value], path.locations + [h.location]), hops + [h], env,
                   start, AfterHop(h, env))
  {
    var path' := RedirectionPath(path.statuses + [h.outcome.value], path.locations + [h.location]);
    var hops' := hops + [h];
    forall i | 0 <= i < |hops'|
      ensures hops'[i].outcome.Returned? && path'.locations[i] == hops'[i].location &&
              path'.statuses[i + 1] == hops'[i].outcome.value
    {
      if i < |hops| {
        assert hops'[i] == hops[i];
      }
    }
  }

  /**
   * The loop state of `followRedirection` as values: the walk so far, the
   * status the loop tests next (the last one on the path, or 404 once a
   * redirect without a location was met) and the method's URL.
   */
  ghost predicate Following(path: RedirectionPath, hops: seq<HopRecord>, status: int, url: string, url0: string,
                            env: HopEnv, start: MethodState, now: MethodState)
  {
    start.response.Some? && WellFormedPath(path, start.response.value.status) &&
    Walked(path, hops, env, start, now) &&
    now.response.Some? &&
    (status == path.statuses[|path.statuses| - 1] ||
     (status == HttpNotFound && LocationFromHeaders(now.response.value.headers).None?)) &&
    url == (if path.locations == [] then url0 else path.locations[|path.locations| - 1])
  }

  /** A redirect followed to an HTTP location extends a well-formed path. */
  lemma WellFormedPathAppend(path: RedirectionPath, status0: int, status: int, location: string)
    requires WellFormedPath(path, status0) && |path.locations| < MaxRedirectionsCount
    requires IsRedirectStatus(path.statuses[|path.statuses| - 1]) && IsHttpUrl(location)
    ensures WellFormedPath(RedirectionPath(path.statuses + [status], path.locations + [location]), status0)
  {
    var path' := RedirectionPath(path.statuses + [status], path.locations + [location]);
    forall i | 0 <= i < |path'.locations|
      ensures IsRedirectStatus(path'.statuses[i]) && IsHttpUrl(path'.locations[i])
    {
      if i < |path.locations| {
        assert path'.statuses[i] == path.statuses[i] && path'.locations[i] == path.locations[i];
      }
    }
  }

  /** Before the first hop the path holds only the status of the first response. */
  lemma FollowingStart(url0: string, env: HopEnv, start: MethodState)
    requires start.response.Some?
    ensures Following(RedirectionPath([start.response.value.status], []), [], start.response.value.status, url0, url0,
                      env, start, start)
  {
  }

  /** A redirect without a location turns the status the loop tests into 404. */
  lemma FollowingNotFound(path: RedirectionPath, hops: seq<HopRecord>, status: int, url: string, url0: string,
                          env: HopEnv, start: MethodState, now: MethodState)
    requires Following(path, hops, status, url, url0, env, start, now)
    requires now.response.Some? && LocationFromHeaders(now.response.value.headers).None?
    ensures Following(path, hops, HttpNotFound, url, url0, env, start, now)
  {
  }

  /** What `followRedirection` promises once its loop has stopped. */
  lemma FollowingEnd(path: RedirectionPath, hops: seq<HopRecord>, status: int, url: string, url0: string,
                     env: HopEnv, start: MethodState, now: MethodState)
    requires Following(path, hops, status, url, url0, env, start, now)
    requires !ShouldFollowRedirection(|path.locations|, status)
    ensures HopChain(hops, env, start) && |hops| <= MaxRedirectionsCount
    ensures WellFormedPath(path, start.response.value.status)
    ensures |hops| == |path.locations| &&
            forall i :: 0 <= i < |hops| ==>
              hops[i].outcome.Returned? && path.locations[i] == hops[i].location &&
              path.statuses[i + 1] == hops[i].outcome.value
    ensures now.response == if hops == [] then start.response else Some(ResponseAfter(hops[|hops| - 1]))
    ensures now.bodyOpen == if hops == [] then start.bodyOpen else BodyOpenAfter(hops[|hops| - 1].attempts, false)
    ensures if path.locations == [] then url == url0 else url == path.locations[|path.locations| - 1]
    ensures StopsAt(path, now.response.value.headers)
  {
  }

  /** How `followRedirection` ends when a hop throws: that hop is the last one, and the method holds what it left. */
  ghost predicate ThrewAfter(hops: seq<HopRecord>, e: Exception, env: HopEnv, start: MethodState, now: MethodState)
  {
    hops != [] && |hops| <= MaxRedirectionsCount && hops[|hops| - 1].outcome == Threw(e) &&
    HopChain(hops, env, start) &&
    now.response == Some(ResponseAfter(hops[|hops| - 1])) &&
    now.bodyOpen == BodyOpenAfter(hops[|hops| - 1].attempts, false)
  }

  /**
   * The loop takes a hop only while fewer than three were made and the
   * status it tests, the first response's or the last hop's, is a redirect.
   */
  lemma HopGuard(path: RedirectionPath, hops: seq<HopRecord>, status: int, url: string, url0: string, h: HopRecord,
                 env: HopEnv, start: MethodState, now: MethodState)
    requires Following(path, hops, status, url, url0, env, start, now)
    requires ShouldFollowRedirection(|path.locations|, status) && StartsAt(h, now)
    ensures |hops| < MaxRedirectionsCount
    ensures IsRedirectStatus(if hops == [] then h.before.status else hops[|hops| - 1].outcome.value)
  {
    assert status == path.statuses[|path.statuses| - 1];
    if hops == [] {
      assert now == start && path.statuses[0] == start.response.value.status;
    } else {
      assert path.statuses[|hops|] == hops[|hops| - 1].outcome.value;
    }
  }

  /**
   * One hop from the state of the loop: one that throws ends the walk, one
   * that returns a status moves the loop on to that status and location.
   */
  lemma HopStep(path: RedirectionPath, hops: seq<HopRecord>, status: int, url: string, url0: string, h: HopRecord,
                env: HopEnv, start: MethodState, now: MethodState)
    requires Following(path, hops, status, url, url0, env, start, now)
    requires ShouldFollowRedirection(|path.locations|, status)
    requires Some(h.location) == LocationFromHeaders(h.before.headers) && StartsAt(h, now)
    requires ValidHop(h, env)
    ensures h.outcome.Threw? ==> ThrewAfter(hops + [h], h.outcome.exception, env, start, AfterHop(h, env))
    ensures h.outcome.Returned? ==>
              Following(RedirectionPath(path.statuses + [h.outcome.value], path.locations + [h.location]), hops + [h],
                        h.outcome.value, h.location, url0, env, start, AfterHop(h, env))
  {
    HopGuard(path, hops, status, url, url0, h, env, start, now);
    HopChainAppend(hops, h, env, start);
    if h.outcome.Returned? {
      WalkedAppend(path, hops, h, env, start, now);
      WellFormedPathAppend(path, start.response.value.status, h.outcome.value, h.location);
    }
  }

  /** What the hops of a client with credentials `credentials` work with. */
  function ClientEnv(client: OwnCloudClient, credentials: Credentials, server: Server,
                     checkUnauthorizedAccess: (int, nat) -> bool): HopEnv
    reads client`userAgent, client`userId, client`baseUri
  {
    HopEnv(server, checkUnauthorizedAccess, client.userAgent, credentials,
           UserFilesWebDavUri(client.baseUri, credentials, client.userId), client.baseUri)
  }

  class RedirectionManager {
    const client: OwnCloudClient

    constructor (c: OwnCloudClient)
      ensures client == c
    {
      client := c;
    }

    /** The transport, the repeat decision and the client's fields a hop works with. */
    function Env(server: Server, checkUnauthorizedAccess: (int, nat) -> bool): HopEnv
      reads client`userAgent, client`credentials, client`userId, client`baseUri
    {
      ClientEnv(client, client.credentials, server, checkUnauthorizedAccess)
    }

    /** The state `followRedirection` works on, read off the method and the client. */
    function State(m: HttpMethod): MethodState
      reads m`response, m`bodyOpen, m`requestHeaders, client`requestCounter
    {
      MethodState(m.response, m.bodyOpen, Get(m.requestHeaders, DestinationHeader), client.requestCounter)
    }

    /** The header block at the top of each redirected re-execution. */
    method SetRedirectHeaders(m: HttpMethod, id: string, credentials: Credentials)
      modifies m`requestHeaders
      ensures m.requestHeaders == RedirectHeaders(old(m.requestHeaders), id, client.userAgent, credentials)
      ensures m.url == old(m.url) && m.followRedirects == old(m.followRedirects) && m.Options() == old(m.Options())
      ensures m.response == old(m.response) && m.bodyOpen == old(m.bodyOpen)
      ensures m.redirectChainHandler == old(m.redirectChainHandler)
    {
      m.SetRequestHeader(RequestIdHeader, id);
      m.SetRequestHeader(UserAgentHeader, client.userAgent);
      m.SetRequestHeader(SingleCookieHeader, "true");
      m.SetRequestHeader(AcceptEncodingHeader, AcceptEncodingIdentity);
      m.SetRequestHeader(AuthorizationHeader, HeaderAuth(credentials));
    }

    /** One pass of the do-while body of `executeRedirectedHttpMethod`, up to the execution. */
    method RedirectedAttempt(m: HttpMethod, credentials: Credentials, server: Server, ghost r: Redirected, ghost i: nat)
      returns (out: Outcome<int>, ghost attempt: Attempt)
      requires r.server == server && r.credentials == credentials && r.userAgent == client.userAgent
      requires client.requestCounter == r.id0 + i && m.url == r.url
      requires Get(m.requestHeaders, DestinationHeader) == r.destination
      modifies client`requestCounter, m`url, m`requestHeaders, m`response, m`bodyOpen, m.redirectChainHandler
      ensures client.requestCounter == old(client.requestCounter) + 1
      ensures IsRedirectedAttempt(attempt, r, i)
      ensures Get(m.requestHeaders, DestinationHeader) == r.destination
      ensures out == AttemptOutcome(attempt)
      ensures m.response == LastResponse([attempt], old(m.response))
      ensures m.bodyOpen == BodyOpenAfter([attempt], old(m.bodyOpen))
      ensures m.url == old(m.url) && m.followRedirects == old(m.followRedirects) && m.Options() == old(m.Options())
      ensures m.redirectChainHandler == old(m.redirectChainHandler)
    {
      var id := client.NextRequestId();
      RedirectHeadersGet(m.requestHeaders, id, client.userAgent, credentials);
      SetRedirectHeaders(m, id, credentials);
      var request := m.RequestToSend();
      attempt := Attempt(request, server(request));
      out := m.Execute(server);
      SingleAttempt(attempt, old(m.response), old(m.bodyOpen));
    }

    /**
     * The state between two passes of `executeRedirectedHttpMethod`: the
     * `repeated` attempts were made, the next id is the one after theirs, and
     * the method still has its URL and its `Destination` header, and the
     * response and body stream of the last of them.
     */
    ghost predicate RoundReady(m: HttpMethod, r: Redirected, repeated: seq<Attempt>, response0: Option<Response>,
                               open0: bool)
      reads this, client, m
    {
      client.requestCounter == r.id0 + |repeated| && client.userAgent == r.userAgent && m.url == r.url &&
      Get(m.requestHeaders, DestinationHeader) == r.destination && RepeatedTrace(repeated, r) &&
      m.response == LastResponse(repeated, response0) && m.bodyOpen == BodyOpenAfter(repeated, open0)
    }

    /** One pass of the do-while loop, with the decision whether to go round again. */
    method RedirectRound(m: HttpMethod, credentials: Credentials, server: Server,
                         checkUnauthorizedAccess: (int, nat) -> bool, repeatCounter: nat,
                         ghost r: Redirected, ghost repeated: seq<Attempt>, ghost response0: Option<Response>,
                         ghost open0: bool)
      returns (out: Outcome<int>, again: bool, ghost attempts: seq<Attempt>)
      requires r.server == server && r.credentials == credentials && r.checkUnauthorizedAccess == checkUnauthorizedAccess
      requires repeatCounter == |repeated| && RoundReady(m, r, repeated, response0, open0)
      modifies client`requestCounter, m`url, m`requestHeaders, m`response, m`bodyOpen, m.redirectChainHandler
      ensures |attempts| == |repeated| + 1 && attempts[..|repeated|] == repeated
      ensures again ==> out.Returned? && Repeats(checkUnauthorizedAccess, out.value, repeatCounter)
      ensures again ==> RoundReady(m, r, attempts, response0, open0)
      ensures !again ==> RedirectedRun(attempts, r, out) && client.requestCounter == r.id0 + |attempts| &&
                         m.response == LastResponse(attempts, response0) &&
                         m.bodyOpen == BodyOpenAfter(attempts, open0) &&
                         Get(m.requestHeaders, DestinationHeader) == r.destination
      ensures m.url == old(m.url) && m.followRedirects == old(m.followRedirects) && m.Options() == old(m.Options())
      ensures m.redirectChainHandler == old(m.redirectChainHandler)
    {
      ghost var attempt;
      out, attempt := RedirectedAttempt(m, credentials, server, r, repeatCounter);
      attempts := repeated + [attempt];
      assert attempts[..|repeated|] == repeated;
      LastResponseAppend(repeated, attempt, response0);
      BodyOpenAppend(repeated, attempt, open0);
      BodyOpenAppend([], attempt, old(m.bodyOpen));
      if out.Threw? {
        return out, false, attempts;
      }
      again := Repeats(checkUnauthorizedAccess, out.value, repeatCounter);
      if again {
        RepeatedTraceAppend(repeated, attempt, r);
      }
    }

    /**
     * `executeRedirectedHttpMethod`. `checkUnauthorizedAccess` is the client's
     * decision to repeat with fresh credentials after a status, given the
     * number of repeats so far; it is assumed to say no once that number
     * reaches `bound`, otherwise the loop need not end. The `attempts` are the
     * requests sent and the replies got, in order.
     */
    method ExecuteRedirectedHttpMethod(m: HttpMethod, credentials: Credentials, server: Server,
                                       checkUnauthorizedAccess: (int, nat) -> bool, bound: nat)
      returns (out: Outcome<int>, ghost attempts: seq<Attempt>)
      requires RepeatsBounded(checkUnauthorizedAccess, bound)
      modifies client`requestCounter, m`url, m`requestHeaders, m`response, m`bodyOpen, m.redirectChainHandler
      ensures RedirectedRun(attempts, Redirected(server, m.url, old(client.requestCounter), client.userAgent, credentials,
                                                 Get(old(m.requestHeaders), DestinationHeader), checkUnauthorizedAccess), out)
      ensures |attempts| <= bound + 1
      ensures client.requestCounter == old(client.requestCounter) + |attempts|
      ensures m.response == LastResponse(attempts, old(m.response))
      ensures m.bodyOpen == BodyOpenAfter(attempts, old(m.bodyOpen))
      ensures Get(m.requestHeaders, DestinationHeader) == Get(old(m.requestHeaders), DestinationHeader)
      ensures m.url == old(m.url) && m.followRedirects == old(m.followRedirects) && m.Options() == old(m.Options())
      ensures m.redirectChainHandler == old(m.redirectChainHandler)
    {
      ghost var r := Redirected(server, m.url, client.requestCounter, client.userAgent, credentials,
                                Get(m.requestHeaders, DestinationHeader), checkUnauthorizedAccess);
      ghost var repeated: seq<Attempt> := [];
      ghost var response0 := m.response;
      ghost var open0 := m.bodyOpen;
      var repeatCounter: nat := 0;
      while true
        invariant repeatCounter == |repeated| <= bound
        invariant RoundReady(m, r, repeated, response0, open0)
        invariant m.url == old(m.url) && m.followRedirects == old(m.followRedirects) && m.Options() == old(m.Options())
        invariant m.redirectChainHandler == old(m.redirectChainHandler)
        decreases bound - repeatCounter
      {
        var again;
        out, again, attempts := RedirectRound(m, credentials, server, checkUnauthorizedAccess, repeatCounter,
                                              r, repeated, response0, open0);
        if !again {
          RedirectedRunBounded(attempts, r, out, bound);
          return;
        }
        repeated := attempts;
        repeatCounter := repeatCounter + 1;
      }
    }

    /**
     * The first step of `followRedirect`: a request with a `Destination`
     * header gets it rebuilt against the location (stored under the
     * lower-case name, which replaces the header whatever its case), or the
     * rebuild throws and nothing changes.
     */
    method RewriteDestination(m: HttpMethod, location: string, destination: Option<string>)
      returns (rewritten: Outcome<Option<string>>)
      requires destination == DestinationFromHeaders(m.requestHeaders)
      modifies m`requestHeaders
      ensures rewritten == RewrittenDestination(location, destination, client.GetUserFilesWebDavUri(), client.baseUri)
      ensures rewritten.Threw? ==> m.requestHeaders == old(m.requestHeaders)
      ensures rewritten.Returned? ==> Get(m.requestHeaders, DestinationHeader) == rewritten.value
    {
      rewritten := RewrittenDestination(location, destination, client.GetUserFilesWebDavUri(), client.baseUri);
      if rewritten.Returned? && destination.Some? {
        m.SetRequestHeader(DestinationHeaderLower, rewritten.value.value);
        ValuesSameName(m.requestHeaders, DestinationHeaderLower, DestinationHeader);
        GetSet(old(m.requestHeaders), DestinationHeaderLower, rewritten.value.value, DestinationHeaderLower);
      }
    }

    /**
     * `followRedirect`: rewrites the `Destination` header when the request has
     * one, re-executes, and takes an `HttpException` mentioning 302 as status
     * 302. `executed` is what the re-execution returned or threw.
     */
    method FollowRedirect(m: HttpMethod, location: string, destination: Option<string>, server: Server,
                          checkUnauthorizedAccess: (int, nat) -> bool, bound: nat)
      returns (out: Outcome<int>, ghost executed: Outcome<int>, ghost attempts: seq<Attempt>)
      requires destination == DestinationFromHeaders(m.requestHeaders)
      requires RepeatsBounded(checkUnauthorizedAccess, bound)
      modifies client`requestCounter, m`url, m`requestHeaders, m`response, m`bodyOpen, m.redirectChainHandler
      ensures var rewritten := RewrittenDestination(location, destination, client.GetUserFilesWebDavUri(), client.baseUri);
              rewritten.Threw? ==>
                out == Threw(rewritten.exception) && attempts == [] &&
                client.requestCounter == old(client.requestCounter) && m.response == old(m.response)
      ensures var rewritten := RewrittenDestination(location, destination, client.GetUserFilesWebDavUri(), client.baseUri);
              rewritten.Returned? ==>
                RedirectedRun(attempts, Redirected(server, m.url, old(client.requestCounter), client.userAgent,
                                                   client.credentials, rewritten.value, checkUnauthorizedAccess), executed) &&
                out == Recover302(executed) && |attempts| <= bound + 1 &&
                client.requestCounter == old(client.requestCounter) + |attempts| &&
                m.response == LastResponse(attempts, old(m.response)) &&
                Get(m.requestHeaders, DestinationHeader) == rewritten.value
      ensures m.bodyOpen == BodyOpenAfter(attempts, old(m.bodyOpen))
      ensures m.url == old(m.url) && m.followRedirects == old(m.followRedirects) && m.Options() == old(m.Options())
      ensures m.redirectChainHandler == old(m.redirectChainHandler)
    {
      var rewritten := RewriteDestination(m, location, destination);
      if rewritten.Threw? {
        return Threw(rewritten.exception), Threw(rewritten.exception), [];
      }
      var status;
      status, attempts := ExecuteRedirectedHttpMethod(m, client.credentials, server, checkUnauthorizedAccess, bound);
      executed := status;
      out := Recover302(status);
    }

    /**
     * One hop of `followRedirection` once a location was found: the response
     * body is released, the method moves to the location and is re-executed
     * there with the `Destination` header rewritten. The body is released
     * first, so the stream is closed whatever happens next, and stays closed
     * unless a new response came in.
     */
    method RedirectHop(m: HttpMethod, location: string, server: Server, checkUnauthorizedAccess: (int, nat) -> bool,
                       bound: nat)
      returns (hop: Outcome<int>, ghost h: HopRecord)
      requires m.response.Some?
      requires RepeatsBounded(checkUnauthorizedAccess, bound)
      modifies client`requestCounter, m`url, m`requestHeaders, m`response, m`bodyOpen, m.redirectChainHandler
      ensures h.before == old(m.response.value) && h.location == location &&
              h.destination == Get(old(m.requestHeaders), DestinationHeader) && h.id0 == old(client.requestCounter)
      ensures ValidHop(h, Env(server, checkUnauthorizedAccess)) && hop == h.outcome
      ensures |h.attempts| <= bound + 1
      ensures client.requestCounter == old(client.requestCounter) + |h.attempts|
      ensures m.response == Some(ResponseAfter(h))
      ensures m.bodyOpen == BodyOpenAfter(h.attempts, false)
      ensures m.url == if IsHttpUrl(location) then location else old(m.url)
      ensures hop.Returned? ==> Get(m.requestHeaders, DestinationHeader) == DestinationAfter(h, Env(server, checkUnauthorizedAccess))
      ensures m.followRedirects == old(m.followRedirects) && m.Options() == old(m.Options())
      ensures m.redirectChainHandler == old(m.redirectChainHandler)
    {
      ghost var before := m.response.value;
      ghost var destination0 := Get(m.requestHeaders, DestinationHeader);
      ghost var id0 := client.requestCounter;
      client.ExhaustResponse(m);
      if !IsHttpUrl(location) {
        h := HopRecord(before, location, destination0, id0, Threw(NullPointer), [], Threw(NullPointer));
        return Threw(NullPointer), h;
      }
      m.SetUrl(location);
      var destination := DestinationFromHeaders(m.requestHeaders);
      ghost var executed, attempts;
      hop, executed, attempts := FollowRedirect(m, location, destination, server, checkUnauthorizedAccess, bound);
      h := HopRecord(before, location, destination0, id0, executed, attempts, hop);
      LastResponseSome(attempts, Some(before));
    }

    /**
     * The body of the `followRedirection` loop once a location was found: one
     * hop from the current state, which either throws, ending the walk, or
     * extends the walk by its location and status.
     */
    method WalkHop(m: HttpMethod, location: string, server: Server, checkUnauthorizedAccess: (int, nat) -> bool,
                   bound: nat, ghost path: RedirectionPath, ghost hops: seq<HopRecord>, ghost status: int,
                   ghost url0: string, ghost env: HopEnv, ghost start: MethodState)
      returns (hop: Outcome<int>, ghost h: HopRecord)
      requires env == Env(server, checkUnauthorizedAccess) && RepeatsBounded(checkUnauthorizedAccess, bound)
      requires m.response.Some? && Some(location) == LocationFromHeaders(m.response.value.headers)
      requires Following(path, hops, status, m.url, url0, env, start, State(m))
      requires ShouldFollowRedirection(|path.locations|, status)
      modifies client`requestCounter, m`url, m`requestHeaders, m`response, m`bodyOpen, m.redirectChainHandler
      ensures h.location == location && h.outcome == hop
      ensures hop.Threw? ==> ThrewAfter(hops + [h], hop.exception, env, start, State(m))
      ensures hop.Returned? ==>
                Following(RedirectionPath(path.statuses + [hop.value], path.locations + [location]), hops + [h],
                          hop.value, m.url, url0, env, start, State(m))
      ensures m.followRedirects == old(m.followRedirects) && m.Options() == old(m.Options())
      ensures m.redirectChainHandler == old(m.redirectChainHandler)
    {
      ghost var now, url := State(m), m.url;
      hop, h := RedirectHop(m, location, server, checkUnauthorizedAccess, bound);
      ghost var after := AfterHop(h, env);
      HopStep(path, hops, status, url, url0, h, env, start, now);
      if hop.Returned? {
        assert m.response == after.response && m.bodyOpen == after.bodyOpen;
        assert Get(m.requestHeaders, DestinationHeader) == after.destination && client.requestCounter == after.counter;
        assert m.url == h.location;
      }
    }

    /**
     * One pass of the `followRedirection` loop: a redirect with a location is
     * followed, which throws or extends the path by a location and a status;
     * a redirect without one leaves the path as it is and sets the status the
     * loop tests to 404.
     */
    method FollowStep(m: HttpMethod, server: Server, checkUnauthorizedAccess: (int, nat) -> bool, bound: nat,
                      path: RedirectionPath, status: int, ghost hops: seq<HopRecord>, ghost url0: string,
                      ghost env: HopEnv, ghost start: MethodState)
      returns (thrown: Option<Exception>, path': RedirectionPath, status': int, ghost hops': seq<HopRecord>)
      requires env == Env(server, checkUnauthorizedAccess) && RepeatsBounded(checkUnauthorizedAccess, bound)
      requires Following(path, hops, status, m.url, url0, env, start, State(m))
      requires ShouldFollowRedirection(|path.locations|, status)
      modifies client`requestCounter, m`url, m`requestHeaders, m`response, m`bodyOpen, m.redirectChainHandler
      ensures thrown.Some? ==> ThrewAfter(hops', thrown.value, env, start, State(m))
      ensures thrown.None? ==> Following(path', hops', status', m.url, url0, env, start, State(m))
      ensures thrown.None? ==>
                |path'.locations| == |path.locations| + 1 || (path' == path && status' == HttpNotFound)
      ensures m.followRedirects == old(m.followRedirects) && m.Options() == old(m.Options())
      ensures m.redirectChainHandler == old(m.redirectChainHandler)
    {
      var location := LocationFromHeaders(m.response.value.headers);
      if location.Some? {
        var hop;
        ghost var h;
        hop, h := WalkHop(m, location.value, server, checkUnauthorizedAccess, bound, path, hops, status, url0,
                          env, start);
        hops' := hops + [h];
        if hop.Threw? {
          return Some(hop.exception), path, status, hops';
        }
        status' := hop.value;
        path' := RedirectionPath(path.statuses + [status'], path.locations + [location.value]);
        thrown := None;
      } else {
        FollowingNotFound(path, hops, status, m.url, url0, env, start, State(m));
        thrown, path', status', hops' := None, path, HttpNotFound, hops;
      }
    }

    /**
     * The loop of `followRedirection`: at most three hops, each made while the
     * last status is a redirect that carries a location. The count of hops
     * made is the number of locations on the path.
     */
    method FollowLoop(m: HttpMethod, server: Server, checkUnauthorizedAccess: (int, nat) -> bool, bound: nat,
                      ghost env: HopEnv, ghost start: MethodState, ghost url0: string)
      returns (out: Outcome<RedirectionPath>, ghost hops: seq<HopRecord>, status: int)
      requires env == Env(server, checkUnauthorizedAccess) && RepeatsBounded(checkUnauthorizedAccess, bound)
      requires m.response.Some? && State(m) == start && m.url == url0
      modifies client`requestCounter, m`url, m`requestHeaders, m`response, m`bodyOpen, m.redirectChainHandler
      ensures out.Threw? ==> ThrewAfter(hops, out.exception, env, start, State(m))
      ensures out.Returned? ==>
                !ShouldFollowRedirection(|out.value.locations|, status) &&
                Following(out.value, hops, status, m.url, url0, env, start, State(m))
      ensures m.followRedirects == old(m.followRedirects) && m.Options() == old(m.Options())
      ensures m.redirectChainHandler == old(m.redirectChainHandler)
    {
      hops := [];
      status := m.response.value.status;
      var path := RedirectionPath([status], []);
      FollowingStart(url0, env, start);
      while ShouldFollowRedirection(|path.locations|, status)
        invariant Following(path, hops, status, m.url, url0, env, start, State(m))
        invariant m.followRedirects == old(m.followRedirects) && m.Options() == old(m.Options())
        invariant m.redirectChainHandler == old(m.redirectChainHandler)
        decreases MaxRedirectionsCount - |path.locations|, if status == HttpNotFound then 0 else 1
      {
        var thrown;
        thrown, path, status, hops := FollowStep(m, server, checkUnauthorizedAccess, bound, path, status, hops, url0,
                                                 env, start);
        if thrown.Some? {
          return Threw(thrown.value), hops, status;
        }
      }
      return Returned(path), hops, status;
    }

    /**
     * `followRedirection`: while the status is a redirect and fewer than three
     * hops were made, follow the response's location (a redirect without one
     * ends the walk as if the status were 404). The result is the path of
     * statuses and locations, or the first exception a hop threw.
     */
    method FollowRedirection(m: HttpMethod, server: Server, checkUnauthorizedAccess: (int, nat) -> bool, bound: nat)
      returns (out: Outcome<RedirectionPath>, ghost hops: seq<HopRecord>)
      requires m.response.Some?
      requires RepeatsBounded(checkUnauthorizedAccess, bound)
      modifies client`requestCounter, m`url, m`requestHeaders, m`response, m`bodyOpen, m.redirectChainHandler
      ensures HopChain(hops, Env(server, checkUnauthorizedAccess),
                       MethodState(old(m.response), old(m.bodyOpen), Get(old(m.requestHeaders), DestinationHeader),
                                   old(client.requestCounter)))
      ensures |hops| <= MaxRedirectionsCount
      ensures out.Threw? ==> hops != [] && hops[|hops| - 1].outcome == Threw(out.exception)
      ensures out.Returned? ==> WellFormedPath(out.value, old(m.response.value.status))
      ensures out.Returned? ==>
                |hops| == |out.value.locations| &&
                forall i :: 0 <= i < |hops| ==>
                  hops[i].outcome.Returned? && out.value.locations[i] == hops[i].location &&
                  out.value.statuses[i + 1] == hops[i].outcome.value
      ensures m.response == if hops == [] then old(m.response) else Some(ResponseAfter(hops[|hops| - 1]))
      ensures m.bodyOpen == if hops == [] then old(m.bodyOpen) else BodyOpenAfter(hops[|hops| - 1].attempts, false)
      ensures out.Returned? ==> (if out.value.locations == [] then m.url == old(m.url)
                                 else m.url == out.value.locations[|out.value.locations| - 1])
      ensures out.Returned? ==> StopsAt(out.value, m.response.value.headers)
      ensures m.followRedirects == old(m.followRedirects) && m.Options() == old(m.Options())
      ensures m.redirectChainHandler == old(m.redirectChainHandler)
    {
      ghost var env, start, url0 := Env(server, checkUnauthorizedAccess), State(m), m.url;
      var status;
      out, hops, status := FollowLoop(m, server, checkUnauthorizedAccess, bound, env, start, url0);
      if out.Returned? {
        FollowingEnd(out.value, hops, status, m.url, url0, env, start, State(m));
      }
    }
  }
}
