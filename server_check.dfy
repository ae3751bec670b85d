/**
 * `OwnCloudServerCheckOperation`: the oldest server probe. It fetches
 * `status.php` once per URL tried, trying https before http for a URL
 * without a scheme, and remembers the versions the server reported so that
 * share support can be decided afterwards.
 */
module ServerCheck {
  import opened Wrappers
  import opened Strings
  import opened Http
  import opened Client
  import opened RemoteResults

  const TryConnectionTimeout := 5000
  const OcVersionSharedSupported := "5.0.13"
  const HttpsPrefix := "https://"
  const HttpPrefix := "http://"
  const InvalidUri := IllegalArgument("Invalid uri")

  /**
   * `OwnCloudVersion`, whose parser is not part of this model: the number
   * versions are compared by, and whether the text was a valid version.
   */
  datatype OwnCloudVersion = OwnCloudVersion(number: int, valid: bool)

  /** The three members of the status document this operation reads; `None` for a missing one. */
  datatype ServerDocument = ServerDocument(installed: Option<bool>, version: Option<string>, versionString: Option<string>)

  /** The part of the older client this operation touches: the WebDAV URI it sets. */
  class NetworkClient {
    var webdavUri: string

    constructor (uri: string)
      ensures webdavUri == uri
    {
      webdavUri := uri;
    }

    method SetWebdavUri(uri: string)
      modifies this
      ensures webdavUri == uri
    {
      webdavUri := uri;
    }
  }

  /**
   * The request the older client's `executeMethod` sends for a `GetMethod`:
   * redirects followed as `GetMethod` does by default, both timeouts in
   * milliseconds.
   */
  function CheckRequest(url: string): (r: Request)
    ensures r.verb == GET && r.url == url && r.followRedirects && r.headers == []
  {
    Request(GET, url, [], true, false,
            Some(Timeout(TryConnectionTimeout, Milliseconds)), Some(Timeout(TryConnectionTimeout, Milliseconds)), None)
  }

  /** What one `tryConnection` leaves behind: its return value, the latest result and the two version fields. */
  datatype CheckState = CheckState(
    retval: bool,
    result: RemoteResult<()>,
    version: Option<OwnCloudVersion>,
    versionString: Option<OwnCloudVersion>)

  /**
   * `tryConnection` of `urlSt` as a function of the reply and of the version
   * fields before it. The version is recorded as soon as it is read, so a
   * missing `versionstring` afterwards still changes it. A 200 without a
   * body hands null to the JSON parser, which throws `NullPointerException`.
   */
  function Check(urlSt: string, reply: Reply, parse: string -> Option<ServerDocument>,
                 parseVersion: string -> OwnCloudVersion, parseVersionString: string -> OwnCloudVersion,
                 version0: Option<OwnCloudVersion>, versionString0: Option<OwnCloudVersion>): (r: CheckState)
    ensures r.retval <==> r.result.IsSuccess()
    ensures reply.Answered? && reply.response.status == HttpOk && reply.response.body.None? ==>
              r == CheckState(false, OfException(NullPointer), version0, versionString0)
  {
    match reply
    case Failed(e) => CheckState(false, OfException(e), version0, versionString0)
    case Answered(response) =>
      if response.status != HttpOk then CheckState(false, OfFlaggedResponse(false, response), version0, versionString0)
      else if response.body.None? then CheckState(false, OfException(NullPointer), version0, versionString0)
      else
        match parse(response.body.value)
        case None => CheckState(false, OfCode(InstanceNotConfigured), version0, versionString0)
        case Some(document) =>
          if document.installed != Some(true) || document.version.None? then
            CheckState(false, OfCode(InstanceNotConfigured), version0, versionString0)
          else
            var version := parseVersion(document.version.value);
            if document.versionString.None? then
              CheckState(false, OfCode(InstanceNotConfigured), Some(version), versionString0)
            else
              var versionString := parseVersionString(document.versionString.value);
              if !version.valid then CheckState(false, OfCode(BadOcVersion), Some(version), Some(versionString))
              else
                CheckState(true, OfCode(if StartsWith(urlSt, HttpsPrefix) then OkSsl else OkNoSsl),
                           Some(version), Some(versionString))
  }

  /** A complete status document from an installed server. */
  predicate Complete(document: ServerDocument) {
    document.installed == Some(true) && document.version.Some? && document.versionString.Some?
  }

  /**
   * The classification of one attempt: success for a 200 carrying a complete
   * document with a valid version (secure iff the URL is https), a bad
   * version for an invalid one, the `NullPointerException` result for a 200
   * without a body, "not configured" for any other 200, and a failure
   * carrying the status and headers for any other status.
   */
  lemma CheckClassification(urlSt: string, response: Response, parse: string -> Option<ServerDocument>,
                            parseVersion: string -> OwnCloudVersion, parseVersionString: string -> OwnCloudVersion,
                            version0: Option<OwnCloudVersion>, versionString0: Option<OwnCloudVersion>)
    ensures var r := Check(urlSt, Answered(response), parse, parseVersion, parseVersionString, version0, versionString0);
      var document := if response.body.Some? then parse(response.body.value) else None;
      (r.retval <==> response.status == HttpOk && document.Some? && Complete(document.value) &&
                     parseVersion(document.value.version.value).valid) &&
      (r.retval ==> r.result.code == (if StartsWith(urlSt, HttpsPrefix) then OkSsl else OkNoSsl)) &&
      (r.result.code == BadOcVersion <==>
         response.status == HttpOk && document.Some? && Complete(document.value) &&
         !parseVersion(document.value.version.value).valid) &&
      (r.result.code == InstanceNotConfigured <==>
         response.status == HttpOk && response.body.Some? && !(document.Some? && Complete(document.value))) &&
      (response.status == HttpOk && response.body.None? ==> r.result == OfException(NullPointer)) &&
      (response.status != HttpOk ==>
         r.result.code == HttpFailure && r.result.httpStatus == response.status && r.result.headers == response.headers)
  {
  }

  /**
   * The version field changes exactly when a 200 with a body from an
   * installed server named a version, even when the attempt then fails for a missing
   * version string; the version-string field changes only with a complete
   * document.
   */
  lemma CheckRecordsVersions(urlSt: string, reply: Reply, parse: string -> Option<ServerDocument>,
                             parseVersion: string -> OwnCloudVersion, parseVersionString: string -> OwnCloudVersion,
                             version0: Option<OwnCloudVersion>, versionString0: Option<OwnCloudVersion>)
    ensures var r := Check(urlSt, reply, parse, parseVersion, parseVersionString, version0, versionString0);
      var document := if reply.Answered? && reply.response.body.Some? then parse(reply.response.body.value) else None;
      var named := reply.Answered? && reply.response.status == HttpOk && document.Some? &&
                   document.value.installed == Some(true) && document.value.version.Some?;
      (named ==> r.version == Some(parseVersion(document.value.version.value))) &&
      (!named ==> r.version == version0) &&
      (named && document.value.versionString.Some? ==>
         r.versionString == Some(parseVersionString(document.value.versionString.value))) &&
      (!(named && document.value.versionString.Some?) ==> r.versionString == versionString0)
  {
  }

  /** Whether a failed https attempt is followed by an http one. */
  predicate FallsBack(state: CheckState) {
    !state.retval && !state.result.IsSslRecoverableException()
  }

  /** The verdict of `isSharedSupported` on a recorded version string. */
  function SharedSupported(versionString: Option<OwnCloudVersion>, parseVersion: string -> OwnCloudVersion): (r: bool)
    ensures versionString.None? ==> !r
    ensures versionString.Some? ==> (r <==> versionString.value.number >= parseVersion(OcVersionSharedSupported).number)
  {
    if versionString.Some? then versionString.value.number - parseVersion(OcVersionSharedSupported).number >= 0 else false
  }

  class OwnCloudServerCheckOperation {
    const url: string
    var latestResult: Option<RemoteResult<()>>
    var ocVersion: Option<OwnCloudVersion>
    var ocVersionString: Option<OwnCloudVersion>

    constructor (url: string)
      ensures this.url == url && latestResult.None? && ocVersion.None? && ocVersionString.None?
    {
      this.url := url;
      latestResult := None;
      ocVersion := None;
      ocVersionString := None;
    }

    /** `getDiscoveredVersion`. */
    function DiscoveredVersion(): Option<OwnCloudVersion>
      reads this
    {
      ocVersion
    }

    /** `isSharedSupported`: false until a version string was recorded. */
    function IsSharedSupported(parseVersion: string -> OwnCloudVersion): bool
      reads this
    {
      SharedSupported(ocVersionString, parseVersion)
    }

    /** The fields as one value. */
    function State(retval: bool): CheckState
      requires latestResult.Some?
      reads this
    {
      CheckState(retval, latestResult.value, ocVersion, ocVersionString)
    }

    /**
     * `tryConnection`. A text `GetMethod` refuses fails before anything is
     * sent; an exception of the request becomes the latest result.
     */
    method TryConnection(urlSt: string, server: Server, parse: string -> Option<ServerDocument>,
                         parseVersion: string -> OwnCloudVersion, parseVersionString: string -> OwnCloudVersion)
      returns (retval: bool)
      modifies this`latestResult, this`ocVersion, this`ocVersionString
      ensures latestResult.Some?
      ensures State(retval) ==
              Check(urlSt, if IsHttpUrl(urlSt) then server(CheckRequest(urlSt)) else Failed(InvalidUri),
                    parse, parseVersion, parseVersionString, old(ocVersion), old(ocVersionString))
    {
      if !IsHttpUrl(urlSt) {
        latestResult := Some(OfException(InvalidUri));
        return false;
      }
      var reply := server(CheckRequest(urlSt));
      if reply.Failed? {
        latestResult := Some(OfException(reply.exception));
        return false;
      }
      var response := reply.response;
      retval := false;
      if response.status == HttpOk && response.body.None? {
        latestResult := Some(OfException(NullPointer));
      } else if response.status == HttpOk {
        var json := parse(response.body.value);
        if json.None? || json.value.installed != Some(true) || json.value.version.None? {
          latestResult := Some(OfCode(InstanceNotConfigured));
        } else {
          ocVersion := Some(parseVersion(json.value.version.value));
          if json.value.versionString.None? {
            latestResult := Some(OfCode(InstanceNotConfigured));
          } else {
            ocVersionString := Some(parseVersionString(json.value.versionString.value));
            if !ocVersion.value.valid {
              latestResult := Some(OfCode(BadOcVersion));
            } else {
              latestResult := Some(OfCode(if StartsWith(urlSt, HttpsPrefix) then OkSsl else OkNoSsl));
              retval := true;
            }
          }
        }
      } else {
        latestResult := Some(OfFlaggedResponse(false, response));
      }
    }

    /**
     * `run`. `online` is what the connectivity service says. The URLs tried
     * are returned in order; the client's WebDAV URI is set to each URL
     * tried when the scheme had to be guessed.
     */
    method Run(client: NetworkClient, online: bool, server: Server, parse: string -> Option<ServerDocument>,
               parseVersion: string -> OwnCloudVersion, parseVersionString: string -> OwnCloudVersion)
      returns (result: RemoteResult<()>, ghost tried: seq<string>)
      modifies this`latestResult, this`ocVersion, this`ocVersionString, client
      ensures !online ==> result == OfCode(NoNetworkConnection) && tried == [] && unchanged(this) && unchanged(client)
      ensures online && (StartsWith(url, HttpPrefix) || StartsWith(url, HttpsPrefix)) ==>
                tried == [url + StatusPath] && unchanged(client)
      ensures online && !(StartsWith(url, HttpPrefix) || StartsWith(url, HttpsPrefix)) ==>
                var first := Check(HttpsPrefix + url + StatusPath, server(CheckRequest(HttpsPrefix + url + StatusPath)),
                                   parse, parseVersion, parseVersionString, old(ocVersion), old(ocVersionString));
                1 <= |tried| <= 2 && tried[0] == HttpsPrefix + url + StatusPath &&
                (|tried| == 2 <==> FallsBack(first)) &&
                (|tried| == 2 ==> tried[1] == HttpPrefix + url + StatusPath) &&
                client.webdavUri == tried[|tried| - 1]
      ensures online ==> |tried| >= 1 && latestResult == Some(result)
      ensures online ==>
                var before := if |tried| == 1 then (old(ocVersion), old(ocVersionString))
                              else
                                var first := Check(tried[0], server(CheckRequest(tried[0])), parse, parseVersion,
                                                   parseVersionString, old(ocVersion), old(ocVersionString));
                                (first.version, first.versionString);
                var last := Check(tried[|tried| - 1],
                                  if IsHttpUrl(tried[|tried| - 1]) then server(CheckRequest(tried[|tried| - 1]))
                                  else Failed(InvalidUri),
                                  parse, parseVersion, parseVersionString, before.0, before.1);
                result == last.result && ocVersion == last.version && ocVersionString == last.versionString
    {
      if !online {
        return OfCode(NoNetworkConnection), [];
      }
      if StartsWith(url, HttpPrefix) || StartsWith(url, HttpsPrefix) {
        var ok := TryConnection(url + StatusPath, server, parse, parseVersion, parseVersionString);
        tried := [url + StatusPath];
      } else {
        var httpsUrl := HttpsPrefix + url + StatusPath;
        client.SetWebdavUri(httpsUrl);
        tried := [httpsUrl];
        assert StartsWith(httpsUrl, HttpsPrefix) by {
          assert httpsUrl[..|HttpsPrefix|] == HttpsPrefix;
        }
        var httpsSuccess := TryConnection(httpsUrl, server, parse, parseVersion, parseVersionString);
        if !httpsSuccess && !latestResult.value.IsSslRecoverableException() {
          var httpUrl := HttpPrefix + url + StatusPath;
          client.SetWebdavUri(httpUrl);
          tried := tried + [httpUrl];
          var httpSuccess := TryConnection(httpUrl, server, parse, parseVersion, parseVersionString);
        }
      }
      result := latestResult.value;
    }
  }
}
