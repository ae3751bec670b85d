/**
 * `CopyRemoteFileOperation`: copies a remote file or folder to another path
 * with a WebDAV COPY (section 9.8 of RFC 4918). Bad targets are refused before
 * any request; the status is then classified, with 412 Precondition Failed
 * meaning "the target exists" when overwriting was not allowed.
 */
module CopyRemoteFile {
  import opened Wrappers
  import opened Strings
  import opened Headers
  import opened Http
  import opened HttpMethods
  import opened Client
  import opened RemoteResults
  import opened FileUtils

  const CopyReadTimeout := 600000
  const CopyConnectionTimeout := 5000
  const OverwriteHeader := "Overwrite"
  const DestinationHeader := "Destination"

  /**
   * The checks made before any request: a target with characters the server
   * refuses, a target equal to the source (nothing to do), and a target inside
   * the source. `None` when the copy goes ahead.
   */
  function CopyPrecheck(src: string, target: string, versionWithForbiddenChars: bool): (r: Option<RemoteResult<()>>)
    ensures !IsValidPath(target, versionWithForbiddenChars) ==> r == Some(OfCode(InvalidCharacterInName))
    ensures IsValidPath(target, versionWithForbiddenChars) && target == src ==> r == Some(OfCode(Ok))
    ensures IsValidPath(target, versionWithForbiddenChars) && target != src && StartsWith(target, src) ==>
              r == Some(OfCode(InvalidCopyIntoDescendant))
    ensures r.None? <==> IsValidPath(target, versionWithForbiddenChars) && !StartsWith(target, src)
  {
    if !IsValidPath(target, versionWithForbiddenChars) then Some(OfCode(InvalidCharacterInName))
    else if target == src then Some(OfCode(Ok))
    else if StartsWith(target, src) then Some(OfCode(InvalidCopyIntoDescendant))
    else None
  }

  /** The result for the status of the COPY request. */
  function CopyStatusResult(status: int, overwrite: bool, response: Response): (r: RemoteResult<()>)
    requires response.status == status
    ensures r.IsSuccess() <==> status == HttpCreated || status == HttpNoContent
    ensures status == HttpPreconditionFailed && !overwrite ==> r.code == InvalidOverwrite
    ensures r.code == HttpFailure ==> r == OfResponse(response)
    ensures r.code.HttpFailure? <==>
              !(status == HttpCreated || status == HttpNoContent || (status == HttpPreconditionFailed && !overwrite))
  {
    if status == HttpCreated || status == HttpNoContent then OfCode(Ok)
    else if status == HttpPreconditionFailed && !overwrite then OfCode(InvalidOverwrite)
    else OfResponse(response)
  }

  /** The body of the response is released exactly when the copy did not succeed. */
  predicate ExhaustsAfter(status: int) {
    !(status == HttpCreated || status == HttpNoContent)
  }

  /** A self-copy is accepted without a request, whatever the server. */
  lemma CopyOntoItselfIsOk(src: string, versionWithForbiddenChars: bool)
    requires IsValidPath(src, versionWithForbiddenChars)
    ensures CopyPrecheck(src, src, versionWithForbiddenChars) == Some(OfCode(Ok))
  {
  }

  /** A copy into a sub-folder of the source never reaches the server. */
  lemma CopyIntoDescendantRefused(src: string, rest: string, versionWithForbiddenChars: bool)
    requires rest != [] && IsValidPath(src + rest, versionWithForbiddenChars)
    ensures CopyPrecheck(src, src + rest, versionWithForbiddenChars) == Some(OfCode(InvalidCopyIntoDescendant))
  {
    assert (src + rest)[..|src|] == src;
    assert |src + rest| != |src|;
  }

  /** 412 with overwriting allowed is an ordinary failure carrying the status. */
  lemma PreconditionFailedWithOverwrite(response: Response)
    requires response.status == HttpPreconditionFailed
    ensures CopyStatusResult(HttpPreconditionFailed, true, response) == OfResponse(response)
    ensures CopyStatusResult(HttpPreconditionFailed, true, response).httpStatus == HttpPreconditionFailed
  {
  }

  /**
   * The COPY method `run` builds: the source URL, the `Destination` and
   * `Overwrite` headers (`T` or `F`), and the copy timeouts.
   */
  method NewCopyMethod(srcUrl: string, target: string, overwrite: bool) returns (m: HttpMethod)
    requires IsHttpUrl(srcUrl)
    ensures fresh(m) && m.response.None? && !m.bodyOpen && m.redirectChainHandler == null && !m.followPermanentRedirects
    ensures var sent := m.RequestToSend();
      sent.verb == COPY && sent.url == srcUrl && Get(sent.headers, DestinationHeader) == Some(target) &&
      Get(sent.headers, OverwriteHeader) == Some(if overwrite then "T" else "F") &&
      sent.readTimeout == Some(Timeout(CopyReadTimeout, Seconds)) &&
      sent.connectTimeout == Some(Timeout(CopyConnectionTimeout, Seconds))
  {
    m := new HttpMethod(COPY, srcUrl);
    var overwriteFlag := if overwrite then "T" else "F";
    GetSet([], DestinationHeader, target, DestinationHeader);
    GetSet(Set([], DestinationHeader, target), OverwriteHeader, overwriteFlag, DestinationHeader);
    GetSet(Set([], DestinationHeader, target), OverwriteHeader, overwriteFlag, OverwriteHeader);
    m.SetRequestHeader(DestinationHeader, target);
    m.SetRequestHeader(OverwriteHeader, overwriteFlag);
    m.SetReadTimeout(CopyReadTimeout, Seconds);
    m.SetConnectionTimeout(CopyConnectionTimeout, Seconds);
  }

  class CopyRemoteFileOperation {
    const srcRemotePath: string
    const targetRemotePath: string
    const overwrite: bool

    constructor (src: string, target: string, overwrite: bool)
      ensures srcRemotePath == src && targetRemotePath == target && this.overwrite == overwrite
    {
      srcRemotePath := src;
      targetRemotePath := target;
      this.overwrite := overwrite;
    }

    /**
     * `run`. `versionWithForbiddenChars` is what the client's server version
     * says, `None` when the version is unknown (treated as no support). A
     * precheck verdict is returned without a request; otherwise one COPY is
     * executed and classified, and any exception becomes the result.
     */
    method Run(client: OwnCloudClient, server: Server, versionWithForbiddenChars: Option<bool>)
      returns (result: RemoteResult<()>, ghost copy: HttpMethod?, ghost sent: Request, ghost run: RunResult,
               ghost executed: Option<Outcome<int>>)
      modifies client`credentials, client`requestCounter
      ensures var pre := CopyPrecheck(srcRemotePath, targetRemotePath, versionWithForbiddenChars == Some(true));
        pre.Some? ==> result == pre.value && executed.None? && unchanged(client)
      ensures executed.Some? <==> copy != null
      ensures executed.None? && CopyPrecheck(srcRemotePath, targetRemotePath, versionWithForbiddenChars == Some(true)).None? ==>
                result == OfException(MalformedUrl) && !IsHttpUrl(old(client.GetUserFilesWebDavUri()) + srcRemotePath)
      ensures copy != null ==>
                fresh(copy) && sent.verb == COPY && sent.url == old(client.GetUserFilesWebDavUri()) + srcRemotePath &&
                Get(sent.headers, DestinationHeader) == Some(old(client.GetUserFilesWebDavUri()) + targetRemotePath) &&
                Get(sent.headers, OverwriteHeader) == Some(if overwrite then "T" else "F") &&
                sent.readTimeout == Some(Timeout(CopyReadTimeout, Seconds)) &&
                sent.connectTimeout == Some(Timeout(CopyConnectionTimeout, Seconds))
      ensures copy != null ==>
                run == old(client.RunFor(sent, client.followRedirects, false, server)) &&
                executed == Some(run.outcome) && copy.response == LastResponse(run.attempts, None) &&
                client.credentials == run.final.credentials && client.requestCounter == run.final.counter
      ensures executed.Some? && executed.value.Threw? ==> result == OfException(executed.value.exception)
      ensures executed.Some? && executed.value.Returned? ==>
                copy.response.Some? && copy.response.value.status == executed.value.value &&
                result == CopyStatusResult(executed.value.value, overwrite, copy.response.value) &&
                (ExhaustsAfter(executed.value.value) ==> !copy.bodyOpen)
    {
      sent := Request(COPY, "", [], false, false, None, None, None);
      run := RunResult(Threw(MalformedUrl), [], LoopState([], false, client.credentials, client.requestCounter));
      var forbidden := versionWithForbiddenChars == Some(true);
      var pre := CopyPrecheck(srcRemotePath, targetRemotePath, forbidden);
      if pre.Some? {
        return pre.value, null, sent, run, None;
      }
      var filesUri := client.GetUserFilesWebDavUri();
      var srcUrl := filesUri + srcRemotePath;
      if !IsHttpUrl(srcUrl) {
        return OfException(MalformedUrl), null, sent, run, None;
      }
      var target := filesUri + targetRemotePath;
      var m := NewCopyMethod(srcUrl, target, overwrite);
      copy := m;
      sent := m.RequestToSend();
      client.RunForMethod(m, server);
      run := client.RunFor(sent, client.followRedirects, false, server);
      var status := client.ExecuteHttpMethod(m, server);
      executed := Some(status);
      if status.Threw? {
        return OfException(status.exception), copy, sent, run, executed;
      }
      result := CopyStatusResult(status.value, overwrite, m.response.value);
      if ExhaustsAfter(status.value) {
        client.ExhaustResponse(m);
      }
    }
  }
}
