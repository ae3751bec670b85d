/**
 * `ShareToRemoteOperationResultParser`: turns the XML answer of the sharing
 * API into a result. The XML reader itself is a parameter; what is modelled
 * is how its verdict is classified and how the public links missing from
 * answers of old servers are completed.
 */
module ShareParser {
  import opened Wrappers
  import opened Strings
  import opened Http
  import opened RemoteResults
  import opened Shares

  /**
   * What `ShareXMLParser` reports after reading an answer: the shares it found
   * (`null` as `None`) and the flags and message of the answer's status.
   */
  datatype XmlVerdict = XmlVerdict(
    shares: Option<seq<RemoteShare>>,
    isSuccess: bool,
    isWrongParameter: bool,
    isNotFound: bool,
    isForbidden: bool,
    message: Option<string>)

  /**
   * `parseXMLResponse` with the flags it leaves behind; `None` where the
   * reader throws an XML pull-parser or I/O exception.
   */
  type ShareXmlParser = string -> Option<XmlVerdict>

  /** `ShareParserResult`. */
  datatype ShareParserResult = ShareParserResult(shares: seq<RemoteShare>, parserMessage: string)

  /** Whether the parser builds a link for the share: a public link that has a token but no link. */
  predicate NeedsLink(share: RemoteShare) {
    share.shareType == PublicLink && share.shareLink == "" && share.token != ""
  }

  /**
   * The share as the loop leaves it. `linkPath` is what
   * `ShareUtils.getSharingLinkPath` gives for the server's version.
   */
  function CompleteLink(share: RemoteShare, serverBaseUri: Option<string>, linkPath: string): (r: RemoteShare)
    ensures r.remoteId == share.remoteId && r.shareType == share.shareType && r.path == share.path && r.token == share.token
    ensures NeedsLink(share) && serverBaseUri.Some? ==>
              StartsWith(r.shareLink, serverBaseUri.value + linkPath) && EndsWith(r.shareLink, share.token)
    ensures !(NeedsLink(share) && serverBaseUri.Some?) ==> r == share
    ensures NeedsLink(r) <==> NeedsLink(share) && serverBaseUri.None?
  {
    if NeedsLink(share) && serverBaseUri.Some? then
      var prefix := serverBaseUri.value + linkPath;
      assert (prefix + share.token)[..|prefix|] == prefix;
      assert (prefix + share.token)[|prefix + share.token| - |share.token|..] == share.token;
      share.(shareLink := prefix + share.token)
    else share
  }

  /** Every share of a list through `CompleteLink`, in order. */
  function CompleteLinks(shares: seq<RemoteShare>, serverBaseUri: Option<string>, linkPath: string)
    : (r: seq<RemoteShare>)
  {
    if shares == [] then []
    else CompleteLinks(shares[..|shares| - 1], serverBaseUri, linkPath)
         + [CompleteLink(shares[|shares| - 1], serverBaseUri, linkPath)]
  }

  /** The completed list lines up with the answer's list, share by share. */
  lemma {:induction false} CompleteLinksPointwise(shares: seq<RemoteShare>, serverBaseUri: Option<string>, linkPath: string)
    ensures var r := CompleteLinks(shares, serverBaseUri, linkPath);
      |r| == |shares| && forall i :: 0 <= i < |shares| ==> r[i] == CompleteLink(shares[i], serverBaseUri, linkPath)
  {
    if shares != [] {
      CompleteLinksPointwise(shares[..|shares| - 1], serverBaseUri, linkPath);
    }
  }

  /**
   * Completing links twice is completing them once, and with a known server
   * no share of the result still lacks its link.
   */
  lemma CompleteLinksIdempotent(shares: seq<RemoteShare>, serverBaseUri: Option<string>, linkPath: string)
    ensures var once := CompleteLinks(shares, serverBaseUri, linkPath);
      CompleteLinks(once, serverBaseUri, linkPath) == once &&
      (serverBaseUri.Some? ==> forall i :: 0 <= i < |once| ==> !NeedsLink(once[i]))
  {
    var once := CompleteLinks(shares, serverBaseUri, linkPath);
    CompleteLinksPointwise(shares, serverBaseUri, linkPath);
    CompleteLinksPointwise(once, serverBaseUri, linkPath);
  }

  /**
   * `parse`. An absent or empty answer, a reader that throws and an answer
   * of no known status are wrong server responses; a success needs at least
   * one share when shares are required; the three error statuses carry the
   * answer's message and throw `NullPointerException` when it has none.
   */
  function ParseResponse(serverResponse: Option<string>, xml: ShareXmlParser, oneOrMoreSharesRequired: bool,
                         serverBaseUri: Option<string>, linkPath: string): (r: Outcome<RemoteResult<ShareParserResult>>)
    ensures serverResponse.None? || serverResponse.value == "" ==> r == Returned(OfCode(WrongServerResponse))
    ensures r.Threw? ==> r.exception == NullPointer
    ensures r.Returned? && r.value.IsSuccess() ==> r.value.code == Ok && r.value.data.Some?
  {
    if serverResponse.None? || serverResponse.value == "" then Returned(OfCode(WrongServerResponse))
    else
      match xml(serverResponse.value)
      case None => Returned(OfCode(WrongServerResponse))
      case Some(v) =>
        if v.isSuccess then
          if (v.shares.Some? && v.shares.value != []) || !oneOrMoreSharesRequired then
            var found := if v.shares.Some? then v.shares.value else [];
            Returned(OfCode(Ok).WithData(ShareParserResult(CompleteLinks(found, serverBaseUri, linkPath), "")))
          else Returned(OfCode(WrongServerResponse))
        else if v.isWrongParameter || v.isNotFound || v.isForbidden then
          if v.message.None? then Threw(NullPointer)
          else
            var code := if v.isWrongParameter then ShareWrongParameter
                        else if v.isNotFound then ShareNotFound
                        else ShareForbidden;
            Returned(OfCode(code).WithData(ShareParserResult([], v.message.value)))
        else Returned(OfCode(WrongServerResponse))
  }

  /** The answer the reader made of a non-empty response, if any. */
  function Verdict(serverResponse: Option<string>, xml: ShareXmlParser): Option<XmlVerdict> {
    if serverResponse.None? || serverResponse.value == "" then None else xml(serverResponse.value)
  }

  /**
   * The parse succeeds exactly for a successful answer that has shares or
   * needs none, and then it returns the answer's shares, in order, with their
   * links completed; every other answer that returns is a failure without
   * an HTTP status.
   */
  lemma ParseSuccess(serverResponse: Option<string>, xml: ShareXmlParser, required: bool,
                     serverBaseUri: Option<string>, linkPath: string)
    ensures var r := ParseResponse(serverResponse, xml, required, serverBaseUri, linkPath);
      var v := Verdict(serverResponse, xml);
      (r.Returned? && r.value.IsSuccess()) <==>
        v.Some? && v.value.isSuccess && ((v.value.shares.Some? && v.value.shares.value != []) || !required)
    ensures var r := ParseResponse(serverResponse, xml, required, serverBaseUri, linkPath);
      var v := Verdict(serverResponse, xml);
      r.Returned? && r.value.IsSuccess() ==>
        r.value.code == Ok && r.value.data.Some? && r.value.data.value.parserMessage == "" &&
        r.value.data.value.shares ==
          CompleteLinks(if v.value.shares.Some? then v.value.shares.value else [], serverBaseUri, linkPath)
    ensures var r := ParseResponse(serverResponse, xml, required, serverBaseUri, linkPath);
      r.Returned? ==> r.value.httpStatus == -1
  {
  }

  /**
   * An unsuccessful answer is classified by its first flag, in the order
   * wrong parameter, not found, forbidden; with none of them it is a wrong
   * server response. Only a flagged answer without a message throws.
   */
  lemma ParseFailureClassification(serverResponse: Option<string>, xml: ShareXmlParser, required: bool,
                                   serverBaseUri: Option<string>, linkPath: string)
    ensures var r := ParseResponse(serverResponse, xml, required, serverBaseUri, linkPath);
      var v := Verdict(serverResponse, xml);
      r.Threw? <==> v.Some? && !v.value.isSuccess &&
                    (v.value.isWrongParameter || v.value.isNotFound || v.value.isForbidden) && v.value.message.None?
    ensures var r := ParseResponse(serverResponse, xml, required, serverBaseUri, linkPath);
      r.Threw? ==> r.exception == NullPointer
    ensures var r := ParseResponse(serverResponse, xml, required, serverBaseUri, linkPath);
      var v := Verdict(serverResponse, xml);
      r.Returned? && v.Some? && !v.value.isSuccess ==>
        r.value.code == (if v.value.isWrongParameter then ShareWrongParameter
                         else if v.value.isNotFound then ShareNotFound
                         else if v.value.isForbidden then ShareForbidden
                         else WrongServerResponse)
    ensures var r := ParseResponse(serverResponse, xml, required, serverBaseUri, linkPath);
      Verdict(serverResponse, xml).None? ==> r == Returned(OfCode(WrongServerResponse))
  {
  }

  class ShareToRemoteOperationResultParser {
    const shareXmlParser: ShareXmlParser
    /** `ShareUtils.getSharingLinkPath`: the path of public links on a server of a given version. */
    const sharingLinkPathOf: Option<string> -> string
    var oneOrMoreSharesRequired: bool
    /** The server's version, as its version string. */
    var ownCloudVersion: Option<string>
    var serverBaseUri: Option<string>

    constructor (shareXmlParser: ShareXmlParser, sharingLinkPathOf: Option<string> -> string)
      ensures this.shareXmlParser == shareXmlParser && this.sharingLinkPathOf == sharingLinkPathOf
      ensures !oneOrMoreSharesRequired && ownCloudVersion.None? && serverBaseUri.None?
    {
      this.shareXmlParser := shareXmlParser;
      this.sharingLinkPathOf := sharingLinkPathOf;
      oneOrMoreSharesRequired := false;
      ownCloudVersion := None;
      serverBaseUri := None;
    }

    method SetOwnCloudVersion(version: Option<string>)
      modifies this`ownCloudVersion
      ensures ownCloudVersion == version
    {
      ownCloudVersion := version;
    }

    method SetOneOrMoreSharesRequired(required: bool)
      modifies this`oneOrMoreSharesRequired
      ensures oneOrMoreSharesRequired == required
    {
      oneOrMoreSharesRequired := required;
    }

    method SetServerBaseUri(uri: Option<string>)
      modifies this`serverBaseUri
      ensures serverBaseUri == uri
    {
      serverBaseUri := uri;
    }

    /** `parse`, building the result list share by share. */
    method Parse(serverResponse: Option<string>) returns (r: Outcome<RemoteResult<ShareParserResult>>)
      ensures r == ParseResponse(serverResponse, shareXmlParser, oneOrMoreSharesRequired, serverBaseUri,
                                 sharingLinkPathOf(ownCloudVersion))
    {
      var sharingLinkPath := sharingLinkPathOf(ownCloudVersion);
      if serverResponse.None? || serverResponse.value == "" {
        return Returned(OfCode(WrongServerResponse));
      }
      var parsed := shareXmlParser(serverResponse.value);
      if parsed.None? {
        return Returned(OfCode(WrongServerResponse));
      }
      var v := parsed.value;
      if v.isSuccess {
        if (v.shares.Some? && v.shares.value != []) || !oneOrMoreSharesRequired {
          var resultData: seq<RemoteShare> := [];
          if v.shares.Some? {
            var shares := v.shares.value;
            var i := 0;
            while i < |shares|
              invariant 0 <= i <= |shares|
              invariant resultData == CompleteLinks(shares[..i], serverBaseUri, sharingLinkPath)
            {
              var share := shares[i];
              if share.shareType == PublicLink && share.shareLink == "" && share.token != "" {
                if serverBaseUri.Some? {
                  share := share.(shareLink := serverBaseUri.value + sharingLinkPath + share.token);
                }
              }
              assert shares[..i + 1][..i] == shares[..i];
              resultData := resultData + [share];
              i := i + 1;
            }
            assert shares[..|shares|] == shares;
          }
          return Returned(OfCode(Ok).WithData(ShareParserResult(resultData, "")));
        }
        return Returned(OfCode(WrongServerResponse));
      } else if v.isWrongParameter {
        if v.message.None? { return Threw(NullPointer); }
        return Returned(OfCode(ShareWrongParameter).WithData(ShareParserResult([], v.message.value)));
      } else if v.isNotFound {
        if v.message.None? { return Threw(NullPointer); }
        return Returned(OfCode(ShareNotFound).WithData(ShareParserResult([], v.message.value)));
      } else if v.isForbidden {
        if v.message.None? { return Threw(NullPointer); }
        return Returned(OfCode(ShareForbidden).WithData(ShareParserResult([], v.message.value)));
      }
      return Returned(OfCode(WrongServerResponse));
    }
  }
}
