/**
 * `CreateRemoteShareOperation`: creates a share with one form POST to the
 * sharing API. The form always names the path, the kind of share and the
 * sharee; the optional settings are added only when they differ from their
 * defaults. A 200 is parsed as a creation that must return the new share,
 * which can then be fetched again for its details.
 */
module CreateShare {
  import opened Wrappers
  import opened Strings
  import opened Headers
  import opened Http
  import opened HttpMethods
  import opened Client
  import opened RemoteResults
  import opened Shares
  import opened ShareParser

  const ParamName := "name"
  const ParamPassword := "password"
  const ParamExpirationDate := "expireDate"
  const ParamPublicUpload := "publicUpload"
  const ParamPath := "path"
  const ParamShareType := "shareType"
  const ParamShareWith := "shareWith"
  const ParamPermissions := "permissions"

  /** The expiration time that means "no expiration" (`INITIAL_EXPIRATION_DATE_IN_MILLIS`). */
  const InitialExpirationDateInMillis := 0

  const ContentTypeHeader := "Content-Type"
  const ContentTypeUrlencodedUtf8 := "application/x-www-form-urlencoded; charset=utf-8"

  /** The form fields, in the order they are added. */
  datatype FormKey = Path | ShareTypeKey | ShareWith | Name | ExpirationDate | PublicUpload | Password | Permissions

  /** The field's name in the form. */
  function KeyText(k: FormKey): string {
    match k
    case Path => ParamPath
    case ShareTypeKey => ParamShareType
    case ShareWith => ParamShareWith
    case Name => ParamName
    case ExpirationDate => ParamExpirationDate
    case PublicUpload => ParamPublicUpload
    case Password => ParamPassword
    case Permissions => ParamPermissions
  }

  type FormField = Field<FormKey>

  /** The fields of the operation that make up the form. */
  datatype CreateSettings = CreateSettings(
    remoteFilePath: string,
    shareType: ShareType,
    shareWith: string,
    publicUpload: Option<bool>,
    password: Option<string>,
    permissions: int,
    name: string,
    expirationDateInMillis: int)

  /** The text the form carries for a field, if the field is added. */
  function FormValue(s: CreateSettings, formatDate: int -> string, k: FormKey): Option<string> {
    match k
    case Path => Some(s.remoteFilePath)
    case ShareTypeKey => Some(IntToString(ShareTypeValue(s.shareType)))
    case ShareWith => Some(s.shareWith)
    case Name => if s.name != "" then Some(s.name) else None
    case ExpirationDate =>
      if s.expirationDateInMillis > InitialExpirationDateInMillis then Some(formatDate(s.expirationDateInMillis)) else None
    case PublicUpload => if s.publicUpload == Some(true) then Some(BoolToString(true)) else None
    case Password => if s.password.Some? && s.password.value != "" then s.password else None
    case Permissions => if DefaultPermission != s.permissions then Some(IntToString(s.permissions)) else None
  }

  /** `FormValue` of every field, at fixed settings. */
  function FormValues(s: CreateSettings, formatDate: int -> string): FormKey -> Option<string> {
    k => FormValue(s, formatDate, k)
  }

  /** The order in which `run` adds the fields. */
  const FormOrder: seq<FormKey> := [Path, ShareTypeKey, ShareWith, Name, ExpirationDate, PublicUpload, Password, Permissions]

  /** The fields `run` puts in the form. */
  function FormFields(s: CreateSettings, formatDate: int -> string): seq<FormField> {
    FieldsFor(FormValues(s, formatDate), FormOrder)
  }

  /**
   * The form carries the path, the kind of share and the sharee always; the
   * name only when it is not empty; the expiration only when it is after
   * the initial value; the upload permission only when it is true; the
   * password only when it is set and not empty; the permissions only when
   * they are not the default.
   */
  lemma FormSelection(s: CreateSettings, formatDate: int -> string)
    ensures var fs := FormFields(s, formatDate);
      Lookup(fs, Path) == Some(s.remoteFilePath) &&
      Lookup(fs, ShareTypeKey) == Some(IntToString(ShareTypeValue(s.shareType))) &&
      Lookup(fs, ShareWith) == Some(s.shareWith)
    ensures var fs := FormFields(s, formatDate);
      (Lookup(fs, Name).Some? <==> s.name != "") && (Lookup(fs, Name).Some? ==> Lookup(fs, Name).value == s.name)
    ensures var fs := FormFields(s, formatDate);
      (Lookup(fs, ExpirationDate).Some? <==> s.expirationDateInMillis > 0) &&
      (Lookup(fs, ExpirationDate).Some? ==> Lookup(fs, ExpirationDate).value == formatDate(s.expirationDateInMillis))
    ensures var fs := FormFields(s, formatDate);
      Lookup(fs, PublicUpload) == if s.publicUpload == Some(true) then Some("true") else None
    ensures var fs := FormFields(s, formatDate);
      (Lookup(fs, Password).Some? <==> s.password.Some? && s.password.value != "") &&
      (Lookup(fs, Password).Some? ==> Lookup(fs, Password) == s.password)
    ensures var fs := FormFields(s, formatDate);
      (Lookup(fs, Permissions).Some? <==> s.permissions != DefaultPermission) &&
      (Lookup(fs, Permissions).Some? ==> Lookup(fs, Permissions).value == IntToString(s.permissions))
  {
    var v := FormValues(s, formatDate);
    forall k | true ensures Lookup(FormFields(s, formatDate), k) == FormValue(s, formatDate, k) {
      LookupFieldsFor(v, FormOrder, k);
      assert k in FormOrder by {
        match k
        case Path => assert FormOrder[0] == k;
        case ShareTypeKey => assert FormOrder[1] == k;
        case ShareWith => assert FormOrder[2] == k;
        case Name => assert FormOrder[3] == k;
        case ExpirationDate => assert FormOrder[4] == k;
        case PublicUpload => assert FormOrder[5] == k;
        case Password => assert FormOrder[6] == k;
        case Permissions => assert FormOrder[7] == k;
      }
    }
  }

  /** The form, one field after the other, up to the sharee. */
  lemma FormStepsHead(s: CreateSettings, formatDate: int -> string)
    ensures FieldsFor(FormValues(s, formatDate), FormOrder[..3]) ==
            [Field(Path, s.remoteFilePath), Field(ShareTypeKey, IntToString(ShareTypeValue(s.shareType))),
             Field(ShareWith, s.shareWith)]
    ensures FieldsFor(FormValues(s, formatDate), FormOrder[..4]) ==
            FieldsFor(FormValues(s, formatDate), FormOrder[..3]) + Optional(Name, if s.name != "" then Some(s.name) else None)
  {
    var v := FormValues(s, formatDate);
    assert FormOrder[..0] == [];
    FieldsForStep(v, FormOrder, 1);
    FieldsForStep(v, FormOrder, 2);
    FieldsForStep(v, FormOrder, 3);
    FieldsForStep(v, FormOrder, 4);
  }

  /** The form, one field after the other, for the expiration and the upload permission. */
  lemma FormStepsMiddle(s: CreateSettings, formatDate: int -> string)
    ensures FieldsFor(FormValues(s, formatDate), FormOrder[..5]) ==
            FieldsFor(FormValues(s, formatDate), FormOrder[..4]) +
            Optional(ExpirationDate, if s.expirationDateInMillis > 0 then Some(formatDate(s.expirationDateInMillis)) else None)
    ensures FieldsFor(FormValues(s, formatDate), FormOrder[..6]) ==
            FieldsFor(FormValues(s, formatDate), FormOrder[..5]) +
            Optional(PublicUpload, if s.publicUpload == Some(true) then Some("true") else None)
  {
    var v := FormValues(s, formatDate);
    FieldsForStep(v, FormOrder, 5);
    FieldsForStep(v, FormOrder, 6);
  }

  /** The form, one field after the other, for the password and the permissions. */
  lemma FormStepsTail(s: CreateSettings, formatDate: int -> string)
    ensures FieldsFor(FormValues(s, formatDate), FormOrder[..7]) ==
            FieldsFor(FormValues(s, formatDate), FormOrder[..6]) +
            Optional(Password, if s.password.Some? && s.password.value != "" then s.password else None)
    ensures FormFields(s, formatDate) ==
            FieldsFor(FormValues(s, formatDate), FormOrder[..7]) +
            Optional(Permissions, if s.permissions != DefaultPermission then Some(IntToString(s.permissions)) else None)
  {
    var v := FormValues(s, formatDate);
    FieldsForStep(v, FormOrder, 7);
    FieldsForStep(v, FormOrder, 8);
    assert FormOrder[..8] == FormOrder;
  }

  /**
   * The form starts with the path, the kind of share and the sharee, and
   * then holds the optional fields that are set, each once, in the order
   * name, expiration, upload permission, password, permissions.
   */
  lemma FormOrdered(s: CreateSettings, formatDate: int -> string)
    ensures var fs := FormFields(s, formatDate);
      |fs| >= 3 && fs[0] == Field(Path, s.remoteFilePath) &&
      fs[1] == Field(ShareTypeKey, IntToString(ShareTypeValue(s.shareType))) && fs[2] == Field(ShareWith, s.shareWith)
    ensures Keys(FormFields(s, formatDate)) ==
            Selected(FormValues(s, formatDate), [Path, ShareTypeKey, ShareWith, Name, ExpirationDate, PublicUpload, Password, Permissions])
  {
    FormStepsHead(s, formatDate);
    FieldsForPrefix(FormValues(s, formatDate), FormOrder, 3);
    KeysFieldsFor(FormValues(s, formatDate), FormOrder);
  }

  /** No field name holds a `&`. */
  lemma KeyTextNoAmpersand(k: FormKey)
    ensures '&' !in KeyText(k)
  {
  }

  /**
   * The body splits back into the pairs of the form, field by field, when no
   * value holds a `&` (as after percent-encoding).
   */
  lemma FormBodyPairs(fs: seq<FormField>)
    requires |fs| >= 1
    requires forall f | f in fs :: '&' !in f.value
    ensures SplitAll(FormBody(fs, KeyText), '&') == FormPairs(fs, KeyText)
  {
    forall k | true ensures '&' !in KeyText(k) {
      KeyTextNoAmpersand(k);
    }
    SplitFormBody(fs, KeyText);
  }

  /**
   * What stays fixed during one `run`: the XML reader, the client's base URI
   * and version, the link path rule and the follow-up fetch of a share's
   * details (`GetRemoteShareOperation`, which is not part of this model).
   */
  datatype CreateEnv = CreateEnv(
    xml: ShareXmlParser,
    baseUri: string,
    ownCloudVersion: Option<string>,
    sharingLinkPathOf: Option<string> -> string,
    fetchShare: string -> RemoteResult<ShareParserResult>)

  /**
   * The parse of the answer: after a 200 one share at least is required and
   * links are completed against the client's base URI; after any other
   * status the parser keeps its defaults.
   */
  function AnswerOutcome(env: CreateEnv, status: int, body: Option<string>): Outcome<RemoteResult<ShareParserResult>> {
    if status == HttpOk then ParseResponse(body, env.xml, true, Some(env.baseUri), env.sharingLinkPathOf(env.ownCloudVersion))
    else ParseResponse(body, env.xml, false, None, env.sharingLinkPathOf(None))
  }

  /** A successful parse of a 200 holds one share at least. */
  lemma AnswerHasShare(env: CreateEnv, body: Option<string>)
    ensures var o := AnswerOutcome(env, HttpOk, body);
      o.Returned? && o.value.IsSuccess() ==> o.value.data.Some? && |o.value.data.value.shares| >= 1
  {
    var linkPath := env.sharingLinkPathOf(env.ownCloudVersion);
    ParseSuccess(body, env.xml, true, Some(env.baseUri), linkPath);
    var v := Verdict(body, env.xml);
    if v.Some? && v.value.shares.Some? {
      CompleteLinksPointwise(v.value.shares.value, Some(env.baseUri), linkPath);
    }
  }

  /**
   * The result of `run` once the POST returned `status` with `body`: an
   * exception of the parser becomes the result; a successful 200 is replaced
   * by the fetch of the first share when details are wanted.
   */
  function CreateResult(env: CreateEnv, getShareDetails: bool, status: int, body: Option<string>): RemoteResult<ShareParserResult> {
    match AnswerOutcome(env, status, body)
    case Threw(e) => OfException(e)
    case Returned(r) =>
      if status == HttpOk && r.IsSuccess() && getShareDetails then
        AnswerHasShare(env, body);
        env.fetchShare(r.data.value.shares[0].remoteId)
      else r
  }

  /**
   * The details are fetched exactly after a 200 whose answer is a success
   * with shares, when they are wanted, and then for the first share the
   * server returned; otherwise the parse is the result.
   */
  lemma CreateFollowUp(env: CreateEnv, getShareDetails: bool, status: int, body: Option<string>)
    ensures var v := Verdict(body, env.xml);
      status == HttpOk && getShareDetails && v.Some? && v.value.isSuccess && v.value.shares.Some? && v.value.shares.value != [] ==>
        CreateResult(env, getShareDetails, status, body) == env.fetchShare(v.value.shares.value[0].remoteId)
    ensures var o := AnswerOutcome(env, status, body);
      !(status == HttpOk && getShareDetails) && o.Returned? ==> CreateResult(env, getShareDetails, status, body) == o.value
    ensures var o := AnswerOutcome(env, status, body);
      o.Threw? ==> CreateResult(env, getShareDetails, status, body) == OfException(o.exception)
  {
    var v := Verdict(body, env.xml);
    if status == HttpOk && getShareDetails && v.Some? && v.value.isSuccess && v.value.shares.Some? && v.value.shares.value != [] {
      var linkPath := env.sharingLinkPathOf(env.ownCloudVersion);
      ParseSuccess(body, env.xml, true, Some(env.baseUri), linkPath);
      CompleteLinksPointwise(v.value.shares.value, Some(env.baseUri), linkPath);
    }
  }

  /**
   * Without a follow-up, a 200 succeeds exactly when the server reported
   * success with one share at least, and then returns them all.
   */
  lemma CreateSuccess(env: CreateEnv, body: Option<string>)
    ensures var r := CreateResult(env, false, HttpOk, body);
      var v := Verdict(body, env.xml);
      (r.IsSuccess() <==> v.Some? && v.value.isSuccess && v.value.shares.Some? && v.value.shares.value != []) &&
      (r.IsSuccess() ==> r.data.Some? && |r.data.value.shares| == |v.value.shares.value| >= 1)
  {
    var linkPath := env.sharingLinkPathOf(env.ownCloudVersion);
    ParseSuccess(body, env.xml, true, Some(env.baseUri), linkPath);
    ParseFailureClassification(body, env.xml, true, Some(env.baseUri), linkPath);
    var v := Verdict(body, env.xml);
    if v.Some? && v.value.shares.Some? {
      CompleteLinksPointwise(v.value.shares.value, Some(env.baseUri), linkPath);
    }
  }

  /**
   * After any status but 200 nothing is fetched and no link is completed: a
   * success returns the server's shares as they came, with none required.
   */
  lemma CreateOtherStatus(env: CreateEnv, getShareDetails: bool, status: int, body: Option<string>)
    requires status != HttpOk
    ensures var r := CreateResult(env, getShareDetails, status, body);
      var v := Verdict(body, env.xml);
      (r.IsSuccess() <==> v.Some? && v.value.isSuccess) &&
      (r.IsSuccess() ==> r.data == Some(ShareParserResult(if v.value.shares.Some? then v.value.shares.value else [], "")))
  {
    var linkPath := env.sharingLinkPathOf(None);
    ParseSuccess(body, env.xml, false, None, linkPath);
    ParseFailureClassification(body, env.xml, false, None, linkPath);
    var v := Verdict(body, env.xml);
    if v.Some? && v.value.isSuccess {
      var found := if v.value.shares.Some? then v.value.shares.value else [];
      CompleteLinksPointwise(found, None, linkPath);
      assert CompleteLinks(found, None, linkPath) == found;
    }
  }

  /** The headers of the POST: the form's content type, then the sharing API header. */
  lemma PostHeaders()
    ensures var hs := Add(Set([], ContentTypeHeader, ContentTypeUrlencodedUtf8), OcsApiHeader, OcsApiHeaderValue);
      Get(hs, ContentTypeHeader) == Some(ContentTypeUrlencodedUtf8) && Get(hs, OcsApiHeader) == Some(OcsApiHeaderValue)
  {
    var hs0 := Set([], ContentTypeHeader, ContentTypeUrlencodedUtf8);
    GetSet([], ContentTypeHeader, ContentTypeUrlencodedUtf8, ContentTypeHeader);
    ValuesAdd(hs0, OcsApiHeader, OcsApiHeaderValue, ContentTypeHeader);
    GetAdd(hs0, OcsApiHeader, OcsApiHeaderValue);
    assert !SameName(OcsApiHeader, ContentTypeHeader) by {
      assert |OcsApiHeader| != |ContentTypeHeader|;
    }
  }

  /**
   * The POST `run` builds: the sharing API URI, the form as its body, the
   * urlencoded content type and the OCS API header.
   */
  method NewPostMethod(uri: string, body: string) returns (m: HttpMethod)
    requires IsHttpUrl(uri)
    ensures fresh(m) && m.response.None? && m.redirectChainHandler == null && !m.followPermanentRedirects
    ensures var sent := m.RequestToSend();
      sent.verb == POST && sent.url == uri && sent.followRedirects && sent.body == Some(body) &&
      Get(sent.headers, ContentTypeHeader) == Some(ContentTypeUrlencodedUtf8) &&
      Get(sent.headers, OcsApiHeader) == Some(OcsApiHeaderValue)
  {
    m := new HttpMethod(POST, uri);
    m.SetRequestBody(body);
    m.SetRequestHeader(ContentTypeHeader, ContentTypeUrlencodedUtf8);
    m.AddRequestHeader(OcsApiHeader, OcsApiHeaderValue);
    PostHeaders();
  }

  class CreateRemoteShareOperation {
    const remoteFilePath: string
    const shareType: ShareType
    const shareWith: string
    var publicUpload: Option<bool>
    var password: Option<string>
    var permissions: int
    var getShareDetails: bool
    var name: string
    var expirationDateInMillis: int

    /** The primary constructor: no details fetched, no name, no expiration. */
    constructor (remoteFilePath: string, shareType: ShareType, shareWith: string,
                 publicUpload: Option<bool>, password: Option<string>, permissions: int)
      ensures this.remoteFilePath == remoteFilePath && this.shareType == shareType && this.shareWith == shareWith
      ensures this.publicUpload == publicUpload && this.password == password && this.permissions == permissions
      ensures !getShareDetails && name == "" && expirationDateInMillis == InitialExpirationDateInMillis
    {
      this.remoteFilePath := remoteFilePath;
      this.shareType := shareType;
      this.shareWith := shareWith;
      this.publicUpload := publicUpload;
      this.password := password;
      this.permissions := permissions;
      name := "";
      expirationDateInMillis := InitialExpirationDateInMillis;
      getShareDetails := false;
    }

    /** The fields the form is made of. */
    function Settings(): CreateSettings
      reads this
    {
      CreateSettings(remoteFilePath, shareType, shareWith, publicUpload, password, permissions, name, expirationDateInMillis)
    }

    /** The `FormBody.Builder` calls of `run`. */
    method BuildForm(formatDate: int -> string) returns (fs: seq<FormField>)
      ensures fs == FormFields(Settings(), formatDate)
    {
      ghost var v := FormValues(Settings(), formatDate);
      FormStepsHead(Settings(), formatDate);
      FormStepsMiddle(Settings(), formatDate);
      FormStepsTail(Settings(), formatDate);
      fs := [Field(Path, remoteFilePath)];
      fs := fs + [Field(ShareTypeKey, IntToString(ShareTypeValue(shareType)))];
      fs := fs + [Field(ShareWith, shareWith)];
      assert fs == FieldsFor(v, FormOrder[..3]);
      ghost var before := fs;
      if name != "" {
        fs := fs + [Field(Name, name)];
      }
      assert fs == before + Optional(Name, if name != "" then Some(name) else None);
      assert fs == FieldsFor(v, FormOrder[..4]);
      before := fs;
      if expirationDateInMillis > InitialExpirationDateInMillis {
        fs := fs + [Field(ExpirationDate, formatDate(expirationDateInMillis))];
      }
      assert fs == before + Optional(ExpirationDate, if expirationDateInMillis > 0 then Some(formatDate(expirationDateInMillis)) else None);
      assert fs == FieldsFor(v, FormOrder[..5]);
      before := fs;
      if publicUpload == Some(true) {
        fs := fs + [Field(PublicUpload, BoolToString(publicUpload.value))];
      }
      assert fs == before + Optional(PublicUpload, if publicUpload == Some(true) then Some("true") else None);
      assert fs == FieldsFor(v, FormOrder[..6]);
      before := fs;
      if password.Some? && password.value != "" {
        fs := fs + [Field(Password, password.value)];
      }
      assert fs == before + Optional(Password, if password.Some? && password.value != "" then password else None);
      assert fs == FieldsFor(v, FormOrder[..7]);
      before := fs;
      if DefaultPermission != permissions {
        fs := fs + [Field(Permissions, IntToString(permissions))];
      }
      assert fs == before + Optional(Permissions, if permissions != DefaultPermission then Some(IntToString(permissions)) else None);
    }

    /**
     * The part of `run` after the POST returned: a fresh parser, set up for
     * a creation after a 200, reads the body; a success is replaced by the
     * fetch of the new share when details are wanted.
     */
    method Answer(env: CreateEnv, status: int, body: Option<string>) returns (result: RemoteResult<ShareParserResult>)
      ensures result == CreateResult(env, getShareDetails, status, body)
    {
      var parser := new ShareToRemoteOperationResultParser(env.xml, env.sharingLinkPathOf);
      if status == HttpOk {
        parser.SetOneOrMoreSharesRequired(true);
        parser.SetOwnCloudVersion(env.ownCloudVersion);
        parser.SetServerBaseUri(Some(env.baseUri));
      }
      var parsed := parser.Parse(body);
      if parsed.Threw? {
        return OfException(parsed.exception);
      }
      result := parsed.value;
      if status == HttpOk && result.IsSuccess() && getShareDetails {
        AnswerHasShare(env, body);
        result := env.fetchShare(result.data.value.shares[0].remoteId);
      }
    }

    /**
     * `run`. The network, the XML reader, the link path rule, the client's
     * version, the sharing API path, date formatting and the follow-up fetch
     * are parameters. A URI that is not http(s) fails before any request;
     * otherwise one POST is executed through the client and its answer is
     * classified by `CreateResult`.
     */
    method Run(client: OwnCloudClient, server: Server, xml: ShareXmlParser, sharingLinkPathOf: Option<string> -> string,
               ownCloudVersion: Option<string>, sharingApiPath: string, formatDate: int -> string,
               fetchShare: string -> RemoteResult<ShareParserResult>)
      returns (result: RemoteResult<ShareParserResult>, ghost post: HttpMethod?, ghost sent: Request,
               ghost run: RunResult, ghost executed: Option<Outcome<int>>)
      modifies client`credentials, client`requestCounter
      ensures executed.None? <==> !IsHttpUrl(AppendEncodedPath(client.baseUri, sharingApiPath))
      ensures executed.None? ==> result == OfException(MalformedUrl) && unchanged(client)
      ensures executed.Some? ==>
                post != null && fresh(post) &&
                sent.verb == POST && sent.url == AppendEncodedPath(client.baseUri, sharingApiPath) && sent.followRedirects &&
                sent.body == Some(FormBody(FormFields(Settings(), formatDate), KeyText)) &&
                Get(sent.headers, ContentTypeHeader) == Some(ContentTypeUrlencodedUtf8) &&
                Get(sent.headers, OcsApiHeader) == Some(OcsApiHeaderValue)
      ensures executed.Some? ==>
                run == old(client.RunFor(sent, client.followRedirects, false, server)) &&
                executed == Some(run.outcome) && post.response == LastResponse(run.attempts, None) &&
                client.credentials == run.final.credentials && client.requestCounter == run.final.counter
      ensures executed.Some? && executed.value.Threw? ==> result == OfException(executed.value.exception)
      ensures executed.Some? && executed.value.Returned? ==>
                post.response.Some? && post.response.value.status == executed.value.value &&
                result == CreateResult(CreateEnv(xml, client.baseUri, ownCloudVersion, sharingLinkPathOf, fetchShare),
                                       getShareDetails, executed.value.value, post.response.value.body)
    {
      sent := Request(POST, "", [], false, false, None, None, None);
      run := RunResult(Threw(MalformedUrl), [], LoopState([], false, client.credentials, client.requestCounter));
      post := null;
      executed := None;
      var fs := BuildForm(formatDate);
      var uri := AppendEncodedPath(client.baseUri, sharingApiPath);
      if !IsHttpUrl(uri) {
        return OfException(MalformedUrl), post, sent, run, executed;
      }
      var m := NewPostMethod(uri, FormBody(fs, KeyText));
      post := m;
      sent := m.RequestToSend();
      client.RunForMethod(m, server);
      run := client.RunFor(sent, client.followRedirects, false, server);
      var status := client.ExecuteHttpMethod(m, server);
      executed := Some(status);
      if status.Threw? {
        return OfException(status.exception), post, sent, run, executed;
      }
      result := Answer(CreateEnv(xml, client.baseUri, ownCloudVersion, sharingLinkPathOf, fetchShare),
                       status.value, m.GetResponseBodyAsString());
    }
  }
}
