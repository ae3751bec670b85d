/**
 * `UpdateRemoteShareOperation`: changes the settings of an existing share,
 * one PUT to the sharing API per setting that is to change. The settings
 * are queued in a fixed order; a failure stops the queue, except for the
 * name, which servers before 10.0.0 refuse.
 */
module UpdateShare {
  import opened Wrappers
  import opened Strings
  import opened Headers
  import opened Http
  import opened RemoteResults
  import opened Shares
  import opened ShareParser
  import opened Client

  const ParamName := "name"
  const ParamPassword := "password"
  const ParamExpirationDate := "expireDate"
  const ParamPermissions := "permissions"
  const ParamPublicUpload := "publicUpload"

  /** The settings an update can change, in the order they are sent. */
  datatype Key = Name | Password | ExpirationDate | PublicUpload | Permissions

  /** The key's name in the request body. */
  function KeyText(k: Key): string {
    match k
    case Name => ParamName
    case Password => ParamPassword
    case ExpirationDate => ParamExpirationDate
    case PublicUpload => ParamPublicUpload
    case Permissions => ParamPermissions
  }

  /** Different settings have different names, so a key is known from its name. */
  lemma KeyTextInjective(a: Key, b: Key)
    ensures KeyText(a) == KeyText(b) <==> a == b
  {
    if a != b {
      assert |KeyText(a)| != |KeyText(b)|;
    }
  }

  /** The position of each key in the fixed order. */
  function Rank(k: Key): nat {
    match k
    case Name => 0
    case Password => 1
    case ExpirationDate => 2
    case PublicUpload => 3
    case Permissions => 4
  }

  /** One `Pair` of the parameter list. */
  type Parameter = Field<Key>

  /** The fields of the operation that say what to change. */
  datatype UpdateSettings = UpdateSettings(
    name: Option<string>,
    password: Option<string>,
    expirationDateInMillis: int,
    publicUpload: Option<bool>,
    permissions: int)

  /**
   * The expiration value sent: the empty text to clear the date for a
   * negative time, the formatted date for a positive one, nothing for zero.
   */
  function ExpirationValue(millis: int, formatDate: int -> string): (r: Option<string>)
    ensures r.None? <==> millis == 0
    ensures millis < 0 ==> r == Some("")
    ensures millis > 0 ==> r == Some(formatDate(millis))
  {
    if millis < 0 then Some("") else if millis > 0 then Some(formatDate(millis)) else None
  }

  /** The text sent for the upload permission, if it is to change. */
  function PublicUploadValue(publicUpload: Option<bool>): (r: Option<string>)
    ensures r.Some? <==> publicUpload.Some?
    ensures r.Some? ==> r.value == (if publicUpload.value then "true" else "false")
  {
    if publicUpload.Some? then Some(BoolToString(publicUpload.value)) else None
  }

  /** The text sent for the permissions: only positive permissions are sent. */
  function PermissionsValue(permissions: int): (r: Option<string>)
    ensures r.Some? <==> permissions > 0
    ensures r.Some? ==> r.value == IntToString(permissions) && !StartsWith(r.value, "-")
  {
    if permissions > 0 then Some(IntToString(permissions)) else None
  }

  /** The text the settings ask to send for a key, if any. */
  function SettingValue(s: UpdateSettings, formatDate: int -> string, k: Key): Option<string> {
    match k
    case Name => s.name
    case Password => s.password
    case ExpirationDate => ExpirationValue(s.expirationDateInMillis, formatDate)
    case PublicUpload => PublicUploadValue(s.publicUpload)
    case Permissions => PermissionsValue(s.permissions)
  }

  /** `SettingValue` of every key, at fixed settings. */
  function SettingValues(s: UpdateSettings, formatDate: int -> string): Key -> Option<string> {
    k => SettingValue(s, formatDate, k)
  }

  /** The order in which `run` queues the settings. */
  const KeyOrder: seq<Key> := [Name, Password, ExpirationDate, PublicUpload, Permissions]

  /**
   * The list `run` builds. The keys sent are the settings to change, each
   * once, in the fixed order name, password, expiration, upload permission,
   * permissions: the permissions always follow the upload permission.
   */
  function ParametersToUpdate(s: UpdateSettings, formatDate: int -> string): (ps: seq<Parameter>)
    ensures Keys(ps) == Selected(SettingValues(s, formatDate), [Name, Password, ExpirationDate, PublicUpload, Permissions])
  {
    KeysFieldsFor(SettingValues(s, formatDate), KeyOrder);
    FieldsFor(SettingValues(s, formatDate), KeyOrder)
  }

  /** The list `run` builds, one setting after the other. */
  lemma ParametersSteps(s: UpdateSettings, formatDate: int -> string)
    ensures FieldsFor(SettingValues(s, formatDate), KeyOrder[..1]) == Optional(Name, s.name)
    ensures FieldsFor(SettingValues(s, formatDate), KeyOrder[..2]) ==
            FieldsFor(SettingValues(s, formatDate), KeyOrder[..1]) + Optional(Password, s.password)
    ensures FieldsFor(SettingValues(s, formatDate), KeyOrder[..3]) ==
            FieldsFor(SettingValues(s, formatDate), KeyOrder[..2]) +
            Optional(ExpirationDate, ExpirationValue(s.expirationDateInMillis, formatDate))
    ensures FieldsFor(SettingValues(s, formatDate), KeyOrder[..4]) ==
            FieldsFor(SettingValues(s, formatDate), KeyOrder[..3]) + Optional(PublicUpload, PublicUploadValue(s.publicUpload))
    ensures ParametersToUpdate(s, formatDate) ==
            FieldsFor(SettingValues(s, formatDate), KeyOrder[..4]) + Optional(Permissions, PermissionsValue(s.permissions))
  {
    assert KeyOrder[..0] == [];
    ParameterStep(s, formatDate, 1);
    ParameterStep(s, formatDate, 2);
    ParameterStep(s, formatDate, 3);
    ParameterStep(s, formatDate, 4);
    ParameterStep(s, formatDate, 5);
    assert KeyOrder[..5] == KeyOrder;
  }

  /** The step of the list for the `n`-th key of the fixed order. */
  lemma ParameterStep(s: UpdateSettings, formatDate: int -> string, n: nat)
    requires 0 < n <= |KeyOrder|
    ensures FieldsFor(SettingValues(s, formatDate), KeyOrder[..n]) ==
            FieldsFor(SettingValues(s, formatDate), KeyOrder[..n - 1]) +
            Optional(KeyOrder[n - 1], SettingValue(s, formatDate, KeyOrder[n - 1]))
  {
    FieldsForStep(SettingValues(s, formatDate), KeyOrder, n);
  }

  /**
   * Each setting is sent exactly when it is to change, with the text the
   * operation sends for it: a null name, password or upload permission, a
   * zero expiration and non-positive permissions are left out, and an empty
   * password is sent.
   */
  lemma ParametersSelection(s: UpdateSettings, formatDate: int -> string, k: Key)
    ensures Lookup(ParametersToUpdate(s, formatDate), k) == SettingValue(s, formatDate, k)
  {
    LookupFieldsFor(SettingValues(s, formatDate), KeyOrder, k);
    assert k in KeyOrder by {
      assert k == KeyOrder[Rank(k)];
    }
  }

  /** The PUT for one parameter: the share's URI, the API header and the body `key=value`. */
  function PutRequest(uri: string, p: Parameter): (r: Request)
    ensures r.verb == PUT && r.url == uri && r.body == Some(FormPair(KeyText(p.key), p.value))
    ensures Get(r.headers, OcsApiHeader) == Some(OcsApiHeaderValue)
  {
    GetSet([], OcsApiHeader, OcsApiHeaderValue, OcsApiHeader);
    Request(PUT, uri, Set([], OcsApiHeader, OcsApiHeaderValue), false, false, None, None, Some(FormPair(KeyText(p.key), p.value)))
  }

  /**
   * What stays fixed while the parameters are sent: the network, the XML
   * reader, the client's base URI and version and the link path rule.
   */
  datatype ShareEnv = ShareEnv(
    server: Server,
    xml: ShareXmlParser,
    baseUri: string,
    ownCloudVersion: Option<string>,
    sharingLinkPathOf: Option<string> -> string)

  /**
   * What one PUT gives: the parse of the body after a 200, a failure
   * carrying the response otherwise; a transport failure or an exception of
   * the parser is thrown.
   */
  function ParameterOutcome(env: ShareEnv, uri: string, p: Parameter): Outcome<RemoteResult<ShareParserResult>> {
    match env.server(PutRequest(uri, p))
    case Failed(e) => Threw(e)
    case Answered(r) =>
      if r.status == HttpOk then
        ParseResponse(r.body, env.xml, false, Some(env.baseUri), env.sharingLinkPathOf(env.ownCloudVersion))
      else Returned(OfFlaggedResponse(false, r))
  }

  /** `ParameterOutcome` for every parameter, at a fixed environment and URI. */
  function VerdictsFor(env: ShareEnv, uri: string): Verdicts {
    p => ParameterOutcome(env, uri, p)
  }

  /** Whether the queue goes on after a parameter: it returned, and succeeded or was the name. */
  predicate Continues(p: Parameter, o: Outcome<RemoteResult<ShareParserResult>>) {
    o.Returned? && (o.value.IsSuccess() || KeyText(p.key) == ParamName)
  }

  /** The verdict on each parameter, as a function. */
  type Verdicts = Parameter -> Outcome<RemoteResult<ShareParserResult>>

  /** The result a parameter leaves: its own, or the exception's (`catch`). */
  function ResultOf(o: Outcome<RemoteResult<ShareParserResult>>): RemoteResult<ShareParserResult> {
    if o.Threw? then OfException(o.exception) else o.value
  }

  /** The result of a run (`null` as `None`) and the PUTs it sent. */
  datatype UpdateRun = UpdateRun(result: Option<RemoteResult<ShareParserResult>>, puts: seq<Request>)

  /**
   * The loop over the parameters from a given one on, with the result so
   * far. It sends at most one PUT per parameter, and at least one when there
   * is a parameter; with none, the result is the one it started with.
   */
  function RunFrom(verdict: Verdicts, uri: string, ps: seq<Parameter>, result: Option<RemoteResult<ShareParserResult>>)
    : (run: UpdateRun)
    ensures |run.puts| <= |ps| && (|run.puts| == 0 <==> |ps| == 0)
    ensures |ps| == 0 ==> run.result == result
    decreases |ps|
  {
    if ps == [] then UpdateRun(result, [])
    else
      var o := verdict(ps[0]);
      if !Continues(ps[0], o) then UpdateRun(Some(ResultOf(o)), [PutRequest(uri, ps[0])])
      else
        var rest := RunFrom(verdict, uri, ps[1..], Some(o.value));
        UpdateRun(rest.result, [PutRequest(uri, ps[0])] + rest.puts)
  }

  /** The run from position `i` of the parameters when it stops there: that one PUT. */
  lemma RunStopsAt(verdict: Verdicts, uri: string, ps: seq<Parameter>, i: nat,
                   result: Option<RemoteResult<ShareParserResult>>)
    requires i < |ps| && !Continues(ps[i], verdict(ps[i]))
    ensures RunFrom(verdict, uri, ps[i..], result) == UpdateRun(Some(ResultOf(verdict(ps[i]))), [PutRequest(uri, ps[i])])
  {
    assert ps[i..][0] == ps[i];
  }

  /** The run from position `i` of the parameters when it goes on: that PUT, then the run from `i + 1`. */
  lemma RunGoesOnAt(verdict: Verdicts, uri: string, ps: seq<Parameter>, i: nat,
                    result: Option<RemoteResult<ShareParserResult>>)
    requires i < |ps| && Continues(ps[i], verdict(ps[i]))
    ensures var later := RunFrom(verdict, uri, ps[i + 1..], Some(verdict(ps[i]).value));
      RunFrom(verdict, uri, ps[i..], result) == UpdateRun(later.result, [PutRequest(uri, ps[i])] + later.puts)
  {
    assert ps[i..][0] == ps[i] && ps[i..][1..] == ps[i + 1..];
  }

  /** The loop sends one PUT per processed parameter, in order. */
  lemma {:induction false} RunFromPuts(verdict: Verdicts, uri: string, ps: seq<Parameter>,
                                       result: Option<RemoteResult<ShareParserResult>>)
    ensures var run := RunFrom(verdict, uri, ps, result);
      forall i :: 0 <= i < |run.puts| ==> run.puts[i] == PutRequest(uri, ps[i])
    decreases |ps|
  {
    if ps != [] && Continues(ps[0], verdict(ps[0])) {
      var later := Some(verdict(ps[0]).value);
      RunFromPuts(verdict, uri, ps[1..], later);
      PutsShift(uri, ps, RunFrom(verdict, uri, ps[1..], later).puts);
    }
  }

  /** One PUT for the first parameter in front of one per later parameter, in order. */
  lemma PutsShift(uri: string, ps: seq<Parameter>, rest: seq<Request>)
    requires ps != [] && |rest| < |ps|
    requires forall i :: 0 <= i < |rest| ==> rest[i] == PutRequest(uri, ps[1..][i])
    ensures var puts := [PutRequest(uri, ps[0])] + rest;
      forall i :: 0 <= i < |puts| ==> puts[i] == PutRequest(uri, ps[i])
  {
    var want := seq(|ps|, i requires 0 <= i < |ps| => PutRequest(uri, ps[i]));
    forall i | 0 <= i < |rest|
      ensures rest[i] == want[i + 1]
    {
      assert ps[1..][i] == ps[i + 1];
    }
    ConsShift(PutRequest(uri, ps[0]), rest, want);
  }

  /** An element in front of a sequence that matches another from its second position on. */
  lemma ConsShift<T>(x: T, rest: seq<T>, want: seq<T>)
    requires 0 < |want| && want[0] == x && |rest| < |want|
    requires forall i :: 0 <= i < |rest| ==> rest[i] == want[i + 1]
    ensures forall i :: 0 <= i < |[x] + rest| ==> ([x] + rest)[i] == want[i]
  {
    forall i | 1 <= i < |[x] + rest|
      ensures ([x] + rest)[i] == want[i]
    {
      assert ([x] + rest)[i] == rest[i - 1];
    }
  }

  /**
   * The loop goes past a parameter only when it succeeded or was the name,
   * and stops early only after one that did neither.
   */
  lemma {:induction false} RunFromStops(verdict: Verdicts, uri: string, ps: seq<Parameter>,
                                        result: Option<RemoteResult<ShareParserResult>>)
    ensures var run := RunFrom(verdict, uri, ps, result);
      |run.puts| <= |ps| &&
      (forall i :: 0 <= i < |run.puts| - 1 ==> Continues(ps[i], verdict(ps[i]))) &&
      (0 < |run.puts| < |ps| ==> !Continues(ps[|run.puts| - 1], verdict(ps[|run.puts| - 1])))
    decreases |ps|
  {
    if ps != [] && Continues(ps[0], verdict(ps[0])) {
      var tail := ps[1..];
      var rest := RunFrom(verdict, uri, tail, Some(verdict(ps[0]).value));
      var n := |rest.puts|;
      RunFromStops(verdict, uri, tail, Some(verdict(ps[0]).value));
      assert RunFrom(verdict, uri, ps, result).puts == [PutRequest(uri, ps[0])] + rest.puts;
      forall i | 1 <= i < n
        ensures Continues(ps[i], verdict(ps[i]))
      {
        assert tail[i - 1] == ps[i];
      }
      if 0 < n < |ps| - 1 {
        assert tail[n - 1] == ps[n];
      }
    }
  }

  /**
   * The loop's result is that of the last parameter processed; with no
   * parameter it is the one it started with.
   */
  lemma {:induction false} RunFromResult(verdict: Verdicts, uri: string, ps: seq<Parameter>,
                                         result: Option<RemoteResult<ShareParserResult>>)
    ensures var run := RunFrom(verdict, uri, ps, result);
      (ps == [] ==> run.result == result) &&
      (ps != [] ==> 0 < |run.puts| <= |ps| && run.result == Some(ResultOf(verdict(ps[|run.puts| - 1]))))
    decreases |ps|
  {
    if ps != [] && Continues(ps[0], verdict(ps[0])) {
      var later := Some(verdict(ps[0]).value);
      RunFromResult(verdict, uri, ps[1..], later);
      ResultAfterFirst(verdict, uri, ps, result);
    }
  }

  /** A run that goes past its first parameter: its PUT, then the later run. */
  lemma ContinuedRun(verdict: Verdicts, uri: string, ps: seq<Parameter>,
                     result: Option<RemoteResult<ShareParserResult>>)
    requires ps != [] && Continues(ps[0], verdict(ps[0]))
    ensures var run, rest := RunFrom(verdict, uri, ps, result), RunFrom(verdict, uri, ps[1..], Some(verdict(ps[0]).value));
      run.result == rest.result && run.puts == [PutRequest(uri, ps[0])] + rest.puts
  {
  }

  /** The last result of a run that goes past its first parameter is the later run's. */
  lemma ResultAfterFirst(verdict: Verdicts, uri: string, ps: seq<Parameter>,
                         result: Option<RemoteResult<ShareParserResult>>)
    requires ps != [] && Continues(ps[0], verdict(ps[0]))
    requires var rest := RunFrom(verdict, uri, ps[1..], Some(verdict(ps[0]).value));
      ps[1..] != [] ==> rest.result == Some(ResultOf(verdict(ps[1..][|rest.puts| - 1])))
    ensures var run := RunFrom(verdict, uri, ps, result);
      run.result == Some(ResultOf(verdict(ps[|run.puts| - 1])))
  {
    var o, tail := verdict(ps[0]), ps[1..];
    var rest := RunFrom(verdict, uri, tail, Some(o.value));
    var run := RunFrom(verdict, uri, ps, result);
    ContinuedRun(verdict, uri, ps, result);
    if tail == [] {
      assert rest.result == Some(ResultOf(o));
    } else {
      assert ps[|run.puts| - 1] == tail[|rest.puts| - 1];
    }
  }

  /** The share's URI: the base URI, the API path without its leading slash and the share's id. */
  function ShareUri(baseUri: string, sharingApiPath: string, remoteId: int): (r: string)
    requires sharingApiPath != ""
    ensures StartsWith(r, baseUri) && EndsWith(r, IntToString(remoteId))
  {
    var apiUri := AppendEncodedPath(baseUri, sharingApiPath[1..]);
    var r := AppendEncodedPath(apiUri, IntToString(remoteId));
    assert r[..|baseUri|] == apiUri[..|baseUri|];
    r
  }

  /**
   * `run` from the parameter list on: taking the first character off an
   * empty API path throws before anything is sent.
   */
  function UpdateOutcome(env: ShareEnv, sharingApiPath: string, remoteId: int, ps: seq<Parameter>): (run: UpdateRun)
    ensures sharingApiPath == "" ==> run == UpdateRun(Some(OfException(StringIndexOutOfBounds)), [])
    ensures |run.puts| <= |ps|
  {
    if sharingApiPath == "" then UpdateRun(Some(OfException(StringIndexOutOfBounds)), [])
    else
      var uri := ShareUri(env.baseUri, sharingApiPath, remoteId);
      RunFrom(VerdictsFor(env, uri), uri, ps, None)
  }

  /**
   * With no setting to change nothing is sent and the result is `null`;
   * otherwise the result is that of the last parameter processed.
   */
  lemma UpdateResultShape(env: ShareEnv, sharingApiPath: string, remoteId: int, ps: seq<Parameter>)
    requires sharingApiPath != ""
    ensures var run := UpdateOutcome(env, sharingApiPath, remoteId, ps);
      var uri := ShareUri(env.baseUri, sharingApiPath, remoteId);
      (ps == [] <==> run.result.None?) && (ps == [] <==> run.puts == []) && |run.puts| <= |ps| &&
      (ps != [] ==> run.result == Some(ResultOf(ParameterOutcome(env, uri, ps[|run.puts| - 1]))))
  {
    var uri := ShareUri(env.baseUri, sharingApiPath, remoteId);
    var verdict := VerdictsFor(env, uri);
    assert UpdateOutcome(env, sharingApiPath, remoteId, ps) == RunFrom(verdict, uri, ps, None);
    RunFromResult(verdict, uri, ps, None);
  }

  class UpdateRemoteShareOperation {
    const remoteId: int
    var password: Option<string>
    var expirationDateInMillis: int
    var permissions: int
    var publicUpload: Option<bool>
    var name: Option<string>

    /** No setting is to change until a setter is called. */
    constructor (remoteId: int)
      ensures this.remoteId == remoteId
      ensures password.None? && expirationDateInMillis == 0 && publicUpload.None? && name.None?
      ensures permissions == DefaultPermission
    {
      this.remoteId := remoteId;
      password := None;
      expirationDateInMillis := 0;
      publicUpload := None;
      permissions := DefaultPermission;
      name := None;
    }

    function Settings(): UpdateSettings
      reads this
    {
      UpdateSettings(name, password, expirationDateInMillis, publicUpload, permissions)
    }

    method SetName(name: Option<string>)
      modifies this`name
      ensures this.name == name
    {
      this.name := name;
    }

    method SetPassword(password: Option<string>)
      modifies this`password
      ensures this.password == password
    {
      this.password := password;
    }

    method SetExpirationDate(expirationDateInMillis: int)
      modifies this`expirationDateInMillis
      ensures this.expirationDateInMillis == expirationDateInMillis
    {
      this.expirationDateInMillis := expirationDateInMillis;
    }

    method SetPermissions(permissions: int)
      modifies this`permissions
      ensures this.permissions == permissions
    {
      this.permissions := permissions;
    }

    method SetPublicUpload(publicUpload: Option<bool>)
      modifies this`publicUpload
      ensures this.publicUpload == publicUpload
    {
      this.publicUpload := publicUpload;
    }

    /** The parameter list, built by appends. */
    method BuildParameters(formatDate: int -> string) returns (ps: seq<Parameter>)
      ensures ps == ParametersToUpdate(Settings(), formatDate)
    {
      ParametersSteps(Settings(), formatDate);
      ps := [];
      if name.Some? {
        ps := ps + [Field(Name, name.value)];
      }
      assert ps == Optional(Name, name);
      ghost var before := ps;
      if password.Some? {
        ps := ps + [Field(Password, password.value)];
      }
      assert ps == before + Optional(Password, password);
      before := ps;
      if expirationDateInMillis < 0 {
        ps := ps + [Field(ExpirationDate, "")];
      } else if expirationDateInMillis > 0 {
        ps := ps + [Field(ExpirationDate, formatDate(expirationDateInMillis))];
      }
      assert ps == before + Optional(ExpirationDate, ExpirationValue(expirationDateInMillis, formatDate));
      before := ps;
      if publicUpload.Some? {
        ps := ps + [Field(PublicUpload, BoolToString(publicUpload.value))];
      }
      assert ps == before + Optional(PublicUpload, PublicUploadValue(publicUpload));
      before := ps;
      if permissions > 0 {
        ps := ps + [Field(Permissions, IntToString(permissions))];
      }
      assert ps == before + Optional(Permissions, PermissionsValue(permissions));
    }

    /** One PUT and its verdict, with a fresh parser for a 200. */
    method SendParameter(env: ShareEnv, uri: string, p: Parameter) returns (o: Outcome<RemoteResult<ShareParserResult>>)
      ensures o == ParameterOutcome(env, uri, p) && o == VerdictsFor(env, uri)(p)
    {
      var reply := env.server(PutRequest(uri, p));
      match reply {
        case Failed(e) =>
          o := Threw(e);
        case Answered(r) =>
          if r.status == HttpOk {
            var parser := new ShareToRemoteOperationResultParser(env.xml, env.sharingLinkPathOf);
            parser.SetOwnCloudVersion(env.ownCloudVersion);
            parser.SetServerBaseUri(Some(env.baseUri));
            o := parser.Parse(r.body);
          } else {
            o := Returned(OfFlaggedResponse(false, r));
          }
      }
    }

    /** The loop over the parameters, sending one PUT each until one fails other than the name. */
    method SendAll(env: ShareEnv, uri: string, ps: seq<Parameter>)
      returns (result: Option<RemoteResult<ShareParserResult>>, ghost puts: seq<Request>)
      ensures UpdateRun(result, puts) == RunFrom(VerdictsFor(env, uri), uri, ps, None)
    {
      ghost var verdict := VerdictsFor(env, uri);
      ghost var target := RunFrom(verdict, uri, ps, None);
      result := None;
      puts := [];
      var i := 0;
      while i < |ps|
        invariant 0 <= i <= |ps|
        invariant var rest := RunFrom(verdict, uri, ps[i..], result);
          target == UpdateRun(rest.result, puts + rest.puts)
      {
        var p := ps[i];
        var o := SendParameter(env, uri, p);
        ghost var put := PutRequest(uri, p);
        if !Continues(p, o) {
          RunStopsAt(verdict, uri, ps, i, result);
          puts := puts + [put];
          result := Some(ResultOf(o));
          assert target == UpdateRun(result, puts);
          break;
        }
        RunGoesOnAt(verdict, uri, ps, i, result);
        ghost var later := RunFrom(verdict, uri, ps[i + 1..], Some(o.value));
        assert puts + ([put] + later.puts) == (puts + [put]) + later.puts;
        puts := puts + [put];
        result := Some(o.value);
        i := i + 1;
      }
      if i == |ps| {
        assert ps[i..] == [] && puts + [] == puts;
      }
    }

    /**
     * `run`. The client gives the base URI and the server's version;
     * `formatDate` is the `yyyy-MM-dd` rendering of a time.
     */
    method Run(client: OwnCloudClient, server: Server, xml: ShareXmlParser, sharingLinkPathOf: Option<string> -> string,
               ownCloudVersion: Option<string>, sharingApiPath: string, formatDate: int -> string)
      returns (result: Option<RemoteResult<ShareParserResult>>, ghost puts: seq<Request>)
      ensures UpdateRun(result, puts) ==
                UpdateOutcome(ShareEnv(server, xml, client.baseUri, ownCloudVersion, sharingLinkPathOf),
                              sharingApiPath, remoteId, ParametersToUpdate(Settings(), formatDate))
    {
      var ps := BuildParameters(formatDate);
      var env := ShareEnv(server, xml, client.baseUri, ownCloudVersion, sharingLinkPathOf);
      result := None;
      puts := [];
      if sharingApiPath == "" {
        return Some(OfException(StringIndexOutOfBounds)), [];
      }
      var uri := ShareUri(client.baseUri, sharingApiPath, remoteId);
      result, puts := SendAll(env, uri, ps);
    }
  }
}
