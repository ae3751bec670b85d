/**
 * `RemoteFile`: a file or folder on the server as a PROPFIND answer
 * describes it. The object starts from its defaults and the loop of
 * `getRemoteFileFromDav` overwrites one field per WebDAV property; the
 * remote path is what remains of the href once the user's WebDAV files
 * prefix is cut off.
 */
module RemoteFiles {
  import opened Wrappers
  import opened Strings
  import opened Http
  import opened Shares
  import Client

  /** The mime types that mark a folder (`MIME_DIR`, `MIME_DIR_UNIX`). */
  const MimeDir := "DIR"
  const MimeDirUnix := "httpd/unix-directory"

  /** `File.separator` on Android. */
  const Separator := "/"

  /** The `init` check: a remote path is non-empty and starts with the separator. */
  predicate ValidRemotePath(remotePath: string) {
    !(remotePath == [] || !StartsWith(remotePath, Separator))
  }

  /** The message of the `IllegalArgumentException` the check throws. */
  function InvalidPathMessage(remotePath: string): string {
    "Trying to create a OCFile with a non valid remote path: " + remotePath
  }

  /** `isFolder` on a mime type. */
  predicate IsFolderType(mimeType: string) {
    mimeType == MimeDir || mimeType == MimeDirUnix
  }

  /**
   * The WebDAV properties the loop recognises, with the values the dav4jvm
   * property objects carry; `Unknown` stands for every other property.
   */
  datatype DavProperty =
    | CreationDate(creationDate: int)
    | GetContentLength(contentLength: int)
    | GetContentType(contentType: Option<string>)
    | GetLastModified(lastModified: int)
    | GetETag(eTag: Option<string>)
    | OcPermissions(permission: Option<string>)
    | OcId(id: Option<string>)
    | OcSize(size: int)
    | QuotaUsedBytes(quotaUsedBytes: int)
    | QuotaAvailableBytes(quotaAvailableBytes: int)
    | OcPrivateLink(link: Option<string>)
    | OcShareTypes(shareTypes: seq<int>)
    | Unknown(name: string)

  /** The value of a `RemoteFile`: its fields, in declaration order. */
  datatype FileData = FileData(
    remotePath: string,
    mimeType: string,
    length: int,
    creationTimestamp: int,
    modifiedTimestamp: int,
    etag: Option<string>,
    permissions: Option<string>,
    remoteId: Option<string>,
    size: int,
    quotaUsedBytes: Option<int>,
    quotaAvailableBytes: Option<int>,
    privateLink: Option<string>,
    owner: string,
    sharedByLink: bool,
    sharedWithSharee: bool)

  /** A file built from only a path and an owner: every other field takes its default. */
  function Defaults(remotePath: string, owner: string): FileData {
    FileData(remotePath, MimeDir, 0, 0, 0, None, None, None, 0, None, None, None, owner, false, false)
  }

  /** A file built from defaults is a folder, and has no size, time, identity or share yet. */
  lemma DefaultsAreFolder(remotePath: string, owner: string)
    ensures var d := Defaults(remotePath, owner);
      IsFolderType(d.mimeType) && d.remotePath == remotePath && d.owner == owner
      && d.length == 0 && d.size == 0 && d.creationTimestamp == 0 && d.modifiedTimestamp == 0
      && d.etag.None? && d.permissions.None? && d.remoteId.None? && d.privateLink.None?
      && !d.sharedByLink && !d.sharedWithSharee
  {
  }

  /** A share type value that makes the file shared by link. */
  predicate MarksLink(v: int) {
    ShareTypeFromValue(v) == Some(PublicLink)
  }

  /** A share type value that makes the file shared with a sharee. */
  predicate MarksSharee(v: int) {
    var t := ShareTypeFromValue(v);
    t == Some(User) || t == Some(Federated) || t == Some(Group)
  }

  /** The two share flags of a file. */
  datatype ShareFlags = ShareFlags(byLink: bool, withSharee: bool)

  /** One pass of the share-type loop: an unknown value is skipped. */
  function MarkShareType(f: ShareFlags, v: int): ShareFlags {
    match ShareTypeFromValue(v)
    case None => f
    case Some(t) =>
      if t == PublicLink then f.(byLink := true)
      else if t == User || t == Federated || t == Group then f.(withSharee := true)
      else f
  }

  /** The flags after the share-type loop has gone through `vs`. */
  function MarkShareTypes(f: ShareFlags, vs: seq<int>): (r: ShareFlags)
    ensures f.byLink ==> r.byLink
    ensures f.withSharee ==> r.withSharee
  {
    if vs == [] then f else MarkShareType(MarkShareTypes(f, vs[..|vs| - 1]), vs[|vs| - 1])
  }

  /**
   * The loop sets a flag iff some value of its kind is in the list, and
   * never clears one: what it computes does not depend on the order of the
   * values or on the unknown ones among them.
   */
  lemma MarkShareTypesMeaning(f: ShareFlags, vs: seq<int>)
    ensures MarkShareTypes(f, vs).byLink <==> f.byLink || exists i | 0 <= i < |vs| :: MarksLink(vs[i])
    ensures MarkShareTypes(f, vs).withSharee <==> f.withSharee || exists i | 0 <= i < |vs| :: MarksSharee(vs[i])
  {
    MarkShareTypesLink(f, vs);
    MarkShareTypesSharee(f, vs);
  }

  /** The link flag of `MarkShareTypesMeaning`. */
  lemma {:induction false} MarkShareTypesLink(f: ShareFlags, vs: seq<int>)
    ensures MarkShareTypes(f, vs).byLink <==> f.byLink || exists i | 0 <= i < |vs| :: MarksLink(vs[i])
  {
    if vs != [] {
      var init, last := vs[..|vs| - 1], vs[|vs| - 1];
      MarkShareTypesLink(f, init);
      if exists i | 0 <= i < |vs| :: MarksLink(vs[i]) {
        var i :| 0 <= i < |vs| && MarksLink(vs[i]);
        if i < |init| {
          assert MarksLink(init[i]);
        }
      }
      if exists i | 0 <= i < |init| :: MarksLink(init[i]) {
        var i :| 0 <= i < |init| && MarksLink(init[i]);
        assert vs[i] == init[i];
      }
    }
  }

  /** The sharee flag of `MarkShareTypesMeaning`. */
  lemma {:induction false} MarkShareTypesSharee(f: ShareFlags, vs: seq<int>)
    ensures MarkShareTypes(f, vs).withSharee <==> f.withSharee || exists i | 0 <= i < |vs| :: MarksSharee(vs[i])
  {
    if vs != [] {
      var init, last := vs[..|vs| - 1], vs[|vs| - 1];
      MarkShareTypesSharee(f, init);
      if exists i | 0 <= i < |vs| :: MarksSharee(vs[i]) {
        var i :| 0 <= i < |vs| && MarksSharee(vs[i]);
        if i < |init| {
          assert MarksSharee(init[i]);
        }
      }
      if exists i | 0 <= i < |init| :: MarksSharee(init[i]) {
        var i :| 0 <= i < |init| && MarksSharee(init[i]);
        assert vs[i] == init[i];
      }
    }
  }

  /** One branch of the `when` over a property; properties not listed change nothing. */
  function ApplyProperty(d: FileData, p: DavProperty): (r: FileData)
    ensures r.remotePath == d.remotePath && r.owner == d.owner
    ensures d.sharedByLink ==> r.sharedByLink
    ensures d.sharedWithSharee ==> r.sharedWithSharee
  {
    match p
    case CreationDate(c) => d.(creationTimestamp := c)
    case GetContentLength(n) => d.(length := n)
    case GetContentType(t) => if t.Some? then d.(mimeType := t.value) else d
    case GetLastModified(m) => d.(modifiedTimestamp := m)
    case GetETag(e) => d.(etag := e)
    case OcPermissions(q) => d.(permissions := q)
    case OcId(id) => d.(remoteId := id)
    case OcSize(n) => d.(size := n)
    case QuotaUsedBytes(q) => d.(quotaUsedBytes := Some(q))
    case QuotaAvailableBytes(q) => d.(quotaAvailableBytes := Some(q))
    case OcPrivateLink(l) => d.(privateLink := l)
    case OcShareTypes(vs) =>
      var f := MarkShareTypes(ShareFlags(d.sharedByLink, d.sharedWithSharee), vs);
      d.(sharedByLink := f.byLink, sharedWithSharee := f.withSharee)
    case Unknown(_) => d
  }

  /**
   * The file after the property loop has gone through `ps`: no property
   * changes its path or its owner, and a share flag once set stays set.
   */
  function ApplyAll(d: FileData, ps: seq<DavProperty>): (r: FileData)
    ensures r.remotePath == d.remotePath && r.owner == d.owner
    ensures d.sharedByLink ==> r.sharedByLink
    ensures d.sharedWithSharee ==> r.sharedWithSharee
  {
    if ps == [] then d else ApplyProperty(ApplyAll(d, ps[..|ps| - 1]), ps[|ps| - 1])
  }

  /** The fields of a `RemoteFile`. */
  datatype FieldName =
    | RemotePath | MimeType | Length | CreationTimestamp | ModifiedTimestamp | ETag | Permissions
    | RemoteId | Size | QuotaUsed | QuotaAvailable | PrivateLink | Owner | SharedByLink | SharedWithSharee

  /** The value of one field, whatever its type. */
  datatype FieldValue = Text(text: string) | Number(number: int) | MaybeText(maybeText: Option<string>)
    | MaybeNumber(maybeNumber: Option<int>) | Flag(flag: bool)

  function Get(d: FileData, field: FieldName): FieldValue {
    match field
    case RemotePath => Text(d.remotePath)
    case MimeType => Text(d.mimeType)
    case Length => Number(d.length)
    case CreationTimestamp => Number(d.creationTimestamp)
    case ModifiedTimestamp => Number(d.modifiedTimestamp)
    case ETag => MaybeText(d.etag)
    case Permissions => MaybeText(d.permissions)
    case RemoteId => MaybeText(d.remoteId)
    case Size => Number(d.size)
    case QuotaUsed => MaybeNumber(d.quotaUsedBytes)
    case QuotaAvailable => MaybeNumber(d.quotaAvailableBytes)
    case PrivateLink => MaybeText(d.privateLink)
    case Owner => Text(d.owner)
    case SharedByLink => Flag(d.sharedByLink)
    case SharedWithSharee => Flag(d.sharedWithSharee)
  }

  /** The field a property is about: none for the path, the owner and unknown properties. */
  predicate Sets(p: DavProperty, field: FieldName) {
    match p
    case CreationDate(_) => field == CreationTimestamp
    case GetContentLength(_) => field == Length
    case GetContentType(t) => field == MimeType && t.Some?
    case GetLastModified(_) => field == ModifiedTimestamp
    case GetETag(_) => field == ETag
    case OcPermissions(_) => field == Permissions
    case OcId(_) => field == RemoteId
    case OcSize(_) => field == Size
    case QuotaUsedBytes(_) => field == QuotaUsed
    case QuotaAvailableBytes(_) => field == QuotaAvailable
    case OcPrivateLink(_) => field == PrivateLink
    case OcShareTypes(_) => field == SharedByLink || field == SharedWithSharee
    case Unknown(_) => false
  }

  /** A property changes only the field it is about. */
  lemma ApplyPropertyOthers(d: FileData, p: DavProperty, field: FieldName)
    requires !Sets(p, field)
    ensures Get(ApplyProperty(d, p), field) == Get(d, field)
  {
  }

  /**
   * A field that no listed property is about keeps its value: a file keeps
   * the defaults of every field its properties do not name.
   */
  lemma {:induction false} ApplyAllUntouched(d: FileData, ps: seq<DavProperty>, field: FieldName)
    requires forall p | p in ps :: !Sets(p, field)
    ensures Get(ApplyAll(d, ps), field) == Get(d, field)
  {
    if ps != [] {
      var init, last := ps[..|ps| - 1], ps[|ps| - 1];
      assert last in ps;
      assert forall p | p in init :: p in ps;
      ApplyAllUntouched(d, init, field);
      ApplyPropertyOthers(ApplyAll(d, init), last, field);
    }
  }

  /**
   * The mime type is that of the last property that gives one: the ones
   * after it, including content types without a type, leave it alone.
   */
  lemma {:induction false} LastMimeTypeWins(d: FileData, before: seq<DavProperty>, t: string, after: seq<DavProperty>)
    requires forall p | p in after :: !Sets(p, MimeType)
    ensures ApplyAll(d, before + [GetContentType(Some(t))] + after).mimeType == t
    decreases |after|
  {
    var ps := before + [GetContentType(Some(t))] + after;
    if after == [] {
      assert ps[..|ps| - 1] == before;
    } else {
      var init := before + [GetContentType(Some(t))] + after[..|after| - 1];
      assert ps[..|ps| - 1] == init;
      assert ps[|ps| - 1] == after[|after| - 1];
      assert after[|after| - 1] in after;
      assert forall p | p in after[..|after| - 1] :: p in after;
      LastMimeTypeWins(d, before, t, after[..|after| - 1]);
    }
  }

  /**
   * `getRemotePathFromUrl` as written: the text before the first
   * occurrence of the user's WebDAV files path, followed by that path, is
   * removed everywhere in the decoded href path. A path without the WebDAV
   * files path is kept as it is.
   */
  function RemotePathFromUrlAsWritten(davPath: string, userId: string): (r: string)
    ensures !Contains(davPath, Client.WebdavFilesPath + userId) ==> r == davPath
  {
    var davFilesPath := Client.WebdavFilesPath + userId;
    var pathToOc := BeforeFirst(davPath, davFilesPath);
    ReplaceAll(davPath, pathToOc + davFilesPath, "")
  }

  /**
   * `getRemotePathFromUrl` as intended: the decoded href path with
   * everything up to and including the first occurrence of the user's
   * WebDAV files path cut off once; a path without it is kept whole.
   */
  function RemotePathFromUrl(davPath: string, userId: string): (r: string)
    ensures var davFilesPath := Client.WebdavFilesPath + userId;
      if Contains(davPath, davFilesPath) then davPath == BeforeFirst(davPath, davFilesPath) + davFilesPath + r
      else r == davPath
  {
    var davFilesPath := Client.WebdavFilesPath + userId;
    var pathToOc := BeforeFirst(davPath, davFilesPath);
    if Contains(davPath, davFilesPath) then
      assert davPath[|pathToOc|..|pathToOc| + |davFilesPath|] == davFilesPath;
      assert davPath == pathToOc + davFilesPath + davPath[|pathToOc| + |davFilesPath|..];
      davPath[|pathToOc| + |davFilesPath|..]
    else davPath
  }

  /**
   * Cutting is undone by putting the prefix back: whatever follows the first
   * occurrence of the user's WebDAV files path is the remote path.
   */
  lemma RemotePathFromUrlStrips(pathToOc: string, userId: string, rest: string)
    requires forall j | 0 <= j < |pathToOc| :: !OccursAt(pathToOc + Client.WebdavFilesPath + userId + rest, Client.WebdavFilesPath + userId, j)
    ensures RemotePathFromUrl(pathToOc + Client.WebdavFilesPath + userId + rest, userId) == rest
  {
    var dav := Client.WebdavFilesPath + userId;
    var path := pathToOc + dav + rest;
    assert path == pathToOc + Client.WebdavFilesPath + userId + rest;
    assert path[|pathToOc|..|pathToOc| + |dav|] == dav;
    assert OccursAt(path, dav, |pathToOc|);
    assert |BeforeFirst(path, dav)| == |pathToOc|;
    assert path[|pathToOc| + |dav|..] == rest;
  }

  /**
   * The two readings agree unless the remote path itself contains the
   * text that is removed.
   */
  lemma RemotePathFromUrlAgrees(davPath: string, userId: string)
    requires var davFilesPath := Client.WebdavFilesPath + userId;
      !Contains(RemotePathFromUrl(davPath, userId), BeforeFirst(davPath, davFilesPath) + davFilesPath)
    ensures RemotePathFromUrlAsWritten(davPath, userId) == RemotePathFromUrl(davPath, userId)
  {
    var dav := Client.WebdavFilesPath + userId;
    var pathToOc := BeforeFirst(davPath, dav);
    var pat := pathToOc + dav;
    var rest := RemotePathFromUrl(davPath, userId);
    if Contains(davPath, dav) {
      assert davPath[..|pat|] == pat;
      assert OccursAt(davPath, pat, 0);
      assert IndexOf(davPath, pat) == 0;
      assert davPath[|pat|..] == rest;
    } else {
      assert rest == davPath;
    }
  }

  /**
   * The href path of the documentation comment's example,
   * "/remote.php/dav/files/username/Documents/text.txt", and the remote
   * path it names.
   */
  const DocExampleFile := "/Documents/text.txt"
  const DocExample := Client.WebdavFilesPath + "username" + DocExampleFile

  /** The example of the documentation comment, which both readings meet. */
  lemma RemotePathFromUrlExample()
    ensures RemotePathFromUrl(DocExample, "username") == DocExampleFile
    ensures RemotePathFromUrlAsWritten(DocExample, "username") == DocExampleFile
  {
    assert DocExample == "" + Client.WebdavFilesPath + "username" + DocExampleFile;
    RemotePathFromUrlStrips("", "username", DocExampleFile);
    assert !Contains(DocExampleFile, "" + Client.WebdavFilesPath + "username");
    RemotePathFromUrlAgrees(DocExample, "username");
  }

  /** The user's WebDAV files path in the example below. */
  const AliceFiles := Client.WebdavFilesPath + "alice"

  /** The decoded href of a file `x.txt` in a folder `backup/remote.php/dav/files/alice`. */
  const TwiceNamed := AliceFiles + InnerPath

  /** What follows the first WebDAV files path in that href. */
  const InnerPath := "/backup" + AliceFiles + "/x.txt"

  /** The intended reading keeps the folder's name whole. */
  lemma RemotePathFromUrlTwiceNamed()
    ensures RemotePathFromUrl(TwiceNamed, "alice") == InnerPath
  {
    assert TwiceNamed == "" + Client.WebdavFilesPath + "alice" + InnerPath;
    RemotePathFromUrlStrips("", "alice", InnerPath);
  }

  /** Kotlin's `replace` on a text that starts with the pattern. */
  lemma ReplaceAllFromStart(s: string, pat: string)
    requires pat != "" && StartsWith(s, pat)
    ensures ReplaceAll(s, pat, "") == ReplaceAll(s[|pat|..], pat, "")
  {
    assert OccursAt(s, pat, 0);
  }

  /** Inside the remote path of that example, the WebDAV files path starts after "/backup". */
  lemma SecondOccurrence()
    ensures IndexOf(InnerPath, AliceFiles) == 7
  {
    assert InnerPath[7..7 + |AliceFiles|] == AliceFiles;
    assert OccursAt(InnerPath, AliceFiles, 7);
    forall j | 0 <= j < 7
      ensures !OccursAt(InnerPath, AliceFiles, j)
    {
      assert InnerPath[j + 1] != AliceFiles[1] || InnerPath[j] != AliceFiles[0];
    }
  }

  /** As written, the first cut leaves the text after the first WebDAV files path, still to be searched. */
  lemma AsWrittenCutsFirst()
    ensures RemotePathFromUrlAsWritten(TwiceNamed, "alice") == ReplaceAll(InnerPath, AliceFiles, "")
  {
    assert TwiceNamed[..|AliceFiles|] == AliceFiles;
    assert OccursAt(TwiceNamed, AliceFiles, 0);
    assert BeforeFirst(TwiceNamed, AliceFiles) == "";
    assert "" + AliceFiles == AliceFiles;
    ReplaceAllFromStart(TwiceNamed, AliceFiles);
    assert TwiceNamed[|AliceFiles|..] == InnerPath;
  }

  /** The second occurrence, inside the folder's name, is cut too. */
  lemma AsWrittenCutsSecond()
    ensures ReplaceAll(InnerPath, AliceFiles, "") == "/backup/x.txt"
  {
    SecondOccurrence();
    assert InnerPath[..7] == "/backup";
    assert InnerPath[7 + |AliceFiles|..] == "/x.txt";
    assert !Contains("/x.txt", AliceFiles);
  }

  /**
   * As written, a folder named like the WebDAV files path loses that part
   * of its name: the prefix is removed a second time inside the remote path.
   */
  lemma RemotePathFromUrlAsWrittenRemovesTwice()
    ensures RemotePathFromUrlAsWritten(TwiceNamed, "alice") == "/backup/x.txt"
    ensures RemotePathFromUrlAsWritten(TwiceNamed, "alice") != RemotePathFromUrl(TwiceNamed, "alice")
  {
    AsWrittenCutsFirst();
    AsWrittenCutsSecond();
    RemotePathFromUrlTwiceNamed();
    assert |InnerPath| != |"/backup/x.txt"|;
  }

  /** A `RemoteFile` object, whose fields the property loop assigns one by one. */
  class RemoteFile {
    var remotePath: string
    var mimeType: string
    var length: int
    var creationTimestamp: int
    var modifiedTimestamp: int
    var etag: Option<string>
    var permissions: Option<string>
    var remoteId: Option<string>
    var size: int
    var quotaUsedBytes: Option<int>
    var quotaAvailableBytes: Option<int>
    var privateLink: Option<string>
    var owner: string
    var sharedByLink: bool
    var sharedWithSharee: bool

    function Data(): FileData
      reads this
    {
      FileData(remotePath, mimeType, length, creationTimestamp, modifiedTimestamp, etag, permissions,
        remoteId, size, quotaUsedBytes, quotaAvailableBytes, privateLink, owner, sharedByLink, sharedWithSharee)
    }

    /** `isFolder`. */
    predicate IsFolder()
      reads this
    {
      IsFolderType(mimeType)
    }

    /** The primary constructor with only the path and owner given, once `init` has accepted the path. */
    constructor(remotePath: string, owner: string)
      requires ValidRemotePath(remotePath)
      ensures Data() == Defaults(remotePath, owner)
    {
      this.remotePath := remotePath;
      this.mimeType := MimeDir;
      this.length := 0;
      this.creationTimestamp := 0;
      this.modifiedTimestamp := 0;
      this.etag := None;
      this.permissions := None;
      this.remoteId := None;
      this.size := 0;
      this.quotaUsedBytes := None;
      this.quotaAvailableBytes := None;
      this.privateLink := None;
      this.owner := owner;
      this.sharedByLink := false;
      this.sharedWithSharee := false;
    }

    /** The share-type loop over one `OCShareTypes` property. */
    method MarkShared(vs: seq<int>)
      modifies this
      ensures var f := MarkShareTypes(ShareFlags(old(sharedByLink), old(sharedWithSharee)), vs);
        Data() == old(Data()).(sharedByLink := f.byLink, sharedWithSharee := f.withSharee)
    {
      ghost var start := ShareFlags(sharedByLink, sharedWithSharee);
      var i := 0;
      while i < |vs|
        invariant 0 <= i <= |vs|
        invariant ShareFlags(sharedByLink, sharedWithSharee) == MarkShareTypes(start, vs[..i])
        invariant Data() == old(Data()).(sharedByLink := sharedByLink, sharedWithSharee := sharedWithSharee)
      {
        assert vs[..i + 1][..i] == vs[..i];
        var shareType := ShareTypeFromValue(vs[i]);
        if shareType.None? {
          i := i + 1;
          continue;
        }
        if shareType.value == PublicLink {
          sharedByLink := true;
        } else if shareType.value == User || shareType.value == Federated || shareType.value == Group {
          sharedWithSharee := true;
        }
        i := i + 1;
      }
      assert vs[..i] == vs;
    }

    /** One pass of the property loop. */
    method Apply(p: DavProperty)
      modifies this
      ensures Data() == ApplyProperty(old(Data()), p)
    {
      if p.OcShareTypes? {
        MarkShared(p.shareTypes);
      } else if p.CreationDate? || p.GetContentLength? || p.GetLastModified? || p.OcSize? {
        AssignNumber(p);
      } else {
        AssignText(p);
      }
    }

    /** The branches of the property loop that store a size or a time. */
    method AssignNumber(p: DavProperty)
      requires p.CreationDate? || p.GetContentLength? || p.GetLastModified? || p.OcSize?
      modifies this
      ensures Data() == ApplyProperty(old(Data()), p)
    {
      match p {
        case CreationDate(c) => creationTimestamp := c;
        case GetContentLength(n) => length := n;
        case GetLastModified(m) => modifiedTimestamp := m;
        case OcSize(n) => size := n;
      }
    }

    /** The branches of the property loop that store a text, a quota or nothing. */
    method AssignText(p: DavProperty)
      requires !(p.OcShareTypes? || p.CreationDate? || p.GetContentLength? || p.GetLastModified? || p.OcSize?)
      modifies this
      ensures Data() == ApplyProperty(old(Data()), p)
    {
      match p {
        case GetContentType(t) =>
          if t.Some? {
            mimeType := t.value;
          }
        case GetETag(e) => etag := e;
        case OcPermissions(q) => permissions := q;
        case OcId(id) => remoteId := id;
        case QuotaUsedBytes(q) => quotaUsedBytes := Some(q);
        case QuotaAvailableBytes(q) => quotaAvailableBytes := Some(q);
        case OcPrivateLink(l) => privateLink := l;
        case Unknown(_) =>
      }
    }
  }

  /** `RemoteFile(remotePath = …, owner = …)`, with the `init` check's exception. */
  method NewRemoteFile(remotePath: string, owner: string) returns (r: Outcome<RemoteFile>)
    ensures r.Threw? <==> !ValidRemotePath(remotePath)
    ensures r.Threw? ==> r.exception == IllegalArgument(InvalidPathMessage(remotePath))
    ensures r.Returned? ==> fresh(r.value) && r.value.Data() == Defaults(remotePath, owner)
  {
    if !ValidRemotePath(remotePath) {
      return Threw(IllegalArgument(InvalidPathMessage(remotePath)));
    }
    var file := new RemoteFile(remotePath, owner);
    return Returned(file);
  }

  /**
   * `getRemoteFileFromDav` on the decoded path of a PROPFIND response's
   * href and its properties: a file on the remote path, owned by the user,
   * with every property applied in order.
   */
  method GetRemoteFileFromDav(davPath: string, properties: seq<DavProperty>, userId: string, userName: string)
    returns (r: Outcome<RemoteFile>)
    ensures var remotePath := RemotePathFromUrlAsWritten(davPath, userId);
      && (r.Threw? <==> !ValidRemotePath(remotePath))
      && (r.Threw? ==> r.exception == IllegalArgument(InvalidPathMessage(remotePath)))
      && (r.Returned? ==> fresh(r.value) && r.value.Data() == ApplyAll(Defaults(remotePath, userName), properties))
  {
    var remotePath := RemotePathFromUrlAsWritten(davPath, userId);
    r := NewRemoteFile(remotePath, userName);
    if r.Threw? {
      return;
    }
    var remoteFile := r.value;
    var i := 0;
    while i < |properties|
      invariant 0 <= i <= |properties|
      invariant remoteFile.Data() == ApplyAll(Defaults(remotePath, userName), properties[..i])
    {
      assert properties[..i + 1][..i] == properties[..i];
      remoteFile.Apply(properties[i]);
      i := i + 1;
    }
    assert properties[..i] == properties;
  }
}
