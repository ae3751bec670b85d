/**
 * `CapabilityResponse`: the decoded capabilities answer of the server, in
 * which every member may be absent, and `toRemoteCapability`, which turns
 * it into a `RemoteCapability` whose members all have a value: a missing
 * number is 0, a missing text is "", and every yes/no capability is
 * whatever `CapabilityBooleanType.fromBooleanValue` makes of the optional
 * value found at the end of its chain of members.
 */
module CapabilityResponses {
  import opened Wrappers

  datatype ServerVersion = ServerVersion(
    major: Option<int>, minor: Option<int>, micro: Option<int>, str: Option<string>, edition: Option<string>)

  datatype CoreCapabilities = CoreCapabilities(pollinterval: Option<int>)

  datatype FileSharingPublicPasswordEnforced = FileSharingPublicPasswordEnforced(
    enforcedReadOnly: Option<bool>, enforcedReadWrite: Option<bool>, enforcedUploadOnly: Option<bool>)

  datatype FileSharingPublicPassword = FileSharingPublicPassword(
    enforced: Option<bool>, enforcedFor: Option<FileSharingPublicPasswordEnforced>)

  datatype FileSharingPublicExpireDate = FileSharingPublicExpireDate(
    enabled: Option<bool>, days: Option<int>, enforced: Option<bool>)

  datatype FileSharingPublic = FileSharingPublic(
    enabled: Option<bool>,
    upload: Option<bool>,
    uploadOnly: Option<bool>,
    multiple: Option<bool>,
    password: Option<FileSharingPublicPassword>,
    expireDate: Option<FileSharingPublicExpireDate>)

  datatype FileSharingFederation = FileSharingFederation(incoming: Option<bool>, outgoing: Option<bool>)

  datatype FileSharingCapabilities = FileSharingCapabilities(
    apiEnabled: Option<bool>,
    public: Option<FileSharingPublic>,
    reSharing: Option<bool>,
    federation: Option<FileSharingFederation>)

  datatype FileCapabilities = FileCapabilities(
    bigFileChunking: Option<bool>, undelete: Option<bool>, versioning: Option<bool>)

  datatype DavCapabilities = DavCapabilities(chunking: Option<string>)

  datatype Capabilities = Capabilities(
    core: Option<CoreCapabilities>,
    fileSharing: Option<FileSharingCapabilities>,
    files: Option<FileCapabilities>,
    dav: Option<DavCapabilities>)

  datatype CapabilityResponse = CapabilityResponse(serverVersion: Option<ServerVersion>, capabilities: Option<Capabilities>)

  /** The three values of `CapabilityBooleanType`. */
  datatype CapabilityBooleanType = Unknown | False | True

  /** `CapabilityBooleanType.fromBooleanValue`, whose definition is not part of this model. */
  type FromBooleanValue = Option<bool> -> CapabilityBooleanType

  datatype RemoteCapability = RemoteCapability(
    versionMayor: int,
    versionMinor: int,
    versionMicro: int,
    versionString: string,
    versionEdition: string,
    corePollinterval: int,
    chunkingVersion: string,
    filesSharingApiEnabled: CapabilityBooleanType,
    filesSharingResharing: CapabilityBooleanType,
    filesSharingPublicEnabled: CapabilityBooleanType,
    filesSharingPublicUpload: CapabilityBooleanType,
    filesSharingPublicSupportsUploadOnly: CapabilityBooleanType,
    filesSharingPublicMultiple: CapabilityBooleanType,
    filesSharingPublicPasswordEnforced: CapabilityBooleanType,
    filesSharingPublicPasswordEnforcedReadOnly: CapabilityBooleanType,
    filesSharingPublicPasswordEnforcedReadWrite: CapabilityBooleanType,
    filesSharingPublicPasswordEnforcedUploadOnly: CapabilityBooleanType,
    filesSharingPublicExpireDateEnabled: CapabilityBooleanType,
    filesSharingPublicExpireDateDays: int,
    filesSharingPublicExpireDateEnforced: CapabilityBooleanType,
    filesBigFileChunking: CapabilityBooleanType,
    filesUndelete: CapabilityBooleanType,
    filesVersioning: CapabilityBooleanType,
    filesSharingFederationIncoming: CapabilityBooleanType,
    filesSharingFederationOutgoing: CapabilityBooleanType)

  /** Kotlin's `?:`: the value when present, the default otherwise. */
  function Elvis<T>(o: Option<T>, default: T): T {
    if o.Some? then o.value else default
  }

  /** Kotlin's `?.` on an optional member: absent as soon as one link of the chain is. */
  function Then<T, U>(o: Option<T>, member: T -> Option<U>): Option<U> {
    if o.Some? then member(o.value) else None
  }

  // The chains of `?.` the conversion reads.

  function FileSharingOf(r: CapabilityResponse): Option<FileSharingCapabilities> {
    Then(r.capabilities, (c: Capabilities) => c.fileSharing)
  }

  function PublicOf(r: CapabilityResponse): Option<FileSharingPublic> {
    Then(FileSharingOf(r), (f: FileSharingCapabilities) => f.public)
  }

  function PasswordOf(r: CapabilityResponse): Option<FileSharingPublicPassword> {
    Then(PublicOf(r), (p: FileSharingPublic) => p.password)
  }

  function EnforcedForOf(r: CapabilityResponse): Option<FileSharingPublicPasswordEnforced> {
    Then(PasswordOf(r), (p: FileSharingPublicPassword) => p.enforcedFor)
  }

  function ExpireDateOf(r: CapabilityResponse): Option<FileSharingPublicExpireDate> {
    Then(PublicOf(r), (p: FileSharingPublic) => p.expireDate)
  }

  function FederationOf(r: CapabilityResponse): Option<FileSharingFederation> {
    Then(FileSharingOf(r), (f: FileSharingCapabilities) => f.federation)
  }

  function FilesOf(r: CapabilityResponse): Option<FileCapabilities> {
    Then(r.capabilities, (c: Capabilities) => c.files)
  }

  function ExpireDateDaysOf(r: CapabilityResponse): Option<int> {
    Then(ExpireDateOf(r), (e: FileSharingPublicExpireDate) => e.days)
  }

  /** `toRemoteCapability`. */
  function ToRemoteCapability(r: CapabilityResponse, fromBooleanValue: FromBooleanValue): (rc: RemoteCapability)
    ensures r.serverVersion.None? ==>
              rc.versionMayor == 0 && rc.versionMinor == 0 && rc.versionMicro == 0 &&
              rc.versionString == "" && rc.versionEdition == ""
    ensures r.capabilities.None? ==>
              rc.corePollinterval == 0 && rc.chunkingVersion == "" && rc.filesSharingPublicExpireDateDays == 0 &&
              rc.filesSharingApiEnabled == fromBooleanValue(None) && rc.filesVersioning == fromBooleanValue(None)
  {
    var v := r.serverVersion;
    RemoteCapability(
      versionMayor := Elvis(Then(v, (s: ServerVersion) => s.major), 0),
      versionMinor := Elvis(Then(v, (s: ServerVersion) => s.minor), 0),
      versionMicro := Elvis(Then(v, (s: ServerVersion) => s.micro), 0),
      versionString := Elvis(Then(v, (s: ServerVersion) => s.str), ""),
      versionEdition := Elvis(Then(v, (s: ServerVersion) => s.edition), ""),
      corePollinterval := Elvis(Then(Then(r.capabilities, (c: Capabilities) => c.core), (c: CoreCapabilities) => c.pollinterval), 0),
      chunkingVersion := Elvis(Then(Then(r.capabilities, (c: Capabilities) => c.dav), (d: DavCapabilities) => d.chunking), ""),
      filesSharingApiEnabled := fromBooleanValue(Then(FileSharingOf(r), (f: FileSharingCapabilities) => f.apiEnabled)),
      filesSharingResharing := fromBooleanValue(Then(FileSharingOf(r), (f: FileSharingCapabilities) => f.reSharing)),
      filesSharingPublicEnabled := fromBooleanValue(Then(PublicOf(r), (p: FileSharingPublic) => p.enabled)),
      filesSharingPublicUpload := fromBooleanValue(Then(PublicOf(r), (p: FileSharingPublic) => p.upload)),
      filesSharingPublicSupportsUploadOnly := fromBooleanValue(Then(PublicOf(r), (p: FileSharingPublic) => p.uploadOnly)),
      filesSharingPublicMultiple := fromBooleanValue(Then(PublicOf(r), (p: FileSharingPublic) => p.multiple)),
      filesSharingPublicPasswordEnforced := fromBooleanValue(Then(PasswordOf(r), (p: FileSharingPublicPassword) => p.enforced)),
      filesSharingPublicPasswordEnforcedReadOnly :=
        fromBooleanValue(Then(EnforcedForOf(r), (e: FileSharingPublicPasswordEnforced) => e.enforcedReadOnly)),
      filesSharingPublicPasswordEnforcedReadWrite :=
        fromBooleanValue(Then(EnforcedForOf(r), (e: FileSharingPublicPasswordEnforced) => e.enforcedReadWrite)),
      filesSharingPublicPasswordEnforcedUploadOnly :=
        fromBooleanValue(Then(EnforcedForOf(r), (e: FileSharingPublicPasswordEnforced) => e.enforcedUploadOnly)),
      filesSharingPublicExpireDateEnabled := fromBooleanValue(Then(ExpireDateOf(r), (e: FileSharingPublicExpireDate) => e.enabled)),
      filesSharingPublicExpireDateDays := Elvis(ExpireDateDaysOf(r), 0),
      filesSharingPublicExpireDateEnforced := fromBooleanValue(Then(ExpireDateOf(r), (e: FileSharingPublicExpireDate) => e.enforced)),
      filesBigFileChunking := fromBooleanValue(Then(FilesOf(r), (f: FileCapabilities) => f.bigFileChunking)),
      filesUndelete := fromBooleanValue(Then(FilesOf(r), (f: FileCapabilities) => f.undelete)),
      filesVersioning := fromBooleanValue(Then(FilesOf(r), (f: FileCapabilities) => f.versioning)),
      filesSharingFederationIncoming := fromBooleanValue(Then(FederationOf(r), (f: FileSharingFederation) => f.incoming)),
      filesSharingFederationOutgoing := fromBooleanValue(Then(FederationOf(r), (f: FileSharingFederation) => f.outgoing))
    )
  }

  /** Without a version the version numbers are 0 and its texts are empty; with one, its present members are kept. */
  lemma VersionDefaults(r: CapabilityResponse, fromBooleanValue: FromBooleanValue)
    ensures var rc := ToRemoteCapability(r, fromBooleanValue);
      r.serverVersion.None? ==>
        rc.versionMayor == 0 && rc.versionMinor == 0 && rc.versionMicro == 0
        && rc.versionString == "" && rc.versionEdition == ""
    ensures var rc := ToRemoteCapability(r, fromBooleanValue);
      r.serverVersion.Some? ==>
        (r.serverVersion.value.major.Some? ==> rc.versionMayor == r.serverVersion.value.major.value)
        && (r.serverVersion.value.minor.Some? ==> rc.versionMinor == r.serverVersion.value.minor.value)
        && (r.serverVersion.value.micro.Some? ==> rc.versionMicro == r.serverVersion.value.micro.value)
        && (r.serverVersion.value.str.Some? ==> rc.versionString == r.serverVersion.value.str.value)
        && (r.serverVersion.value.edition.Some? ==> rc.versionEdition == r.serverVersion.value.edition.value)
  {
  }

  /** A missing core capability gives a poll interval of 0, a missing dav capability an empty chunking version. */
  lemma CoreAndDavDefaults(r: CapabilityResponse, fromBooleanValue: FromBooleanValue)
    ensures var rc := ToRemoteCapability(r, fromBooleanValue);
      (r.capabilities.None? || r.capabilities.value.core.None? ==> rc.corePollinterval == 0)
      && (r.capabilities.None? || r.capabilities.value.dav.None? ==> rc.chunkingVersion == "")
    ensures var rc := ToRemoteCapability(r, fromBooleanValue);
      (r.capabilities.Some? && r.capabilities.value.core.Some? && r.capabilities.value.core.value.pollinterval.Some? ==>
         rc.corePollinterval == r.capabilities.value.core.value.pollinterval.value)
      && (r.capabilities.Some? && r.capabilities.value.dav.Some? && r.capabilities.value.dav.value.chunking.Some? ==>
         rc.chunkingVersion == r.capabilities.value.dav.value.chunking.value)
  {
  }

  /**
   * The expiration days are 0 when any link of the chain capabilities,
   * files_sharing, public, expire_date, days is missing, and the server's
   * number when all are present.
   */
  lemma ExpireDateDaysDefault(r: CapabilityResponse, fromBooleanValue: FromBooleanValue)
    ensures var rc := ToRemoteCapability(r, fromBooleanValue);
      var broken := r.capabilities.None? || r.capabilities.value.fileSharing.None?
        || r.capabilities.value.fileSharing.value.public.None?
        || r.capabilities.value.fileSharing.value.public.value.expireDate.None?
        || r.capabilities.value.fileSharing.value.public.value.expireDate.value.days.None?;
      if broken then rc.filesSharingPublicExpireDateDays == 0
      else rc.filesSharingPublicExpireDateDays == r.capabilities.value.fileSharing.value.public.value.expireDate.value.days.value
  {
  }

  /**
   * A present yes/no value reaches `fromBooleanValue` as it is: the
   * federation, files and sharing API switches of a response that has
   * them.
   */
  lemma PresentBooleansPassThrough(r: CapabilityResponse, fromBooleanValue: FromBooleanValue)
    requires r.capabilities.Some?
    ensures var c, rc := r.capabilities.value, ToRemoteCapability(r, fromBooleanValue);
      (c.fileSharing.Some? ==>
        rc.filesSharingApiEnabled == fromBooleanValue(c.fileSharing.value.apiEnabled)
        && rc.filesSharingResharing == fromBooleanValue(c.fileSharing.value.reSharing))
      && (c.fileSharing.Some? && c.fileSharing.value.federation.Some? ==>
        rc.filesSharingFederationIncoming == fromBooleanValue(c.fileSharing.value.federation.value.incoming)
        && rc.filesSharingFederationOutgoing == fromBooleanValue(c.fileSharing.value.federation.value.outgoing))
      && (c.files.Some? ==>
        rc.filesBigFileChunking == fromBooleanValue(c.files.value.bigFileChunking)
        && rc.filesUndelete == fromBooleanValue(c.files.value.undelete)
        && rc.filesVersioning == fromBooleanValue(c.files.value.versioning))
  {
  }

  /** Present public-link switches reach `fromBooleanValue` as they are. */
  lemma PublicBooleansPassThrough(r: CapabilityResponse, fromBooleanValue: FromBooleanValue)
    requires PublicOf(r).Some?
    ensures var p, rc := PublicOf(r).value, ToRemoteCapability(r, fromBooleanValue);
      rc.filesSharingPublicEnabled == fromBooleanValue(p.enabled)
      && rc.filesSharingPublicUpload == fromBooleanValue(p.upload)
      && rc.filesSharingPublicSupportsUploadOnly == fromBooleanValue(p.uploadOnly)
      && rc.filesSharingPublicMultiple == fromBooleanValue(p.multiple)
      && (p.password.Some? ==> rc.filesSharingPublicPasswordEnforced == fromBooleanValue(p.password.value.enforced))
      && (p.password.Some? && p.password.value.enforcedFor.Some? ==>
        var e := p.password.value.enforcedFor.value;
        rc.filesSharingPublicPasswordEnforcedReadOnly == fromBooleanValue(e.enforcedReadOnly)
        && rc.filesSharingPublicPasswordEnforcedReadWrite == fromBooleanValue(e.enforcedReadWrite)
        && rc.filesSharingPublicPasswordEnforcedUploadOnly == fromBooleanValue(e.enforcedUploadOnly))
      && (p.expireDate.Some? ==>
        rc.filesSharingPublicExpireDateEnabled == fromBooleanValue(p.expireDate.value.enabled)
        && rc.filesSharingPublicExpireDateEnforced == fromBooleanValue(p.expireDate.value.enforced))
  {
  }

  /**
   * A response without capabilities gives every yes/no capability the
   * value `fromBooleanValue` gives to a missing one, and the numeric and
   * text capabilities their defaults.
   */
  lemma NoCapabilities(r: CapabilityResponse, fromBooleanValue: FromBooleanValue)
    requires r.capabilities.None?
    ensures var rc, none := ToRemoteCapability(r, fromBooleanValue), fromBooleanValue(None);
      rc.corePollinterval == 0 && rc.chunkingVersion == "" && rc.filesSharingPublicExpireDateDays == 0
      && rc.filesSharingApiEnabled == none && rc.filesSharingResharing == none
      && rc.filesSharingPublicEnabled == none && rc.filesSharingPublicUpload == none
      && rc.filesSharingPublicSupportsUploadOnly == none && rc.filesSharingPublicMultiple == none
      && rc.filesSharingPublicPasswordEnforced == none && rc.filesSharingPublicPasswordEnforcedReadOnly == none
      && rc.filesSharingPublicPasswordEnforcedReadWrite == none && rc.filesSharingPublicPasswordEnforcedUploadOnly == none
      && rc.filesSharingPublicExpireDateEnabled == none && rc.filesSharingPublicExpireDateEnforced == none
      && rc.filesBigFileChunking == none && rc.filesUndelete == none && rc.filesVersioning == none
      && rc.filesSharingFederationIncoming == none && rc.filesSharingFederationOutgoing == none
  {
  }
}
