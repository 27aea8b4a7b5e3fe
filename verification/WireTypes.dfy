/** The structs registered with glz::meta: their fields in wire order, and the
    value each of them is written as. */
module WireTypes {

  import opened Bytes
  import opened BeveLite
  import opened Splitting

  // UTF-8 bytes.
  type Text = seq<byte>

  // c_str(): the text up to its first NUL.
  function CStr(t: Text): (r: Text)
    ensures r <= t && 0 !in r && (|r| < |t| ==> t[|r|] == 0)
  {
    Before(t, 0)
  }

  datatype FpRef = FpRef(
    kind: Text, name: Text, arch: Text, branch: Text, commit: Text, collectionId: Text)

  const REF_FIELDS :=
    F(Str, F(Str, F(Str, F(Str, F(Str, F(Str, NoField))))))

  function RefValues(r: FpRef): Values {
    V(VStr(r.kind), V(VStr(r.name), V(VStr(r.arch), V(VStr(r.branch), V(VStr(r.commit), V(VStr(r.collectionId), NoValue))))))
  }

  datatype InstalledApp = InstalledApp(
    ref: FpRef, origin: Text, latestCommit: Text, installedPath: Text, installedSize: int, isCurrentArch: bool,
    endOfLife: bool, endOfLifeRebase: Text, appDataName: Text, appDataSummary: Text, appDataVersion: Text,
    appDataIcon: Text)

  const APP_TAIL :=
    F(Str, F(Str, F(Str, F(U64, F(Bool, F(Bool, F(Str, F(Str, F(Str, F(Str, F(Str, NoField)))))))))))

  const APP_FIELDS := F(Struct(REF_FIELDS), APP_TAIL)

  function AppTail(a: InstalledApp): Values {
    V(VStr(a.origin), V(VStr(a.latestCommit), V(VStr(a.installedPath), V(VInt(a.installedSize),
    V(VBool(a.isCurrentArch), V(VBool(a.endOfLife), V(VStr(a.endOfLifeRebase), V(VStr(a.appDataName),
    V(VStr(a.appDataSummary), V(VStr(a.appDataVersion), V(VStr(a.appDataIcon), NoValue)))))))))))
  }

  function AppValues(a: InstalledApp): Values {
    V(VStruct(RefValues(a.ref)), AppTail(a))
  }

  datatype FpInstance = FpInstance(
    appId: Text, instanceId: Text, arch: Text, branch: Text, commit: Text, runtime: Text, pid: int,
    childPid: int, isRunning: bool)

  const INSTANCE_FIELDS :=
    F(Str, F(Str, F(Str, F(Str, F(Str, F(Str, F(I32, F(I32, F(Bool, NoField)))))))))

  function InstanceValues(i: FpInstance): Values {
    V(VStr(i.appId), V(VStr(i.instanceId), V(VStr(i.arch), V(VStr(i.branch), V(VStr(i.commit),
    V(VStr(i.runtime), V(VInt(i.pid), V(VInt(i.childPid), V(VBool(i.isRunning), NoValue)))))))))
  }

  datatype FpInstallationInfo = FpInstallationInfo(
    id: Text, displayName: Text, path: Text, isUser: bool, priority: int)

  const INFO_FIELDS :=
    F(Str, F(Str, F(Str, F(Bool, F(I32, NoField)))))

  function InfoValues(i: FpInstallationInfo): Values {
    V(VStr(i.id), V(VStr(i.displayName), V(VStr(i.path), V(VBool(i.isUser), V(VInt(i.priority), NoValue)))))
  }

  datatype FpMetadataEntry = FpMetadataEntry(
    section: Text, key: Text, value: Text)

  const METADATA_FIELDS :=
    F(Str, F(Str, F(Str, NoField)))

  function MetadataValues(m: FpMetadataEntry): Values {
    V(VStr(m.section), V(VStr(m.key), V(VStr(m.value), NoValue)))
  }

  datatype FlatpakRemoteInfo = FlatpakRemoteInfo(
    name: Text, url: Text, title: Text, comment: Text, description: Text, homepage: Text, defaultBranch: Text,
    subset: Text, collectionId: Text, filter: Text, remoteType: int, disabled: bool, gpgVerify: bool,
    noDeps: bool, priority: int)

  const REMOTE_FIELDS :=
    F(Str, F(Str, F(Str, F(Str, F(Str, F(Str, F(Str, F(Str, F(Str, F(Str, F(I32, F(Bool, F(Bool, F(Bool, F(I32, NoField)))))))))))))))

  function RemoteValues(r: FlatpakRemoteInfo): Values {
    V(VStr(r.name), V(VStr(r.url), V(VStr(r.title), V(VStr(r.comment), V(VStr(r.description),
    V(VStr(r.homepage), V(VStr(r.defaultBranch), V(VStr(r.subset), V(VStr(r.collectionId), V(VStr(r.filter),
    V(VInt(r.remoteType), V(VBool(r.disabled), V(VBool(r.gpgVerify), V(VBool(r.noDeps), V(VInt(r.priority), NoValue)))))))))))))))
  }

  datatype TransactionProgress = TransactionProgress(
    op: Text, ref: Text, progress: int, bytesTransferred: int, bytesTotal: int, status: Text)

  const PROGRESS_FIELDS :=
    F(Str, F(Str, F(U32, F(U64, F(U64, F(Str, NoField))))))

  function ProgressValues(p: TransactionProgress): Values {
    V(VStr(p.op), V(VStr(p.ref), V(VInt(p.progress), V(VInt(p.bytesTransferred), V(VInt(p.bytesTotal),
    V(VStr(p.status), NoValue))))))
  }

  function ByteValues(bytes: seq<byte>): (vs: seq<Value>) {
    seq(|bytes|, i requires 0 <= i < |bytes| => VInt(bytes[i]))
  }

  datatype RemoteConfig = RemoteConfig(
    url: Text, title: Text, comment: Text, homepage: Text, defaultBranch: Text, gpgKeyData: seq<byte>,
    subset: Text, collectionId: Text, filter: Text, priority: int, gpgVerify: int, disabled: int, noDeps: int)

  const CONFIG_FIELDS :=
    F(Str, F(Str, F(Str, F(Str, F(Str, F(Vec(U8), F(Str, F(Str, F(Str, F(I32, F(I8, F(I8, F(I8, NoField)))))))))))))

  function ConfigValues(c: RemoteConfig): Values {
    V(VStr(c.url), V(VStr(c.title), V(VStr(c.comment), V(VStr(c.homepage), V(VStr(c.defaultBranch),
    V(VVec(ByteValues(c.gpgKeyData)), V(VStr(c.subset), V(VStr(c.collectionId), V(VStr(c.filter),
    V(VInt(c.priority), V(VInt(c.gpgVerify), V(VInt(c.disabled), V(VInt(c.noDeps), NoValue)))))))))))))
  }
}
