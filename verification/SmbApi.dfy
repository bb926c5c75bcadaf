/** The custom resources the operator reads: SmbShare, SmbSecurityConfig, SmbCommonConfig. */
module SmbApi {
  import opened Basics

  datatype CustomConfig = CustomConfig(useUnsafe: bool, configs: map<string, string>)

  datatype PvcSource = PvcSource(name: string, hasSpec: bool, path: string)

  datatype Scaling = Scaling(
    availabilityMode: string, minClusterSize: int, group: string, groupMode: string)

  datatype ShareSpec = ShareSpec(
    shareName: string,
    pvc: Option<PvcSource>,
    readOnly: bool,
    browseable: bool,
    securityConfig: string,
    commonConfig: string,
    custom: Option<CustomConfig>,
    scaling: Option<Scaling>)

  datatype Share = Share(
    namespace: string,
    name: string,
    uid: string,
    deleting: bool,
    finalizers: seq<string>,
    annotations: map<string, string>,
    serverGroup: string,
    spec: ShareSpec)

  datatype Domain = Domain(name: string, backend: string)

  /** A key of a secret. */
  datatype SecretKey = SecretKey(secret: string, key: string)

  datatype SecurityConfig = SecurityConfig(
    uid: string,
    mode: string,
    realm: string,
    users: Option<SecretKey>,
    domains: seq<Domain>,
    joinSources: seq<Option<SecretKey>>,
    dnsRegister: Option<string>)

  datatype CommonConfig = CommonConfig(uid: string, custom: Option<CustomConfig>)

  datatype OperatorConfig = OperatorConfig(
    smbdPort: nat, clusterSupport: string, stateSizeParses: bool, metricsExporter: bool)

  predicate Clustered(spec: ShareSpec) {
    spec.scaling.Some? && spec.scaling.value.availabilityMode == "clustered"
  }

  function Upper(s: string): (r: string)
    ensures |r| == |s|
  {
    seq(|s|, i requires 0 <= i < |s| =>
      if 'a' <= s[i] <= 'z' then (s[i] as int - 32) as char else s[i])
  }

  function UpToDot(s: string): string {
    if s == "" || s[0] == '.' then "" else [s[0]] + UpToDot(s[1..])
  }

  /** Go's conversion of an int to int32: the low 32 bits, read as two's complement. */
  function Int32(n: int): (r: int)
    ensures -0x8000_0000 <= r < 0x8000_0000
    ensures (r - n) % 0x1_0000_0000 == 0
  {
    var low := n % 0x1_0000_0000;
    if low < 0x8000_0000 then low else low - 0x1_0000_0000
  }

  /** The inputs that define one server group instance. */
  datatype Instance = Instance(
    share: Share,
    security: Option<SecurityConfig>,
    common: Option<CommonConfig>,
    operator: OperatorConfig)
  {
    function InstanceName(): string {
      share.serverGroup
    }

    function ShareName(): string {
      if share.spec.shareName != "" then share.spec.shareName else share.name
    }

    /** An unknown mode falls back to user mode. */
    predicate ADMode() {
      security.Some? && security.value.mode == "active-directory"
    }

    function Realm(): string
      requires security.Some?
    {
      Upper(security.value.realm)
    }

    function Workgroup(): string
      requires security.Some?
    {
      UpToDot(Realm())
    }

    predicate IsClustered() {
      Clustered(share.spec)
    }

    function ClusterSize(): int {
      if share.spec.scaling.None? then 1 else Int32(share.spec.scaling.value.minClusterSize)
    }

    predicate MayCluster() {
      operator.clusterSupport == "ctdb-is-experimental"
    }

    predicate UsersConfigured() {
      !ADMode() && security.Some? && security.value.users.Some?
    }

    predicate RegistersDns() {
      && ADMode()
      && security.value.dnsRegister.Some?
      && security.value.dnsRegister.value in {"external-ip", "cluster-ip"}
    }

    /** The grouping mode "explicit" with its group, or no group at all. */
    function GroupName(): Option<string> {
      if share.spec.scaling.Some? && share.spec.scaling.value.groupMode == "explicit"
      then Some(share.spec.scaling.value.group)
      else None
    }

    function ShareMountPath(): string {
      "/mnt/" + (if GroupName().Some? then GroupName().value else share.uid)
    }

    function SharePath(): string
      requires share.spec.pvc.Some?
    {
      var mount := ShareMountPath();
      if share.spec.pvc.value.path == "" then mount else mount + "/" + share.spec.pvc.value.path
    }
  }
}
