/** The volumes of the four kinds of server pods and the mounts of their containers. */
module Pods {
  import opened Basics
  import opened SmbApi
  import opened Volumes

  /** The volumes a pod can have. */
  datatype Vol =
    | ShareVol | ConfigVol | UsersVol | StateVol | OsRunVol | WinbindVol | JoinVol(index: nat) | WatchVol
    | CtdbConfigVol | CtdbPersistentVol | CtdbVolatileVol | CtdbSocketsVol | CtdbSharedVol

  datatype Role =
    | Smbd | UpdateConfigWatch | Metrics | Winbindd | SvcWatch | DnsRegister | CtdbDaemon | CtdbManageNodes
    | Init | EnsureShare | MustJoin | CtdbMigrate | CtdbSetNode | CtdbMustHaveNode

  datatype Container = Container(role: Role, mounts: seq<Mount>)

  datatype Pod = Pod(volumes: seq<Volume>, init: seq<Container>, containers: seq<Container>)

  /** What a pod is built from: the instance and the names of its data and state PVCs. */
  datatype Plan = Plan(ic: Instance, dataPvc: string, statePvc: string)

  function VolName(p: Plan, v: Vol): string {
    match v
    case ShareVol => p.dataPvc + "-smb"
    case ConfigVol => "samba-container-config"
    case UsersVol => "users-config"
    case StateVol => "samba-state-dir"
    case OsRunVol => "run"
    case WinbindVol => "samba-wb-sockets-dir"
    case JoinVol(i) => "join-data-" + Itoa(i)
    case WatchVol => "svcwatch"
    case CtdbConfigVol => "ctdb-config"
    case CtdbPersistentVol => "ctdb-persistent"
    case CtdbVolatileVol => "ctdb-volatile"
    case CtdbSocketsVol => "ctdb-sockets"
    case CtdbSharedVol => p.statePvc + "-ctdb"
  }

  function VolPath(p: Plan, v: Vol): string {
    match v
    case ShareVol => p.ic.ShareMountPath()
    case ConfigVol => "/etc/container-config"
    case UsersVol => "/etc/container-users"
    case StateVol => "/var/lib/samba"
    case OsRunVol => "/run"
    case WinbindVol => "/run/samba/winbindd"
    case JoinVol(i) => "/var/tmp/join/" + Itoa(i)
    case WatchVol => "/var/lib/svcwatch"
    case CtdbConfigVol => "/etc/ctdb"
    case CtdbPersistentVol => "/var/lib/ctdb/persistent"
    case CtdbVolatileVol => "/var/lib/ctdb/volatile"
    case CtdbSocketsVol => "/var/run/ctdb"
    case CtdbSharedVol => "/var/lib/ctdb/shared"
  }

  function VolTag(v: Vol): Tag {
    match v
    case ShareVol => TAG_DATA
    case ConfigVol => TAG_CONFIG
    case UsersVol => TAG_CONFIG
    case JoinVol(_) => TAG_CONFIG
    case CtdbConfigVol => TAG_CTDB | TAG_CONFIG
    case CtdbPersistentVol => TAG_CTDB | TAG_META
    case CtdbVolatileVol => TAG_CTDB | TAG_META
    case CtdbSocketsVol => TAG_CTDB | TAG_META
    case CtdbSharedVol => TAG_CTDB | TAG_META
    case _ => TAG_META
  }

  function KeyOf(k: Option<SecretKey>, path: string): Source {
    if k.Some? then SecretSource(k.value.secret, k.value.key, path) else SecretSource("", "", path)
  }

  /** The backing of a volume. A join volume exists only where the security config has that source. */
  function VolSource(p: Plan, v: Vol): Source {
    match v
    case ShareVol => ClaimSource(p.dataPvc)
    case CtdbSharedVol => ClaimSource(p.statePvc)
    case ConfigVol => ConfigMapSource(p.ic.InstanceName())
    case UsersVol => KeyOf(if p.ic.security.Some? then p.ic.security.value.users else None, "users.json")
    case JoinVol(i) =>
      var sources := if p.ic.security.Some? then p.ic.security.value.joinSources else [];
      KeyOf(if i < |sources| then sources[i] else None, "join.json")
    case StateVol => EmptyDir(false)
    case _ => EmptyDir(true)
  }

  function MountOf(p: Plan, v: Vol): VolMount {
    VolMount(Volume(VolName(p, v), VolSource(p, v)), Mount(VolName(p, v), VolPath(p, v)), VolTag(v))
  }

  function Mounts(p: Plan, ids: seq<Vol>): (r: seq<VolMount>)
    ensures |r| == |ids| && forall i :: 0 <= i < |r| ==> r[i] == MountOf(p, ids[i])
  {
    seq(|ids|, i requires 0 <= i < |ids| => MountOf(p, ids[i]))
  }

  lemma MountsAppend(p: Plan, a: seq<Vol>, b: seq<Vol>)
    ensures Mounts(p, a + b) == Mounts(p, a) + Mounts(p, b)
  {
  }

  // Names

  /** The length and the last letter of a fixed name; no two fixed names agree in both. */
  function FixedName(v: Vol): (nat, char)
    requires !v.ShareVol? && !v.CtdbSharedVol? && !v.JoinVol?
  {
    match v
    case ConfigVol => (22, 'g')
    case UsersVol => (12, 'g')
    case StateVol => (15, 'r')
    case OsRunVol => (3, 'n')
    case WinbindVol => (20, 'r')
    case WatchVol => (8, 'h')
    case CtdbConfigVol => (11, 'g')
    case CtdbPersistentVol => (15, 't')
    case CtdbVolatileVol => (13, 'e')
    case CtdbSocketsVol => (12, 's')
  }

  predicate EndsLike(n: string, v: Vol) {
    && |n| >= 2
    && match v
       case ShareVol => n[|n| - 2..] == "mb"
       case CtdbSharedVol => n[|n| - 2..] == "db"
       case JoinVol(i) => IsDigit(n[|n| - 1]) && |n| >= 10 && n[10..] == Itoa(i)
       case _ => (|n|, n[|n| - 1]) == FixedName(v)
  }

  lemma NameEnds(p: Plan, v: Vol)
    ensures EndsLike(VolName(p, v), v)
  {
  }

  /** Names suffixed onto any PVC name never clash with a fixed name, a join volume or each other. */
  lemma NamesInjective(p: Plan, a: Vol, b: Vol)
    requires VolName(p, a) == VolName(p, b)
    ensures a == b
  {
    NameEnds(p, a);
    NameEnds(p, b);
    hide VolName, Itoa;
    var n := VolName(p, a);
    assert a.ShareVol? || a.CtdbSharedVol? ==> n[|n| - 1] == n[|n| - 2..][1];
    assert b.ShareVol? || b.CtdbSharedVol? ==> n[|n| - 1] == n[|n| - 2..][1];
    if a.JoinVol? && b.JoinVol? {
      ItoaInjective(a.index, b.index);
    }
  }

  /** Distinct volumes never make the keeper panic. */
  lemma DistinctIsGood(p: Plan, ids: seq<Vol>)
    requires NoDuplicates(ids)
    ensures Good(Mounts(p, ids))
  {
    hide VolName, VolPath, VolSource, VolTag;
    var m := Mounts(p, ids);
    forall i, j | 0 <= i < j < |m| ensures m[i].volume.name != m[j].volume.name {
      if m[i].volume.name == m[j].volume.name {
        NamesInjective(p, ids[i], ids[j]);
      }
    }
  }

  // Join sources and data volumes

  function JoinVols(sources: seq<Option<SecretKey>>): (r: seq<Vol>)
    ensures forall v :: v in r ==> v.JoinVol? && v.index < |sources|
    ensures forall i: nat :: JoinVol(i) in r <==> i < |sources| && sources[i].Some?
    ensures NoDuplicates(r)
  {
    if sources == [] then []
    else
      var n := |sources| - 1;
      assert forall i: nat :: i < n ==> sources[..n][i] == sources[i];
      JoinVols(sources[..n]) + (if sources[n].Some? then [JoinVol(n)] else [])
  }

  /** Everything but the data volume. */
  function Meta(ids: seq<Vol>): (r: seq<Vol>)
    ensures forall v :: v in r <==> v in ids && v != ShareVol
    ensures NoDuplicates(ids) ==> NoDuplicates(r)
  {
    if ids == [] then []
    else
      assert ids == [ids[0]] + ids[1..];
      assert NoDuplicates(ids) ==> ids[0] !in ids[1..] && NoDuplicates(ids[1..]);
      (if ids[0] == ShareVol then [] else [ids[0]]) + Meta(ids[1..])
  }

  lemma OnlyShareIsData(p: Plan, v: Vol)
    ensures Carries(MountOf(p, v), TAG_DATA) <==> v == ShareVol
  {
  }

  /** Excluding the data tag keeps exactly the other volumes, in order. */
  lemma {:induction false} ExcludingData(p: Plan, ids: seq<Vol>)
    ensures Kept(Mounts(p, ids), TAG_DATA) == Mounts(p, Meta(ids))
  {
    hide MountOf, Carries;
    if ids == [] {
    } else {
      OnlyShareIsData(p, ids[0]);
      ExcludingData(p, ids[1..]);
      assert Mounts(p, ids)[1..] == Mounts(p, ids[1..]);
      MountsAppend(p, if ids[0] == ShareVol then [] else [ids[0]], Meta(ids[1..]));
    }
  }

  // Layouts

  /** A container and the volumes it mounts. */
  datatype Part = Part(role: Role, vols: seq<Vol>)

  datatype Layout = Layout(vols: seq<Vol>, init: seq<Part>, parts: seq<Part>)

  const CTDB_ALL: seq<Vol> :=
    [CtdbConfigVol, CtdbPersistentVol, CtdbVolatileVol, CtdbSocketsVol, CtdbSharedVol]

  function SmbdParts(ic: Instance, vols: seq<Vol>): seq<Part> {
    [Part(Smbd, vols), Part(UpdateConfigWatch, vols)] +
    (if ic.operator.metricsExporter then [Part(Metrics, Meta(vols))] else [])
  }

  function DnsParts(ic: Instance, server: seq<Vol>): seq<Part> {
    if ic.RegistersDns()
    then [Part(SvcWatch, [WatchVol]), Part(DnsRegister, server + [WatchVol])]
    else []
  }

  function Watched(ic: Instance): seq<Vol> {
    if ic.RegistersDns() then [WatchVol] else []
  }

  function UserVols(ic: Instance): seq<Vol> {
    if ic.UsersConfigured() then [UsersVol] else []
  }

  function Joins(ic: Instance): seq<Vol>
    requires ic.security.Some?
  {
    JoinVols(ic.security.value.joinSources)
  }

  function ADInit(): seq<Vol> {
    [ConfigVol, StateVol]
  }

  function ADServer(): seq<Vol> {
    ADInit() + [WinbindVol]
  }

  function ADSmbd(): seq<Vol> {
    ADServer() + [ShareVol]
  }

  function ADLayout(p: Plan): Layout
    requires p.ic.security.Some?
  {
    Layout(
      ADSmbd() + Joins(p.ic) + Watched(p.ic),
      [Part(Init, ADInit()), Part(EnsureShare, ADSmbd()), Part(MustJoin, ADInit() + Joins(p.ic))],
      SmbdParts(p.ic, ADSmbd()) + [Part(Winbindd, ADServer())] + DnsParts(p.ic, ADServer()))
  }

  function UserBase(): seq<Vol> {
    [ShareVol, StateVol, ConfigVol]
  }

  function UserAll(ic: Instance): seq<Vol> {
    UserBase() + [OsRunVol] + UserVols(ic)
  }

  function UserLayout(p: Plan): Layout {
    Layout(UserAll(p.ic), [Part(EnsureShare, UserBase())], SmbdParts(p.ic, UserAll(p.ic)))
  }

  function ClusteredBase(): seq<Vol> {
    [ShareVol, ConfigVol, StateVol] + CTDB_ALL
  }

  function ClusteredInit(cfg: seq<Vol>): seq<Part> {
    [Part(Init, cfg + [StateVol, CtdbSharedVol]),
     Part(EnsureShare, cfg + [StateVol, ShareVol])]
  }

  function CtdbInit(cfg: seq<Vol>): seq<Part> {
    var node := cfg + [StateVol, CtdbSharedVol, CtdbConfigVol];
    [Part(CtdbMigrate, cfg + [StateVol, CtdbSharedVol, CtdbConfigVol, CtdbPersistentVol]),
     Part(CtdbSetNode, node),
     Part(CtdbMustHaveNode, node)]
  }

  function CtdbParts(cfg: seq<Vol>): seq<Part> {
    [Part(CtdbDaemon, cfg + CTDB_ALL),
     Part(CtdbManageNodes, cfg + [CtdbConfigVol, CtdbSocketsVol, CtdbSharedVol])]
  }

  function UserConfig(ic: Instance): seq<Vol> {
    [ConfigVol] + UserVols(ic)
  }

  function ClusteredUserVols(ic: Instance): seq<Vol> {
    ClusteredBase() + UserVols(ic)
  }

  function ClusteredUserLayout(p: Plan): Layout {
    Layout(
      ClusteredUserVols(p.ic),
      ClusteredInit(UserConfig(p.ic)) + CtdbInit(UserConfig(p.ic)),
      CtdbParts(UserConfig(p.ic)) + SmbdParts(p.ic, ClusteredUserVols(p.ic)))
  }

  function ClusteredADVols(ic: Instance): seq<Vol>
    requires ic.security.Some?
  {
    ClusteredBase() + [WinbindVol] + Joins(ic)
  }

  function ClusteredServer(): seq<Vol> {
    [ConfigVol] + ([StateVol, WinbindVol] + CTDB_ALL)
  }

  function ClusteredJoin(ic: Instance): seq<Vol>
    requires ic.security.Some?
  {
    [ConfigVol] + [StateVol, CtdbSharedVol] + Joins(ic)
  }

  function ClusteredADLayout(p: Plan): Layout
    requires p.ic.security.Some?
  {
    Layout(
      ClusteredADVols(p.ic) + Watched(p.ic),
      ClusteredInit([ConfigVol]) + [Part(MustJoin, ClusteredJoin(p.ic))] + CtdbInit([ConfigVol]),
      CtdbParts([ConfigVol]) + [Part(Winbindd, ClusteredServer())] +
      SmbdParts(p.ic, ClusteredADVols(p.ic)) + DnsParts(p.ic, ClusteredServer()))
  }

  function LayoutOf(p: Plan, clustered: bool): Layout {
    if p.ic.ADMode()
    then if clustered then ClusteredADLayout(p) else ADLayout(p)
    else if clustered then ClusteredUserLayout(p) else UserLayout(p)
  }

  function RenderPart(p: Plan, part: Part): (c: Container)
    ensures c.role == part.role
  {
    var m := Mounts(p, part.vols);
    Container(part.role, seq(|m|, i requires 0 <= i < |m| => m[i].mount))
  }

  function RenderParts(p: Plan, parts: seq<Part>): (r: seq<Container>)
    ensures |r| == |parts| && forall i :: 0 <= i < |r| ==> r[i] == RenderPart(p, parts[i])
  {
    seq(|parts|, i requires 0 <= i < |parts| => RenderPart(p, parts[i]))
  }

  function Render(p: Plan, l: Layout): Pod {
    var m := Mounts(p, l.vols);
    Pod(
      seq(|m|, i requires 0 <= i < |m| => m[i].volume),
      RenderParts(p, l.init),
      RenderParts(p, l.parts))
  }
}
