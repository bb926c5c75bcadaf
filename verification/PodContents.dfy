/** What is in each pod, by name, source and path: its containers, its volumes, and who mounts what. */
module PodContents {
  import opened Basics
  import opened SmbApi
  import opened Volumes
  import opened Pods
  import opened PlannerMeaning

  predicate UsersGiven(ic: Instance) {
    !ActiveDirectory(ic) && ic.security.Some? && ic.security.value.users.Some?
  }

  predicate DnsKept(ic: Instance) {
    && ActiveDirectory(ic) && ic.security.value.dnsRegister.Some?
    && (ic.security.value.dnsRegister.value == "external-ip" || ic.security.value.dnsRegister.value == "cluster-ip")
  }

  predicate JoinGiven(ic: Instance, i: nat) {
    && ActiveDirectory(ic) && i < |ic.security.value.joinSources|
    && ic.security.value.joinSources[i].Some?
  }

  lemma InputsAre(ic: Instance)
    ensures ic.UsersConfigured() <==> UsersGiven(ic)
    ensures ic.RegistersDns() <==> DnsKept(ic)
  {
  }

  // ----- the volumes, one by one -----

  lemma SharedVolumesAre(p: Plan)
    ensures MountOf(p, ShareVol) ==
            VolMount(Volume(p.dataPvc + "-smb", ClaimSource(p.dataPvc)),
                     Mount(p.dataPvc + "-smb", MountedAt(p.ic.share)), 1)
    ensures MountOf(p, ConfigVol) ==
            VolMount(Volume("samba-container-config", ConfigMapSource(p.ic.share.serverGroup)),
                     Mount("samba-container-config", "/etc/container-config"), 2)
    ensures MountOf(p, StateVol) ==
            VolMount(Volume("samba-state-dir", EmptyDir(false)), Mount("samba-state-dir", "/var/lib/samba"), 4)
    ensures MountOf(p, OsRunVol) == VolMount(Volume("run", EmptyDir(true)), Mount("run", "/run"), 4)
    ensures MountOf(p, WinbindVol) ==
            VolMount(Volume("samba-wb-sockets-dir", EmptyDir(true)),
                     Mount("samba-wb-sockets-dir", "/run/samba/winbindd"), 4)
    ensures MountOf(p, WatchVol) ==
            VolMount(Volume("svcwatch", EmptyDir(true)), Mount("svcwatch", "/var/lib/svcwatch"), 4)
  {
  }

  lemma SecretVolumesAre(p: Plan, i: nat)
    ensures UsersGiven(p.ic) ==>
              var users := p.ic.security.value.users.value;
              MountOf(p, UsersVol) ==
              VolMount(Volume("users-config", SecretSource(users.secret, users.key, "users.json")),
                       Mount("users-config", "/etc/container-users"), 2)
    ensures JoinGiven(p.ic, i) ==>
              var source := p.ic.security.value.joinSources[i].value;
              MountOf(p, JoinVol(i)) ==
              VolMount(Volume("join-data-" + Itoa(i), SecretSource(source.secret, source.key, "join.json")),
                       Mount("join-data-" + Itoa(i), "/var/tmp/join/" + Itoa(i)), 2)
    ensures MountOf(p, UsersVol).mount == Mount("users-config", "/etc/container-users")
    ensures MountOf(p, JoinVol(i)).mount == Mount("join-data-" + Itoa(i), "/var/tmp/join/" + Itoa(i))
  {
  }

  lemma CtdbVolumesAre(p: Plan)
    ensures MountOf(p, CtdbConfigVol) ==
            VolMount(Volume("ctdb-config", EmptyDir(true)), Mount("ctdb-config", "/etc/ctdb"), 10)
    ensures MountOf(p, CtdbPersistentVol) ==
            VolMount(Volume("ctdb-persistent", EmptyDir(true)),
                     Mount("ctdb-persistent", "/var/lib/ctdb/persistent"), 12)
    ensures MountOf(p, CtdbVolatileVol) ==
            VolMount(Volume("ctdb-volatile", EmptyDir(true)), Mount("ctdb-volatile", "/var/lib/ctdb/volatile"), 12)
    ensures MountOf(p, CtdbSocketsVol) ==
            VolMount(Volume("ctdb-sockets", EmptyDir(true)), Mount("ctdb-sockets", "/var/run/ctdb"), 12)
    ensures MountOf(p, CtdbSharedVol) ==
            VolMount(Volume(p.statePvc + "-ctdb", ClaimSource(p.statePvc)),
                     Mount(p.statePvc + "-ctdb", "/var/lib/ctdb/shared"), 12)
  {
  }

  // ----- who mounts what -----

  const SERVERS: set<Role> := {Smbd, UpdateConfigWatch, Metrics}

  /** The container of this role mounts this volume. */
  predicate Uses(p: Plan, clustered: bool, role: Role, v: Vol) {
    match v
    case ConfigVol => role != SvcWatch
    case ShareVol => role in {Smbd, UpdateConfigWatch, EnsureShare}
    case StateVol => role !in {SvcWatch, CtdbDaemon, CtdbManageNodes}
    case OsRunVol => !ActiveDirectory(p.ic) && !clustered && role in SERVERS
    case UsersVol => UsersGiven(p.ic) && (clustered || role in SERVERS)
    case WinbindVol =>
      ActiveDirectory(p.ic) && (role in SERVERS + {Winbindd, DnsRegister} || (role == EnsureShare && !clustered))
    case JoinVol(i) => JoinGiven(p.ic, i) && (role == MustJoin || (clustered && role in SERVERS))
    case WatchVol => role in {SvcWatch, DnsRegister}
    case CtdbConfigVol => clustered && role !in {SvcWatch, Init, EnsureShare, MustJoin}
    case CtdbPersistentVol => clustered && role in SERVERS + {Winbindd, DnsRegister, CtdbDaemon, CtdbMigrate}
    case CtdbVolatileVol => clustered && role in SERVERS + {Winbindd, DnsRegister, CtdbDaemon}
    case CtdbSocketsVol => clustered && role in SERVERS + {Winbindd, DnsRegister, CtdbDaemon, CtdbManageNodes}
    case CtdbSharedVol => clustered && role !in {SvcWatch, EnsureShare}
  }

  /** The pod has this volume. */
  predicate InPod(p: Plan, clustered: bool, v: Vol) {
    match v
    case ConfigVol => true
    case ShareVol => true
    case StateVol => true
    case OsRunVol => !ActiveDirectory(p.ic) && !clustered
    case UsersVol => UsersGiven(p.ic)
    case WinbindVol => ActiveDirectory(p.ic)
    case JoinVol(i) => JoinGiven(p.ic, i)
    case WatchVol => DnsKept(p.ic)
    case _ => clustered
  }

  function InitRoles(p: Plan, clustered: bool): seq<Role> {
    (if clustered || ActiveDirectory(p.ic) then [Init] else [])
    + [EnsureShare]
    + (if ActiveDirectory(p.ic) then [MustJoin] else [])
    + (if clustered then [CtdbMigrate, CtdbSetNode, CtdbMustHaveNode] else [])
  }

  function SmbdRoles(p: Plan): seq<Role> {
    [Smbd, UpdateConfigWatch] + (if p.ic.operator.metricsExporter then [Metrics] else [])
  }

  function DnsRoles(p: Plan): seq<Role> {
    if DnsKept(p.ic) then [SvcWatch, DnsRegister] else []
  }

  function ServerRoles(p: Plan, clustered: bool): seq<Role> {
    if clustered then
      [CtdbDaemon, CtdbManageNodes] + (if ActiveDirectory(p.ic) then [Winbindd] else []) + SmbdRoles(p) + DnsRoles(p)
    else
      SmbdRoles(p) + (if ActiveDirectory(p.ic) then [Winbindd] else []) + DnsRoles(p)
  }

  ghost predicate PartIs(p: Plan, clustered: bool, part: Part) {
    forall v :: v in part.vols <==> Uses(p, clustered, part.role, v)
  }

  ghost predicate AllPartsAre(p: Plan, clustered: bool, parts: seq<Part>, roles: seq<Role>) {
    && |parts| == |roles|
    && forall i :: 0 <= i < |parts| ==> parts[i].role == roles[i] && PartIs(p, clustered, parts[i])
  }

  ghost predicate VolsAre(p: Plan, clustered: bool, vols: seq<Vol>) {
    forall v :: v in vols <==> InPod(p, clustered, v)
  }

  ghost predicate LayoutIs(p: Plan, clustered: bool, l: Layout) {
    && AllPartsAre(p, clustered, l.init, InitRoles(p, clustered))
    && AllPartsAre(p, clustered, l.parts, ServerRoles(p, clustered))
    && VolsAre(p, clustered, l.vols)
  }

  lemma ServesAlike(p: Plan, clustered: bool, v: Vol)
    ensures Uses(p, clustered, UpdateConfigWatch, v) <==> Uses(p, clustered, Smbd, v)
    ensures Uses(p, clustered, Metrics, v) <==> Uses(p, clustered, Smbd, v) && v != ShareVol
  {
  }

  lemma ServerPartsAre(p: Plan, clustered: bool, vols: seq<Vol>)
    requires forall v :: v in vols <==> Uses(p, clustered, Smbd, v)
    ensures PartIs(p, clustered, Part(Smbd, vols)) && PartIs(p, clustered, Part(UpdateConfigWatch, vols))
    ensures PartIs(p, clustered, Part(Metrics, Meta(vols)))
  {
    hide Uses, Meta;
    forall v
      ensures Uses(p, clustered, UpdateConfigWatch, v) <==> Uses(p, clustered, Smbd, v)
      ensures Uses(p, clustered, Metrics, v) <==> Uses(p, clustered, Smbd, v) && v != ShareVol
    {
      ServesAlike(p, clustered, v);
    }
  }

  /** The server containers mount all of these, the metrics exporter all but the data. */
  lemma SmbdPartsAre(p: Plan, clustered: bool, vols: seq<Vol>)
    requires forall v :: v in vols <==> Uses(p, clustered, Smbd, v)
    ensures AllPartsAre(p, clustered, SmbdParts(p.ic, vols), SmbdRoles(p))
  {
    hide Uses, PartIs, Meta;
    ServerPartsAre(p, clustered, vols);
  }

  lemma DnsPartsAre(p: Plan, clustered: bool, server: seq<Vol>)
    requires forall v :: v in server + [WatchVol] <==> Uses(p, clustered, DnsRegister, v)
    ensures AllPartsAre(p, clustered, DnsParts(p.ic, server), DnsRoles(p))
  {
  }

  lemma PartsInTwo(p: Plan, clustered: bool, a: seq<Part>, r: seq<Role>, b: seq<Part>, s: seq<Role>)
    requires AllPartsAre(p, clustered, a, r) && AllPartsAre(p, clustered, b, s)
    ensures AllPartsAre(p, clustered, a + b, r + s)
  {
    hide PartIs;
  }

  lemma OnePart(p: Plan, clustered: bool, part: Part)
    requires PartIs(p, clustered, part)
    ensures AllPartsAre(p, clustered, [part], [part.role])
  {
    hide PartIs;
  }

  lemma UserLayoutIs(p: Plan)
    requires !ActiveDirectory(p.ic)
    ensures LayoutIs(p, false, UserLayout(p))
  {
    SmbdPartsAre(p, false, UserAll(p.ic));
    assert SmbdRoles(p) + [] + [] == SmbdRoles(p);
  }

  // ----- Active Directory -----

  lemma JoinsAre(p: Plan, v: Vol)
    requires ActiveDirectory(p.ic)
    ensures v in Joins(p.ic) <==> v.JoinVol? && JoinGiven(p.ic, v.index)
  {
  }

  lemma ADVolsAre(p: Plan)
    requires ActiveDirectory(p.ic)
    ensures VolsAre(p, false, ADLayout(p).vols)
    ensures forall v :: v in ADSmbd() <==> Uses(p, false, Smbd, v)
    ensures forall v :: v in ADServer() + [WatchVol] <==> Uses(p, false, DnsRegister, v)
    ensures PartIs(p, false, Part(Winbindd, ADServer()))
  {
    hide Joins, JoinGiven;
    forall v ensures v in Joins(p.ic) <==> v.JoinVol? && JoinGiven(p.ic, v.index) {
      JoinsAre(p, v);
    }
  }

  lemma ADInitIs(p: Plan)
    requires ActiveDirectory(p.ic)
    ensures AllPartsAre(p, false, ADLayout(p).init, InitRoles(p, false))
  {
    assert PartIs(p, false, Part(Init, ADInit()));
    assert PartIs(p, false, Part(EnsureShare, ADSmbd()));
    assert PartIs(p, false, Part(MustJoin, ADInit() + Joins(p.ic)));
  }

  lemma ADLayoutIs(p: Plan)
    requires ActiveDirectory(p.ic)
    ensures LayoutIs(p, false, ADLayout(p))
  {
    hide Uses, PartIs, AllPartsAre, VolsAre, SmbdParts, DnsParts, SmbdRoles, DnsRoles, ADServer, ADSmbd, ADInit, Joins,
         Watched, InitRoles, DnsKept, ActiveDirectory;
    ADVolsAre(p);
    ADInitIs(p);
    SmbdPartsAre(p, false, ADSmbd());
    DnsPartsAre(p, false, ADServer());
    OnePart(p, false, Part(Winbindd, ADServer()));
    PartsInTwo(p, false, SmbdParts(p.ic, ADSmbd()), SmbdRoles(p), [Part(Winbindd, ADServer())], [Winbindd]);
    PartsInTwo(p, false, SmbdParts(p.ic, ADSmbd()) + [Part(Winbindd, ADServer())], SmbdRoles(p) + [Winbindd],
               DnsParts(p.ic, ADServer()), DnsRoles(p));
  }

  // ----- clustered -----

  /** The pod configuration: what the containers of a clustered pod start from. */
  ghost predicate ConfigIs(p: Plan, cfg: seq<Vol>) {
    forall v :: v in cfg <==> v == ConfigVol || (v == UsersVol && UsersGiven(p.ic))
  }

  lemma OverConfigIs(p: Plan, cfg: seq<Vol>, role: Role, more: seq<Vol>)
    requires ConfigIs(p, cfg) && role != SvcWatch
    requires forall v :: v in more <==> !v.ConfigVol? && !v.UsersVol? && Uses(p, true, role, v)
    ensures PartIs(p, true, Part(role, cfg + more))
  {
  }

  lemma ClusteredInitIs(p: Plan, cfg: seq<Vol>)
    requires ConfigIs(p, cfg)
    ensures AllPartsAre(p, true, ClusteredInit(cfg), [Init, EnsureShare])
  {
    hide PartIs, ConfigIs;
    OverConfigIs(p, cfg, Init, [StateVol, CtdbSharedVol]);
    OverConfigIs(p, cfg, EnsureShare, [StateVol, ShareVol]);
  }

  lemma CtdbInitIs(p: Plan, cfg: seq<Vol>)
    requires ConfigIs(p, cfg)
    ensures AllPartsAre(p, true, CtdbInit(cfg), [CtdbMigrate, CtdbSetNode, CtdbMustHaveNode])
  {
    hide PartIs, ConfigIs;
    OverConfigIs(p, cfg, CtdbMigrate, [StateVol, CtdbSharedVol, CtdbConfigVol, CtdbPersistentVol]);
    OverConfigIs(p, cfg, CtdbSetNode, [StateVol, CtdbSharedVol, CtdbConfigVol]);
    OverConfigIs(p, cfg, CtdbMustHaveNode, [StateVol, CtdbSharedVol, CtdbConfigVol]);
  }

  lemma CtdbPartsAre(p: Plan, cfg: seq<Vol>)
    requires ConfigIs(p, cfg)
    ensures AllPartsAre(p, true, CtdbParts(cfg), [CtdbDaemon, CtdbManageNodes])
  {
    hide PartIs, ConfigIs;
    OverConfigIs(p, cfg, CtdbDaemon, CTDB_ALL);
    OverConfigIs(p, cfg, CtdbManageNodes, [CtdbConfigVol, CtdbSocketsVol, CtdbSharedVol]);
  }

  lemma ClusteredUserVolsAre(p: Plan)
    requires !ActiveDirectory(p.ic)
    ensures VolsAre(p, true, ClusteredUserVols(p.ic)) && ConfigIs(p, UserConfig(p.ic))
    ensures forall v :: v in ClusteredUserVols(p.ic) <==> Uses(p, true, Smbd, v)
  {
  }

  lemma ClusteredUserLayoutIs(p: Plan)
    requires !ActiveDirectory(p.ic)
    ensures LayoutIs(p, true, ClusteredUserLayout(p))
  {
    hide Uses, PartIs, AllPartsAre, VolsAre, ConfigIs, SmbdParts, SmbdRoles, ClusteredInit, CtdbInit, CtdbParts,
         ClusteredUserVols, UserConfig;
    var cfg, all := UserConfig(p.ic), ClusteredUserVols(p.ic);
    ClusteredUserVolsAre(p);
    ClusteredInitIs(p, cfg);
    CtdbInitIs(p, cfg);
    CtdbPartsAre(p, cfg);
    SmbdPartsAre(p, true, all);
    PartsInTwo(p, true, ClusteredInit(cfg), [Init, EnsureShare],
               CtdbInit(cfg), [CtdbMigrate, CtdbSetNode, CtdbMustHaveNode]);
    PartsInTwo(p, true, CtdbParts(cfg), [CtdbDaemon, CtdbManageNodes], SmbdParts(p.ic, all), SmbdRoles(p));
    assert InitRoles(p, true) == [Init, EnsureShare] + [CtdbMigrate, CtdbSetNode, CtdbMustHaveNode];
    assert ServerRoles(p, true) == [CtdbDaemon, CtdbManageNodes] + SmbdRoles(p);
  }

  lemma BaseHas(v: Vol)
    ensures v in ClusteredBase() <==>
            || v.ShareVol? || v.ConfigVol? || v.StateVol? || v.CtdbConfigVol? || v.CtdbPersistentVol?
            || v.CtdbVolatileVol? || v.CtdbSocketsVol? || v.CtdbSharedVol?
  {
  }

  lemma ServerHas(v: Vol)
    ensures v in ClusteredServer() <==>
            || v.ConfigVol? || v.StateVol? || v.WinbindVol? || v.CtdbConfigVol? || v.CtdbPersistentVol?
            || v.CtdbVolatileVol? || v.CtdbSocketsVol? || v.CtdbSharedVol?
  {
  }

  lemma ClusteredADVolsAre(p: Plan)
    requires ActiveDirectory(p.ic)
    ensures VolsAre(p, true, ClusteredADLayout(p).vols) && ConfigIs(p, [ConfigVol])
    ensures forall v :: v in ClusteredADVols(p.ic) <==> Uses(p, true, Smbd, v)
  {
    hide Joins, ClusteredBase, JoinGiven;
    forall v
      ensures v in ClusteredADLayout(p).vols <==> InPod(p, true, v)
      ensures v in ClusteredADVols(p.ic) <==> Uses(p, true, Smbd, v)
    {
      BaseHas(v);
      JoinsAre(p, v);
    }
  }

  lemma ClusteredADPartsAre(p: Plan)
    requires ActiveDirectory(p.ic)
    ensures PartIs(p, true, Part(MustJoin, ClusteredJoin(p.ic)))
    ensures PartIs(p, true, Part(Winbindd, ClusteredServer()))
    ensures forall v :: v in ClusteredServer() + [WatchVol] <==> Uses(p, true, DnsRegister, v)
  {
    hide Joins, ClusteredServer, JoinGiven;
    forall v
      ensures v in ClusteredJoin(p.ic) <==> Uses(p, true, MustJoin, v)
      ensures v in ClusteredServer() <==> Uses(p, true, Winbindd, v)
      ensures v in ClusteredServer() + [WatchVol] <==> Uses(p, true, DnsRegister, v)
    {
      ServerHas(v);
      JoinsAre(p, v);
    }
  }

  lemma ClusteredADInitIs(p: Plan)
    requires ActiveDirectory(p.ic)
    ensures AllPartsAre(p, true, ClusteredADLayout(p).init, InitRoles(p, true))
  {
    hide Uses, PartIs, AllPartsAre, VolsAre, ConfigIs, ClusteredInit, CtdbInit, ClusteredJoin, ClusteredADVols, Watched,
         SmbdParts, DnsParts, CtdbParts, ClusteredServer;
    ClusteredADVolsAre(p);
    ClusteredADPartsAre(p);
    var join := [Part(MustJoin, ClusteredJoin(p.ic))];
    ClusteredInitIs(p, [ConfigVol]);
    CtdbInitIs(p, [ConfigVol]);
    OnePart(p, true, join[0]);
    PartsInTwo(p, true, ClusteredInit([ConfigVol]), [Init, EnsureShare], join, [MustJoin]);
    PartsInTwo(p, true, ClusteredInit([ConfigVol]) + join, [Init, EnsureShare] + [MustJoin],
               CtdbInit([ConfigVol]), [CtdbMigrate, CtdbSetNode, CtdbMustHaveNode]);
    assert InitRoles(p, true) == [Init, EnsureShare] + [MustJoin] + [CtdbMigrate, CtdbSetNode, CtdbMustHaveNode];
  }

  lemma ClusteredADLayoutIs(p: Plan)
    requires ActiveDirectory(p.ic)
    ensures LayoutIs(p, true, ClusteredADLayout(p))
  {
    hide Uses, PartIs, AllPartsAre, VolsAre, ConfigIs, ClusteredInit, CtdbInit, ClusteredJoin, ClusteredADVols, Watched,
         SmbdParts, DnsParts, CtdbParts, ClusteredServer, SmbdRoles, DnsRoles;
    var winbindd, all := [Part(Winbindd, ClusteredServer())], ClusteredADVols(p.ic);
    ClusteredADVolsAre(p);
    ClusteredADPartsAre(p);
    ClusteredADInitIs(p);
    CtdbPartsAre(p, [ConfigVol]);
    OnePart(p, true, winbindd[0]);
    SmbdPartsAre(p, true, all);
    DnsPartsAre(p, true, ClusteredServer());
    PartsInTwo(p, true, CtdbParts([ConfigVol]), [CtdbDaemon, CtdbManageNodes], winbindd, [Winbindd]);
    PartsInTwo(p, true, CtdbParts([ConfigVol]) + winbindd, [CtdbDaemon, CtdbManageNodes] + [Winbindd],
               SmbdParts(p.ic, all), SmbdRoles(p));
    PartsInTwo(p, true, CtdbParts([ConfigVol]) + winbindd + SmbdParts(p.ic, all),
               [CtdbDaemon, CtdbManageNodes] + [Winbindd] + SmbdRoles(p),
               DnsParts(p.ic, ClusteredServer()), DnsRoles(p));
  }

  // ----- the pods -----

  lemma EveryLayoutIs(p: Plan, clustered: bool)
    ensures LayoutIs(p, clustered, LayoutOf(p, clustered))
  {
    hide LayoutIs, UserLayout, ADLayout, ClusteredUserLayout, ClusteredADLayout;
    InstanceIs(p.ic);
    if ActiveDirectory(p.ic) {
      ADLayoutIs(p);
      ClusteredADLayoutIs(p);
    } else {
      UserLayoutIs(p);
      ClusteredUserLayoutIs(p);
    }
  }

  /** The mounts of a container are those its role uses. */
  ghost predicate MountsAre(p: Plan, clustered: bool, c: Container) {
    forall m :: m in c.mounts <==> exists v :: Uses(p, clustered, c.role, v) && m == MountOf(p, v).mount
  }

  lemma RenderedIs(p: Plan, clustered: bool, part: Part)
    requires PartIs(p, clustered, part)
    ensures MountsAre(p, clustered, RenderPart(p, part))
  {
    hide Uses, MountOf;
    var c := RenderPart(p, part);
    forall v | Uses(p, clustered, part.role, v) ensures MountOf(p, v).mount in c.mounts {
      var i :| 0 <= i < |part.vols| && part.vols[i] == v;
      assert c.mounts[i] == MountOf(p, v).mount;
    }
    forall m | m in c.mounts ensures exists v :: Uses(p, clustered, part.role, v) && m == MountOf(p, v).mount {
      var i :| 0 <= i < |c.mounts| && c.mounts[i] == m;
      assert part.vols[i] in part.vols && m == MountOf(p, part.vols[i]).mount;
    }
  }

  /** Exactly these containers in this order, each with exactly the mounts of its role, and exactly these volumes. */
  lemma PodIs(p: Plan, clustered: bool)
    ensures var pod := Render(p, LayoutOf(p, clustered));
            && |pod.init| == |InitRoles(p, clustered)| && |pod.containers| == |ServerRoles(p, clustered)|
            && (forall i :: 0 <= i < |pod.init| ==>
                  pod.init[i].role == InitRoles(p, clustered)[i] && MountsAre(p, clustered, pod.init[i]))
            && (forall i :: 0 <= i < |pod.containers| ==>
                  pod.containers[i].role == ServerRoles(p, clustered)[i] && MountsAre(p, clustered, pod.containers[i]))
            && forall v :: v in pod.volumes <==> exists id :: InPod(p, clustered, id) && v == MountOf(p, id).volume
  {
    hide Uses, InPod, MountOf, MountsAre, PartIs, LayoutOf, InitRoles, ServerRoles, RenderPart;
    var l := LayoutOf(p, clustered);
    var pod := Render(p, l);
    EveryLayoutIs(p, clustered);
    forall part | PartIs(p, clustered, part) ensures MountsAre(p, clustered, RenderPart(p, part)) {
      RenderedIs(p, clustered, part);
    }
    forall id | InPod(p, clustered, id) ensures MountOf(p, id).volume in pod.volumes {
      var i :| 0 <= i < |l.vols| && l.vols[i] == id;
      assert pod.volumes[i] == MountOf(p, id).volume;
    }
    forall v | v in pod.volumes ensures exists id :: InPod(p, clustered, id) && v == MountOf(p, id).volume {
      var i :| 0 <= i < |pod.volumes| && pod.volumes[i] == v;
      assert l.vols[i] in l.vols && v == MountOf(p, l.vols[i]).volume;
    }
  }

  // ----- by name and path -----

  lemma MountedIff(p: Plan, clustered: bool, c: Container, v: Vol)
    requires MountsAre(p, clustered, c)
    ensures MountOf(p, v).mount in c.mounts <==> Uses(p, clustered, c.role, v)
  {
    hide Uses, VolName, VolPath, VolSource, VolTag;
    if MountOf(p, v).mount in c.mounts {
      var w :| Uses(p, clustered, c.role, w) && MountOf(p, v).mount == MountOf(p, w).mount;
      NamesInjective(p, v, w);
    }
  }

  /** The containers of the pod, init containers first. */
  function AllContainers(p: Plan, clustered: bool): seq<Container> {
    Render(p, LayoutOf(p, clustered)).init + Render(p, LayoutOf(p, clustered)).containers
  }

  lemma EveryContainerMounts(p: Plan, clustered: bool, c: Container)
    requires c in AllContainers(p, clustered)
    ensures MountsAre(p, clustered, c)
  {
    hide MountsAre, Render, LayoutOf;
    PodIs(p, clustered);
  }

  /** For every container of every pod: it mounts the configuration unless it only watches the service; the configured
      users if it serves, or is one of a clustered pod; the winbind sockets if it talks to winbind; the watch volume
      if it keeps the DNS. */
  lemma WhoMounts(p: Plan, clustered: bool, c: Container)
    requires c in AllContainers(p, clustered)
    ensures Mount("samba-container-config", "/etc/container-config") in c.mounts <==> c.role != SvcWatch
    ensures Mount("users-config", "/etc/container-users") in c.mounts <==>
            UsersGiven(p.ic) && (clustered || c.role in {Smbd, UpdateConfigWatch, Metrics})
    ensures Mount("samba-wb-sockets-dir", "/run/samba/winbindd") in c.mounts <==>
            && ActiveDirectory(p.ic)
            && (c.role in {Smbd, UpdateConfigWatch, Metrics, Winbindd, DnsRegister}
                || (c.role == EnsureShare && !clustered))
    ensures Mount("svcwatch", "/var/lib/svcwatch") in c.mounts <==> c.role in {SvcWatch, DnsRegister}
    ensures Mount(p.dataPvc + "-smb", MountedAt(p.ic.share)) in c.mounts <==>
            c.role in {Smbd, UpdateConfigWatch, EnsureShare}
  {
    hide MountsAre, AllContainers, MountOf;
    EveryContainerMounts(p, clustered, c);
    SharedVolumesAre(p);
    SecretVolumesAre(p, 0);
    MountedIff(p, clustered, c, ConfigVol);
    MountedIff(p, clustered, c, UsersVol);
    MountedIff(p, clustered, c, WinbindVol);
    MountedIff(p, clustered, c, WatchVol);
    MountedIff(p, clustered, c, ShareVol);
  }

  /** Every join source that names a secret is mounted by the container that joins the domain, and by no other that is
      not a server of a clustered pod. */
  lemma WhoJoins(p: Plan, clustered: bool, c: Container, i: nat)
    requires c in AllContainers(p, clustered)
    ensures Mount("join-data-" + Itoa(i), "/var/tmp/join/" + Itoa(i)) in c.mounts <==>
            JoinGiven(p.ic, i) && (c.role == MustJoin || (clustered && c.role in {Smbd, UpdateConfigWatch, Metrics}))
  {
    hide MountsAre, AllContainers, MountOf;
    EveryContainerMounts(p, clustered, c);
    SecretVolumesAre(p, i);
    MountedIff(p, clustered, c, JoinVol(i));
  }

  lemma VolumeThereIff(p: Plan, clustered: bool, id: Vol)
    ensures var volumes := Render(p, LayoutOf(p, clustered)).volumes;
            && (MountOf(p, id).volume in volumes <==> InPod(p, clustered, id))
            && ((exists v :: v in volumes && v.name == MountOf(p, id).volume.name) <==> InPod(p, clustered, id))
  {
    hide InPod, VolName, VolPath, VolSource, VolTag, Render, LayoutOf, MountsAre, InitRoles, ServerRoles;
    PodIs(p, clustered);
    var volumes := Render(p, LayoutOf(p, clustered)).volumes;
    if v :| v in volumes && v.name == MountOf(p, id).volume.name {
      var w :| InPod(p, clustered, w) && v == MountOf(p, w).volume;
      NamesInjective(p, id, w);
    }
  }

  lemma NameOf(p: Plan, v: Vol)
    ensures MountOf(p, v).volume.name == MountOf(p, v).mount.name
  {
  }

  /** The pod has a volume of the configured users, from their secret, if and only if users are configured. */
  lemma UsersVolumeIff(p: Plan, clustered: bool)
    ensures var volumes := Render(p, LayoutOf(p, clustered)).volumes;
            && ((exists v :: v in volumes && v.name == "users-config") <==> UsersGiven(p.ic))
            && (UsersGiven(p.ic) ==>
                  var users := p.ic.security.value.users.value;
                  Volume("users-config", SecretSource(users.secret, users.key, "users.json")) in volumes)
  {
    hide MountOf, Render, LayoutOf;
    SecretVolumesAre(p, 0);
    VolumeThereIff(p, clustered, UsersVol);
    NameOf(p, UsersVol);
  }
}
