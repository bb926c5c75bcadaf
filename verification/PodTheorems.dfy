/** Every pod is closed under its mounts, and only three kinds of containers see the data. */
module PodTheorems {
  import opened Basics
  import opened SmbApi
  import opened Volumes
  import opened Pods

  const DATA_ROLES: set<Role> := {Smbd, UpdateConfigWatch, EnsureShare}

  predicate Names(volumes: seq<Volume>, name: string) {
    exists i :: 0 <= i < |volumes| && volumes[i].name == name
  }

  predicate MountsOnce(c: Container) {
    forall i, j :: 0 <= i < j < |c.mounts| ==> c.mounts[i].name != c.mounts[j].name
  }

  /**
   * No two volumes share a name, and every mount of every container names a volume of the pod,
   * so it names exactly one; no container mounts a volume twice.
   */
  predicate Closed(pod: Pod) {
    && (forall i, j :: 0 <= i < j < |pod.volumes| ==> pod.volumes[i].name != pod.volumes[j].name)
    && (forall c :: c in pod.init + pod.containers ==>
          MountsOnce(c) && forall m :: m in c.mounts ==> Names(pod.volumes, m.name))
  }

  predicate SeesData(p: Plan, c: Container) {
    exists m :: m in c.mounts && m.name == VolName(p, ShareVol)
  }

  /** The data volume is mounted by smbd, the config watcher and the share path init, and by no other. */
  predicate Isolated(p: Plan, pod: Pod) {
    forall c :: c in pod.init + pod.containers ==> (SeesData(p, c) <==> c.role in DATA_ROLES)
  }

  // The same on layouts

  predicate Fits(vols: seq<Vol>, part: Part) {
    && NoDuplicates(part.vols)
    && (forall v :: v in part.vols ==> v in vols)
    && (ShareVol in part.vols <==> part.role in DATA_ROLES)
  }

  predicate Sound(l: Layout) {
    && NoDuplicates(l.vols)
    && (forall part :: part in l.init + l.parts ==> Fits(l.vols, part))
  }

  lemma DistinctConcat(a: seq<Vol>, b: seq<Vol>)
    requires NoDuplicates(a) && NoDuplicates(b)
    requires forall v :: v in a ==> v !in b
    ensures NoDuplicates(a + b)
  {
    var s := a + b;
    forall i, j | 0 <= i < j < |s| ensures s[i] != s[j] {
      if i < |a| <= j {
        assert s[i] in a && s[j] in b;
      }
    }
  }

  lemma SmbdPartsFit(ic: Instance, vols: seq<Vol>, all: seq<Vol>)
    requires NoDuplicates(vols) && ShareVol in vols
    requires forall v :: v in vols ==> v in all
    ensures forall part :: part in SmbdParts(ic, vols) ==> Fits(all, part)
  {
  }

  lemma DnsPartsFit(ic: Instance, server: seq<Vol>, all: seq<Vol>)
    requires NoDuplicates(server) && ShareVol !in server && WatchVol !in server
    requires forall v :: v in server + Watched(ic) ==> v in all
    ensures forall part :: part in DnsParts(ic, server) ==> Fits(all, part)
  {
  }

  predicate PodConfig(cfg: seq<Vol>, all: seq<Vol>) {
    && (cfg == [ConfigVol] || cfg == [ConfigVol, UsersVol])
    && (forall v :: v in cfg + ClusteredBase() ==> v in all)
  }

  /** A part over the pod configuration and some of the base volumes fits. */
  lemma FitsOnConfig(cfg: seq<Vol>, all: seq<Vol>, role: Role, more: seq<Vol>)
    requires PodConfig(cfg, all)
    requires NoDuplicates(more) && ConfigVol !in more
    requires forall v :: v in more ==> v in ClusteredBase()
    requires ShareVol in more <==> role in DATA_ROLES
    ensures Fits(all, Part(role, cfg + more))
  {
    DistinctConcat(cfg, more);
  }

  lemma ClusteredInitFits(cfg: seq<Vol>, all: seq<Vol>)
    requires PodConfig(cfg, all)
    ensures forall part :: part in ClusteredInit(cfg) ==> Fits(all, part)
  {
  }

  lemma CtdbInitFits(cfg: seq<Vol>, all: seq<Vol>)
    requires PodConfig(cfg, all)
    ensures forall part :: part in CtdbInit(cfg) ==> Fits(all, part)
  {
  }

  lemma CtdbPartsFit(cfg: seq<Vol>, all: seq<Vol>)
    requires PodConfig(cfg, all)
    ensures forall part :: part in ClusteredInit(cfg) + CtdbInit(cfg) + CtdbParts(cfg) ==> Fits(all, part)
  {
    hide Fits, PodConfig, ClusteredInit, CtdbInit;
    ClusteredInitFits(cfg, all);
    CtdbInitFits(cfg, all);
    FitsOnConfig(cfg, all, CtdbDaemon, CTDB_ALL);
    FitsOnConfig(cfg, all, CtdbManageNodes, [CtdbConfigVol, CtdbSocketsVol, CtdbSharedVol]);
  }

  lemma ADVolsDistinct(p: Plan)
    requires p.ic.security.Some?
    ensures NoDuplicates(ADLayout(p).vols) && NoDuplicates(ADInit() + Joins(p.ic))
    ensures NoDuplicates(ADSmbd()) && ShareVol in ADSmbd()
    ensures forall v :: v in ADSmbd() + Joins(p.ic) + Watched(p.ic) <==> v in ADLayout(p).vols
  {
    DistinctConcat(ADSmbd(), Joins(p.ic));
    DistinctConcat(ADSmbd() + Joins(p.ic), Watched(p.ic));
    DistinctConcat(ADInit(), Joins(p.ic));
  }

  lemma ADPartsFit(p: Plan)
    requires p.ic.security.Some?
    ensures forall part :: part in ADLayout(p).init + [Part(Winbindd, ADServer())] ==> Fits(ADLayout(p).vols, part)
  {
    ADVolsDistinct(p);
    hide Joins;
    assert ShareVol !in Joins(p.ic) by {
      assert forall v :: v in Joins(p.ic) ==> v.JoinVol?;
    }
  }

  lemma ADIsSound(p: Plan)
    requires p.ic.security.Some?
    ensures Sound(ADLayout(p))
  {
    var all := ADLayout(p).vols;
    ADVolsDistinct(p);
    ADPartsFit(p);
    SmbdPartsFit(p.ic, ADSmbd(), all);
    DnsPartsFit(p.ic, ADServer(), all);
    hide Fits, NoDuplicates, SmbdParts, DnsParts, Joins, ADSmbd, ADServer;
  }

  lemma UserIsSound(p: Plan)
    ensures Sound(UserLayout(p))
  {
    DistinctConcat(UserBase() + [OsRunVol], UserVols(p.ic));
    SmbdPartsFit(p.ic, UserAll(p.ic), UserAll(p.ic));
  }

  lemma ClusteredUserIsSound(p: Plan)
    ensures Sound(ClusteredUserLayout(p))
  {
    var all := ClusteredUserVols(p.ic);
    DistinctConcat(ClusteredBase(), UserVols(p.ic));
    CtdbPartsFit(UserConfig(p.ic), all);
    SmbdPartsFit(p.ic, all, all);
  }

  lemma ClusteredADVolsDistinct(p: Plan)
    requires p.ic.security.Some?
    ensures NoDuplicates(ClusteredADVols(p.ic)) && NoDuplicates(ClusteredADLayout(p).vols)
    ensures NoDuplicates(ClusteredServer()) && NoDuplicates(ClusteredServer() + [WatchVol])
    ensures NoDuplicates(ClusteredJoin(p.ic)) && ShareVol in ClusteredADVols(p.ic)
  {
    DistinctConcat(ClusteredBase() + [WinbindVol], Joins(p.ic));
    DistinctConcat(ClusteredADVols(p.ic), Watched(p.ic));
    DistinctConcat([ConfigVol] + [StateVol, CtdbSharedVol], Joins(p.ic));
  }

  lemma ClusteredADPartsFit(p: Plan)
    requires p.ic.security.Some?
    ensures Fits(ClusteredADLayout(p).vols, Part(MustJoin, ClusteredJoin(p.ic)))
    ensures Fits(ClusteredADLayout(p).vols, Part(Winbindd, ClusteredServer()))
  {
    ClusteredADVolsDistinct(p);
    hide NoDuplicates;
  }

  lemma ClusteredADIsSound(p: Plan)
    requires p.ic.security.Some?
    ensures Sound(ClusteredADLayout(p))
  {
    var all := ClusteredADLayout(p).vols;
    ClusteredADVolsDistinct(p);
    ClusteredADPartsFit(p);
    CtdbPartsFit([ConfigVol], all);
    SmbdPartsFit(p.ic, ClusteredADVols(p.ic), all);
    DnsPartsFit(p.ic, ClusteredServer(), all);
    hide Fits, NoDuplicates, SmbdParts, DnsParts, CtdbParts, CtdbInit, ClusteredInit, Joins,
      ClusteredServer, ClusteredADVols, ClusteredJoin;
  }

  // From layouts to pods

  lemma FittingPart(p: Plan, l: Layout, part: Part)
    requires Fits(l.vols, part)
    ensures MountsOnce(RenderPart(p, part))
    ensures forall m :: m in RenderPart(p, part).mounts ==> Names(Render(p, l).volumes, m.name)
    ensures SeesData(p, RenderPart(p, part)) <==> part.role in DATA_ROLES
  {
    hide VolName, VolPath, VolSource, VolTag;
    DistinctIsGood(p, part.vols);
    var c := RenderPart(p, part);
    forall m | m in c.mounts ensures Names(Render(p, l).volumes, m.name) {
      var i :| 0 <= i < |c.mounts| && c.mounts[i] == m;
      assert part.vols[i] in part.vols;
      var j :| 0 <= j < |l.vols| && l.vols[j] == part.vols[i];
      assert Render(p, l).volumes[j].name == m.name;
    }
    if SeesData(p, c) {
      var i :| 0 <= i < |c.mounts| && c.mounts[i].name == VolName(p, ShareVol);
      NamesInjective(p, part.vols[i], ShareVol);
    }
    if ShareVol in part.vols {
      var i :| 0 <= i < |part.vols| && part.vols[i] == ShareVol;
      assert c.mounts[i] in c.mounts;
    }
  }

  lemma SoundPod(p: Plan, l: Layout)
    requires Sound(l)
    ensures Closed(Render(p, l)) && Isolated(p, Render(p, l))
  {
    hide VolName, VolPath, VolSource, VolTag, Fits, RenderPart, SeesData, MountsOnce, Names;
    DistinctIsGood(p, l.vols);
    var pod := Render(p, l);
    forall c | c in pod.init + pod.containers
      ensures MountsOnce(c) && forall m :: m in c.mounts ==> Names(pod.volumes, m.name)
      ensures SeesData(p, c) <==> c.role in DATA_ROLES
    {
      var k :| 0 <= k < |pod.init + pod.containers| && (pod.init + pod.containers)[k] == c;
      var part := (l.init + l.parts)[k];
      assert part in l.init + l.parts && c == RenderPart(p, part) && c.role == part.role;
      FittingPart(p, l, part);
    }
  }

  lemma LayoutIsSound(p: Plan, clustered: bool)
    ensures Sound(LayoutOf(p, clustered))
  {
    hide Sound, ADLayout, UserLayout, ClusteredADLayout, ClusteredUserLayout;
    if p.ic.ADMode() {
      ADIsSound(p);
      ClusteredADIsSound(p);
    } else {
      UserIsSound(p);
      ClusteredUserIsSound(p);
    }
  }

  /** For every configuration and all PVC names, each of the four kinds of pod is closed and isolated. */
  lemma PodsAreClosed(p: Plan, clustered: bool)
    ensures Closed(Render(p, LayoutOf(p, clustered)))
    ensures Isolated(p, Render(p, LayoutOf(p, clustered)))
  {
    hide Closed, Isolated, Sound, LayoutOf, Render;
    LayoutIsSound(p, clustered);
    SoundPod(p, LayoutOf(p, clustered));
  }

  // By claim instead of by name

  predicate SeesClaim(pod: Pod, c: Container, claim: string) {
    exists i, j :: 0 <= i < |pod.volumes| && 0 <= j < |c.mounts| &&
      pod.volumes[i].name == c.mounts[j].name && pod.volumes[i].source == ClaimSource(claim)
  }

  predicate ClaimIsolated(p: Plan, pod: Pod) {
    forall c :: c in pod.init + pod.containers ==> (SeesClaim(pod, c, p.dataPvc) <==> c.role in DATA_ROLES)
  }

  predicate HoldsData(p: Plan, vols: seq<Vol>) {
    ShareVol in vols || (p.dataPvc == p.statePvc && CtdbSharedVol in vols)
  }

  lemma OnlyTwoClaims(p: Plan, v: Vol)
    ensures VolSource(p, v) == ClaimSource(p.dataPvc) <==> HoldsData(p, [v])
  {
  }

  lemma ClaimSeen(p: Plan, l: Layout, part: Part)
    requires forall v :: v in part.vols ==> v in l.vols
    ensures SeesClaim(Render(p, l), RenderPart(p, part), p.dataPvc) <==> HoldsData(p, part.vols)
  {
    hide VolName, VolPath, VolSource, VolTag;
    var pod, c := Render(p, l), RenderPart(p, part);
    if SeesClaim(pod, c, p.dataPvc) {
      var i, j :| 0 <= i < |pod.volumes| && 0 <= j < |c.mounts| &&
        pod.volumes[i].name == c.mounts[j].name && pod.volumes[i].source == ClaimSource(p.dataPvc);
      NamesInjective(p, l.vols[i], part.vols[j]);
      OnlyTwoClaims(p, l.vols[i]);
    }
    if HoldsData(p, part.vols) {
      var v := if ShareVol in part.vols then ShareVol else CtdbSharedVol;
      OnlyTwoClaims(p, v);
      var i :| 0 <= i < |l.vols| && l.vols[i] == v;
      var j :| 0 <= j < |part.vols| && part.vols[j] == v;
      assert pod.volumes[i].name == c.mounts[j].name;
    }
  }

  lemma ClaimsOfLayout(p: Plan, l: Layout)
    requires Sound(l)
    ensures ClaimIsolated(p, Render(p, l)) <==>
            forall part :: part in l.init + l.parts ==> (HoldsData(p, part.vols) <==> part.role in DATA_ROLES)
  {
    hide RenderPart, SeesClaim, HoldsData;
    var pod, parts := Render(p, l), l.init + l.parts;
    assert forall k :: 0 <= k < |parts| ==> (pod.init + pod.containers)[k] == RenderPart(p, parts[k]);
    forall k | 0 <= k < |parts|
      ensures SeesClaim(pod, (pod.init + pod.containers)[k], p.dataPvc) <==> HoldsData(p, parts[k].vols)
    {
      assert parts[k] in parts;
      ClaimSeen(p, l, parts[k]);
    }
    if ClaimIsolated(p, pod) {
      forall part | part in parts ensures HoldsData(p, part.vols) <==> part.role in DATA_ROLES {
        var k :| 0 <= k < |parts| && parts[k] == part;
        assert (pod.init + pod.containers)[k] in pod.init + pod.containers;
      }
    }
  }

  /** A sound layout gives the data to the data roles, and the state besides does no harm unless it is the data. */
  lemma IsolatedUnlessShared(p: Plan, l: Layout)
    requires Sound(l) && (p.dataPvc != p.statePvc || CtdbSharedVol !in l.vols)
    ensures ClaimIsolated(p, Render(p, l))
  {
    hide Render, ClaimIsolated, NoDuplicates;
    ClaimsOfLayout(p, l);
    forall part | part in l.init + l.parts ensures HoldsData(p, part.vols) <==> part.role in DATA_ROLES {
      assert Fits(l.vols, part);
    }
  }

  lemma NotIsolatedIfShared(p: Plan, l: Layout, part: Part)
    requires Sound(l) && p.dataPvc == p.statePvc
    requires part in l.init && part.role !in DATA_ROLES && CtdbSharedVol in part.vols
    ensures !ClaimIsolated(p, Render(p, l))
  {
    hide Render, ClaimIsolated, Sound;
    ClaimsOfLayout(p, l);
    assert part in l.init + l.parts && HoldsData(p, part.vols);
  }

  lemma InitSharesState(p: Plan)
    ensures var l := LayoutOf(p, true);
            l.init != [] && l.init[0].role == Init && CtdbSharedVol in l.init[0].vols
  {
  }

  lemma NoStateVolume(p: Plan)
    ensures CtdbSharedVol !in LayoutOf(p, false).vols
  {
  }

  /** Isolation of the share's claim itself: it holds for every pod, except for a clustered one that
      keeps its shared state in the share's own PVC. */
  lemma DataClaimIsolation(p: Plan, clustered: bool)
    ensures ClaimIsolated(p, Render(p, LayoutOf(p, clustered))) <==> !clustered || p.dataPvc != p.statePvc
  {
    hide Render, ClaimIsolated, LayoutOf, Sound;
    var l := LayoutOf(p, clustered);
    LayoutIsSound(p, clustered);
    if !clustered {
      NoStateVolume(p);
      IsolatedUnlessShared(p, l);
    } else if p.dataPvc != p.statePvc {
      IsolatedUnlessShared(p, l);
    } else {
      InitSharesState(p);
      NotIsolatedIfShared(p, l, l.init[0]);
    }
  }
}
