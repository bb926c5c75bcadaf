/** The builders that put the pods together step by step, each proved against its layout. */
module PodBuilding {
  import opened Basics
  import opened SmbApi
  import opened Volumes
  import opened Pods
  import opened PodTheorems

  /** The keeper has these volumes, in this order. */
  ghost predicate Has(p: Plan, k: VolKeeper, ids: seq<Vol>)
    reads k, k.buf
  {
    k.Valid() && k.Vols() == Mounts(p, ids)
  }

  /** Adds the volumes one after the other. */
  method AddAll(p: Plan, k: VolKeeper, ghost has: seq<Vol>, more: seq<Vol>)
    requires Has(p, k, has)
    modifies k, k.buf
    ensures Has(p, k, has + more) && (k.buf == old(k.buf) || fresh(k.buf))
  {
    hide MountOf;
    assert has + more[..0] == has;
    for i := 0 to |more|
      invariant Has(p, k, has + more[..i]) && (k.buf == old(k.buf) || fresh(k.buf))
    {
      k.Add(MountOf(p, more[i]));
      assert has + more[..i + 1] == has + more[..i] + [more[i]];
    }
    assert more[..|more|] == more;
  }

  method ExtendAll(p: Plan, k: VolKeeper, ghost has: seq<Vol>, vs: seq<VolMount>, ghost more: seq<Vol>)
    requires Has(p, k, has) && vs == Mounts(p, more)
    modifies k, k.buf
    ensures Has(p, k, has + more) && (k.buf == old(k.buf) || fresh(k.buf))
  {
    k.Extend(vs);
    MountsAppend(p, has, more);
  }

  method KeeperOf(p: Plan, ids: seq<Vol>) returns (k: VolKeeper)
    ensures fresh(k) && fresh(k.buf) && Has(p, k, ids)
  {
    k := new VolKeeper();
    AddAll(p, k, [], ids);
    assert [] + ids == ids;
  }

  /** A clone with more volumes; the keeper it was cloned from stays as it is. */
  method CloneAnd(p: Plan, k: VolKeeper, ghost has: seq<Vol>, more: seq<Vol>) returns (r: VolKeeper)
    requires Has(p, k, has)
    ensures fresh(r) && fresh(r.buf) && Has(p, r, has + more)
  {
    r := k.Clone();
    AddAll(p, r, has, more);
  }

  /** One volume for each join source that names a secret, numbered by its place in the list. */
  method GetJoinSources(p: Plan) returns (vols: seq<VolMount>)
    requires p.ic.security.Some?
    ensures vols == Mounts(p, Joins(p.ic))
  {
    hide MountOf;
    var sources := p.ic.security.value.joinSources;
    vols := [];
    for i := 0 to |sources|
      invariant vols == Mounts(p, JoinVols(sources[..i]))
    {
      assert sources[..i + 1][..i] == sources[..i];
      if sources[i].Some? {
        MountsAppend(p, JoinVols(sources[..i]), [JoinVol(i)]);
        vols := vols + [MountOf(p, JoinVol(i))];
      }
    }
    assert sources[..|sources|] == sources;
  }

  /** The container that mounts everything its keeper has; the keeper must be valid. */
  method BuildCtr(p: Plan, role: Role, k: VolKeeper, ghost has: seq<Vol>) returns (c: Container)
    requires Has(p, k, has) && NoDuplicates(has)
    ensures c == RenderPart(p, Part(role, has))
  {
    hide MountOf;
    DistinctIsGood(p, has);
    var all := k.All();
    c := Container(role, seq(|all|, i requires 0 <= i < |all| => all[i].mount));
  }

  method BuildSmbdCtrs(p: Plan, k: VolKeeper, ghost has: seq<Vol>) returns (ctrs: seq<Container>)
    requires Has(p, k, has) && NoDuplicates(has)
    ensures ctrs == RenderParts(p, SmbdParts(p.ic, has))
  {
    hide RenderPart, Mounts;
    var smbd := BuildCtr(p, Smbd, k, has);
    var metaOnly := k.Exclude(TAG_DATA);
    ExcludingData(p, has);
    var watch := BuildCtr(p, UpdateConfigWatch, k, has);
    ctrs := [smbd, watch];
    if p.ic.operator.metricsExporter {
      var metrics := BuildCtr(p, Metrics, metaOnly, Meta(has));
      ctrs := ctrs + [metrics];
    }
  }

  method BuildDnsCtrs(p: Plan, volumes: VolKeeper, server: VolKeeper, ghost all: seq<Vol>, ghost has: seq<Vol>)
    returns (ctrs: seq<Container>)
    requires volumes != server && volumes.buf != server.buf
    requires Has(p, volumes, all)
    requires Has(p, server, has) && NoDuplicates(has + [WatchVol])
    modifies volumes, volumes.buf
    ensures Has(p, volumes, all + Watched(p.ic))
    ensures ctrs == RenderParts(p, DnsParts(p.ic, has))
  {
    hide RenderPart, Mounts;
    ctrs := [];
    if p.ic.RegistersDns() {
      AddAll(p, volumes, all, [WatchVol]);
      var svcWatchVols := KeeperOf(p, [WatchVol]);
      var dnsRegVols := CloneAnd(p, server, has, [WatchVol]);
      var watch := BuildCtr(p, SvcWatch, svcWatchVols, [WatchVol]);
      var register := BuildCtr(p, DnsRegister, dnsRegVols, has + [WatchVol]);
      ctrs := [watch, register];
    } else {
      assert all + [] == all;
    }
  }

  /** The pod of the volumes a keeper has; the keeper must be valid. */
  method PodOf(p: Plan, volumes: VolKeeper, init: seq<Container>, ctrs: seq<Container>, ghost l: Layout)
    returns (pod: Pod)
    requires Has(p, volumes, l.vols) && NoDuplicates(l.vols)
    requires init == RenderParts(p, l.init) && ctrs == RenderParts(p, l.parts)
    ensures pod == Render(p, l)
  {
    hide MountOf;
    DistinctIsGood(p, l.vols);
    var all := volumes.All();
    pod := Pod(seq(|all|, i requires 0 <= i < |all| => all[i].volume), init, ctrs);
  }

  lemma PartsAppend(p: Plan, a: seq<Part>, b: seq<Part>)
    ensures RenderParts(p, a + b) == RenderParts(p, a) + RenderParts(p, b)
  {
  }

  lemma ADDistinct(p: Plan)
    requires p.ic.security.Some?
    ensures NoDuplicates(ADInit()) && NoDuplicates(ADServer()) && NoDuplicates(ADSmbd())
    ensures NoDuplicates(ADServer() + [WatchVol]) && NoDuplicates(ADInit() + Joins(p.ic))
    ensures NoDuplicates(ADLayout(p).vols)
  {
    hide Joins;
    ADVolsDistinct(p);
  }

  lemma ADParts(p: Plan)
    requires p.ic.security.Some?
    ensures ADLayout(p).vols == ADSmbd() + Joins(p.ic) + Watched(p.ic)
    ensures RenderParts(p, ADLayout(p).init) ==
            [RenderPart(p, Part(Init, ADInit())), RenderPart(p, Part(EnsureShare, ADSmbd())),
             RenderPart(p, Part(MustJoin, ADInit() + Joins(p.ic)))]
    ensures RenderParts(p, ADLayout(p).parts) ==
            RenderParts(p, SmbdParts(p.ic, ADSmbd())) + [RenderPart(p, Part(Winbindd, ADServer()))] +
            RenderParts(p, DnsParts(p.ic, ADServer()))
  {
    hide RenderPart, SmbdParts, DnsParts, Joins, Watched;
  }

  /** Changes to one keeper do not reach the other. */
  ghost predicate Apart(a: VolKeeper, b: VolKeeper)
    reads a, b
  {
    a != b && a.buf != b.buf
  }

  lemma ADVolumes()
    ensures ADServer() == ADInit() + [WinbindVol] && ADSmbd() == ADServer() + [ShareVol]
    ensures ADInit() + [] == ADInit()
  {
  }

  method ADKeepers(p: Plan)
      returns (volumes: VolKeeper, init: VolKeeper, server: VolKeeper, smbd: VolKeeper, join: VolKeeper)
    requires p.ic.security.Some?
    ensures fresh(volumes) && fresh(volumes.buf)
    ensures Apart(volumes, init) && Apart(volumes, server) && Apart(volumes, smbd) && Apart(volumes, join)
    ensures Has(p, volumes, ADSmbd() + Joins(p.ic)) && Has(p, init, ADInit()) && Has(p, server, ADServer())
    ensures Has(p, smbd, ADSmbd()) && Has(p, join, ADInit() + Joins(p.ic))
  {
    hide Has, Mounts, MountOf, Joins, ADInit, ADServer, ADSmbd;
    ADVolumes();
    volumes := KeeperOf(p, ADSmbd());
    init := KeeperOf(p, ADInit());
    server := CloneAnd(p, init, ADInit(), [WinbindVol]);
    smbd := CloneAnd(p, server, ADServer(), [ShareVol]);
    var jsrc := GetJoinSources(p);
    ExtendAll(p, volumes, ADSmbd(), jsrc, Joins(p.ic));
    join := CloneAnd(p, init, ADInit(), []);
    ExtendAll(p, join, ADInit(), jsrc, Joins(p.ic));
  }

  method BuildADPodSpec(p: Plan) returns (pod: Pod)
    requires p.ic.security.Some?
    ensures pod == Render(p, ADLayout(p))
  {
    hide Has, RenderPart, RenderParts, Mounts, Render, MountOf, NoDuplicates, Joins, ADInit, ADServer, ADSmbd, ADLayout,
         SmbdParts, DnsParts, Watched;
    ADDistinct(p);
    ADParts(p);
    var volumes, smbInitVols, smbServerVols, smbdVols, joinVols := ADKeepers(p);
    var smbd := BuildSmbdCtrs(p, smbdVols, ADSmbd());
    var winbindd := BuildCtr(p, Winbindd, smbServerVols, ADServer());
    var dns := BuildDnsCtrs(p, volumes, smbServerVols, ADSmbd() + Joins(p.ic), ADServer());
    var initCtr := BuildCtr(p, Init, smbInitVols, ADInit());
    var ensureCtr := BuildCtr(p, EnsureShare, smbdVols, ADSmbd());
    var joinCtr := BuildCtr(p, MustJoin, joinVols, ADInit() + Joins(p.ic));
    pod := PodOf(p, volumes, [initCtr, ensureCtr, joinCtr], smbd + [winbindd] + dns, ADLayout(p));
  }

  lemma UserDistinct(p: Plan)
    ensures NoDuplicates(UserBase()) && NoDuplicates(UserAll(p.ic))
  {
  }

  method BuildUserPodSpec(p: Plan) returns (pod: Pod)
    ensures pod == Render(p, UserLayout(p))
  {
    hide Has, RenderPart, Mounts, Render, MountOf, NoDuplicates, UserBase, SmbdParts, Sound;
    UserDistinct(p);
    var volumes := KeeperOf(p, UserBase());
    var ensureCtr := BuildCtr(p, EnsureShare, volumes, UserBase());
    AddAll(p, volumes, UserBase(), [OsRunVol]);
    if p.ic.UsersConfigured() {
      AddAll(p, volumes, UserBase() + [OsRunVol], [UsersVol]);
    } else {
      assert UserBase() + [OsRunVol] + [] == UserBase() + [OsRunVol];
    }
    var smbd := BuildSmbdCtrs(p, volumes, UserAll(p.ic));
    assert RenderParts(p, UserLayout(p).init) == [ensureCtr];
    pod := PodOf(p, volumes, [ensureCtr], smbd, UserLayout(p));
  }

  // Clustered pods

  /** A container over the pod configuration and more volumes. */
  method BuildOver(p: Plan, role: Role, cfgVols: VolKeeper, ghost cfg: seq<Vol>, more: seq<Vol>)
    returns (c: Container)
    requires Has(p, cfgVols, cfg) && NoDuplicates(cfg + more)
    ensures c == RenderPart(p, Part(role, cfg + more))
  {
    var vols := CloneAnd(p, cfgVols, cfg, more);
    c := BuildCtr(p, role, vols, cfg + more);
  }

  predicate OverConfig(cfg: seq<Vol>) {
    cfg == [ConfigVol] || cfg == [ConfigVol, UsersVol]
  }

  method BuildClusteredInit(p: Plan, cfgVols: VolKeeper, ghost cfg: seq<Vol>) returns (ctrs: seq<Container>)
    requires Has(p, cfgVols, cfg) && OverConfig(cfg)
    ensures ctrs == RenderParts(p, ClusteredInit(cfg))
  {
    hide RenderPart, Mounts;
    var init := BuildOver(p, Init, cfgVols, cfg, [StateVol, CtdbSharedVol]);
    var ensureCtr := BuildOver(p, EnsureShare, cfgVols, cfg, [StateVol, ShareVol]);
    ctrs := [init, ensureCtr];
  }

  method BuildCtdbInit(p: Plan, cfgVols: VolKeeper, ghost cfg: seq<Vol>) returns (ctrs: seq<Container>)
    requires Has(p, cfgVols, cfg) && OverConfig(cfg)
    ensures ctrs == RenderParts(p, CtdbInit(cfg))
  {
    hide RenderPart, Mounts;
    var migrate := BuildOver(p, CtdbMigrate, cfgVols, cfg,
                             [StateVol, CtdbSharedVol, CtdbConfigVol, CtdbPersistentVol]);
    var setNode := BuildOver(p, CtdbSetNode, cfgVols, cfg, [StateVol, CtdbSharedVol, CtdbConfigVol]);
    var mustHave := BuildOver(p, CtdbMustHaveNode, cfgVols, cfg, [StateVol, CtdbSharedVol, CtdbConfigVol]);
    ctrs := [migrate, setNode, mustHave];
  }

  method BuildCtdbCtrs(p: Plan, cfgVols: VolKeeper, ghost cfg: seq<Vol>) returns (ctrs: seq<Container>)
    requires Has(p, cfgVols, cfg) && OverConfig(cfg)
    ensures ctrs == RenderParts(p, CtdbParts(cfg))
  {
    hide RenderPart, Mounts;
    var ctdbd := BuildOver(p, CtdbDaemon, cfgVols, cfg, CTDB_ALL);
    var manage := BuildOver(p, CtdbManageNodes, cfgVols, cfg, [CtdbConfigVol, CtdbSocketsVol, CtdbSharedVol]);
    ctrs := [ctdbd, manage];
  }

  lemma ClusteredUserDistinct(p: Plan)
    ensures NoDuplicates(ClusteredUserVols(p.ic)) && OverConfig(UserConfig(p.ic))
  {
  }

  method BuildClusteredUserPodSpec(p: Plan) returns (pod: Pod)
    ensures pod == Render(p, ClusteredUserLayout(p))
  {
    hide Has, RenderPart, Mounts, Render, MountOf, NoDuplicates, OverConfig, ClusteredBase, ClusteredInit,
      CtdbInit, CtdbParts, SmbdParts;
    ClusteredUserDistinct(p);
    var volumes := KeeperOf(p, ClusteredBase());
    var podCfgVols := KeeperOf(p, [ConfigVol]);
    if p.ic.UsersConfigured() {
      AddAll(p, volumes, ClusteredBase(), [UsersVol]);
      AddAll(p, podCfgVols, [ConfigVol], [UsersVol]);
    } else {
      assert ClusteredBase() + [] == ClusteredBase();
      assert [ConfigVol] + [] == [ConfigVol];
    }
    var cfg := UserConfig(p.ic);
    var first := BuildClusteredInit(p, podCfgVols, cfg);
    var ctdb := BuildCtdbInit(p, podCfgVols, cfg);
    var ctrs := BuildCtdbCtrs(p, podCfgVols, cfg);
    var smbd := BuildSmbdCtrs(p, volumes, ClusteredUserVols(p.ic));
    PartsAppend(p, ClusteredInit(cfg), CtdbInit(cfg));
    PartsAppend(p, CtdbParts(cfg), SmbdParts(p.ic, ClusteredUserVols(p.ic)));
    pod := PodOf(p, volumes, first + ctdb, ctrs + smbd, ClusteredUserLayout(p));
  }

  method ClusteredADKeepers(p: Plan)
      returns (volumes: VolKeeper, podCfg: VolKeeper, join: VolKeeper, server: VolKeeper)
    requires p.ic.security.Some?
    ensures fresh(volumes) && fresh(volumes.buf) && Apart(volumes, server)
    ensures Has(p, volumes, ClusteredADVols(p.ic)) && Has(p, podCfg, [ConfigVol])
    ensures Has(p, join, ClusteredJoin(p.ic)) && Has(p, server, ClusteredServer())
  {
    hide Has, Mounts, MountOf, Joins, ClusteredBase;
    volumes := KeeperOf(p, ClusteredBase() + [WinbindVol]);
    podCfg := KeeperOf(p, [ConfigVol]);
    var jsrc := GetJoinSources(p);
    ExtendAll(p, volumes, ClusteredBase() + [WinbindVol], jsrc, Joins(p.ic));
    join := CloneAnd(p, podCfg, [ConfigVol], [StateVol, CtdbSharedVol]);
    ExtendAll(p, join, [ConfigVol] + [StateVol, CtdbSharedVol], jsrc, Joins(p.ic));
    server := CloneAnd(p, podCfg, [ConfigVol], [StateVol, WinbindVol] + CTDB_ALL);
  }

  lemma ClusteredADParts(p: Plan)
    requires p.ic.security.Some?
    ensures ClusteredADLayout(p).vols == ClusteredADVols(p.ic) + Watched(p.ic)
    ensures RenderParts(p, ClusteredADLayout(p).init) ==
            RenderParts(p, ClusteredInit([ConfigVol])) + [RenderPart(p, Part(MustJoin, ClusteredJoin(p.ic)))] +
            RenderParts(p, CtdbInit([ConfigVol]))
    ensures RenderParts(p, ClusteredADLayout(p).parts) ==
            RenderParts(p, CtdbParts([ConfigVol])) + [RenderPart(p, Part(Winbindd, ClusteredServer()))] +
            RenderParts(p, SmbdParts(p.ic, ClusteredADVols(p.ic))) + RenderParts(p, DnsParts(p.ic, ClusteredServer()))
  {
  }

  method BuildClusteredADPodSpec(p: Plan) returns (pod: Pod)
    requires p.ic.security.Some?
    ensures pod == Render(p, ClusteredADLayout(p))
  {
    assert OverConfig([ConfigVol]);
    hide Has, RenderPart, RenderParts, ClusteredADLayout, Mounts, Render, MountOf, NoDuplicates, OverConfig,
         ClusteredBase, ClusteredADVols, ClusteredJoin, ClusteredServer, ClusteredInit, CtdbInit, CtdbParts, SmbdParts,
         DnsParts, Watched, Joins;
    ClusteredADVolsDistinct(p);
    ClusteredADParts(p);
    var volumes, podCfgVols, joinVols, wbVols := ClusteredADKeepers(p);
    var first := BuildClusteredInit(p, podCfgVols, [ConfigVol]);
    var joinCtr := BuildCtr(p, MustJoin, joinVols, ClusteredJoin(p.ic));
    var ctdb := BuildCtdbInit(p, podCfgVols, [ConfigVol]);
    var ctrs := BuildCtdbCtrs(p, podCfgVols, [ConfigVol]);
    var winbindd := BuildCtr(p, Winbindd, wbVols, ClusteredServer());
    var smbd := BuildSmbdCtrs(p, volumes, ClusteredADVols(p.ic));
    var dns := BuildDnsCtrs(p, volumes, wbVols, ClusteredADVols(p.ic), ClusteredServer());
    pod := PodOf(p, volumes, first + [joinCtr] + ctdb, ctrs + [winbindd] + smbd + dns, ClusteredADLayout(p));
  }

  // Dispatch

  /** Total: no configuration and no PVC name makes a keeper panic. */
  method BuildPodSpec(p: Plan) returns (pod: Pod)
    ensures pod == Render(p, LayoutOf(p, false))
    ensures Closed(pod) && Isolated(p, pod)
  {
    hide Render, Closed, Isolated;
    PodsAreClosed(p, false);
    if p.ic.ADMode() {
      pod := BuildADPodSpec(p);
    } else {
      pod := BuildUserPodSpec(p);
    }
  }

  method BuildClusteredPodSpec(p: Plan) returns (pod: Pod)
    ensures pod == Render(p, LayoutOf(p, true))
    ensures Closed(pod) && Isolated(p, pod)
  {
    hide Render, Closed, Isolated;
    PodsAreClosed(p, true);
    if p.ic.ADMode() {
      pod := BuildClusteredADPodSpec(p);
    } else {
      pod := BuildClusteredUserPodSpec(p);
    }
  }
}
