/** When repeated passes on a live share end at Done, and not at an error: what has to be there before. */
module Readiness {
  import opened Basics
  import opened SmbApi
  import opened ContainerConfig
  import opened Ownership
  import opened Planning
  import opened PlannerTheorems
  import opened Compatible
  import opened Cluster
  import opened Reconcile
  import opened Justification
  import opened Runs
  import opened Convergence
  import opened Finalization
  import opened Panics

  ghost predicate RefsParse(st: State) {
    forall k :: k in st.objects ==> WellFormedRefs(st.objects[k].owners)
  }

  /** The group a share has, or the one its first passes will give it. */
  function GroupOf(s: Share): Option<string> {
    if s.serverGroup != "" then Some(s.serverGroup) else ChooseGroup(s)
  }

  function Grouped(s: Share): Share
    requires GroupOf(s).Some?
  {
    s.(serverGroup := GroupOf(s).value)
  }

  /** The share as its passes will leave it in the store: the pass that records the backend also names the PVC. */
  function Named(s: Share): Share {
    if Backend(s) == "" then WithPvcName(s) else s
  }

  function With(st: State, s: Share): State {
    st.(shares := st.shares[s.name := s])
  }

  /** The share agrees with its first other owner, before its PVC is named and after. */
  predicate AgreesWith(st: State, s: Share, others: seq<OwnerRef>) {
    && FetchInstance(st, {}, s).Some?
    && FetchInstance(With(st, Named(s)), {}, Named(s)).Some?
    && PeerAgrees(st, {}, FetchInstance(st, {}, s).value, others)
    && PeerAgrees(With(st, Named(s)), {}, FetchInstance(With(st, Named(s)), {}, Named(s)).value, others)
  }

  /** The stored configuration can take the share, and the first other owner agrees; or the ConfigMap is yet to be
      made, and there is a PVC to begin with. */
  predicate ConfigReady(st: State, s: Share) {
    if ConfigMapKey(s) in st.objects then
      var cm := st.objects[ConfigMapKey(s)];
      && LoadConfig(cm.data).Some? && !cm.data.NoData?
      && AgreesWith(st, s, Others(s, cm))
      && !UpdatePanics(FetchInstance(st, {}, s).value, LoadConfig(cm.data).value)
    else
      s.spec.pvc.Some?
  }

  /** All of it can be looked up before the first pass. */
  predicate Ready(st: State, s: Share) {
    && !s.deleting
    && !Contradicts(s.spec)
    && GroupOf(s).Some? && GroupOf(s).value != ""
    && FetchInstance(st, {}, s).Some?
    && ConfigReady(st, Grouped(s))
    && (Backend(s) == "" || Backend(s) == BackendFor(s.spec))
    && (Clustered(s.spec) ==> st.operator.clusterSupport == "ctdb-is-experimental" && st.operator.stateSizeParses)
    && (WorkloadKey(Grouped(s)) in st.objects || s.spec.pvc.Some?)
  }

  // ----- a ready share never fails -----

  lemma ReadyConfigStep(st: State, s: Share)
    requires RefsParse(st) && !s.deleting && s.serverGroup != "" && !Contradicts(s.spec)
    requires FetchInstance(st, {}, s).Some? && ConfigReady(st, s)
    ensures !ConfigMapStep(st, {}, s).Fail? && !ConfigMapStep(st, {}, s).Crash?
  {
    hide UpdatePanics, Updated, Contradicts, Reload, New, LoadConfig, FetchInstance, PeerStep, PeerAgrees, FindClaim,
         NamesOwner, ShareRefs, Excluding, WellFormedRefs, Named, With;
    var k := ConfigMapKey(s);
    if k in st.objects {
      var cm, ic := st.objects[k], FetchInstance(st, {}, s).value;
      FindClaimMeans(cm.owners, s.name);
      FetchInstanceOf(st, {}, s);
      PeerStepExactly(st, {}, ic, Others(s, cm));
    }
  }

  lemma ReadyServer(st: State, s: Share)
    requires RefsParse(st)
    requires Backend(s) == "" || Backend(s) == BackendFor(s.spec)
    requires Clustered(s.spec) ==> st.operator.clusterSupport == "ctdb-is-experimental" && st.operator.stateSizeParses
    requires WorkloadKey(s) in st.objects || s.spec.pvc.Some?
    ensures !NextServer(st, {}, s).Fail? && !NextServer(st, {}, s).Crash?
  {
    hide FindClaim, NamesOwner, Wanted, WellFormedRefs, Backend, BackendFor;
    if WorkloadKey(s) in st.objects {
      FindClaimMeans(st.objects[WorkloadKey(s)].owners, s.name);
    }
    if ServiceKey(s) in st.objects {
      FindClaimMeans(st.objects[ServiceKey(s)].owners, s.name);
    }
  }

  lemma NamedKeys(s: Share)
    ensures var n := WithPvcName(s);
            && WorkloadKey(n) == WorkloadKey(s) && Backend(n) == Backend(s) && BackendFor(n.spec) == BackendFor(s.spec)
            && (Clustered(n.spec) <==> Clustered(s.spec)) && (n.spec.pvc.Some? <==> s.spec.pvc.Some?)
  {
  }

  lemma ReadyNeverFails(st: State, s: Share)
    requires RefsParse(st) && Ready(st, s)
    ensures !NextUpdate(st, {}, s).Fail? && !NextUpdate(st, {}, s).Crash?
  {
    hide RefsParse, ConfigMapStep, NextServer, ConfigReady, Contradicts, FetchInstance, PvcName, ChooseGroup;
    if s.serverGroup != "" {
      assert Grouped(s) == s;
      ReadyConfigStep(st, s);
      NamedKeys(s);
      ReadyServer(st, WithPvcName(s));
    }
  }

  // ----- only a ready share can be done -----

  lemma DoneClusters(st: State, s: Share)
    requires NextServer(st, {}, s).Idle?
    ensures Clustered(s.spec) ==> st.operator.clusterSupport == "ctdb-is-experimental" && st.operator.stateSizeParses
  {
  }

  lemma NoDataNeedsUpdate(data: Data, ic: Instance)
    requires LoadConfig(data).Some? && !UpdatePanics(ic, LoadConfig(data).value)
    requires Updated(ic, LoadConfig(data).value) == LoadConfig(data).value
    ensures !data.NoData?
  {
  }

  lemma DoneIsReady(st: State, s: Share)
    requires s.name in st.shares && st.shares[s.name] == s && !s.deleting && NextUpdate(st, {}, s).Idle?
    ensures Ready(st, s)
  {
    hide ConfigMapStep, NextServer, UpdatePanics, Updated, Contradicts, LoadConfig, PeerAgrees, FetchInstance, Others,
         NamesOwner, WellFormedRefs, PvcName, New;
    ConfigStepExactly(st, {}, s);
    DoneServer(st, {}, WithPvcName(s));
    DoneClusters(st, WithPvcName(s));
    NamedKeys(s);
    assert BackendFor(s.spec) != "";
    assert Named(s) == s && With(st, s) == st;
    var cm, ic := st.objects[ConfigMapKey(s)], FetchInstance(st, {}, s).value;
    NoDataNeedsUpdate(cm.data, ic);
  }

  // ----- what readiness depends on -----

  /** The same shares with the same specs, in the same surroundings. */
  ghost predicate SameSpecs(st: State, st': State) {
    && st'.securities == st.securities && st'.commons == st.commons && st'.operator == st.operator
    && st'.shares.Keys == st.shares.Keys
    && forall n :: n in st.shares ==>
         st'.shares[n].spec == st.shares[n].spec && st'.shares[n].namespace == st.shares[n].namespace
  }

  lemma InstanceSame(st: State, st': State, s: Share, s': Share)
    requires st'.securities == st.securities && st'.commons == st.commons && st'.operator == st.operator
    requires s'.spec.securityConfig == s.spec.securityConfig && s'.spec.commonConfig == s.spec.commonConfig
    ensures FetchInstance(st', {}, s').Some? <==> FetchInstance(st, {}, s).Some?
    ensures FetchInstance(st, {}, s).Some? ==>
              FetchInstance(st', {}, s') == Some(FetchInstance(st, {}, s).value.(share := s'))
  {
  }

  lemma ProfileSame(ic: Instance, s': Share)
    requires s'.spec == ic.share.spec && s'.namespace == ic.share.namespace
    ensures HasPvc(CandidateOf(ic.(share := s'))) <==> HasPvc(CandidateOf(ic))
    ensures HasPvc(CandidateOf(ic)) ==> ProfileOf(CandidateOf(ic.(share := s'))) == ProfileOf(CandidateOf(ic))
  {
  }

  lemma AgreeSame(st: State, st': State, ic: Instance, s': Share, others: seq<OwnerRef>)
    requires SameSpecs(st, st') && s'.spec == ic.share.spec && s'.namespace == ic.share.namespace
    ensures PeerAgrees(st', {}, ic.(share := s'), others) <==> PeerAgrees(st, {}, ic, others)
  {
    hide FetchInstance, ProfileOf, HasPvc;
    ProfileSame(ic, s');
    if others != [] && others[0].name in st.shares {
      var peer, peer' := st.shares[others[0].name], st'.shares[others[0].name];
      InstanceSame(st, st', peer, peer');
      if FetchInstance(st, {}, peer).Some? {
        FetchInstanceOf(st, {}, peer);
        ProfileSame(FetchInstance(st, {}, peer).value, peer');
      }
    }
  }

  lemma NamedKeeps(s: Share)
    ensures var n := Named(s);
            && n.name == s.name && n.namespace == s.namespace && n.serverGroup == s.serverGroup && n.uid == s.uid
            && n.deleting == s.deleting && n.finalizers == s.finalizers && n.annotations == s.annotations
  {
  }

  lemma AgreesWithSame(st: State, st': State, s: Share, s': Share, others: seq<OwnerRef>)
    requires SameSpecs(st, st') && s.name in st.shares && s'.name == s.name
    requires s'.spec == s.spec && s'.namespace == s.namespace && Named(s').spec == Named(s).spec
    ensures AgreesWith(st', s', others) <==> AgreesWith(st, s, others)
  {
    hide FetchInstance, PeerAgrees, WithPvcName;
    var n, n' := Named(s), Named(s');
    InstanceSame(st, st', s, s');
    NamedKeeps(s);
    NamedKeeps(s');
    InstanceSame(With(st, n), With(st', n'), n, n');
    if FetchInstance(st, {}, s).Some? && FetchInstance(With(st, n), {}, n).Some? {
      FetchInstanceOf(st, {}, s);
      FetchInstanceOf(With(st, n), {}, n);
      AgreeSame(st, st', FetchInstance(st, {}, s).value, s', others);
      AgreeSame(With(st, n), With(st', n'), FetchInstance(With(st, n), {}, n).value, n', others);
    }
  }

  /** The ConfigMap looks the same to the share, whoever owns it besides. */
  predicate SameConfigMap(st: State, st': State, s: Share) {
    var k := ConfigMapKey(s);
    && (k in st'.objects <==> k in st.objects)
    && (k in st.objects ==>
          && st'.objects[k].data == st.objects[k].data
          && Others(s, st'.objects[k]) == Others(s, st.objects[k]))
  }

  lemma SameSurroundings(st: State, st': State)
    requires SameSpecs(st, st')
    ensures st'.securities == st.securities && st'.commons == st.commons && st'.operator == st.operator
  {
  }

  lemma ConfigReadySame(st: State, st': State, s: Share, s': Share)
    requires SameSpecs(st, st') && SameConfigMap(st, st', s) && s.name in st.shares
    requires s'.name == s.name && s'.uid == s.uid && s'.serverGroup == s.serverGroup
    requires s'.spec == s.spec && s'.namespace == s.namespace && Named(s').spec == Named(s).spec
    ensures ConfigReady(st', s') <==> ConfigReady(st, s)
  {
    hide FetchInstance, AgreesWith, UpdatePanics, LoadConfig, Named, SameSpecs, ShareRefs, Excluding;
    var k := ConfigMapKey(s);
    if k in st.objects {
      AgreesWithSame(st, st', s, s', Others(s, st.objects[k]));
      SameSurroundings(st, st');
      InstanceSame(st, st', s, s');
      if FetchInstance(st, {}, s).Some? && LoadConfig(st.objects[k].data).Some? {
        FetchInstanceOf(st, {}, s);
        PlannedAlikeUpdates(FetchInstance(st, {}, s).value, s', LoadConfig(st.objects[k].data).value);
      }
    }
  }

  lemma NamedAlike(s: Share, s': Share)
    requires s'.spec == s.spec && s'.name == s.name && Backend(s') == Backend(s)
    ensures Named(s').spec == Named(s).spec
  {
  }

  lemma ReadySame(st: State, st': State, s: Share, s': Share)
    requires SameSpecs(st, st') && s.name in st.shares
    requires s'.name == s.name && s'.uid == s.uid && s'.namespace == s.namespace && s'.deleting == s.deleting
    requires s'.spec == s.spec && GroupOf(s') == GroupOf(s) && Backend(s') == Backend(s)
    requires GroupOf(s).Some? ==>
               && SameConfigMap(st, st', Grouped(s))
               && (s.spec.pvc.Some? ||
                   (WorkloadKey(Grouped(s)) in st'.objects <==> WorkloadKey(Grouped(s)) in st.objects))
    ensures Ready(st', s') <==> Ready(st, s)
  {
    hide ConfigReady, FetchInstance, Contradicts, ChooseGroup, SameSpecs, SameConfigMap, PvcName;
    SameSurroundings(st, st');
    InstanceSame(st, st', s, s');
    if GroupOf(s).Some? {
      NamedAlike(Grouped(s), Grouped(s'));
      ConfigReadySame(st, st', Grouped(s), Grouped(s'));
    }
  }

  // ----- passes of the share itself neither make it ready nor unready -----

  lemma SaveSpecs(st: State, s: Share, s': Share)
    requires s.name in st.shares && st.shares[s.name] == s
    requires s'.spec == s.spec && s'.namespace == s.namespace && s'.name == s.name
    ensures SameSpecs(st, With(st, s'))
  {
  }

  lemma PlacingKeepsReady(st: State, s: Share, s': Share)
    requires s.name in st.shares && st.shares[s.name] == s && !s.deleting && s.name != ""
    requires
      || s' == s.(finalizers := s.finalizers + [SHARE_FINALIZER])
      || (s.serverGroup == "" && ChooseGroup(s).Some? && s' == s.(serverGroup := ChooseGroup(s).value))
    ensures Ready(With(st, s'), s') <==> Ready(st, s)
  {
    hide Ready, SameSpecs;
    SaveSpecs(st, s, s');
    ReadySame(st, With(st, s'), s, s');
  }

  lemma NamedStore(st: State, s: Share, s': Share)
    requires s.name in st.shares && st.shares[s.name] == s
    requires s'.name == s.name && s'.namespace == s.namespace && s'.spec == WithPvcName(s).spec
    ensures SameSpecs(With(st, WithPvcName(s)), With(st, s'))
  {
    hide PvcName;
  }

  lemma SavingKeepsContradiction(s: Share, s': Share)
    requires s'.spec == WithPvcName(s).spec
    ensures Contradicts(s'.spec) <==> Contradicts(s.spec)
  {
  }

  lemma OthersByName(s: Share, s': Share, cm: Object)
    requires s'.name == s.name && s'.uid == s.uid
    ensures Others(s', cm) == Others(s, cm)
  {
  }

  lemma NamingKeepsReady(st: State, s: Share, s': Share)
    requires s.name in st.shares && st.shares[s.name] == s && s.serverGroup != ""
    requires !s.deleting && Backend(s) == "" && ConfigMapStep(st, {}, s).Idle?
    requires s' == WithPvcName(s).(annotations := s.annotations[SERVER_BACKEND := BackendFor(s.spec)])
    ensures Ready(With(st, s'), s') <==> Ready(st, s)
  {
    hide ConfigMapStep, UpdatePanics, Updated, Contradicts, LoadConfig, PeerAgrees, FetchInstance, Others, NamesOwner,
         WellFormedRefs, PvcName, SameSpecs, New;
    ConfigStepExactly(st, {}, s);
    var cm, n, st' := st.objects[ConfigMapKey(s)], WithPvcName(s), With(st, s');
    var c, others := LoadConfig(cm.data).value, Others(s, cm);
    var ic := FetchInstance(st, {}, s).value;
    FetchInstanceOf(st, {}, s);
    NoDataNeedsUpdate(cm.data, ic);
    NamedStore(st, s, s');
    InstanceSame(st, st', s, s');
    InstanceSame(With(st, n), st', n, s');
    InstanceSame(st, With(st, n), s, n);
    AgreeSame(With(st, n), st', FetchInstance(With(st, n), {}, n).value, s', others);
    PlannedAlikeUpdates(ic, s', c);
    NamedKeys(s);
    SavingKeepsContradiction(s, s');
    assert BackendFor(s.spec) != "" && Named(s') == s' && With(st', s') == st';
    assert Others(s', cm) == others by {
      OthersByName(s, s', cm);
    }
  }

  lemma NoOthersYet(s: Share)
    ensures Excluding(ShareRefs([ShareRef(s.name, s.uid, true)]), s.name, s.uid) == []
  {
  }

  lemma NamedConfigs(s: Share)
    ensures Named(s).spec.securityConfig == s.spec.securityConfig && Named(s).spec.commonConfig == s.spec.commonConfig
  {
  }

  lemma NewPanicsIff(ic: Instance)
    ensures UpdatePanics(ic, New()) <==> ic.share.spec.pvc.None?
  {
  }

  lemma MakingConfigKeepsReady(st: State, s: Share, o: Object)
    requires s.name in st.shares && st.shares[s.name] == s && s.serverGroup != "" && ConfigMapKey(s) !in st.objects
    requires o.owners == [ShareRef(s.name, s.uid, true)] && o.data == Json(Reload(New()))
    ensures Ready(Put(st, ConfigMapKey(s), o), s) <==> Ready(st, s)
  {
    hide Contradicts, PvcName, ShareRefs, Excluding, FetchInstance, UpdatePanics;
    var st' := Put(st, ConfigMapKey(s), o);
    NoOthersYet(s);
    InstanceSame(st, st', s, s);
    NamedKeeps(s);
    InstanceSame(st, With(st', Named(s)), s, s);
    NamedConfigs(s);
    InstanceSame(st, With(st', Named(s)), s, Named(s));
    assert Reload(New()) == New();
    if FetchInstance(st, {}, s).Some? {
      FetchInstanceOf(st, {}, s);
      NewPanicsIff(FetchInstance(st, {}, s).value);
    }
  }

  lemma StepHasData(st: State, f: Faults, s: Share)
    ensures ConfigMapStep(st, f, s).SaveConfig? ==>
              var k := ConfigMapStep(st, f, s).key;
              k == ConfigMapKey(s) && k in st.objects && !st.objects[k].data.NoData?
  {
    hide UpdatePanics, Updated, Contradicts, Reload, LoadConfig, FetchInstance, CheckCompatible, FindClaim,
         WellFormedRefs, ShareRefs, Excluding;
  }

  lemma ServerNeverSaves(st: State, f: Faults, s: Share)
    ensures !NextServer(st, f, s).SaveConfig?
  {
  }

  lemma SavedHasData(st: State, f: Faults, s: Share, k: ObjKey, c: Config)
    requires !s.deleting && NextFor(st, f, s) == SaveConfig(k, c)
    ensures k == ConfigMapKey(s) && k in st.objects && !st.objects[k].data.NoData?
  {
    hide ConfigMapStep, NextServer, ChooseGroup, PvcName;
    ServerNeverSaves(st, f, WithPvcName(s));
    StepHasData(st, f, s);
  }

  lemma StoredStore(st: State, s: Share, c: Config)
    requires ConfigMapKey(s) in st.objects
    ensures var k := ConfigMapKey(s);
            var st' := Apply(st, s, SaveConfig(k, c));
            && SameSpecs(st, st') && st'.objects.Keys == st.objects.Keys && !st'.objects[k].data.NoData?
            && st'.objects[k].owners == st.objects[k].owners
  {
  }

  lemma StoringKeepsReady(st: State, s: Share, c: Config)
    requires s.name in st.shares && st.shares[s.name] == s && s.serverGroup != "" && !s.deleting
    requires ConfigMapKey(s) in st.objects && !st.objects[ConfigMapKey(s)].data.NoData?
    requires ConfigEdit(st, {}, s, st.objects[ConfigMapKey(s)], c)
    ensures Ready(Apply(st, s, SaveConfig(ConfigMapKey(s), c)), s) <==> Ready(st, s)
  {
    hide Contradicts, PvcName, ShareRefs, Excluding, FetchInstance, UpdatePanics, Updated, Reload, LoadConfig, PeerStep,
         PeerAgrees, WellFormedRefs, AgreesWith, Apply, SameSpecs;
    var k := ConfigMapKey(s);
    var cm, st' := st.objects[k], Apply(st, s, SaveConfig(k, c));
    LoadedData(st, s, c);
    StoredAgain(FetchInstance(st, {}, s).value, LoadConfig(cm.data).value);
    StoredStore(st, s, c);
    AgreesWithSame(st, st', s, s, Others(s, cm));
  }

  lemma ConfigStepOnlySaves(st: State, f: Faults, s: Share, k: ObjKey, cm: Object)
    ensures var a := ConfigStep(st, f, s, k, cm);
            a.Idle? || a.Fail? || a.Crash? || (a.SaveConfig? && a.key == k)
  {
  }

  lemma BuiltOnPvc(st: State, f: Faults, s: Share)
    requires !s.deleting && NextFor(st, f, s).Create? && NextFor(st, f, s).key == WorkloadKey(s)
    ensures s.spec.pvc.Some?
  {
    hide ConfigStep, ChooseGroup, PvcName, FindClaim, Int32, New, Reload;
    NamedKeys(s);
    if ConfigMapKey(s) in st.objects {
      ConfigStepOnlySaves(st, f, s, ConfigMapKey(s), st.objects[ConfigMapKey(s)]);
    }
  }

  lemma MakingKeepsReady(st: State, s: Share, k: ObjKey, o: Object)
    requires s.name in st.shares && st.shares[s.name] == s && s.serverGroup != "" && k !in st.objects
    requires k != ConfigMapKey(s) && (k == WorkloadKey(s) ==> s.spec.pvc.Some?)
    ensures Ready(Put(st, k, o), s) <==> Ready(st, s)
  {
    hide Ready;
    ReadySame(st, Put(st, k, o), s, s);
  }

  lemma ClaimedOthers(refs: seq<OwnerRef>, s: Share)
    ensures Excluding(ShareRefs(refs + [ShareRef(s.name, s.uid, false)]), s.name, s.uid) ==
            Excluding(ShareRefs(refs), s.name, s.uid)
  {
    var own := ShareRef(s.name, s.uid, false);
    ShareRefsAppend(refs, own);
    ExcludingAppend(ShareRefs(refs), own, s.name, s.uid);
  }

  lemma ClaimingKeepsReady(st: State, s: Share, k: ObjKey)
    requires s.name in st.shares && st.shares[s.name] == s && s.serverGroup != "" && k in st.objects
    ensures Ready(Apply(st, s, ClaimObject(k)), s) <==> Ready(st, s)
  {
    hide Ready, ShareRefs, Excluding;
    ClaimedOthers(st.objects[k].owners, s);
    ReadySame(st, Apply(st, s, ClaimObject(k)), s, s);
  }

  lemma ResizingKeepsReady(st: State, s: Share, k: ObjKey, n: int)
    requires s.name in st.shares && st.shares[s.name] == s && s.serverGroup != "" && k in st.objects
    ensures Ready(Apply(st, s, Resize(k, n)), s) <==> Ready(st, s)
  {
    hide Ready, ShareRefs, Excluding;
    ReadySame(st, Apply(st, s, Resize(k, n)), s, s);
  }

  /** The backend is recorded only when the configuration is in order. */
  lemma NamedWhenConfigured(st: State, f: Faults, s: Share, s': Share)
    requires !s.deleting && NextFor(st, f, s) == SaveShare(s') && SHARE_FINALIZER in s.finalizers && s.serverGroup != ""
    ensures ConfigMapStep(st, f, s).Idle? && Backend(s) == ""
    ensures s' == WithPvcName(s).(annotations := s.annotations[SERVER_BACKEND := BackendFor(s.spec)])
  {
    hide ConfigStep, PvcName, FindClaim, New, Reload;
    NamedKeys(s);
    if ConfigMapKey(s) in st.objects {
      ConfigStepOnlySaves(st, f, s, ConfigMapKey(s), st.objects[ConfigMapKey(s)]);
    }
  }

  lemma PlacedFirst(st: State, f: Faults, s: Share, s': Share)
    requires !s.deleting && NextFor(st, f, s) == SaveShare(s')
    requires SHARE_FINALIZER !in s.finalizers || s.serverGroup == ""
    ensures
      || s' == s.(finalizers := s.finalizers + [SHARE_FINALIZER])
      || (s.serverGroup == "" && ChooseGroup(s).Some? && s' == s.(serverGroup := ChooseGroup(s).value))
  {
    hide ConfigMapStep, NextServer, ChooseGroup, PvcName;
  }

  /** Anything but the first two steps happens to a share that has its finalizer and its group. */
  lemma UpdatingIsPlaced(st: State, f: Faults, s: Share)
    requires !s.deleting && (NextFor(st, f, s).SaveConfig? || NextFor(st, f, s).Resize?)
    ensures SHARE_FINALIZER in s.finalizers && s.serverGroup != ""
  {
    hide ConfigMapStep, PvcStep, NextServer, ChooseGroup;
  }

  lemma InitialContent(s: Share, k: ObjKey, o: Object)
    requires InitialFor(s, k, o)
    ensures k == ConfigMapKey(s) ==> o.owners == [ShareRef(s.name, s.uid, true)] && o.data == Json(Reload(New()))
  {
  }

  /** A pass of the share without failing calls leaves it as ready, or as far from it, as it was. */
  lemma PassKeepsReady(st: State, name: string)
    requires Keyed(st) && name in st.shares && !st.shares[name].deleting
    requires ResultOf(Next(st, {}, name)).Requeue?
    ensures name in Process(st, {}, name).shares
    ensures Ready(Process(st, {}, name), Process(st, {}, name).shares[name]) <==> Ready(st, st.shares[name])
  {
    hide NextFor, Ready, ConfigEdit, ShareEdit, OwnKey, SharedKey, InitialFor, NamesOwner, WellFormedRefs,
         HasController, Wanted, ShareRefs, Excluding, ChooseGroup, PvcName;
    var s := st.shares[name];
    NextJustified(st, {}, s);
    var a := NextFor(st, {}, s);
    assert Next(st, {}, name) == a;
    match a
    case SaveShare(s') =>
      if SHARE_FINALIZER !in s.finalizers || s.serverGroup == "" {
        PlacedFirst(st, {}, s, s');
        PlacingKeepsReady(st, s, s');
      } else {
        NamedWhenConfigured(st, {}, s, s');
        NamingKeepsReady(st, s, s');
      }
    case Create(k, o) =>
      InitialContent(s, k, o);
      if k == ConfigMapKey(s) {
        MakingConfigKeepsReady(st, s, o);
      } else {
        if k == WorkloadKey(s) {
          BuiltOnPvc(st, {}, s);
        }
        MakingKeepsReady(st, s, k, o);
      }
    case ClaimObject(k) => ClaimingKeepsReady(st, s, k);
    case SaveConfig(k, c) =>
      SavedHasData(st, {}, s, k, c);
      UpdatingIsPlaced(st, {}, s);
      StoringKeepsReady(st, s, c);
    case Resize(k, n) =>
      UpdatingIsPlaced(st, {}, s);
      ResizingKeepsReady(st, s, k, n);
    case _ =>
  }

  lemma OwnRefParses(s: Share)
    ensures WellFormedRefs([ShareRef(s.name, s.uid, true)])
  {
  }

  lemma PassKeepsParse(st: State, f: Faults, name: string)
    requires Keyed(st) && RefsParse(st)
    ensures RefsParse(Process(st, f, name))
  {
    hide Process, WellFormedRefs;
    if name !in st.shares {
      IdlePass(st, f, name);
    } else {
      forall k | k in Process(st, f, name).objects
        ensures WellFormedRefs(Process(st, f, name).objects[k].owners)
      {
        if k in st.objects {
          PassOnOwners(st, f, name, k);
          SameForm(st.objects[k].owners, Process(st, f, name).objects[k].owners, st.shares[name]);
        } else {
          PassCreates(st, f, name, k);
          OwnRefParses(st.shares[name]);
        }
      }
    }
  }

  // ----- repeated passes -----

  /** The n-th pass without failing calls is Done, and the share is set up. */
  ghost predicate DoneAfter(st: State, name: string, n: nat) {
    var end := Passes(st, NoFaults(n), name);
    && name in end.shares && !end.shares[name].deleting
    && Next(end, {}, name).Idle? && Settled(end, end.shares[name])
  }

  lemma DoneNow(st: State, name: string)
    requires name in st.shares && !st.shares[name].deleting && Next(st, {}, name).Idle?
    ensures DoneAfter(st, name, 0)
  {
    hide NextUpdate, Settled;
    DoneIsSettled(st, {}, st.shares[name]);
  }

  lemma DoneLater(st: State, name: string, n: nat)
    requires DoneAfter(Process(st, {}, name), name, n)
    ensures DoneAfter(st, name, n + 1)
  {
    hide Process, Next, Settled;
    assert NoFaults(n + 1)[0] == {} && NoFaults(n + 1)[1..] == NoFaults(n);
    assert Passes(st, NoFaults(n + 1), name) == Passes(Process(st, {}, name), NoFaults(n), name);
  }

  lemma ReadyIsLive(st: State, s: Share)
    requires Ready(st, s)
    ensures !s.deleting && !Contradicts(s.spec)
  {
  }

  /** The only pass of a live share that is neither requeued nor Done is one that fails or panics. */
  lemma NextIsJustified(st: State, name: string)
    requires Keyed(st) && name in st.shares && !st.shares[name].deleting
    ensures !Next(st, {}, name).Release?
  {
    hide NextUpdate, ConfigEdit, ShareEdit, OwnKey, SharedKey, InitialFor;
    NextJustified(st, {}, st.shares[name]);
  }

  /** Passes of a ready share end at Done within its debt. */
  lemma {:induction false} ReadyEndsDone(st: State, name: string)
    requires Keyed(st) && RefsParse(st) && name in st.shares && Ready(st, st.shares[name])
    ensures exists n: nat :: n <= Debt(st, st.shares[name]) && DoneAfter(st, name, n)
    decreases Debt(st, st.shares[name])
  {
    hide Process, Ready, NextUpdate, Debt, Keyed, RefsParse, DoneAfter, Contradicts;
    var s, st' := st.shares[name], Process(st, {}, name);
    ReadyIsLive(st, s);
    ReadyNeverFails(st, s);
    assert Next(st, {}, name) == NextUpdate(st, {}, s);
    NextIsJustified(st, name);
    if Next(st, {}, name).Idle? {
      DoneNow(st, name);
    } else {
      PassPays(st, {}, name);
      PassKeepsReady(st, name);
      PassKeepsParse(st, {}, name);
      ProcessKeepsKeyed(st, {}, name);
      ReadyEndsDone(st', name);
      var n: nat :| n <= Debt(st', st'.shares[name]) && DoneAfter(st', name, n);
      DoneLater(st, name, n);
    }
  }

  lemma KeyedHere(st: State, name: string)
    requires Keyed(st) && name in st.shares
    ensures st.shares[name].name == name
  {
  }

  lemma FailedPass(st: State, name: string)
    requires Next(st, {}, name).Fail? || Next(st, {}, name).Crash?
    ensures Process(st, {}, name) == st
  {
  }

  lemma {:induction false} OnlyReadyEndsDone(st: State, name: string, n: nat)
    requires Keyed(st) && name in st.shares && !st.shares[name].deleting
    requires Next(Passes(st, NoFaults(n), name), {}, name).Idle?
    ensures Ready(st, st.shares[name])
    decreases n
  {
    hide Process, Ready, NextUpdate, Keyed;
    var s, st' := st.shares[name], Process(st, {}, name);
    assert n == 0 ==> Passes(st, NoFaults(n), name) == st;
    assert Next(st, {}, name) == NextUpdate(st, {}, s);
    NextIsJustified(st, name);
    KeyedHere(st, name);
    if Next(st, {}, name).Idle? {
      DoneIsReady(st, s);
    } else if n > 0 {
      assert NoFaults(n)[0] == {} && NoFaults(n)[1..] == NoFaults(n - 1);
      assert Passes(st, NoFaults(n), name) == Passes(st', NoFaults(n - 1), name);
      ProcessKeepsKeyed(st, {}, name);
      if ResultOf(Next(st, {}, name)).Requeue? {
        PassKeepsReady(st, name);
        PassOnShares(st, {}, name);
      } else {
        FailedPass(st, name);
      }
      OnlyReadyEndsDone(st', name, n - 1);
    }
  }

  /** Passes on a live share without failing calls end at Done if and only if the share is ready to begin with; in
      that case within its debt. */
  lemma DoneIffReady(st: State, name: string)
    requires Keyed(st) && RefsParse(st) && name in st.shares && !st.shares[name].deleting
    ensures (exists n: nat :: DoneAfter(st, name, n)) <==> Ready(st, st.shares[name])
  {
    hide Ready, Next, Process, Debt, Settled;
    if Ready(st, st.shares[name]) {
      ReadyEndsDone(st, name);
    }
    if n: nat :| DoneAfter(st, name, n) {
      OnlyReadyEndsDone(st, name, n);
    }
  }
}
