/** Several shares settle together: in any interleaving of their passes, what one does costs no other anything but,
    when it names its PVC, a new look at its peers. */
module GroupConvergence {
  import opened Basics
  import opened SmbApi
  import opened ContainerConfig
  import opened Ownership
  import opened Planning
  import opened PlannerTheorems
  import opened Compatible
  import opened Cluster
  import opened Reconcile
  import opened Justification
  import opened Runs
  import opened Convergence
  import opened Sections
  import opened Panics
  import opened Readiness

  /** The options an update of the share insists on. */
  function Forced(s: Share): map<string, string> {
    CustomOptions(s.spec.custom) + SpecOptions(s.spec)
  }

  predicate AgreeOn(a: map<string, string>, b: map<string, string>) {
    forall o :: o in a && o in b ==> a[o] == b[o]
  }

  /** Two shares of one group have different names, or insist on no option differently. */
  predicate InConcord(s: Share, t: Share) {
    GroupOf(s).Some? && GroupOf(s) == GroupOf(t) && ShareKey(s) == ShareKey(t) ==> AgreeOn(Forced(s), Forced(t))
  }

  /** The shares are alive, consistent in themselves and with each other. */
  ghost predicate Concord(st: State, names: seq<string>) {
    && NoDuplicates(names)
    && (forall n :: n in names ==>
          n in st.shares && !st.shares[n].deleting && !Contradicts(st.shares[n].spec))
    && (forall m, n :: m in names && n in names && m != n ==> InConcord(st.shares[m], st.shares[n]))
  }

  // ----- another share's update keeps a settled configuration settled -----

  lemma SettledHoldsForced(ic: Instance, c: Config)
    requires !UpdatePanics(ic, c) && Updated(ic, c) == c
    ensures ic.ShareName() in c.shares && c.shares[ic.ShareName()].Opts?
    ensures var entries := c.shares[ic.ShareName()].entries;
            entries + CustomOptions(ic.share.spec.custom) + SpecOptions(ic.share.spec) == entries
  {
  }

  lemma MergedStaysForced(entries: map<string, string>, a: map<string, string>, b: map<string, string>)
    requires entries + b == entries && AgreeOn(a, b)
    ensures entries + a + b == entries + a
  {
  }

  lemma MergeInTwo(entries: map<string, string>, x: map<string, string>, y: map<string, string>)
    ensures entries + x + y == entries + (x + y)
  {
  }

  lemma SharesStaySettled(a: Instance, b: Instance, c: Config)
    requires !UpdatePanics(a, c) && !UpdatePanics(b, c) && Updated(b, c) == c
    requires a.ShareName() == b.ShareName() ==> AgreeOn(Forced(a.share), Forced(b.share))
    ensures var u := UpdatedShares(a, c.shares);
            b.ShareName() in u && u[b.ShareName()].Opts? && UpdatedShares(b, u) == u
  {
    hide CustomOptions, SpecOptions, AgreeOn;
    SettledHoldsForced(b, c);
    var u, key := UpdatedShares(a, c.shares), b.ShareName();
    if a.ShareName() == key {
      var entries := c.shares[key].entries;
      MergedStaysForced(entries, Forced(a.share), Forced(b.share));
      MergeInTwo(entries, CustomOptions(a.share.spec.custom), SpecOptions(a.share.spec));
      MergeInTwo(entries, CustomOptions(b.share.spec.custom), SpecOptions(b.share.spec));
      MergeInTwo(entries + Forced(a.share), CustomOptions(b.share.spec.custom), SpecOptions(b.share.spec));
    }
    assert UpdatedShares(b, u)[key] == u[key];
  }

  lemma SameGlobals(a: Instance, b: Instance, c: Config)
    requires a.security == b.security && a.common == b.common && a.operator == b.operator
    requires !UpdatePanics(b, c) && Updated(b, c) == c
    ensures UpdatedGlobals(a, c.globals) == c.globals && UpdatedGlobals(b, c.globals) == c.globals
    ensures GLOBALS in c.globals && !GlobalsPanic(b, c)
  {
  }

  /** An update of one share keeps the configuration settled for another of the same server, if the two insist on
      nothing differently under one name. */
  lemma OthersStaySettled(a: Instance, b: Instance, c: Config)
    requires a.security == b.security && a.common == b.common && a.operator == b.operator
    requires a.InstanceName() == b.InstanceName()
    requires a.ShareName() == b.ShareName() ==> AgreeOn(Forced(a.share), Forced(b.share))
    requires !UpdatePanics(a, c) && !UpdatePanics(b, c) && Updated(b, c) == c
    ensures var u := Updated(a, c);
            !UpdatePanics(b, u) && Updated(b, u) == u
  {
    hide UpdatedShares, CustomOptions, SpecOptions, AgreeOn, Forced;
    var u := Updated(a, c);
    SharesStaySettled(a, b, c);
    SameGlobals(a, b, c);
    assert c.configs[b.InstanceName()] == UpdatedSection(b, c.configs);
    assert UpdatedSection(b, u.configs) == u.configs[b.InstanceName()];
    assert "all_entries" in NewDefaultUsers();
    assert u.users == c.users;
  }

  lemma OthersStayStored(a: Instance, b: Instance, c: Config)
    requires a.security == b.security && a.common == b.common && a.operator == b.operator
    requires a.InstanceName() == b.InstanceName()
    requires a.ShareName() == b.ShareName() ==> AgreeOn(Forced(a.share), Forced(b.share))
    requires !UpdatePanics(a, c) && !UpdatePanics(b, c) && Updated(b, c) == c
    ensures var r := Reload(Updated(a, c));
            !UpdatePanics(b, r) && Updated(b, r) == r
  {
    hide Updated, Reload, Forced, AgreeOn;
    OthersStaySettled(a, b, c);
    ReloadedAgain(b, Updated(a, c));
  }

  // ----- shares that may write into one ConfigMap are of one server -----

  /** Nobody keeps the share from writing its configuration: the first other owner agrees, or there is none. */
  predicate Allowed(st: State, s: Share) {
    ConfigMapKey(s) in st.objects ==>
      FetchInstance(st, {}, s).Some? &&
      PeerAgrees(st, {}, FetchInstance(st, {}, s).value, Others(s, st.objects[ConfigMapKey(s)]))
  }

  /** Two shares of which one owns the ConfigMap both look at the same first owner, or at each other. */
  lemma FirstOthers(refs: seq<OwnerRef>, s: Share, t: Share)
    requires s.name != t.name && NamesOwner(refs, s.name)
    ensures var r := ShareRefs(refs);
            var os, ot := Excluding(r, s.name, s.uid), Excluding(r, t.name, t.uid);
            && r != [] && ot != []
            && (r[0].name == s.name && r[0].uid == s.uid ==> ot[0].name == s.name)
            && (r[0].name == t.name && r[0].uid == t.uid ==> os != [] && os[0].name == t.name)
            && (!(r[0].name == s.name && r[0].uid == s.uid) && !(r[0].name == t.name && r[0].uid == t.uid) ==>
                  os != [] && os[0] == ot[0])
  {
  }

  lemma AllowedShareProfile(st: State, s: Share, t: Share, cm: Object)
    requires s.name != t.name && NamesOwner(cm.owners, s.name)
    requires s.name in st.shares && st.shares[s.name] == s && t.name in st.shares && st.shares[t.name] == t
    requires FetchInstance(st, {}, s).Some? && FetchInstance(st, {}, t).Some?
    requires PeerAgrees(st, {}, FetchInstance(st, {}, s).value, Others(s, cm))
    requires PeerAgrees(st, {}, FetchInstance(st, {}, t).value, Others(t, cm))
    ensures s.spec.securityConfig == t.spec.securityConfig && s.spec.commonConfig == t.spec.commonConfig
  {
    hide FetchInstance, ShareRefs, Excluding, HasPvc;
    FirstOthers(cm.owners, s, t);
    FetchInstanceOf(st, {}, s);
    FetchInstanceOf(st, {}, t);
    var other := Others(t, cm)[0].name;
    if other in st.shares && FetchInstance(st, {}, st.shares[other]).Some? {
      FetchInstanceOf(st, {}, st.shares[other]);
    }
  }

  lemma SameResources(st: State, s: Share, t: Share)
    requires s.spec.securityConfig == t.spec.securityConfig && s.spec.commonConfig == t.spec.commonConfig
    requires FetchInstance(st, {}, s).Some? && FetchInstance(st, {}, t).Some?
    ensures var a, b := FetchInstance(st, {}, s).value, FetchInstance(st, {}, t).value;
            && a.share == s && b.share == t
            && a.security == b.security && a.common == b.common && a.operator == b.operator
  {
  }

  // ----- what a share owes, as far as it may pay -----

  predicate MayOwe(st: State, s: Share) {
    ConfigOwed(st, s) && Allowed(st, s)
  }

  /** Everything but the configuration. */
  function RestDebt(st: State, s: Share): nat {
    One(SHARE_FINALIZER !in s.finalizers) + (if s.serverGroup == "" then 12 else 0) + One(Backend(s) == "")
    + One(Missing(st, ConfigMapKey(s))) + One(Unclaimed(st, s, ConfigMapKey(s)))
    + PvcDebt(st, s) + WorkloadDebt(st, s) + ServiceDebt(st, s)
  }

  function ShareDebt(st: State, s: Share): (n: nat)
    ensures n <= 24
  {
    RestDebt(st, s) + One(MayOwe(st, s))
  }

  lemma DebtInParts(st: State, s: Share)
    ensures Debt(st, s) == RestDebt(st, s) + One(ConfigOwed(st, s))
  {
  }

  // ----- the rest, of another share -----

  lemma AppendedStaysNamed(refs: seq<OwnerRef>, r: OwnerRef, name: string)
    ensures NamesOwner(refs, name) ==> NamesOwner(refs + [r], name)
  {
    if NamesOwner(refs, name) {
      var i :| 0 <= i < |refs| && IsShareRef(refs[i]) && refs[i].name == name;
      assert (refs + [r])[i] == refs[i];
    }
  }

  /** A StatefulSet that grew for one share is not too small for another for which it was not before. */
  lemma GrowingFitsOthers(s: Share, t: Share, n: int)
    requires WorkloadKey(s) == WorkloadKey(t) && Wanted(t, n) == n
    ensures Wanted(t, Wanted(s, n)) == Wanted(s, n)
  {
  }

  lemma CreatingLeavesRest(st: State, t: Share, k: ObjKey, o: Object)
    requires k !in st.objects
    ensures RestDebt(Put(st, k, o), t) <= RestDebt(st, t)
  {
    hide NamesOwner, Wanted, PvcName, Backend;
  }

  lemma ClaimingLeavesRest(st: State, s: Share, t: Share, k: ObjKey)
    requires k in st.objects
    ensures RestDebt(Apply(st, s, ClaimObject(k)), t) <= RestDebt(st, t)
  {
    hide NamesOwner, Wanted, PvcName, Backend;
    AppendedStaysNamed(st.objects[k].owners, ShareRef(s.name, s.uid, false), t.name);
    var st' := Apply(st, s, ClaimObject(k));
    assert PvcDebt(st', t) == PvcDebt(st, t);
    assert WorkloadDebt(st', t) <= WorkloadDebt(st, t);
    assert ServiceDebt(st', t) <= ServiceDebt(st, t);
  }

  lemma ResizingLeavesRest(st: State, s: Share, t: Share, n: int)
    requires WorkloadKey(s) in st.objects && n == Wanted(s, st.objects[WorkloadKey(s)].replicas)
    ensures RestDebt(Apply(st, s, Resize(WorkloadKey(s), n)), t) <= RestDebt(st, t)
  {
    hide NamesOwner, Wanted, PvcName, Backend;
    var k := WorkloadKey(s);
    if k == WorkloadKey(t) && Wanted(t, st.objects[k].replicas) == st.objects[k].replicas {
      GrowingFitsOthers(s, t, st.objects[k].replicas);
    }
    var st' := Apply(st, s, Resize(k, n));
    assert PvcDebt(st', t) == PvcDebt(st, t);
    assert WorkloadDebt(st', t) <= WorkloadDebt(st, t);
    assert ServiceDebt(st', t) <= ServiceDebt(st, t);
  }

  lemma StoringLeavesRest(st: State, s: Share, t: Share, c: Config)
    requires ConfigMapKey(s) in st.objects
    ensures RestDebt(Apply(st, s, SaveConfig(ConfigMapKey(s), c)), t) == RestDebt(st, t)
  {
    hide Missing, Unclaimed, PvcDebt, WorkloadDebt, ServiceDebt, Apply, Backend;
    StoringOnTheRest(st, s, t, c);
  }

  // ----- the configuration, of another share -----

  /** What matters to the share about its configuration is the same. */
  lemma MayOweSame(st: State, st': State, t: Share)
    requires SameSpecs(st, st') && SameConfigMap(st, st', t)
    ensures MayOwe(st', t) <==> MayOwe(st, t)
  {
    hide ConfigOwed, FetchInstance, PeerAgrees, Others, SameSpecs;
    SameSurroundings(st, st');
    InstanceSame(st, st', t, t);
    NoConfigMapOwes(st, t);
    NoConfigMapOwes(st', t);
    if ConfigMapKey(t) in st.objects {
      OwedSame(st, st', t);
      if FetchInstance(st, {}, t).Some? {
        FetchInstanceOf(st, {}, t);
        AgreeSame(st, st', FetchInstance(st, {}, t).value, t, Others(t, st.objects[ConfigMapKey(t)]));
      }
    }
  }

  lemma AbsentMayOwe(st: State, t: Share)
    requires ConfigMapKey(t) !in st.objects
    ensures MayOwe(st, t)
  {
  }

  lemma CreatingLeavesConfig(st: State, t: Share, k: ObjKey, o: Object)
    requires k !in st.objects
    ensures MayOwe(Put(st, k, o), t) ==> MayOwe(st, t)
  {
    hide ConfigOwed, PeerAgrees, Others, MayOwe;
    if k == ConfigMapKey(t) {
      AbsentMayOwe(st, t);
    } else {
      MayOweSame(st, Put(st, k, o), t);
    }
  }

  /** Somebody else's claim puts its share at the end of the others. */
  lemma ClaimedByAnother(refs: seq<OwnerRef>, s: Share, t: Share)
    requires s.name != t.name
    ensures Excluding(ShareRefs(refs + [ShareRef(s.name, s.uid, false)]), t.name, t.uid) ==
            Excluding(ShareRefs(refs), t.name, t.uid) + [ShareRef(s.name, s.uid, false)]
  {
    ShareRefsAppend(refs, ShareRef(s.name, s.uid, false));
    ExcludingAppend(ShareRefs(refs), ShareRef(s.name, s.uid, false), t.name, t.uid);
  }

  lemma MoreOthersAgreeLess(st: State, ic: Instance, others: seq<OwnerRef>, r: OwnerRef)
    ensures PeerAgrees(st, {}, ic, others + [r]) ==> PeerAgrees(st, {}, ic, others)
  {
  }

  lemma SharesAlone(st: State, st': State, ic: Instance, others: seq<OwnerRef>)
    requires st'.shares == st.shares && st'.securities == st.securities && st'.commons == st.commons
    requires st'.operator == st.operator
    ensures PeerAgrees(st', {}, ic, others) <==> PeerAgrees(st, {}, ic, others)
  {
    AgreeSame(st, st', ic, ic.share, others);
  }

  lemma ClaimingLeavesConfig(st: State, s: Share, t: Share, k: ObjKey)
    requires k in st.objects && s.name != t.name
    ensures MayOwe(Apply(st, s, ClaimObject(k)), t) ==> MayOwe(st, t)
  {
    hide ConfigOwed, PeerAgrees, ShareRefs, Excluding, FetchInstance;
    var st' := Apply(st, s, ClaimObject(k));
    if k == ConfigMapKey(t) {
      var refs := st.objects[k].owners;
      OwedSame(st, st', t);
      InstanceSame(st, st', t, t);
      ClaimedByAnother(refs, s, t);
      if MayOwe(st', t) {
        var ic := FetchInstance(st, {}, t).value;
        FetchInstanceOf(st, {}, t);
        SharesAlone(st, st', ic, Others(t, st'.objects[k]));
        MoreOthersAgreeLess(st, ic, Others(t, st.objects[k]), ShareRef(s.name, s.uid, false));
      }
    } else {
      hide MayOwe;
      MayOweSame(st, st', t);
    }
  }

  lemma KeptAllowed(st: State, st': State, t: Share)
    requires SameSpecs(st, st') && st'.shares == st.shares
    requires var k := ConfigMapKey(t);
             k in st.objects && k in st'.objects && st'.objects[k].owners == st.objects[k].owners
    ensures Allowed(st', t) <==> Allowed(st, t)
  {
    hide FetchInstance, PeerAgrees, SameSpecs;
    SameSurroundings(st, st');
    InstanceSame(st, st', t, t);
    if FetchInstance(st, {}, t).Some? {
      FetchInstanceOf(st, {}, t);
      AgreeSame(st, st', FetchInstance(st, {}, t).value, t, Others(t, st.objects[ConfigMapKey(t)]));
    }
  }

  lemma StoredNotOwed(st: State, s: Share, t: Share, c: Config)
    requires ConfigMapKey(s) in st.objects && ConfigMapKey(t) == ConfigMapKey(s)
    requires FetchInstance(st, {}, t).Some?
    requires !UpdatePanics(FetchInstance(st, {}, t).value, c) && Updated(FetchInstance(st, {}, t).value, c) == c
    ensures !ConfigOwed(Apply(st, s, SaveConfig(ConfigMapKey(s), c)), t)
  {
    hide UpdatePanics, Updated, FetchInstance;
    LoadedData(st, s, c);
    InstanceSame(st, Apply(st, s, SaveConfig(ConfigMapKey(s), c)), t, t);
    FetchInstanceOf(st, {}, t);
  }

  lemma StoringLeavesConfig(st: State, f: Faults, s: Share, t: Share, c: Config)
    requires !s.deleting && ConfigMapKey(s) in st.objects && s.serverGroup != "" && s.name != t.name
    requires s.name in st.shares && st.shares[s.name] == s && t.name in st.shares && st.shares[t.name] == t
    requires NamesOwner(st.objects[ConfigMapKey(s)].owners, s.name)
    requires ConfigEdit(st, f, s, st.objects[ConfigMapKey(s)], c) && InConcord(s, t)
    ensures MayOwe(Apply(st, s, SaveConfig(ConfigMapKey(s), c)), t) ==> MayOwe(st, t)
  {
    hide UpdatePanics, Updated, Reload, Contradicts, PeerStep, WellFormedRefs, FetchInstance, LoadConfig, ShareRefs,
         Excluding, PeerAgrees, NamesOwner, Forced, AgreeOn, SameSpecs;
    var k, st' := ConfigMapKey(s), Apply(st, s, SaveConfig(ConfigMapKey(s), c));
    var cm := st.objects[k];
    StoredStore(st, s, c);
    LoadedData(st, s, c);
    if ConfigMapKey(t) == k {
      KeptAllowed(st, st', t);
      if MayOwe(st', t) && !ConfigOwed(st, t) {
        FaultlessInstance(st, f, s);
        var a, b := FetchInstance(st, {}, s).value, FetchInstance(st, {}, t).value;
        QuietPeer(st, f, {}, a, Others(s, cm));
        PeerStepExactly(st, {}, a, Others(s, cm));
        AllowedShareProfile(st, s, t, cm);
        SameResources(st, s, t);
        OthersStayStored(a, b, LoadConfig(cm.data).value);
        StoredNotOwed(st, s, t, c);
      }
    } else {
      hide MayOwe;
      MayOweSame(st, st', t);
    }
  }

  // ----- one pass -----

  /** The pass gives the share's PVC its name. */
  predicate Names(s: Share, s': Share) {
    s'.spec != s.spec
  }

  lemma SavingLeavesRest(st: State, st': State, t: Share)
    requires st' == st.(shares := st'.shares)
    ensures RestDebt(st', t) == RestDebt(st, t)
  {
    hide NamesOwner, Wanted, PvcName, Backend;
  }

  lemma SavingLeavesConfig(st: State, s: Share, s': Share, t: Share)
    requires s.name in st.shares && st.shares[s.name] == s
    requires s'.spec == s.spec && s'.namespace == s.namespace && s'.name == s.name
    ensures MayOwe(With(st, s'), t) <==> MayOwe(st, t)
  {
    hide MayOwe, SameSpecs;
    SaveSpecs(st, s, s');
    MayOweSame(st, With(st, s'), t);
  }

  lemma ResizedConfigSame(st: State, s: Share, t: Share, n: int)
    requires WorkloadKey(s) in st.objects
    ensures var st' := Apply(st, s, Resize(WorkloadKey(s), n));
            SameSpecs(st, st') && SameConfigMap(st, st', t)
  {
  }

  /** A configuration is stored only by a share that has claimed its ConfigMap. */
  lemma StoringIsClaimed(st: State, f: Faults, s: Share)
    requires !s.deleting && NextFor(st, f, s).SaveConfig?
    ensures ConfigMapKey(s) in st.objects && NamesOwner(st.objects[ConfigMapKey(s)].owners, s.name)
  {
    hide ConfigStep, NextServer, ChooseGroup, PvcName, NamesOwner, New, Reload;
    ServerNeverSaves(st, f, WithPvcName(s));
    if ConfigMapKey(s) in st.objects {
      FindClaimMeans(st.objects[ConfigMapKey(s)].owners, s.name);
    }
  }

  lemma SavingKeepsTraits(s: Share, s': Share)
    requires ShareEdit(s, s')
    ensures ShareKey(s') == ShareKey(s) && GroupOf(s') == GroupOf(s)
    ensures s'.name == s.name && s'.namespace == s.namespace && s'.deleting == s.deleting
  {
    hide PvcName, CustomOptions;
  }

  /** A pass of one live share costs another in concord with it nothing, unless it names its PVC: then the other may
      find that it is allowed to write. */
  lemma PassCostsOthersNothing(st: State, f: Faults, name: string, other: string)
    requires Keyed(st) && name in st.shares && other in st.shares && other != name
    requires !st.shares[name].deleting && InConcord(st.shares[name], st.shares[other])
    ensures var st' := Process(st, f, name);
            && name in st'.shares && other in st'.shares && st'.shares[other] == st.shares[other]
            && ShareDebt(st', st.shares[other]) <=
               ShareDebt(st, st.shares[other]) + One(Names(st.shares[name], st'.shares[name]))
  {
    hide NextFor, ConfigEdit, ShareEdit, OwnKey, SharedKey, InitialFor, NamesOwner, WellFormedRefs, HasController,
         Wanted, ShareRefs, Excluding, RestDebt, MayOwe, InConcord, WithController;
    var s, t := st.shares[name], st.shares[other];
    NextJustified(st, f, s);
    var a := Next(st, f, name);
    assert a == NextFor(st, f, s) || a == Fail;
    match a
    case SaveShare(s') =>
      SavingLeavesRest(st, Process(st, f, name), t);
      SavingKeepsTraits(s, s');
      if s'.spec == s.spec {
        SavingLeavesConfig(st, s, s', t);
      }
    case Create(k, o) =>
      CreatingLeavesRest(st, t, k, o);
      CreatingLeavesConfig(st, t, k, o);
    case ClaimObject(k) =>
      ClaimingLeavesRest(st, s, t, k);
      ClaimingLeavesConfig(st, s, t, k);
    case SaveConfig(k, c) =>
      StoringIsPlaced(st, f, s);
      StoringIsClaimed(st, f, s);
      StoringLeavesRest(st, s, t, c);
      StoringLeavesConfig(st, f, s, t, c);
    case Resize(k, n) =>
      ResizingLeavesRest(st, s, t, n);
      ResizedConfigSame(st, s, t, n);
      MayOweSame(st, Process(st, f, name), t);
    case _ =>
  }

  lemma SavingKeepsForced(s: Share, s': Share)
    requires ShareEdit(s, s')
    ensures Forced(s') == Forced(s)
  {
    hide PvcName, ChooseGroup;
  }

  /** The backend is not recorded yet, and when it is, the PVC is named. */
  predicate Unnamed(s: Share) {
    Backend(s) == "" && WithPvcName(s).spec != s.spec
  }

  /** Naming happens once. */
  lemma SavingNames(s: Share, s': Share)
    requires ShareEdit(s, s')
    ensures One(Unnamed(s')) + One(Names(s, s')) == One(Unnamed(s))
  {
  }

  lemma PeerStepFails(st: State, f: Faults, ic: Instance, others: seq<OwnerRef>)
    ensures var a := PeerStep(st, f, ic, others);
            a.Idle? || a.Fail? || a.Crash?
    ensures PeerStep(st, f, ic, others).Idle? ==> PeerStep(st, {}, ic, others).Idle?
  {
    hide FetchInstance, CheckCompatible;
    if PeerStep(st, f, ic, others).Idle? {
      QuietPeer(st, f, {}, ic, others);
    }
  }

  lemma NotAllowedStops(st: State, f: Faults, s: Share)
    requires !Allowed(st, s)
    ensures ConfigMapKey(s) in st.objects
    ensures var a := ConfigStep(st, f, s, ConfigMapKey(s), st.objects[ConfigMapKey(s)]);
            a.Fail? || a.Crash?
  {
    hide UpdatePanics, Updated, Contradicts, Reload, LoadConfig, FetchInstance, PeerStep, PeerAgrees, WellFormedRefs,
         ShareRefs, Excluding;
    var cm := st.objects[ConfigMapKey(s)];
    if FetchInstance(st, f, s).Some? {
      var ic := FetchInstance(st, f, s).value;
      FaultlessInstance(st, f, s);
      PeerStepExactly(st, {}, ic, Others(s, cm));
      PeerStepFails(st, f, ic, Others(s, cm));
    }
  }

  /** A share that is owed a configuration it may not write can only place itself and claim its ConfigMap. */
  lemma ExcusedWaits(st: State, f: Faults, s: Share)
    requires !s.deleting && !Allowed(st, s) && s.name in st.shares && st.shares[s.name] == s
    ensures var a := NextFor(st, f, s);
            || a.Fail? || a.Crash? || a == ClaimObject(ConfigMapKey(s))
            || (a.SaveShare? && (SHARE_FINALIZER !in s.finalizers || s.serverGroup == ""))
  {
    hide ConfigStep, NextServer, ChooseGroup, PvcName, Allowed, New, Reload, FindClaim;
    NotAllowedStops(st, f, s);
  }

  lemma GroupingPays(st: State, st': State, s: Share, s': Share)
    requires s.serverGroup == "" && s'.serverGroup != "" && s'.finalizers == s.finalizers && Backend(s') == Backend(s)
    ensures RestDebt(st', s') + 3 <= RestDebt(st, s)
  {
  }

  lemma SameAsBefore(st: State)
    ensures SameSpecs(st, st)
  {
  }

  lemma AllowedAlike(st: State, s: Share, s': Share)
    requires s'.name == s.name && s'.uid == s.uid && s'.serverGroup == s.serverGroup
    requires s'.spec == s.spec && s'.namespace == s.namespace
    ensures Allowed(st, s') <==> Allowed(st, s)
  {
    hide FetchInstance, PeerAgrees, ShareRefs, Excluding, SameSpecs;
    SameAsBefore(st);
    InstanceSame(st, st, s, s');
    if ConfigMapKey(s) in st.objects && FetchInstance(st, {}, s).Some? {
      FetchInstanceOf(st, {}, s);
      OthersByName(s, s', st.objects[ConfigMapKey(s)]);
      AgreeSame(st, st, FetchInstance(st, {}, s).value, s', Others(s, st.objects[ConfigMapKey(s)]));
    }
  }

  lemma FinalizerPays(st: State, s: Share)
    requires s.name in st.shares && st.shares[s.name] == s && SHARE_FINALIZER !in s.finalizers
    ensures var s' := s.(finalizers := s.finalizers + [SHARE_FINALIZER]);
            && RestDebt(With(st, s'), s') < RestDebt(st, s)
            && (MayOwe(With(st, s'), s') <==> MayOwe(st, s))
  {
    hide NamesOwner, Wanted, PvcName, ConfigOwed, PeerAgrees, FetchInstance, Others, SameSpecs;
    var s' := s.(finalizers := s.finalizers + [SHARE_FINALIZER]);
    SaveSpecs(st, s, s');
    SavingLeavesConfig(st, s, s', s);
    PlannedAlikeOwes(With(st, s'), s, s');
    AllowedAlike(With(st, s'), s, s');
    AlikeKeys(s, s');
    assert PvcDebt(With(st, s'), s') == PvcDebt(st, s);
    assert WorkloadDebt(With(st, s'), s') == WorkloadDebt(st, s);
    assert SHARE_FINALIZER in s'.finalizers && Backend(s') == Backend(s);
  }

  lemma ClaimingOwnPays(st: State, s: Share)
    requires s.name in st.shares && st.shares[s.name] == s
    requires ConfigMapKey(s) in st.objects && !NamesOwner(st.objects[ConfigMapKey(s)].owners, s.name)
    ensures var st' := Apply(st, s, ClaimObject(ConfigMapKey(s)));
            RestDebt(st', s) < RestDebt(st, s) && (MayOwe(st', s) <==> MayOwe(st, s))
  {
    hide NamesOwner, Wanted, PvcName, MayOwe, ShareRefs, Excluding;
    var k := ConfigMapKey(s);
    var st' := Apply(st, s, ClaimObject(k));
    AppendedIsNamed(st.objects[k].owners, s);
    ClaimedOthers(st.objects[k].owners, s);
    MayOweSame(st, st', s);
  }

  lemma FirstStepsInOrder(st: State, f: Faults, s: Share, s': Share)
    requires !s.deleting && NextFor(st, f, s) == SaveShare(s') && s.name != ""
    requires SHARE_FINALIZER !in s.finalizers || s.serverGroup == ""
    requires !(s' == s.(finalizers := s.finalizers + [SHARE_FINALIZER]) && SHARE_FINALIZER !in s.finalizers)
    ensures s.serverGroup == "" && s'.serverGroup != "" && s'.finalizers == s.finalizers && Backend(s') == Backend(s)
  {
    hide ConfigMapStep, NextServer, PvcName;
  }

  /** Every requeued pass on a live share lowers what it owes. */
  lemma OwnPassPays(st: State, f: Faults, name: string)
    requires Keyed(st) && name in st.shares
    requires !st.shares[name].deleting && !Contradicts(st.shares[name].spec)
    requires ResultOf(Next(st, f, name)).Requeue?
    ensures name in Process(st, f, name).shares
    ensures ShareDebt(Process(st, f, name), Process(st, f, name).shares[name]) < ShareDebt(st, st.shares[name])
  {
    hide NextFor, ConfigEdit, ShareEdit, OwnKey, SharedKey, InitialFor, NamesOwner, WellFormedRefs, HasController,
         Wanted, ShareRefs, Excluding, RestDebt, Debt, ConfigOwed, Allowed, Contradicts, WithController, ChooseGroup;
    var s, st' := st.shares[name], Process(st, f, name);
    PassPays(st, f, name);
    DebtInParts(st, s);
    DebtInParts(st', st'.shares[name]);
    if ConfigOwed(st, s) && !Allowed(st, s) {
      ExcusedWaits(st, f, s);
      NextJustified(st, f, s);
      var a := NextFor(st, f, s);
      assert Next(st, f, name) == a;
      if a.ClaimObject? {
        ClaimingOwnPays(st, s);
      } else {
        PlacedFirst(st, f, s, a.share);
        if a.share == s.(finalizers := s.finalizers + [SHARE_FINALIZER]) && SHARE_FINALIZER !in s.finalizers {
          FinalizerPays(st, s);
        } else {
          FirstStepsInOrder(st, f, s, a.share);
          GroupingPays(st, st', s, a.share);
        }
      }
    }
  }

  // ----- all shares together -----

  function TotalDebt(st: State, names: seq<string>): (n: nat)
    requires forall n :: n in names ==> n in st.shares
    ensures n <= 24 * |names|
  {
    if names == [] then 0 else ShareDebt(st, st.shares[names[0]]) + TotalDebt(st, names[1..])
  }

  /** The weight for every share that is yet to name its PVC. */
  function NamingDebt(st: State, names: seq<string>, weight: nat): nat
    requires forall n :: n in names ==> n in st.shares
  {
    if names == [] then 0
    else (if Unnamed(st.shares[names[0]]) then weight else 0) + NamingDebt(st, names[1..], weight)
  }

  /** What the shares owe together; one that is yet to name its PVC may still cost each of them a look. */
  function GroupDebt(st: State, names: seq<string>): nat
    requires forall n :: n in names ==> n in st.shares
  {
    TotalDebt(st, names) + NamingDebt(st, names, |names|)
  }

  lemma {:induction false} NamingDebtBounded(st: State, names: seq<string>, weight: nat)
    requires forall n :: n in names ==> n in st.shares
    ensures NamingDebt(st, names, weight) <= |names| * weight
    ensures (forall n :: n in names ==> !Unnamed(st.shares[n])) ==> NamingDebt(st, names, weight) == 0
  {
    hide Unnamed;
    if names == [] {
    } else {
      NamingDebtBounded(st, names[1..], weight);
      assert |names| * weight == |names[1..]| * weight + weight;
    }
  }

  lemma GroupDebtBounded(st: State, names: seq<string>)
    requires forall n :: n in names ==> n in st.shares
    ensures GroupDebt(st, names) <= 24 * |names| + |names| * |names|
    ensures (forall n :: n in names ==> !Unnamed(st.shares[n])) ==> GroupDebt(st, names) <= 24 * |names|
  {
    hide NamingDebt, TotalDebt, Unnamed;
    NamingDebtBounded(st, names, |names|);
  }

  lemma {:induction false} TotalGoesDown(st: State, st': State, names: seq<string>, name: string, more: bool)
    requires NoDuplicates(names)
    requires forall n :: n in names ==> n in st.shares && n in st'.shares
    requires forall n :: n in names && n != name ==>
               ShareDebt(st', st'.shares[n]) <= ShareDebt(st, st.shares[n]) + One(more)
    requires name in names ==> ShareDebt(st', st'.shares[name]) < ShareDebt(st, st.shares[name])
    ensures TotalDebt(st', names) <= TotalDebt(st, names) + (if more then |names| else 0)
    ensures name in names ==> TotalDebt(st', names) < TotalDebt(st, names) + (if more then |names| else 0)
  {
    hide ShareDebt;
    if names == [] {
    } else {
      assert NoDuplicates(names[1..]) && names[0] !in names[1..];
      TotalGoesDown(st, st', names[1..], name, more);
    }
  }

  lemma {:induction false} NamingCounts(st: State, st': State, names: seq<string>, name: string, weight: nat)
    requires NoDuplicates(names)
    requires forall n :: n in names ==> n in st.shares && n in st'.shares
    requires forall n :: n in names && n != name ==> st'.shares[n] == st.shares[n]
    requires name in names ==>
               One(Unnamed(st'.shares[name])) + One(Names(st.shares[name], st'.shares[name])) ==
               One(Unnamed(st.shares[name]))
    ensures NamingDebt(st', names, weight) +
            (if name in names && Names(st.shares[name], st'.shares[name]) then weight else 0) ==
            NamingDebt(st, names, weight)
  {
    hide Unnamed, Names;
    if names == [] {
    } else {
      assert NoDuplicates(names[1..]) && names[0] !in names[1..];
      NamingCounts(st, st', names[1..], name, weight);
    }
  }

  lemma SavingKeepsConcord(s: Share, s': Share, t: Share)
    requires ShareEdit(s, s')
    ensures InConcord(s, t) ==> InConcord(s', t)
    ensures InConcord(t, s) ==> InConcord(t, s')
  {
    hide ShareEdit, GroupOf, ShareKey, Forced;
    SavingKeepsTraits(s, s');
    SavingKeepsForced(s, s');
  }

  /** How a pass changes its own live share. */
  lemma PassEdits(st: State, f: Faults, name: string)
    requires Keyed(st) && name in st.shares && !st.shares[name].deleting
    ensures name in Process(st, f, name).shares
    ensures var s' := Process(st, f, name).shares[name];
            s' == st.shares[name] || ShareEdit(st.shares[name], s')
  {
    hide Process, ShareEdit;
    PassOnOwnShare(st, f, name);
  }

  lemma PassKeepsConcord(st: State, f: Faults, names: seq<string>, name: string)
    requires Keyed(st) && Concord(st, names) && name in names
    ensures Concord(Process(st, f, name), names)
  {
    hide Process, InConcord, Contradicts, ShareEdit;
    var s, st' := st.shares[name], Process(st, f, name);
    PassOnShares(st, f, name);
    PassEdits(st, f, name);
    var s' := st'.shares[name];
    if s' != s {
      SavingKeepsConsistent(s, s');
      forall t: Share ensures (InConcord(s, t) ==> InConcord(s', t)) && (InConcord(t, s) ==> InConcord(t, s')) {
        SavingKeepsConcord(s, s', t);
      }
    }
  }

  lemma PassPaysForAll(st: State, f: Faults, names: seq<string>, name: string)
    requires Keyed(st) && Concord(st, names) && name in names
    requires ResultOf(Next(st, f, name)).Requeue?
    requires Concord(Process(st, f, name), names)
    ensures GroupDebt(Process(st, f, name), names) < GroupDebt(st, names)
  {
    hide Process, Next, ShareDebt, InConcord, Contradicts, Unnamed, ShareEdit;
    var s, st' := st.shares[name], Process(st, f, name);
    OwnPassPays(st, f, name);
    PassOnShares(st, f, name);
    PassEdits(st, f, name);
    var s' := st'.shares[name];
    var more := Names(s, s');
    if s' != s {
      SavingNames(s, s');
    }
    forall n | n in names && n != name
      ensures ShareDebt(st', st'.shares[n]) <= ShareDebt(st, st.shares[n]) + One(more)
    {
      PassCostsOthersNothing(st, f, name, n);
    }
    TotalGoesDown(st, st', names, name, more);
    NamingCounts(st, st', names, name, |names|);
  }

  /** The number of passes that asked to be called again. */
  function Requeues(st: State, es: seq<Event>): nat
    decreases |es|
  {
    if es == [] then 0
    else
      One(es[0].Pass? && ResultOf(Next(st, es[0].faults, es[0].name)).Requeue?) + Requeues(After(st, es[0]), es[1..])
  }

  /** A pass of a live share that is not requeued leaves the store alone. */
  lemma QuietPass(st: State, f: Faults, name: string)
    requires Keyed(st) && name in st.shares && !st.shares[name].deleting && !ResultOf(Next(st, f, name)).Requeue?
    ensures Process(st, f, name) == st
  {
    hide NextUpdate, ConfigEdit, ShareEdit, OwnKey, SharedKey, InitialFor;
    NextJustified(st, f, st.shares[name]);
  }

  lemma ConcordIsThere(st: State, names: seq<string>)
    requires Concord(st, names)
    ensures forall n :: n in names ==> n in st.shares && !st.shares[n].deleting
  {
  }

  /** However the passes of these shares are interleaved and whatever calls fail, at most as many of them are
      requeued as the shares owe together. */
  lemma {:induction false} GroupConverges(st: State, names: seq<string>, es: seq<Event>)
    requires Keyed(st) && Concord(st, names)
    requires forall i :: 0 <= i < |es| ==> es[i].Pass? && es[i].name in names
    ensures Concord(Run(st, es), names)
    ensures Requeues(st, es) + GroupDebt(Run(st, es), names) <= GroupDebt(st, names)
    ensures GroupDebt(st, names) <= 24 * |names| + |names| * |names|
    decreases |es|
  {
    hide Process, Next, Concord, GroupDebt, Keyed;
    ConcordIsThere(st, names);
    GroupDebtBounded(st, names);
    if es == [] {
    } else {
      var e, st' := es[0], After(st, es[0]);
      EventKeepsKeyed(st, e);
      PassKeepsConcord(st, e.faults, names, e.name);
      ConcordIsThere(st', names);
      if ResultOf(Next(st, e.faults, e.name)).Requeue? {
        PassPaysForAll(st, e.faults, names, e.name);
      } else {
        QuietPass(st, e.faults, e.name);
      }
      GroupConverges(st', names, es[1..]);
    }
  }
}
