/** Repeated passes on one live share settle: every requeued pass pays off part of a finite debt. */
module Convergence {
  import opened Basics
  import opened SmbApi
  import opened ContainerConfig
  import opened Ownership
  import opened Planning
  import opened PlannerTheorems
  import opened Cluster
  import opened Reconcile
  import opened Justification
  import opened Runs

  function One(b: bool): nat {
    if b then 1 else 0
  }

  /** The stored configuration does not serve the share yet, or cannot be told to. */
  predicate ConfigOwed(st: State, s: Share) {
    var ic := FetchInstance(st, {}, s);
    ConfigMapKey(s) !in st.objects ||
    var c := LoadConfig(st.objects[ConfigMapKey(s)].data);
    c.None? || ic.None? || UpdatePanics(ic.value, c.value) || Updated(ic.value, c.value) != c.value
  }

  predicate Missing(st: State, k: ObjKey) {
    k !in st.objects
  }

  predicate Unclaimed(st: State, s: Share, k: ObjKey) {
    k !in st.objects || !NamesOwner(st.objects[k].owners, s.name)
  }

  predicate WrongSize(st: State, s: Share) {
    WorkloadKey(s) !in st.objects ||
    Wanted(s, st.objects[WorkloadKey(s)].replicas) != st.objects[WorkloadKey(s)].replicas
  }

  function ConfigDebt(st: State, s: Share): nat {
    One(Missing(st, ConfigMapKey(s))) + One(Unclaimed(st, s, ConfigMapKey(s))) + One(ConfigOwed(st, s))
  }

  function PvcDebt(st: State, s: Share): nat {
    One(NeedsPvc(s) && Missing(st, DataPvcKey(s))) + One(Clustered(s.spec) && Missing(st, StatePvcKey(s)))
  }

  function WorkloadDebt(st: State, s: Share): nat {
    One(Missing(st, WorkloadKey(s))) + One(Unclaimed(st, s, WorkloadKey(s))) + One(WrongSize(st, s))
  }

  function ServiceDebt(st: State, s: Share): nat {
    One(Missing(st, ServiceKey(s))) + One(Unclaimed(st, s, ServiceKey(s)))
  }

  function ObjectDebt(st: State, s: Share): (n: nat)
    ensures n <= 10
  {
    ConfigDebt(st, s) + PvcDebt(st, s) + WorkloadDebt(st, s) + ServiceDebt(st, s)
  }

  /** What is still to be done for the share; giving it a group may reveal ten tasks at once. */
  function Debt(st: State, s: Share): (n: nat)
    ensures n <= 24
  {
    One(SHARE_FINALIZER !in s.finalizers) + (if s.serverGroup == "" then 12 else 0)
    + One(Backend(s) == "") + ObjectDebt(st, s)
  }

  /** A planner sees no difference between these shares. */
  predicate PlannedAlike(s: Share, s': Share) {
    && s'.name == s.name && s'.uid == s.uid && s'.serverGroup == s.serverGroup
    && (s'.spec == s.spec || s'.spec == WithPvcName(s).spec)
  }

  lemma PlannedAlikeNames(ic: Instance, s': Share)
    requires PlannedAlike(ic.share, s')
    ensures var ic' := ic.(share := s');
            && ic'.ShareName() == ic.ShareName() && ic'.InstanceName() == ic.InstanceName()
            && NewSection(ic') == NewSection(ic)
            && (ic'.share.spec.pvc.Some? <==> ic.share.spec.pvc.Some?)
            && (ic.share.spec.pvc.Some? ==> ic'.SharePath() == ic.SharePath())
            && CustomOptions(s'.spec.custom) == CustomOptions(ic.share.spec.custom)
            && SpecOptions(s'.spec) == SpecOptions(ic.share.spec)
            && (ic.security.Some? ==> RealmOptions(ic') == RealmOptions(ic))
  {
  }

  lemma PlannedAlikeUpdates(ic: Instance, s': Share, c: Config)
    requires PlannedAlike(ic.share, s')
    ensures UpdatePanics(ic.(share := s'), c) <==> UpdatePanics(ic, c)
    ensures !UpdatePanics(ic, c) ==> Updated(ic.(share := s'), c) == Updated(ic, c)
  {
    hide PlannedAlike, NewSection, CustomOptions, SpecOptions, RealmOptions, Merge;
    PlannedAlikeNames(ic, s');
  }

  lemma PlannedAlikeOwes(st: State, s: Share, s': Share)
    requires PlannedAlike(s, s')
    ensures ConfigOwed(st, s') <==> ConfigOwed(st, s)
  {
    hide UpdatePanics, Updated, LoadConfig, Contradicts, PvcName;
    var ic := FetchInstance(st, {}, s);
    if ic.Some? && ConfigMapKey(s) in st.objects {
      FetchInstanceOf(st, {}, s);
      var c := LoadConfig(st.objects[ConfigMapKey(s)].data);
      if c.Some? {
        PlannedAlikeUpdates(ic.value, s', c.value);
      }
    }
  }

  lemma AlikeAfterEdit(s: Share, s': Share)
    requires ShareEdit(s, s') && s'.serverGroup == s.serverGroup
    ensures PlannedAlike(s, s')
  {
  }

  lemma AlikeKeys(s: Share, s': Share)
    requires PlannedAlike(s, s')
    ensures NeedsPvc(s') <==> NeedsPvc(s)
    ensures NeedsPvc(s) ==> PvcName(s') == PvcName(s)
    ensures Clustered(s'.spec) <==> Clustered(s.spec)
    ensures forall n :: Wanted(s', n) == Wanted(s, n)
  {
  }

  lemma AlikeOwesSame(st: State, s: Share, s': Share)
    requires PlannedAlike(s, s')
    ensures ObjectDebt(st, s') == ObjectDebt(st, s)
  {
    hide ConfigOwed, NamesOwner, Wanted, PvcName;
    PlannedAlikeOwes(st, s, s');
    AlikeKeys(s, s');
  }

  /** Saving the share lowers its debt. */
  lemma SavingPays(st: State, s: Share, s': Share)
    requires ShareEdit(s, s') && s.name != ""
    ensures Debt(st, s') < Debt(st, s)
  {
    hide ObjectDebt, PvcName;
    if s'.serverGroup == s.serverGroup {
      AlikeAfterEdit(s, s');
      AlikeOwesSame(st, s, s');
    }
  }

  /** The debt on the configuration depends on the ConfigMap's data and the configurations alone. */
  lemma OwedSame(st: State, st': State, s: Share)
    requires st'.operator == st.operator && st'.securities == st.securities && st'.commons == st.commons
    requires var k := ConfigMapKey(s);
             k in st.objects && k in st'.objects && st'.objects[k].data == st.objects[k].data
    ensures ConfigOwed(st', s) <==> ConfigOwed(st, s)
  {
  }

  lemma CreatingConfig(st: State, s: Share, k: ObjKey, o: Object)
    requires k !in st.objects
    ensures ConfigDebt(Put(st, k, o), s) <= ConfigDebt(st, s)
    ensures k == ConfigMapKey(s) ==> ConfigDebt(Put(st, k, o), s) < ConfigDebt(st, s)
  {
  }

  lemma CreatingRest(st: State, s: Share, k: ObjKey, o: Object)
    requires k !in st.objects
    ensures PvcDebt(Put(st, k, o), s) + WorkloadDebt(Put(st, k, o), s) + ServiceDebt(Put(st, k, o), s)
            <= PvcDebt(st, s) + WorkloadDebt(st, s) + ServiceDebt(st, s)
    ensures OwnKey(s, k) && k != ConfigMapKey(s) ==>
            PvcDebt(Put(st, k, o), s) + WorkloadDebt(Put(st, k, o), s) + ServiceDebt(Put(st, k, o), s)
            < PvcDebt(st, s) + WorkloadDebt(st, s) + ServiceDebt(st, s)
  {
    hide NamesOwner, Wanted, PvcName;
  }

  lemma CreatingPays(st: State, s: Share, k: ObjKey, o: Object)
    requires k !in st.objects && OwnKey(s, k)
    ensures ObjectDebt(Put(st, k, o), s) < ObjectDebt(st, s)
  {
    hide ConfigDebt, PvcDebt, WorkloadDebt, ServiceDebt, OwnKey;
    CreatingConfig(st, s, k, o);
    CreatingRest(st, s, k, o);
  }

  lemma NoConfigMapOwes(st: State, s: Share)
    ensures ConfigMapKey(s) !in st.objects ==> ConfigOwed(st, s)
  {
  }

  lemma AppendedIsNamed(refs: seq<OwnerRef>, s: Share)
    ensures NamesOwner(refs + [ShareRef(s.name, s.uid, false)], s.name)
  {
    var refs' := refs + [ShareRef(s.name, s.uid, false)];
    assert IsShareRef(refs'[|refs|]) && refs'[|refs|].name == s.name;
  }

  lemma ClaimingPays(st: State, s: Share, k: ObjKey)
    requires k in st.objects && SharedKey(s, k) && !NamesOwner(st.objects[k].owners, s.name)
    ensures ObjectDebt(Apply(st, s, ClaimObject(k)), s) < ObjectDebt(st, s)
  {
    hide ConfigOwed, Wanted, PvcName, NamesOwner, FetchInstance;
    var st' := Apply(st, s, ClaimObject(k));
    AppendedIsNamed(st.objects[k].owners, s);
    NoConfigMapOwes(st, s);
    NoConfigMapOwes(st', s);
    if ConfigMapKey(s) in st.objects {
      OwedSame(st, st', s);
    }
    assert ConfigDebt(st', s) == ConfigDebt(st, s) - One(k == ConfigMapKey(s));
    assert WorkloadDebt(st', s) == WorkloadDebt(st, s) - One(k == WorkloadKey(s));
    assert ServiceDebt(st', s) == ServiceDebt(st, s) - One(k == ServiceKey(s));
    assert PvcDebt(st', s) == PvcDebt(st, s);
  }

  lemma ResizingPays(st: State, s: Share, n: int)
    requires WorkloadKey(s) in st.objects
    requires n == Wanted(s, st.objects[WorkloadKey(s)].replicas) && n != st.objects[WorkloadKey(s)].replicas
    ensures ObjectDebt(Apply(st, s, Resize(WorkloadKey(s), n)), s) < ObjectDebt(st, s)
  {
    hide ConfigOwed, PvcName, NamesOwner, Int32;
    var st' := Apply(st, s, Resize(WorkloadKey(s), n));
    assert Wanted(s, n) == n;
    NoConfigMapOwes(st, s);
    if ConfigMapKey(s) in st.objects {
      OwedSame(st, st', s);
    }
  }

  lemma FaultlessInstance(st: State, f: Faults, s: Share)
    requires FetchInstance(st, f, s).Some?
    ensures FetchInstance(st, {}, s) == FetchInstance(st, f, s)
  {
  }

  lemma LoadedData(st: State, s: Share, c: Config)
    requires ConfigMapKey(s) in st.objects
    ensures var k, st' := ConfigMapKey(s), Apply(st, s, SaveConfig(ConfigMapKey(s), c));
            && k in st'.objects && LoadConfig(st'.objects[k].data) == Some(c)
            && FetchInstance(st', {}, s) == FetchInstance(st, {}, s)
  {
  }

  /** Storing a configuration settles it, whatever was stored before: updating it again changes nothing. */
  lemma StoringSettles(st: State, f: Faults, s: Share, c: Config)
    requires !s.deleting && ConfigMapKey(s) in st.objects
    requires ConfigEdit(st, f, s, st.objects[ConfigMapKey(s)], c) && !Contradicts(s.spec)
    ensures ConfigOwed(st, s) && !ConfigOwed(Apply(st, s, SaveConfig(ConfigMapKey(s), c)), s)
  {
    hide UpdatePanics, Updated, Reload, Contradicts, PeerStep, WellFormedRefs, FetchInstance, LoadConfig, Apply;
    FaultlessInstance(st, f, s);
    LoadedData(st, s, c);
    StoredAgain(FetchInstance(st, f, s).value, LoadConfig(st.objects[ConfigMapKey(s)].data).value);
  }

  /** Storing a configuration changes no debt but the one on the configuration. */
  lemma StoringOnTheRest(st: State, s: Share, t: Share, c: Config)
    requires ConfigMapKey(s) in st.objects
    ensures var st' := Apply(st, s, SaveConfig(ConfigMapKey(s), c));
            && WorkloadDebt(st', t) == WorkloadDebt(st, t) && ServiceDebt(st', t) == ServiceDebt(st, t)
            && PvcDebt(st', t) == PvcDebt(st, t)
            && (Missing(st', ConfigMapKey(t)) <==> Missing(st, ConfigMapKey(t)))
            && (Unclaimed(st', t, ConfigMapKey(t)) <==> Unclaimed(st, t, ConfigMapKey(t)))
  {
    hide PvcName, NamesOwner, Wanted;
  }

  lemma StoringPays(st: State, f: Faults, s: Share, c: Config)
    requires !s.deleting && ConfigMapKey(s) in st.objects
    requires ConfigEdit(st, f, s, st.objects[ConfigMapKey(s)], c) && !Contradicts(s.spec)
    ensures ObjectDebt(Apply(st, s, SaveConfig(ConfigMapKey(s), c)), s) < ObjectDebt(st, s)
  {
    hide ConfigOwed, PvcName, NamesOwner, Wanted, ConfigEdit, Contradicts;
    StoringSettles(st, f, s, c);
    StoringOnTheRest(st, s, s, c);
    hide FetchInstance, Updated, Reload, WorkloadDebt, ServiceDebt, PvcDebt;
  }

  lemma SavingKeepsConsistent(s: Share, s': Share)
    requires ShareEdit(s, s') && !Contradicts(s.spec)
    ensures !Contradicts(s'.spec)
  {
  }

  lemma SharesDoNotOwe(st: State, st': State, s: Share)
    requires st' == st.(shares := st'.shares)
    ensures ObjectDebt(st', s) == ObjectDebt(st, s)
  {
    hide Updated, UpdatePanics, LoadConfig, NamesOwner, Wanted;
    assert FetchInstance(st', {}, s) == FetchInstance(st, {}, s);
    assert ConfigOwed(st', s) <==> ConfigOwed(st, s);
  }

  /** Every requeued pass on a live share lowers its debt, whatever calls fail. */
  lemma PassPays(st: State, f: Faults, name: string)
    requires Keyed(st) && name in st.shares
    requires !st.shares[name].deleting && !Contradicts(st.shares[name].spec)
    requires ResultOf(Next(st, f, name)).Requeue?
    ensures name in Process(st, f, name).shares
    ensures Debt(Process(st, f, name), Process(st, f, name).shares[name]) < Debt(st, st.shares[name])
    ensures !Process(st, f, name).shares[name].deleting
    ensures !Contradicts(Process(st, f, name).shares[name].spec)
  {
    hide NextFor, ConfigEdit, ShareEdit, OwnKey, SharedKey, InitialFor, NamesOwner, WellFormedRefs, HasController,
         Wanted, ShareRefs, Excluding, ObjectDebt, Contradicts;
    var s := st.shares[name];
    NextJustified(st, f, s);
    var a := NextFor(st, f, s);
    assert Next(st, f, name) == a;
    match a
    case SaveShare(s') =>
      SavingPays(st, s, s');
      SavingKeepsConsistent(s, s');
      ShareEditKeepsShare(s, s');
      SharesDoNotOwe(st, Process(st, f, name), s');
    case Create(k, o) => CreatingPays(st, s, k, o);
    case ClaimObject(k) => ClaimingPays(st, s, k);
    case SaveConfig(k, c) => StoringPays(st, f, s, c);
    case Resize(k, n) => ResizingPays(st, s, n);
    case _ =>
  }

  // ----- repeated passes -----

  function Passes(st: State, faults: seq<Faults>, name: string): State
    decreases |faults|
  {
    if faults == [] then st else Passes(Process(st, faults[0], name), faults[1..], name)
  }

  lemma ProcessKeepsKeyed(st: State, f: Faults, name: string)
    requires Keyed(st)
    ensures Keyed(Process(st, f, name))
  {
    hide Process;
    EventKeepsKeyed(st, Pass(name, f));
  }

  /** Twenty-five passes in a row cannot all be requeued: some pass is Done, fails or panics, and the
      number of passes before it is at most the share's debt. */
  lemma {:induction false} PassesConverge(st: State, faults: seq<Faults>, name: string)
    requires Keyed(st) && name in st.shares
    requires !st.shares[name].deleting && !Contradicts(st.shares[name].spec)
    requires |faults| > Debt(st, st.shares[name])
    ensures exists i :: 0 <= i <= Debt(st, st.shares[name]) &&
              !ResultOf(Next(Passes(st, faults[..i], name), faults[i], name)).Requeue?
    decreases |faults|
  {
    hide Process, Next, Debt, Contradicts, Keyed;
    var n := Debt(st, st.shares[name]);
    assert faults[..0] == [];
    if ResultOf(Next(st, faults[0], name)).Requeue? {
      var st' := Process(st, faults[0], name);
      PassPays(st, faults[0], name);
      ProcessKeepsKeyed(st, faults[0], name);
      PassesConverge(st', faults[1..], name);
      var j :| 0 <= j <= Debt(st', st'.shares[name]) &&
               !ResultOf(Next(Passes(st', faults[1..][..j], name), faults[1..][j], name)).Requeue?;
      assert faults[..j + 1][0] == faults[0] && faults[..j + 1][1..] == faults[1..][..j];
      assert Passes(st, faults[..j + 1], name) == Passes(st', faults[1..][..j], name);
      assert !ResultOf(Next(Passes(st, faults[..j + 1], name), faults[j + 1], name)).Requeue?;
    } else {
      assert Passes(st, faults[..0], name) == st;
    }
  }

  // ----- what Done means -----

  /** The configuration exports the share, with its custom options and the spec's own last. */
  predicate ServesShare(c: Config, s: Share) {
    var key := if s.spec.shareName != "" then s.spec.shareName else s.name;
    && key in c.shares && c.shares[key].Opts?
    && (forall o :: o in SpecOptions(s.spec) ==>
          o in c.shares[key].entries && c.shares[key].entries[o] == SpecOptions(s.spec)[o])
    && (forall o :: o in CustomOptions(s.spec.custom) && o !in SpecOptions(s.spec) ==>
          o in c.shares[key].entries && c.shares[key].entries[o] == CustomOptions(s.spec.custom)[o])
    && s.serverGroup in c.configs && key in c.configs[s.serverGroup].shares
    && GLOBALS in c.globals && c.users != map[]
  }

  /** The globals have every custom option that the share's common configuration enables. */
  ghost predicate GlobalsServed(st: State, s: Share, c: Config) {
    s.spec.commonConfig != "" ==>
      && s.spec.commonConfig in st.commons
      && var custom := st.commons[s.spec.commonConfig].custom;
         custom.Some? && custom.value.useUnsafe ==>
           && "globals" in c.globals
           && forall o :: o in custom.value.configs ==>
                && o in c.globals["globals"].Entries()
                && c.globals["globals"].Entries()[o] == custom.value.configs[o]
  }

  /** The share is fully set up: everything the operator is to provide for it is in the store. */
  ghost predicate Settled(st: State, s: Share) {
    var cm, w := ConfigMapKey(s), WorkloadKey(s);
    && SHARE_FINALIZER in s.finalizers && s.serverGroup != "" && Backend(s) == BackendFor(s.spec)
    && !Unclaimed(st, s, cm) && !Unclaimed(st, s, w) && !Unclaimed(st, s, ServiceKey(s))
    && (NeedsPvc(s) ==> DataPvcKey(s) in st.objects)
    && (Clustered(s.spec) ==> StatePvcKey(s) in st.objects)
    && (if Clustered(s.spec)
        then Int32(s.spec.scaling.value.minClusterSize) <= st.objects[w].replicas
        else st.objects[w].replicas == 1)
    && var c := LoadConfig(st.objects[cm].data);
       c.Some? && ServesShare(c.value, s) && GlobalsServed(st, s, c.value)
  }

  lemma FixpointServes(ic: Instance, c: Config)
    requires !UpdatePanics(ic, c) && Updated(ic, c) == c
    ensures ServesShare(c, ic.share)
  {
    assert c.configs[ic.InstanceName()] == UpdatedSection(ic, c.configs);
    assert "all_entries" in NewDefaultUsers();
  }

  lemma FixpointGlobals(ic: Instance, c: Config, o: string)
    requires !UpdatePanics(ic, c) && Updated(ic, c) == c && o in CustomGlobal(ic)
    ensures "globals" in c.globals
    ensures o in c.globals["globals"].Entries() && c.globals["globals"].Entries()[o] == CustomGlobal(ic)[o]
  {
    hide UpdatedShares, UpdatedSection, RealmOptions, CustomGlobal;
    assert c.globals == UpdatedGlobals(ic, c.globals);
  }

  lemma DoneGlobals(st: State, f: Faults, s: Share, c: Config)
    requires FetchInstance(st, f, s).Some?
    requires !UpdatePanics(FetchInstance(st, f, s).value, c) && Updated(FetchInstance(st, f, s).value, c) == c
    ensures GlobalsServed(st, s, c)
  {
    hide UpdatePanics, Updated;
    var ic := FetchInstance(st, f, s).value;
    FixpointServes(ic, c);
    forall o | o in CustomGlobal(ic)
      ensures "globals" in c.globals
      ensures o in c.globals["globals"].Entries() && c.globals["globals"].Entries()[o] == CustomGlobal(ic)[o]
    {
      FixpointGlobals(ic, c, o);
    }
  }

  lemma DoneConfigServes(st: State, f: Faults, s: Share)
    requires ConfigMapStep(st, f, s).Idle?
    ensures ConfigMapKey(s) in st.objects && LoadConfig(st.objects[ConfigMapKey(s)].data).Some?
    ensures ServesShare(LoadConfig(st.objects[ConfigMapKey(s)].data).value, s)
    ensures GlobalsServed(st, s, LoadConfig(st.objects[ConfigMapKey(s)].data).value)
  {
    hide UpdatePanics, Updated, Contradicts, LoadConfig, FetchInstance, PeerStep, ServesShare, GlobalsServed,
         FindClaim, WellFormedRefs, ShareRefs, Excluding;
    var ic := FetchInstance(st, f, s);
    FetchInstanceOf(st, f, s);
    FixpointServes(ic.value, LoadConfig(st.objects[ConfigMapKey(s)].data).value);
    DoneGlobals(st, f, s, LoadConfig(st.objects[ConfigMapKey(s)].data).value);
  }

  lemma DoneServer(st: State, f: Faults, s: Share)
    requires NextServer(st, f, s).Idle?
    ensures WorkloadKey(s) in st.objects && ServiceKey(s) in st.objects
    ensures Backend(s) == BackendFor(s.spec)
    ensures Clustered(s.spec) ==> StatePvcKey(s) in st.objects
    ensures Wanted(s, st.objects[WorkloadKey(s)].replicas) == st.objects[WorkloadKey(s)].replicas
    ensures !Unclaimed(st, s, WorkloadKey(s)) && !Unclaimed(st, s, ServiceKey(s))
  {
    hide FindClaim, NamesOwner, Wanted;
    if WorkloadKey(s) in st.objects {
      FindClaimMeans(st.objects[WorkloadKey(s)].owners, s.name);
    }
    if ServiceKey(s) in st.objects {
      FindClaimMeans(st.objects[ServiceKey(s)].owners, s.name);
    }
  }

  lemma ConfigMapClaimed(st: State, f: Faults, s: Share)
    requires ConfigMapStep(st, f, s).Idle?
    ensures !Unclaimed(st, s, ConfigMapKey(s))
  {
    hide ConfigStep, FindClaim, NamesOwner;
    if ConfigMapKey(s) in st.objects {
      FindClaimMeans(st.objects[ConfigMapKey(s)].owners, s.name);
    }
  }

  /** An update pass that reports Done leaves nothing to be set up. */
  lemma DoneIsSettled(st: State, f: Faults, s: Share)
    requires NextUpdate(st, f, s).Idle?
    ensures Settled(st, s)
  {
    hide ConfigMapStep, NextServer, NamesOwner, LoadConfig, ServesShare, GlobalsServed, Int32, PvcName;
    DoneConfigServes(st, f, s);
    DoneServer(st, f, WithPvcName(s));
    ConfigMapClaimed(st, f, s);
    assert ServiceKey(WithPvcName(s)) == ServiceKey(s);
    assert WorkloadKey(WithPvcName(s)) == WorkloadKey(s);
  }

  lemma QuietFetch(st: State, f: Faults, g: Faults, s: Share)
    requires FetchInstance(st, f, s).Some?
    ensures FetchInstance(st, g, s).Some? ==> FetchInstance(st, g, s) == FetchInstance(st, f, s)
    ensures g <= f ==> FetchInstance(st, g, s).Some?
  {
  }

  lemma QuietPeer(st: State, f: Faults, g: Faults, ic: Instance, others: seq<OwnerRef>)
    requires PeerStep(st, f, ic, others).Idle?
    ensures PeerStep(st, g, ic, others).Idle? || PeerStep(st, g, ic, others).Fail?
    ensures g <= f ==> PeerStep(st, g, ic, others).Idle?
  {
  }

  lemma QuietConfig(st: State, f: Faults, g: Faults, s: Share)
    requires ConfigMapStep(st, f, s).Idle?
    ensures ConfigMapStep(st, g, s).Idle? || ConfigMapStep(st, g, s).Fail?
    ensures g <= f ==> ConfigMapStep(st, g, s).Idle?
  {
    hide UpdatePanics, Updated, Contradicts, LoadConfig, FindClaim, WellFormedRefs, ShareRefs, Excluding, PeerStep,
         FetchInstance;
    var cm := st.objects[ConfigMapKey(s)];
    QuietFetch(st, f, g, s);
    QuietPeer(st, f, g, FetchInstance(st, f, s).value, Excluding(ShareRefs(cm.owners), s.name, s.uid));
  }

  lemma QuietServer(st: State, f: Faults, g: Faults, s: Share)
    requires NextServer(st, f, s).Idle?
    ensures NextServer(st, g, s).Idle? || NextServer(st, g, s).Fail?
    ensures g <= f ==> NextServer(st, g, s).Idle?
  {
  }

  /** Done is quiet: whatever calls fail in a further pass, it writes nothing, and it is Done again unless
      a call fails that did not fail before. */
  lemma DoneIsQuiet(st: State, f: Faults, g: Faults, name: string)
    requires name in st.shares && !st.shares[name].deleting
    requires Next(st, f, name).Idle?
    ensures Process(st, g, name) == st
    ensures Next(st, g, name).Idle? || Next(st, g, name).Fail?
    ensures g <= f ==> Next(st, g, name).Idle?
  {
    hide ConfigMapStep, NextServer, ChooseGroup, PvcName;
    var s := st.shares[name];
    QuietConfig(st, f, g, s);
    QuietServer(st, f, g, WithPvcName(s));
  }

  /** An enabled custom option that contradicts the spec keeps every update pass from reporting Done. */
  lemma ContradictionNeverDone(st: State, f: Faults, s: Share)
    requires Contradicts(s.spec)
    ensures !NextUpdate(st, f, s).Idle?
  {
  }
}
