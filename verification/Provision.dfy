/** What a share is provided with, in the terms of the cluster: the names, kinds and contents of its objects, and the
    order in which they come. */
module Provision {
  import opened Basics
  import opened SmbApi
  import opened ContainerConfig
  import opened Ownership
  import opened Cluster
  import opened Reconcile
  import opened Justification
  import opened Convergence
  import opened Panics
  import opened Readiness

  // ----- in literal terms -----

  predicate HasFinalizer(s: Share) {
    "samba-operator.samba.org/shareFinalizer" in s.finalizers
  }

  predicate WantsCluster(s: Share) {
    s.spec.scaling.Some? && s.spec.scaling.value.availabilityMode == "clustered"
  }

  /** The PVC the share brings along, under the name it gives or one made from its own. */
  function BroughtPvc(s: Share): Option<string> {
    if s.spec.pvc.Some? && s.spec.pvc.value.hasSpec
    then Some(if s.spec.pvc.value.name != "" then s.spec.pvc.value.name else s.name + "-pvc")
    else None
  }

  /** The objects a share has in common with its group: all three have the group's name. */
  predicate GroupObject(s: Share, k: ObjKey) {
    || k == ObjKey(ConfigMap, s.serverGroup)
    || k == ObjKey(Service, s.serverGroup)
    || k == ObjKey(if WantsCluster(s) then StatefulSet else Deployment, s.serverGroup)
  }

  predicate ShareObject(s: Share, k: ObjKey) {
    || GroupObject(s, k)
    || (WantsCluster(s) && k == ObjKey(Pvc, s.serverGroup + "-state"))
    || (BroughtPvc(s).Some? && k == ObjKey(Pvc, BroughtPvc(s).value))
  }

  /** A reference to the share, from the object it controls or from one it merely owns. */
  function RefTo(s: Share, inControl: bool): OwnerRef {
    OwnerRef(GroupVersion("samba-operator.samba.org", "v1alpha1"), "SmbShare", s.name, s.uid, inControl, inControl)
  }

  /** The object is there and a share of this name is one of its owners. */
  predicate OwnedUnder(st: State, k: ObjKey, name: string) {
    && k in st.objects
    && exists i :: 0 <= i < |st.objects[k].owners| &&
         var r := st.objects[k].owners[i];
         r.api.GroupVersion? && r.api.group == "samba-operator.samba.org" && r.kind == "SmbShare" && r.name == name
  }

  predicate BackendRecorded(s: Share) {
    && "samba-operator.samba.org/serverBackend" in s.annotations
    && s.annotations["samba-operator.samba.org/serverBackend"] ==
       if WantsCluster(s) then "clustered:ctdb/statefulset" else "standard:deployment"
  }

  predicate WorkloadUp(st: State, s: Share) {
    var k := ObjKey(if WantsCluster(s) then StatefulSet else Deployment, s.serverGroup);
    && OwnedUnder(st, k, s.name)
    && if WantsCluster(s) then Int32(s.spec.scaling.value.minClusterSize) <= st.objects[k].replicas
       else st.objects[k].replicas == 1
  }

  predicate PvcsMade(st: State, s: Share) {
    BroughtPvc(s).Some? ==> ObjKey(Pvc, BroughtPvc(s).value) in st.objects
  }

  predicate StateMade(st: State, s: Share) {
    WantsCluster(s) ==> ObjKey(Pvc, s.serverGroup + "-state") in st.objects
  }

  lemma OwnKeyIff(s: Share, k: ObjKey)
    ensures SharedKey(s, k) <==> GroupObject(s, k)
    ensures OwnKey(s, k) <==> ShareObject(s, k)
  {
  }

  lemma NamedIff(st: State, k: ObjKey, name: string)
    ensures k in st.objects ==> (NamesOwner(st.objects[k].owners, name) <==> OwnedUnder(st, k, name))
  {
  }

  // ----- the group a share asks for -----

  /** Once the finalizer is there, a share without a group gets its own name as its group if it asks for none, and
      the group it names if the mode is "explicit"; every other request is an error. */
  lemma RequestedGroup(st: State, f: Faults, s: Share)
    requires !s.deleting && HasFinalizer(s) && s.serverGroup == ""
    ensures var own := s.spec.scaling.None?
              || (s.spec.scaling.value.groupMode in {"never", ""} && s.spec.scaling.value.group == "");
            var named := s.spec.scaling.Some?
              && s.spec.scaling.value.groupMode == "explicit" && s.spec.scaling.value.group != "";
            NextUpdate(st, f, s) ==
            if (own || named) && UpdateStatus(s.name) !in f
            then SaveShare(s.(serverGroup := if own then s.name else s.spec.scaling.value.group))
            else Fail
  {
    hide ConfigMapStep, PvcStep, NextServer;
  }

  // ----- what a share is done with -----

  lemma RecordedIff(s: Share)
    ensures BackendRecorded(s) <==> Backend(s) == BackendFor(s.spec)
  {
  }

  /** An update that has nothing left to do has provided everything: in the store there are the group's ConfigMap,
      Service and workload, each owned by the share, the state PVC of a cluster and the PVC the share brings along. */
  lemma DoneProvides(st: State, f: Faults, s: Share)
    requires NextUpdate(st, f, s).Idle?
    ensures s.serverGroup != "" && HasFinalizer(s) && BackendRecorded(s)
    ensures OwnedUnder(st, ObjKey(ConfigMap, s.serverGroup), s.name)
    ensures OwnedUnder(st, ObjKey(Service, s.serverGroup), s.name)
    ensures WorkloadUp(st, s) && StateMade(st, s) && PvcsMade(st, s)
  {
    hide NextUpdate, NamesOwner, OwnedUnder, ServesShare, Int32;
    DoneIsSettled(st, f, s);
    RecordedIff(s);
    NamedIff(st, ObjKey(ConfigMap, s.serverGroup), s.name);
    NamedIff(st, ObjKey(Service, s.serverGroup), s.name);
    NamedIff(st, ObjKey(if WantsCluster(s) then StatefulSet else Deployment, s.serverGroup), s.name);
  }

  /** Two shares of one group that are both done own one and the same ConfigMap and Service; and one and the same
      workload if they are both clustered or both not. */
  lemma DoneTogether(st: State, f: Faults, g: Faults, s: Share, t: Share)
    requires NextUpdate(st, f, s).Idle? && NextUpdate(st, g, t).Idle? && s.serverGroup == t.serverGroup
    ensures forall k :: GroupObject(s, k) && GroupObject(t, k) ==>
              OwnedUnder(st, k, s.name) && OwnedUnder(st, k, t.name)
    ensures forall k: ObjKey :: k.kind in {ConfigMap, Service} ==> (GroupObject(s, k) <==> GroupObject(t, k))
    ensures (WantsCluster(s) <==> WantsCluster(t)) ==> forall k :: GroupObject(s, k) <==> GroupObject(t, k)
  {
    hide NextUpdate, OwnedUnder, BackendRecorded, StateMade, PvcsMade;
    DoneProvides(st, f, s);
    DoneProvides(st, g, t);
  }

  // ----- what a pass makes, claims and changes -----

  /** The object as it is made: under the share's control, with an empty configuration or the size it starts with. */
  predicate MadeFor(s: Share, k: ObjKey, o: Object) {
    && o.owners == [RefTo(s, true)]
    && o.data == (if k.kind == ConfigMap then Json(RawConfig(map[], map[], map[], map[], {})) else NoData)
    && (k.kind == Deployment ==> o.replicas == 1)
    && (k.kind == StatefulSet ==> WantsCluster(s) && o.replicas == Int32(s.spec.scaling.value.minClusterSize))
  }

  lemma ConfigMapMade(st: State, f: Faults, s: Share)
    ensures ConfigMapStep(st, f, s).Create? ==>
              forall k, o :: ConfigMapStep(st, f, s) == Create(k, o) ==> k == ConfigMapKey(s) && MadeFor(s, k, o)
  {
    hide ConfigStep, FindClaim;
    if ConfigMapKey(s) in st.objects {
      ConfigStepOnlySaves(st, f, s, ConfigMapKey(s), st.objects[ConfigMapKey(s)]);
    }
  }

  lemma ServerMade(st: State, f: Faults, s: Share)
    ensures forall k, o :: NextServer(st, f, s) == Create(k, o) ==> MadeFor(s, k, o)
  {
    hide FindClaim, Wanted, Int32;
  }

  lemma PvcMade(st: State, f: Faults, s: Share)
    ensures forall k, o :: PvcStep(st, f, s) == Create(k, o) ==> MadeFor(s, k, o)
  {
    hide PvcName;
  }

  lemma MadeAlike(s: Share, k: ObjKey, o: Object)
    ensures MadeFor(WithPvcName(s), k, o) <==> MadeFor(s, k, o)
  {
    hide PvcName, Int32;
  }

  /** Every object a pass makes is one of these, was not there before, and starts out like this. */
  lemma PassMakes(st: State, f: Faults, name: string, k: ObjKey, o: Object)
    requires Keyed(st) && Next(st, f, name) == Create(k, o)
    ensures name in st.shares && !st.shares[name].deleting && k !in st.objects
    ensures ShareObject(st.shares[name], k) && MadeFor(st.shares[name], k, o)
  {
    hide NextFinalize, ConfigMapStep, NextServer, OwnKey, ConfigEdit, ChooseGroup, PvcStep, MadeFor, InitialFor;
    var s := st.shares[name];
    NextJustified(st, f, s);
    OwnKeyIff(s, k);
    ConfigMapMade(st, f, s);
    ServerMade(st, f, WithPvcName(s));
    MadeAlike(s, k, o);
    PvcMade(st, f, s);
  }

  /** Only the group's objects are claimed, by a plain reference at the end, and only by a share none of them names. */
  lemma PassClaims(st: State, f: Faults, name: string, k: ObjKey)
    requires Keyed(st) && Next(st, f, name) == ClaimObject(k)
    ensures name in st.shares && GroupObject(st.shares[name], k) && k in st.objects && !OwnedUnder(st, k, name)
    ensures Process(st, f, name) ==
            Put(st, k, st.objects[k].(owners := st.objects[k].owners + [RefTo(st.shares[name], false)]))
  {
    hide NextFor, SharedKey, GroupObject, NamesOwner, OwnedUnder, OwnKey, ConfigEdit, ShareEdit, InitialFor,
         WellFormedRefs;
    var s := st.shares[name];
    NextJustified(st, f, s);
    assert NextFor(st, f, s) == ClaimObject(k);
    OwnKeyIff(s, k);
    NamedIff(st, k, name);
  }

  /** A StatefulSet is only ever grown, to the size the share asks for, and a Deployment set to one replica. */
  lemma PassResizes(st: State, f: Faults, name: string, k: ObjKey, n: int)
    requires Keyed(st) && Next(st, f, name) == Resize(k, n)
    ensures name in st.shares && k in st.objects
    ensures var s, before := st.shares[name], st.objects[k].replicas;
            && k == ObjKey(if WantsCluster(s) then StatefulSet else Deployment, s.serverGroup)
            && if WantsCluster(s) then before < n == Int32(s.spec.scaling.value.minClusterSize) else before != 1 == n
    ensures Process(st, f, name) == Put(st, k, st.objects[k].(replicas := n))
  {
    hide NextFor, SharedKey, NamesOwner, OwnKey, ConfigEdit, ShareEdit, InitialFor, WellFormedRefs, Int32;
    NextJustified(st, f, st.shares[name]);
    assert NextFor(st, f, st.shares[name]) == Resize(k, n);
  }

  /** A configuration is stored in the ConfigMap of the share's group and nowhere else. */
  lemma PassStores(st: State, f: Faults, name: string, k: ObjKey, c: Config)
    requires Keyed(st) && Next(st, f, name) == SaveConfig(k, c)
    ensures name in st.shares && k in st.objects && k == ObjKey(ConfigMap, st.shares[name].serverGroup)
    ensures Process(st, f, name) == Put(st, k, st.objects[k].(data := Json(c)))
  {
    hide NextFor, SharedKey, NamesOwner, OwnKey, ConfigEdit, ShareEdit, InitialFor, WellFormedRefs;
    NextJustified(st, f, st.shares[name]);
    assert NextFor(st, f, st.shares[name]) == SaveConfig(k, c);
  }

  lemma ServiceIsOwn(s: Share, k: ObjKey)
    requires ShareObject(s, k) && k != ServiceKey(s)
    ensures k.kind != Service
  {
  }

  /** What a departing share hands over is one of its objects, but never the Service. */
  lemma PassHandsOver(st: State, f: Faults, name: string, k: ObjKey, r: OwnerRef)
    requires Keyed(st) && Next(st, f, name) == Transfer(k, r)
    ensures name in st.shares && ShareObject(st.shares[name], k) && k.kind != Service
  {
    hide NextFor, SharedKey, NamesOwner, OwnKey, ConfigEdit, ShareEdit, InitialFor, WellFormedRefs, HasController,
         ShareRefs, Excluding, ShareObject;
    NextJustified(st, f, st.shares[name]);
    assert NextFor(st, f, st.shares[name]) == Transfer(k, r);
    OwnKeyIff(st.shares[name], k);
    ServiceIsOwn(st.shares[name], k);
  }

  /** The three ways a live share is saved: with the finalizer, with the group it asks for, and with the backend of its
      mode together with the name of the PVC it brings along. */
  lemma PassSaves(st: State, f: Faults, name: string, s': Share)
    requires Keyed(st) && Next(st, f, name) == SaveShare(s')
    ensures name in st.shares && !st.shares[name].deleting
    ensures var s := st.shares[name];
            if !HasFinalizer(s) then
              s' == s.(finalizers := s.finalizers + ["samba-operator.samba.org/shareFinalizer"])
            else if s.serverGroup == "" then
              s' == s.(serverGroup := if s.spec.scaling.Some? && s.spec.scaling.value.groupMode == "explicit"
                                      then s.spec.scaling.value.group else name)
            else
              var backend := if WantsCluster(s) then "clustered:ctdb/statefulset" else "standard:deployment";
              s' == s.(annotations := s.annotations["samba-operator.samba.org/serverBackend" := backend],
                       spec := if BroughtPvc(s).None? then s.spec
                               else s.spec.(pvc := Some(s.spec.pvc.value.(name := BroughtPvc(s).value))))
  {
    hide ConfigMapStep, PvcStep, NextServer, NextFinalize, ConfigEdit, OwnKey, InitialFor, ShareEdit;
    var s := st.shares[name];
    NextJustified(st, f, s);
    if HasFinalizer(s) && s.serverGroup == "" {
      RequestedGroup(st, f, s);
    } else if HasFinalizer(s) {
      NamedWhenConfigured(st, f, s, s');
    }
  }

  // ----- in which order -----

  /** What the action is about: the kind of the object it makes, claims or changes. */
  function Target(a: Action): Option<Kind> {
    match a
    case Create(k, _) => Some(k.kind)
    case ClaimObject(k) => Some(k.kind)
    case Transfer(k, _) => Some(k.kind)
    case SaveConfig(k, _) => Some(k.kind)
    case Resize(k, _) => Some(k.kind)
    case _ => None
  }

  lemma ConfigMapTargets(st: State, f: Faults, s: Share)
    ensures var a := ConfigMapStep(st, f, s);
            && (a.Idle? || a.Fail? || a.Crash? ||
                ((a.Create? || a.ClaimObject? || a.SaveConfig?) && Target(a) == Some(ConfigMap)))
            && (a.SaveConfig? ==> OwnedUnder(st, ObjKey(ConfigMap, s.serverGroup), s.name))
  {
    hide ConfigStep, FindClaim, NamesOwner, OwnedUnder, New, Reload;
    NamedIff(st, ConfigMapKey(s), s.name);
    if ConfigMapKey(s) in st.objects {
      ConfigStepOnlySaves(st, f, s, ConfigMapKey(s), st.objects[ConfigMapKey(s)]);
      FindClaimMeans(st.objects[ConfigMapKey(s)].owners, s.name);
    }
  }

  lemma ServerTargets(st: State, f: Faults, s: Share)
    ensures var a := NextServer(st, f, s);
            && (a.Idle? || a.Fail? || a.Crash? || a.SaveShare? || a.Create? || a.ClaimObject? || a.Resize?)
            && (a.SaveShare? ==> Backend(s) == "")
            && (Target(a).Some? ==> BackendRecorded(s) && Target(a).value in {Pvc, Deployment, StatefulSet, Service})
            && (Target(a) in {Some(Deployment), Some(StatefulSet)} ==> StateMade(st, s))
            && (Target(a) == Some(Service) ==> StateMade(st, s) && WorkloadUp(st, s))
  {
    hide FindClaim, NamesOwner, OwnedUnder, Int32, Backend, BackendFor;
    RecordedIff(s);
    NamedIff(st, WorkloadKey(s), s.name);
    if WorkloadKey(s) in st.objects {
      FindClaimMeans(st.objects[WorkloadKey(s)].owners, s.name);
    }
  }

  lemma AsNamed(st: State, s: Share)
    ensures var n := WithPvcName(s);
            && (BackendRecorded(n) <==> BackendRecorded(s)) && (StateMade(st, n) <==> StateMade(st, s))
            && (WorkloadUp(st, n) <==> WorkloadUp(st, s)) && Backend(n) == Backend(s)
  {
    hide PvcName, Int32, OwnedUnder;
  }

  lemma PvcsMadeIff(st: State, f: Faults, s: Share)
    ensures PvcStep(st, f, s).Idle? ==> PvcsMade(st, s)
    ensures var a := PvcStep(st, f, s);
            a.Idle? || a.Fail? || (a.Create? && Target(a) == Some(Pvc))
  {
  }

  lemma PvcMakesMissing(st: State, f: Faults, s: Share)
    ensures Target(PvcStep(st, f, s)).Some? ==> !PvcsMade(st, s)
  {
  }

  lemma SavingTargetsNothing()
    ensures forall a: Action :: Target(a).Some? <==>
              a.Create? || a.ClaimObject? || a.Transfer? || a.SaveConfig? || a.Resize?
  {
  }

  /** The steps come in this order: the finalizer, the group, the ConfigMap and its configuration, the PVC, the
      backend, the state PVC, the workload, the Service. What an action is about comes after all of these before it
      are in place. */
  lemma UpdateInOrder(st: State, f: Faults, s: Share)
    requires !s.deleting
    ensures var a := NextUpdate(st, f, s);
            a.Idle? || a.Fail? || a.Crash? || a.SaveShare? || a.Create? || a.ClaimObject? || a.SaveConfig? || a.Resize?
    ensures var on := Target(NextUpdate(st, f, s));
            && (on.Some? ==> HasFinalizer(s) && s.serverGroup != "")
            && (on.Some? && on != Some(ConfigMap) ==> ConfigInOrder(st, f, s))
            && (on == Some(Pvc) && PvcsMade(st, s) ==> BackendRecorded(s))
            && (on in {Some(Deployment), Some(StatefulSet), Some(Service)} ==>
                  PvcsMade(st, s) && BackendRecorded(s) && StateMade(st, s))
            && (on == Some(Service) ==> WorkloadUp(st, s))
    ensures NextUpdate(st, f, s).SaveConfig? ==> OwnedUnder(st, ObjKey(ConfigMap, s.serverGroup), s.name)
    ensures NextUpdate(st, f, s).SaveShare? && HasFinalizer(s) && s.serverGroup != "" ==>
              ConfigInOrder(st, f, s) && PvcsMade(st, s) && Backend(s) == ""
  {
    hide ConfigMapStep, NextServer, PvcStep, ConfigInOrder, ChooseGroup, OwnedUnder, WorkloadUp, BackendRecorded,
         Backend, StateMade, Target;
    ConfigStepExactly(st, f, s);
    ConfigMapTargets(st, f, s);
    ServerTargets(st, f, WithPvcName(s));
    AsNamed(st, s);
    PvcsMadeIff(st, f, s);
    PvcMakesMissing(st, f, s);
    SavingTargetsNothing();
  }
}
