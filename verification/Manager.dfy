/** The share manager: its passes run against the store and do what Reconcile decides. */
module Manager {
  import opened Basics
  import opened SmbApi
  import opened ContainerConfig
  import opened Ownership
  import opened Planning
  import opened Compatible
  import opened Cluster
  import opened Reconcile

  class SmbShareManager {
    var store: State
    var faults: Faults
    /** The number of successful writes so far. */
    var writes: nat

    constructor (store: State)
      ensures this.store == store && faults == {} && writes == 0
    {
      this.store, faults, writes := store, {}, 0;
    }

    /** Since the old state exactly this action was performed, and reported as this result. */
    twostate predicate Performed(s: Share, a: Action, r: Result)
      reads this
    {
      && store == Apply(old(store), s, a)
      && writes == old(writes) + (if a.Writes() then 1 else 0)
      && r == ResultOf(a)
    }

    /** The same for a step of a pass, which reports Done only if it had nothing to do. */
    twostate predicate Stepped(s: Share, a: Action, r: Result)
      reads this
    {
      Performed(s, a, r) && (r.Done? ==> a.Idle?)
    }

    predicate Holds(k: ObjKey, o: Object)
      reads this
    {
      k in store.objects && store.objects[k] == o
    }

    // ----- the client -----

    method ClientGet(k: ObjKey) returns (r: Fetch<Object>)
      ensures r == FetchObject(store, faults, k)
    {
      if GetObject(k) in faults {
        return GetError;
      }
      if k in store.objects {
        return Found(store.objects[k]);
      }
      return NotFound;
    }

    method ClientGetShare(name: string) returns (r: Fetch<Share>)
      ensures r == FetchShare(store, faults, name)
    {
      if GetShare(name) in faults {
        return GetError;
      }
      if name in store.shares {
        return Found(store.shares[name]);
      }
      return NotFound;
    }

    /** Creating an object that exists is an error. */
    method ClientCreate(k: ObjKey, o: Object) returns (ok: bool)
      modifies this`store, this`writes
      ensures ok <==> CreateObject(k) !in faults && k !in old(store).objects
      ensures store == (if ok then Put(old(store), k, o) else old(store))
      ensures writes == old(writes) + (if ok then 1 else 0)
    {
      ok := CreateObject(k) !in faults && k !in store.objects;
      if ok {
        store, writes := Put(store, k, o), writes + 1;
      }
    }

    /** Updating an object that does not exist is an error. */
    method ClientUpdate(k: ObjKey, o: Object) returns (ok: bool)
      modifies this`store, this`writes
      ensures ok <==> UpdateObject(k) !in faults && k in old(store).objects
      ensures store == (if ok then Put(old(store), k, o) else old(store))
      ensures writes == old(writes) + (if ok then 1 else 0)
    {
      ok := UpdateObject(k) !in faults && k in store.objects;
      if ok {
        store, writes := Put(store, k, o), writes + 1;
      }
    }

    /** An update stores everything but the status. */
    method ClientUpdateShare(s: Share) returns (ok: bool)
      modifies this`store, this`writes
      ensures ok <==> UpdateShare(s.name) !in faults && s.name in old(store).shares
      ensures ok ==> store == old(store).(shares :=
                old(store).shares[s.name := s.(serverGroup := old(store).shares[s.name].serverGroup)])
      ensures !ok ==> store == old(store)
      ensures writes == old(writes) + (if ok then 1 else 0)
    {
      ok := UpdateShare(s.name) !in faults && s.name in store.shares;
      if ok {
        var stored := s.(serverGroup := store.shares[s.name].serverGroup);
        store, writes := store.(shares := store.shares[s.name := stored]), writes + 1;
      }
    }

    /** A status update stores nothing but the status. */
    method ClientUpdateStatus(s: Share) returns (ok: bool)
      modifies this`store, this`writes
      ensures ok <==> UpdateStatus(s.name) !in faults && s.name in old(store).shares
      ensures ok ==> store == old(store).(shares :=
                old(store).shares[s.name := old(store).shares[s.name].(serverGroup := s.serverGroup)])
      ensures !ok ==> store == old(store)
      ensures writes == old(writes) + (if ok then 1 else 0)
    {
      ok := UpdateStatus(s.name) !in faults && s.name in store.shares;
      if ok {
        var stored := store.shares[s.name].(serverGroup := s.serverGroup);
        store, writes := store.(shares := store.shares[s.name := stored]), writes + 1;
      }
    }

    predicate Stored(s: Share)
      reads this
    {
      s.name in store.shares && store.shares[s.name] == s
    }

    // ----- getters -----

    /** Nothing if and only if a configuration resource the share names is missing or cannot be fetched; otherwise
        the share with exactly the resources it names. */
    method GetShareInstance(s: Share) returns (r: Option<Instance>)
      ensures r == FetchInstance(store, faults, s)
      ensures r.None? <==>
              || (s.spec.securityConfig != "" &&
                    (GetSecurity(s.spec.securityConfig) in faults || s.spec.securityConfig !in store.securities))
              || (s.spec.commonConfig != "" &&
                    (GetCommon(s.spec.commonConfig) in faults || s.spec.commonConfig !in store.commons))
      ensures r.Some? ==>
              && r.value.share == s && r.value.operator == store.operator
              && (r.value.security.Some? <==> s.spec.securityConfig != "")
              && (r.value.security.Some? ==> r.value.security.value == store.securities[s.spec.securityConfig])
              && (r.value.common.Some? <==> s.spec.commonConfig != "")
              && (r.value.common.Some? ==> r.value.common.value == store.commons[s.spec.commonConfig])
    {
      var security: Option<SecurityConfig>, common: Option<CommonConfig> := None, None;
      if s.spec.securityConfig != "" {
        if GetSecurity(s.spec.securityConfig) in faults || s.spec.securityConfig !in store.securities {
          return None;
        }
        security := Some(store.securities[s.spec.securityConfig]);
      }
      if s.spec.commonConfig != "" {
        if GetCommon(s.spec.commonConfig) in faults || s.spec.commonConfig !in store.commons {
          return None;
        }
        common := Some(store.commons[s.spec.commonConfig]);
      }
      return Some(Instance(s, security, common, store.operator));
    }

    /** The object if it exists; otherwise it is made and the pass yields. */
    method GetOrCreate(s: Share, k: ObjKey, initial: Object) returns (found: Option<Object>, r: Result)
      modifies this`store, this`writes
      ensures match FetchObject(old(store), faults, k)
              case GetError => Stepped(s, Fail, r)
              case NotFound => Stepped(s, Attempt(faults, CreateObject(k), Create(k, initial)), r)
              case Found(o) => Stepped(s, Idle, r) && found == Some(o)
    {
      var got := ClientGet(k);
      match got
      case GetError => return None, Error;
      case Found(o) => return Some(o), Done;
      case NotFound =>
        var ok := ClientCreate(k, initial);
        return None, if ok then Requeue else Error;
    }

    // ----- ownership -----

    method ClaimOwnership(s: Share, k: ObjKey, o: Object) returns (r: Result)
      requires Holds(k, o)
      modifies this`store, this`writes
      ensures Stepped(s, ClaimStep(faults, s, k, o), r)
    {
      var claim := SearchClaim(o.owners, s.name);
      match claim
      case ClaimError => return Error;
      case Owned => return Done;
      case Unowned =>
        var ok := ClientUpdate(k, o.(owners := o.owners + [ShareRef(s.name, s.uid, false)]));
        return if ok then Requeue else Error;
    }

    /** The first of the references whose share is alive, or an error. */
    method FindNewOwner(refs: seq<OwnerRef>) returns (r: Pick)
      ensures r == PickOwner(store, faults, refs)
    {
      for i := 0 to |refs|
        invariant PickOwner(store, faults, refs) == PickOwner(store, faults, refs[i..])
      {
        assert refs[i..][0] == refs[i] && refs[i..][1..] == refs[i + 1..];
        var got := ClientGetShare(refs[i].name);
        match got
        case GetError => return PickError;
        case NotFound =>
        case Found(s) =>
          if !s.deleting {
            return Picked(refs[i]);
          }
      }
      return NoPick;
    }

    method TransferOwnership(s: Share, k: ObjKey, o: Object) returns (r: Result)
      requires Holds(k, o)
      modifies this`store, this`writes
      ensures Stepped(s, TransferStep(old(store), faults, s, k, o), r)
    {
      hide FetchShare, ShareRefs, Excluding, WellFormedRefs;
      var shareRefs := SmbShareOwnerRefs(o.owners);
      if shareRefs.None? {
        return Error;
      }
      var refs := ExcludeOwnerRefs(shareRefs.value, s.name, s.uid);
      if |refs| == 0 {
        return Done;
      }
      for i := 0 to |refs|
        invariant !HasController(refs[..i])
        invariant store == old(store) && writes == old(writes)
      {
        if refs[i].controller {
          return Done;
        }
      }
      assert refs[..|refs|] == refs;
      var chosen := FindNewOwner(refs);
      if chosen.PickError? {
        return Error;
      }
      if chosen.NoPick? || chosen.ref.name == "" {
        return Done;
      }
      var owners := new OwnerRef[|o.owners|](i requires 0 <= i < |o.owners| => o.owners[i]);
      assert owners[..] == o.owners;
      ChangeControllerOwnerTo(owners, chosen.ref);
      var ok := ClientUpdate(k, o.(owners := owners[..]));
      return if ok then Requeue else Error;
    }

    // ----- the configuration -----

    method UpdateConfiguration(s: Share, k: ObjKey, cm: Object) returns (plan: Option<Instance>, r: Result)
      requires Holds(k, cm)
      modifies this`store, this`writes
      ensures Stepped(s, ConfigStep(old(store), faults, s, k, cm), r)
      ensures r.Done? ==> plan == FetchInstance(store, faults, s) && plan.Some?
    {
      hide LoadConfig, FetchInstance, FetchShare, CheckCompatible, Updated, UpdatePanics, Contradicts, Reload,
           ShareRefs, Excluding, WellFormedRefs, CandidateOf;
      var c := LoadConfig(cm.data);
      if c.None? {
        return None, Error;
      }
      var shareRefs := SmbShareOwnerRefs(cm.owners);
      if shareRefs.None? {
        return None, Error;
      }
      var others := ExcludeOwnerRefs(shareRefs.value, s.name, s.uid);
      if s.deleting {
        return None, Error;
      }
      var ic := GetShareInstance(s);
      if ic.None? {
        return None, Error;
      }
      if |others| > 0 {
        var other := ClientGetShare(others[0].name);
        if !other.Found? {
          return None, Error;
        }
        var otherIc := GetShareInstance(other.value);
        if otherIc.None? {
          return None, Error;
        }
        var verdict := CheckCompatible(CandidateOf(ic.value), CandidateOf(otherIc.value));
        if verdict.Panics? {
          return None, Panic;
        }
        if verdict.Incompatible? {
          return None, Error;
        }
      }
      var planner := new Planner(ic.value, c.value);
      var outcome := planner.Update();
      if outcome.Panicked? {
        return None, Panic;
      }
      if !outcome.changed {
        return ic, Done;
      }
      if cm.data.NoData? {
        return None, Panic;
      }
      var ok := ClientUpdate(k, cm.(data := Json(Reload(planner.state))));
      return ic, if ok then Requeue else Error;
    }

    method PruneConfiguration(s: Share, k: ObjKey, cm: Object) returns (r: Result)
      requires Holds(k, cm)
      modifies this`store, this`writes
      ensures Stepped(s, PruneStep(old(store), faults, s, k, cm), r)
    {
      var c := LoadConfig(cm.data);
      if c.None? || !s.deleting {
        return Error;
      }
      var planner := new Planner(Instance(s, None, None, store.operator), c.value);
      var changed := planner.Prune();
      if !changed {
        return Done;
      }
      if cm.data.NoData? {
        return Panic;
      }
      var ok := ClientUpdate(k, cm.(data := Json(Reload(planner.state))));
      return if ok then Requeue else Error;
    }

    // ----- the steps of an update -----

    method AddFinalizer(s: Share) returns (r: Result)
      requires Stored(s)
      modifies this`store, this`writes
      ensures Stepped(s, FinalizerStep(faults, s), r)
    {
      if SHARE_FINALIZER in s.finalizers {
        return Done;
      }
      var ok := ClientUpdateShare(s.(finalizers := s.finalizers + [SHARE_FINALIZER]));
      return if ok then Requeue else Error;
    }

    method SetServerGroup(s: Share) returns (r: Result)
      requires Stored(s)
      modifies this`store, this`writes
      ensures Stepped(s, GroupStep(faults, s), r)
    {
      if s.serverGroup != "" {
        return Done;
      }
      var group, mode, requested := s.name, "never", "";
      if s.spec.scaling.Some? {
        mode, requested := s.spec.scaling.value.groupMode, s.spec.scaling.value.group;
      }
      if mode == "never" || mode == "" {
        if requested != "" {
          return Error;
        }
      } else if mode == "explicit" {
        if requested == "" {
          return Error;
        }
        group := requested;
      } else {
        return Error;
      }
      var ok := ClientUpdateStatus(s.(serverGroup := group));
      return if ok then Requeue else Error;
    }

    method UpdateConfigMap(s: Share) returns (plan: Option<Instance>, r: Result)
      modifies this`store, this`writes
      ensures Stepped(s, ConfigMapStep(old(store), faults, s), r)
      ensures r.Done? ==> plan == FetchInstance(store, faults, s) && plan.Some?
    {
      var k := ConfigMapKey(s);
      var cm;
      cm, r := GetOrCreate(s, k, NewObject(s, Json(Reload(New())), 0));
      if !r.Done? {
        return None, r;
      }
      r := ClaimOwnership(s, k, cm.value);
      if !r.Done? {
        return None, r;
      }
      plan, r := UpdateConfiguration(s, k, cm.value);
    }

    /** Also names an unnamed PVC in the pass's copy of the share. */
    method UpdatePvc(s: Share) returns (named: Share, r: Result)
      requires NeedsPvc(s)
      modifies this`store, this`writes
      ensures Stepped(s, PvcStep(old(store), faults, s), r)
      ensures r.Done? ==> named == WithPvcName(s)
    {
      var _, result := GetOrCreate(s, DataPvcKey(s), NewObject(s, NoData, 0));
      named, r := s, result;
      if r.Done? {
        named := s.(spec := s.spec.(pvc := Some(s.spec.pvc.value.(name := PvcName(s)))));
      }
    }

    method UpdateBackend(s: Share, plan: Instance) returns (r: Result)
      requires plan.share == s && Backend(s) == ""
      requires s.name in store.shares && store.shares[s.name].serverGroup == s.serverGroup
      modifies this`store, this`writes
      ensures Stepped(s, BackendStep(faults, s), r)
    {
      var backend := if plan.IsClustered() then CLUSTERED_BACKEND else STANDARD_BACKEND;
      var ok := ClientUpdateShare(s.(annotations := s.annotations[SERVER_BACKEND := backend]));
      return if ok then Requeue else Error;
    }

    method ValidateBackend(s: Share, plan: Instance) returns (r: Result)
      requires plan.share == s && Backend(s) != ""
      ensures Stepped(s, BackendStep(faults, s), r)
    {
      if plan.IsClustered() && Backend(s) != CLUSTERED_BACKEND {
        return Error;
      }
      if !plan.IsClustered() && Backend(s) != STANDARD_BACKEND {
        return Error;
      }
      return Done;
    }

    /** The workload if it exists; building a new one needs the share's PVC. */
    method GetOrCreateWorkload(s: Share, size: int) returns (found: Option<Object>, r: Result)
      modifies this`store, this`writes
      ensures match FetchObject(old(store), faults, WorkloadKey(s))
              case GetError => Stepped(s, Fail, r)
              case NotFound =>
                Stepped(s, if s.spec.pvc.None? then Crash
                             else Attempt(faults, CreateObject(WorkloadKey(s)),
                                          Create(WorkloadKey(s), NewObject(s, NoData, size))), r)
              case Found(o) => Stepped(s, Idle, r) && found == Some(o)
    {
      var got := ClientGet(WorkloadKey(s));
      if got.NotFound? && s.spec.pvc.None? {
        return None, Panic;
      }
      found, r := GetOrCreate(s, WorkloadKey(s), NewObject(s, NoData, size));
    }

    method UpdateStatefulSetSize(s: Share, k: ObjKey, o: Object, size: int) returns (r: Result)
      requires Holds(k, o)
      modifies this`store, this`writes
      ensures Stepped(s, if o.replicas < size then Attempt(faults, UpdateObject(k), Resize(k, size)) else Idle, r)
    {
      if o.replicas < size {
        var ok := ClientUpdate(k, o.(replicas := size));
        return if ok then Requeue else Error;
      }
      return Done;
    }

    method UpdateDeploymentSize(s: Share, k: ObjKey, o: Object) returns (r: Result)
      requires Holds(k, o)
      modifies this`store, this`writes
      ensures Stepped(s, if o.replicas != 1 then Attempt(faults, UpdateObject(k), Resize(k, 1)) else Idle, r)
    {
      if o.replicas != 1 {
        var ok := ClientUpdate(k, o.(replicas := 1));
        return if ok then Requeue else Error;
      }
      return Done;
    }

    method UpdateClusteredState(s: Share, plan: Instance) returns (r: Result)
      requires plan.share == s && Clustered(s.spec) && plan.operator == store.operator
      modifies this`store, this`writes
      ensures Stepped(s, WorkloadStep(old(store), faults, s), r)
    {
      if !plan.MayCluster() || !plan.operator.stateSizeParses {
        return Error;
      }
      var _, created := GetOrCreate(s, StatePvcKey(s), NewObject(s, NoData, 0));
      if !created.Done? {
        return created;
      }
      var workload;
      workload, r := GetOrCreateWorkload(s, plan.ClusterSize());
      if !r.Done? {
        return r;
      }
      r := ClaimOwnership(s, WorkloadKey(s), workload.value);
      if !r.Done? {
        return r;
      }
      r := UpdateStatefulSetSize(s, WorkloadKey(s), workload.value, Int32(s.spec.scaling.value.minClusterSize));
    }

    method UpdateNonClusteredState(s: Share) returns (r: Result)
      requires !Clustered(s.spec)
      modifies this`store, this`writes
      ensures Stepped(s, WorkloadStep(old(store), faults, s), r)
    {
      var deployment;
      deployment, r := GetOrCreateWorkload(s, 1);
      if !r.Done? {
        return r;
      }
      r := ClaimOwnership(s, WorkloadKey(s), deployment.value);
      if !r.Done? {
        return r;
      }
      r := UpdateDeploymentSize(s, WorkloadKey(s), deployment.value);
    }

    method UpdateSmbService(s: Share) returns (r: Result)
      modifies this`store, this`writes
      ensures Stepped(s, ServiceStep(old(store), faults, s), r)
    {
      var service;
      service, r := GetOrCreate(s, ServiceKey(s), NewObject(s, NoData, 0));
      if !r.Done? {
        return r;
      }
      r := ClaimOwnership(s, ServiceKey(s), service.value);
    }

    method Update(s: Share) returns (r: Result)
      requires Stored(s)
      modifies this`store, this`writes
      ensures Performed(s, NextUpdate(old(store), faults, s), r)
    {
      hide FinalizerStep, GroupStep, ConfigMapStep, PvcExistsStep, NextServer;
      r := AddFinalizer(s);
      if !r.Done? {
        return r;
      }
      r := SetServerGroup(s);
      if !r.Done? {
        return r;
      }
      var plan;
      plan, r := UpdateConfigMap(s);
      if !r.Done? {
        return r;
      }
      var instance := s;
      if NeedsPvc(s) {
        instance, r := UpdatePvc(s);
        if !r.Done? {
          return r;
        }
      }
      r := UpdateServer(instance, plan.value.(share := instance));
    }

    /** The rest of an update, once the plan is made and the PVC is named. */
    method UpdateServer(s: Share, plan: Instance) returns (r: Result)
      requires plan.share == s && plan.operator == store.operator
      requires s.name in store.shares && store.shares[s.name].serverGroup == s.serverGroup
      modifies this`store, this`writes
      ensures Stepped(s, NextServer(old(store), faults, s), r)
    {
      hide BackendStep, WorkloadStep, ServiceStep;
      if Backend(s) == "" {
        r := UpdateBackend(s, plan);
      } else {
        r := ValidateBackend(s, plan);
      }
      if !r.Done? {
        return r;
      }
      if plan.IsClustered() {
        r := UpdateClusteredState(s, plan);
      } else {
        r := UpdateNonClusteredState(s);
      }
      if !r.Done? {
        return r;
      }
      r := UpdateSmbService(s);
    }

    // ----- the steps of a finalization -----

    method FinalizeConfigMap(s: Share) returns (r: Result)
      modifies this`store, this`writes
      ensures Stepped(s, ConfigMapFinal(old(store), faults, s), r)
    {
      var k := ConfigMapKey(s);
      var got := ClientGet(k);
      match got
      case GetError => return Error;
      case NotFound => return Done;
      case Found(cm) =>
        r := TransferOwnership(s, k, cm);
        if !r.Done? {
          return r;
        }
        r := PruneConfiguration(s, k, cm);
    }

    method HandOverObject(s: Share, k: ObjKey) returns (r: Result)
      modifies this`store, this`writes
      ensures Stepped(s, HandOver(old(store), faults, s, k), r)
    {
      var got := ClientGet(k);
      match got
      case GetError => return Error;
      case NotFound => return Done;
      case Found(o) => r := TransferOwnership(s, k, o);
    }

    method FinalizeServerResources(s: Share) returns (r: Result)
      modifies this`store, this`writes
      ensures Stepped(s, ServerFinal(old(store), faults, s), r)
    {
      if Clustered(s.spec) {
        r := HandOverObject(s, ObjKey(StatefulSet, s.serverGroup));
        if !r.Done? {
          return r;
        }
        r := HandOverObject(s, StatePvcKey(s));
      } else {
        r := HandOverObject(s, ObjKey(Deployment, s.serverGroup));
      }
    }

    method RemoveFinalizer(s: Share) returns (released: Share)
      ensures released == s.(finalizers := Without(s.finalizers, SHARE_FINALIZER))
    {
      var kept: seq<string> := [];
      for i := 0 to |s.finalizers|
        invariant kept == Without(s.finalizers[..i], SHARE_FINALIZER)
      {
        assert s.finalizers[..i + 1] == s.finalizers[..i] + [s.finalizers[i]];
        WithoutAppend(s.finalizers[..i], s.finalizers[i], SHARE_FINALIZER);
        if s.finalizers[i] != SHARE_FINALIZER {
          kept := kept + [s.finalizers[i]];
        }
      }
      assert s.finalizers[..|s.finalizers|] == s.finalizers;
      return s.(finalizers := kept);
    }

    method Finalize(s: Share) returns (r: Result)
      requires Stored(s)
      modifies this`store, this`writes
      ensures Performed(s, NextFinalize(old(store), faults, s), r)
    {
      hide ConfigMapFinal, ServerFinal;
      r := FinalizeConfigMap(s);
      if !r.Done? {
        return r;
      }
      r := FinalizeServerResources(s);
      if !r.Done? {
        return r;
      }
      if NeedsPvc(s) {
        r := HandOverObject(s, DataPvcKey(s));
        if !r.Done? {
          return r;
        }
      }
      var released := RemoveFinalizer(s);
      var ok := ClientUpdateShare(released);
      return if ok then Done else Error;
    }

    /** One pass for a share does what Next decides and nothing else; in particular a pass that is
        requeued made exactly one successful write. */
    method Process(name: string) returns (r: Result)
      requires Keyed(store)
      modifies this`store, this`writes
      ensures store == Reconcile.Process(old(store), faults, name)
      ensures r == ResultOf(Next(old(store), faults, name))
      ensures writes == old(writes) + (if Next(old(store), faults, name).Writes() then 1 else 0)
    {
      var got := ClientGetShare(name);
      match got
      case GetError => return Error;
      case NotFound => return Done;
      case Found(s) =>
        if s.deleting {
          if SHARE_FINALIZER in s.finalizers {
            r := Finalize(s);
            return r;
          }
          return Done;
        }
        r := Update(s);
    }
  }
}
