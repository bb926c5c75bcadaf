/** What must be true for a pass to perform an action: a summary of all step guards. */
module Justification {
  import opened Basics
  import opened SmbApi
  import opened ContainerConfig
  import opened Ownership
  import opened Planning
  import opened Cluster
  import opened Reconcile

  predicate SharedKey(s: Share, k: ObjKey) {
    k == ConfigMapKey(s) || k == WorkloadKey(s) || k == ServiceKey(s)
  }

  predicate OwnKey(s: Share, k: ObjKey) {
    SharedKey(s, k) || (k == StatePvcKey(s) && Clustered(s.spec)) || (NeedsPvc(s) && k == DataPvcKey(s))
  }

  /** The initial content of an object the share creates. */
  predicate InitialFor(s: Share, k: ObjKey, o: Object) {
    && o.owners == [ShareRef(s.name, s.uid, true)]
    && (k.kind == ConfigMap ==> o.data == Json(Reload(New())))
    && (k.kind == StatefulSet ==>
          Clustered(s.spec) && o.replicas == Int32(s.spec.scaling.value.minClusterSize))
    && (k.kind in {Deployment, StatefulSet} ==> Backend(s) == BackendFor(s.spec) && k == WorkloadKey(s))
  }

  /** The three ways an update changes the share itself. */
  predicate ShareEdit(s: Share, s': Share) {
    || (SHARE_FINALIZER !in s.finalizers && s' == s.(finalizers := s.finalizers + [SHARE_FINALIZER]))
    || (s.serverGroup == "" && ChooseGroup(s).Some? && s' == s.(serverGroup := ChooseGroup(s).value))
    || (Backend(s) == "" && s' == WithPvcName(s).(annotations := s.annotations[SERVER_BACKEND := BackendFor(s.spec)]))
  }

  /** A stored configuration comes from a planner update that passed the peer check, or a prune. */
  predicate ConfigEdit(st: State, f: Faults, s: Share, cm: Object, c: Config) {
    var before, ic := LoadConfig(cm.data), FetchInstance(st, f, s);
    && before.Some?
    && if s.deleting then
         var bare := BareInstance(st, s);
         Pruned(bare, before.value) != before.value && c == Reload(Pruned(bare, before.value))
       else
         && ic.Some?
         && WellFormedRefs(cm.owners)
         && PeerStep(st, f, ic.value, Excluding(ShareRefs(cm.owners), s.name, s.uid)).Idle?
         && !UpdatePanics(ic.value, before.value)
         && (Updated(ic.value, before.value) != before.value || Contradicts(s.spec))
         && c == Reload(Updated(ic.value, before.value))
  }

  predicate Justified(st: State, f: Faults, s: Share, a: Action) {
    match a
    case Idle => true
    case Fail => true
    case Crash => true
    case SaveShare(s') => !s.deleting && ShareEdit(s, s')
    case Release(s') => s.deleting && s' == s.(finalizers := Without(s.finalizers, SHARE_FINALIZER))
    case Create(k, o) =>
      !s.deleting && s.serverGroup != "" && k !in st.objects && OwnKey(s, k) && InitialFor(s, k, o)
    case ClaimObject(k) =>
      && !s.deleting && s.serverGroup != ""
      && k in st.objects && SharedKey(s, k)
      && WellFormedRefs(st.objects[k].owners) && !NamesOwner(st.objects[k].owners, s.name)
    case Transfer(k, r) =>
      && s.deleting
      && k in st.objects && OwnKey(s, k) && k != ServiceKey(s) && WellFormedRefs(st.objects[k].owners)
      && var others := Excluding(ShareRefs(st.objects[k].owners), s.name, s.uid);
         && r in others && !HasController(others)
         && r.name in st.shares && !st.shares[r.name].deleting
    case SaveConfig(k, c) =>
      k in st.objects && k == ConfigMapKey(s) && ConfigEdit(st, f, s, st.objects[k], c)
    case Resize(k, n) =>
      && !s.deleting && k in st.objects && k == WorkloadKey(s)
      && n == Wanted(s, st.objects[k].replicas) && n != st.objects[k].replicas
  }

  lemma ClaimJustified(st: State, f: Faults, s: Share, k: ObjKey)
    requires !s.deleting && s.serverGroup != "" && k in st.objects && SharedKey(s, k)
    ensures Justified(st, f, s, ClaimStep(f, s, k, st.objects[k]))
  {
    FindClaimMeans(st.objects[k].owners, s.name);
  }

  lemma ConfigJustified(st: State, f: Faults, s: Share)
    requires !s.deleting && ConfigMapKey(s) in st.objects
    ensures Justified(st, f, s, ConfigStep(st, f, s, ConfigMapKey(s), st.objects[ConfigMapKey(s)]))
  {
  }

  lemma ConfigMapJustified(st: State, f: Faults, s: Share)
    requires !s.deleting && s.serverGroup != ""
    ensures Justified(st, f, s, ConfigMapStep(st, f, s))
  {
    hide PeerStep, Updated, UpdatePanics, Contradicts, Reload, LoadConfig, FetchInstance, FindClaim, NamesOwner,
         WellFormedRefs;
    var k := ConfigMapKey(s);
    if k in st.objects {
      ClaimJustified(st, f, s, k);
      ConfigJustified(st, f, s);
    }
  }

  lemma FetchInstanceOf(st: State, f: Faults, s: Share)
    requires FetchInstance(st, f, s).Some?
    ensures FetchInstance(st, f, s).value.share == s
  {
  }

  lemma WorkloadJustified(st: State, f: Faults, s: Share, named: Share)
    requires !s.deleting && s.serverGroup != "" && named == WithPvcName(s)
    requires Backend(s) == BackendFor(s.spec)
    ensures Justified(st, f, s, WorkloadStep(st, f, named))
  {
    hide FindClaim, NamesOwner, WellFormedRefs, Int32, PvcName, Backend, BackendFor;
    if WorkloadKey(s) in st.objects {
      ClaimJustified(st, f, s, WorkloadKey(s));
    }
  }

  lemma ServiceJustified(st: State, f: Faults, s: Share, named: Share)
    requires !s.deleting && s.serverGroup != "" && named == WithPvcName(s)
    ensures Justified(st, f, s, ServiceStep(st, f, named))
  {
    hide FindClaim, NamesOwner, WellFormedRefs, PvcName, Backend, BackendFor;
    if ServiceKey(s) in st.objects {
      ClaimJustified(st, f, s, ServiceKey(s));
    }
  }

  lemma ServerJustified(st: State, f: Faults, s: Share, named: Share)
    requires !s.deleting && s.serverGroup != "" && named == WithPvcName(s)
    ensures Justified(st, f, s, NextServer(st, f, named))
  {
    hide WorkloadStep, ServiceStep, PvcName;
    if Backend(s) == BackendFor(s.spec) {
      WorkloadJustified(st, f, s, named);
    }
    ServiceJustified(st, f, s, named);
  }

  lemma UpdateJustified(st: State, f: Faults, s: Share)
    requires !s.deleting
    ensures Justified(st, f, s, NextUpdate(st, f, s))
  {
    hide ConfigMapStep, NextServer, ConfigEdit;
    if s.serverGroup != "" {
      ConfigMapJustified(st, f, s);
      ServerJustified(st, f, s, WithPvcName(s));
    }
  }

  lemma {:induction false} PickedIsAlive(st: State, f: Faults, refs: seq<OwnerRef>)
    ensures var p := PickOwner(st, f, refs);
            p.Picked? ==> p.ref in refs && p.ref.name in st.shares && !st.shares[p.ref.name].deleting
    ensures PickOwner(st, f, refs).NoPick? ==>
              forall i :: 0 <= i < |refs| ==>
                refs[i].name !in st.shares || st.shares[refs[i].name].deleting
  {
    if refs == [] {
    } else {
      PickedIsAlive(st, f, refs[1..]);
    }
  }

  lemma TransferJustified(st: State, f: Faults, s: Share, k: ObjKey)
    requires s.deleting && k in st.objects && OwnKey(s, k) && k != ServiceKey(s)
    ensures Justified(st, f, s, TransferStep(st, f, s, k, st.objects[k]))
  {
    hide PickOwner, ShareRefs, Excluding;
    PickedIsAlive(st, f, Excluding(ShareRefs(st.objects[k].owners), s.name, s.uid));
  }

  lemma HandOverJustified(st: State, f: Faults, s: Share, k: ObjKey)
    requires s.deleting && OwnKey(s, k) && k != ServiceKey(s)
    ensures Justified(st, f, s, HandOver(st, f, s, k))
  {
    if k in st.objects {
      TransferJustified(st, f, s, k);
    }
  }

  lemma ConfigMapFinalJustified(st: State, f: Faults, s: Share)
    requires s.deleting
    ensures Justified(st, f, s, ConfigMapFinal(st, f, s))
  {
    hide Pruned, Reload, TransferStep;
    if ConfigMapKey(s) in st.objects {
      TransferJustified(st, f, s, ConfigMapKey(s));
    }
  }

  lemma FinalizeJustified(st: State, f: Faults, s: Share)
    requires s.deleting
    ensures Justified(st, f, s, NextFinalize(st, f, s))
  {
    hide ConfigMapFinal, HandOver, ConfigEdit;
    ConfigMapFinalJustified(st, f, s);
    HandOverJustified(st, f, s, WorkloadKey(s));
    if Clustered(s.spec) {
      HandOverJustified(st, f, s, StatePvcKey(s));
    }
    if NeedsPvc(s) {
      HandOverJustified(st, f, s, DataPvcKey(s));
    }
  }

  /** Every action a pass performs meets its guard. */
  lemma NextJustified(st: State, f: Faults, s: Share)
    ensures Justified(st, f, s, NextFor(st, f, s))
  {
    hide NextUpdate, NextFinalize;
    if s.deleting {
      FinalizeJustified(st, f, s);
    } else {
      UpdateJustified(st, f, s);
    }
  }
}
