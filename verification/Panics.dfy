/** Exactly when a pass panics: on a PVC that is not there, or on a configuration with a nil map. */
module Panics {
  import opened Basics
  import opened SmbApi
  import opened ContainerConfig
  import opened Ownership
  import opened Planning
  import opened Compatible
  import opened Cluster
  import opened Reconcile
  import opened Justification
  import opened ConfigRuns
  import opened Finalization

  function Others(s: Share, cm: Object): seq<OwnerRef> {
    Excluding(ShareRefs(cm.owners), s.name, s.uid)
  }

  /** The first other owner and its instance are there, in the same namespace. */
  predicate MeetsPeer(st: State, f: Faults, s: Share, others: seq<OwnerRef>) {
    && others != []
    && FetchShare(st, f, others[0].name).Found?
    && FetchInstance(st, f, st.shares[others[0].name]).Some?
    && st.shares[others[0].name].namespace == s.namespace
  }

  /** The check of the two compares PVCs of which one is missing. */
  predicate PeerPanics(st: State, f: Faults, s: Share, others: seq<OwnerRef>) {
    MeetsPeer(st, f, s, others) && (s.spec.pvc.None? || st.shares[others[0].name].spec.pvc.None?)
  }

  /** There is nobody to be compared with, or the comparison finds equal profiles. */
  predicate PeerAgrees(st: State, f: Faults, ic: Instance, others: seq<OwnerRef>) {
    others != [] ==>
      && MeetsPeer(st, f, ic.share, others)
      && var peer := CandidateOf(FetchInstance(st, f, st.shares[others[0].name]).value);
         HasPvc(CandidateOf(ic)) && HasPvc(peer) && ProfileOf(CandidateOf(ic)) == ProfileOf(peer)
  }

  lemma SameProfileSameNamespace(a: Candidate, b: Candidate)
    ensures HasPvc(a) && HasPvc(b) && ProfileOf(a) == ProfileOf(b) ==>
            a.share.value.namespace == b.share.value.namespace
  {
  }

  lemma PeerStepExactly(st: State, f: Faults, ic: Instance, others: seq<OwnerRef>)
    ensures PeerStep(st, f, ic, others).Crash? <==> PeerPanics(st, f, ic.share, others)
    ensures PeerStep(st, f, ic, others).Idle? <==> PeerAgrees(st, f, ic, others)
  {
    hide CheckCompatible, FetchInstance, ProfileOf;
    if others != [] && FetchShare(st, f, others[0].name).Found? {
      var peer := st.shares[others[0].name];
      if FetchInstance(st, f, peer).Some? {
        FetchInstanceOf(st, f, peer);
        CompatibleIffSameProfile(CandidateOf(ic), CandidateOf(FetchInstance(st, f, peer).value));
        SameProfileSameNamespace(CandidateOf(ic), CandidateOf(FetchInstance(st, f, peer).value));
      }
    }
  }

  // ----- the configuration step -----

  /** The share's ConfigMap and instance are there, claimed and readable. */
  predicate MeetsConfig(st: State, f: Faults, s: Share) {
    && FetchObject(st, f, ConfigMapKey(s)).Found?
    && FetchInstance(st, f, s).Some?
    && var cm := st.objects[ConfigMapKey(s)];
       NamesOwner(cm.owners, s.name) && WellFormedRefs(cm.owners) && LoadConfig(cm.data).Some?
  }

  /** The peer check panics, or it passes and the planner does, or the result has no map to go to. */
  predicate ConfigPanics(st: State, f: Faults, s: Share) {
    && MeetsConfig(st, f, s)
    && var cm, ic := st.objects[ConfigMapKey(s)], FetchInstance(st, f, s).value;
       || PeerPanics(st, f, s, Others(s, cm))
       || (PeerAgrees(st, f, ic, Others(s, cm)) && (UpdatePanics(ic, LoadConfig(cm.data).value) || cm.data.NoData?))
  }

  /** The configuration serves the share, and its options do not contradict its spec. */
  predicate ConfigInOrder(st: State, f: Faults, s: Share) {
    && MeetsConfig(st, f, s)
    && var cm, ic := st.objects[ConfigMapKey(s)], FetchInstance(st, f, s).value;
       && PeerAgrees(st, f, ic, Others(s, cm))
       && !UpdatePanics(ic, LoadConfig(cm.data).value)
       && Updated(ic, LoadConfig(cm.data).value) == LoadConfig(cm.data).value
       && !Contradicts(s.spec)
  }

  lemma PlanStepExactly(f: Faults, k: ObjKey, data: Data, ic: Instance)
    requires LoadConfig(data).Some?
    ensures PlanStep(f, k, data, ic, LoadConfig(data).value).Crash? <==>
            UpdatePanics(ic, LoadConfig(data).value) || data.NoData?
    ensures PlanStep(f, k, data, ic, LoadConfig(data).value).Idle? <==>
            && !UpdatePanics(ic, LoadConfig(data).value)
            && Updated(ic, LoadConfig(data).value) == LoadConfig(data).value && !Contradicts(ic.share.spec)
  {
  }

  lemma ConfigStepExactly(st: State, f: Faults, s: Share)
    requires !s.deleting
    ensures ConfigMapStep(st, f, s).Crash? <==> ConfigPanics(st, f, s)
    ensures ConfigMapStep(st, f, s).Idle? <==> ConfigInOrder(st, f, s)
  {
    hide UpdatePanics, Updated, Contradicts, Reload, New, LoadConfig, FetchInstance, PeerStep, PeerPanics, PeerAgrees,
         PlanStep, WellFormedRefs, NamesOwner, FindClaim, ShareRefs, Excluding;
    var k := ConfigMapKey(s);
    if k in st.objects {
      var cm := st.objects[k];
      FindClaimMeans(cm.owners, s.name);
      if FetchInstance(st, f, s).Some? && LoadConfig(cm.data).Some? {
        var ic := FetchInstance(st, f, s).value;
        FetchInstanceOf(st, f, s);
        PeerStepExactly(st, f, ic, Others(s, cm));
        PlanStepExactly(f, k, cm.data, ic);
      }
    }
  }

  // ----- the server steps -----

  /** The workload has to be built, and there is no PVC to build it on. */
  predicate ServerPanics(st: State, f: Faults, s: Share) {
    && s.spec.pvc.None?
    && Backend(s) == BackendFor(s.spec)
    && (Clustered(s.spec) ==>
          && st.operator.clusterSupport == "ctdb-is-experimental" && st.operator.stateSizeParses
          && FetchObject(st, f, StatePvcKey(s)).Found?)
    && FetchObject(st, f, WorkloadKey(s)).NotFound?
  }

  lemma ServerExactly(st: State, f: Faults, s: Share)
    ensures NextServer(st, f, s).Crash? <==> ServerPanics(st, f, s)
  {
  }

  // ----- a whole pass -----

  /** What a caller can look up before a pass to know that it will panic. */
  predicate PanicDue(st: State, f: Faults, s: Share) {
    && !s.deleting && SHARE_FINALIZER in s.finalizers && s.serverGroup != ""
    && (ConfigPanics(st, f, s) || (ConfigInOrder(st, f, s) && ServerPanics(st, f, s)))
  }

  lemma NoPanicWithPvc(st: State, f: Faults, s: Share)
    requires s.spec.pvc.Some?
    ensures !ServerPanics(st, f, s) && !ServerPanics(st, f, WithPvcName(s))
  {
  }

  lemma UpdatePanicsExactly(st: State, f: Faults, s: Share)
    requires !s.deleting
    ensures NextUpdate(st, f, s).Crash? <==> PanicDue(st, f, s)
  {
    hide ConfigMapStep, NextServer, ConfigPanics, ConfigInOrder, ServerPanics;
    ConfigStepExactly(st, f, s);
    ServerExactly(st, f, WithPvcName(s));
    if NeedsPvc(s) {
      NoPanicWithPvc(st, f, s);
    }
  }

  lemma FinalizeNeverPanics(st: State, f: Faults, s: Share)
    ensures !NextFinalize(st, f, s).Crash?
  {
    hide PickOwner, ShareRefs, Excluding, WellFormedRefs, HasController, PruneStep, Without;
    if ConfigMapKey(s) in st.objects {
      PruneNeverPanics(st, f, s, ConfigMapKey(s), st.objects[ConfigMapKey(s)]);
    }
  }

  /** For every store and whatever calls fail: a pass panics if and only if its share is fetched and a panic is
      due. A finalization never panics. */
  lemma PassPanicsIff(st: State, f: Faults, name: string)
    ensures Next(st, f, name).Crash? <==> FetchShare(st, f, name).Found? && PanicDue(st, f, st.shares[name])
  {
    hide NextUpdate, NextFinalize, ConfigPanics, ConfigInOrder, ServerPanics;
    if name in st.shares {
      var s := st.shares[name];
      FinalizeNeverPanics(st, f, s);
      if !s.deleting {
        UpdatePanicsExactly(st, f, s);
      }
    }
  }

  /** On a stored configuration of the operator's own making, only a missing PVC makes the configuration step
      panic: the share's when it has no other owner and is new, otherwise the share's or the first other's. */
  lemma ServedConfigPanicsIff(st: State, f: Faults, s: Share)
    requires ConfigsServe(st)
    ensures ConfigPanics(st, f, s) <==>
            && MeetsConfig(st, f, s)
            && var cm, ic := st.objects[ConfigMapKey(s)], FetchInstance(st, f, s).value;
               if Others(s, cm) == []
               then s.spec.pvc.None? && ic.ShareName() !in LoadConfig(cm.data).value.shares
               else PeerPanics(st, f, s, Others(s, cm))
  {
  }
}
