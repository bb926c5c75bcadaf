/** What failing client calls can do to a pass: stop it, and nothing else. */
module Failures {
  import opened Basics
  import opened SmbApi
  import opened ContainerConfig
  import opened Ownership
  import opened Planning
  import opened Compatible
  import opened Cluster
  import opened Reconcile

  /** With failing calls the action is what it would be without, or the pass fails. */
  predicate SameOrFail(a: Action, b: Action) {
    a == b || a == Fail
  }

  /** The call an action makes when it writes. */
  function WriteCall(s: Share, a: Action): Option<Call> {
    match a
    case SaveShare(s') => Some(if s'.serverGroup != s.serverGroup then UpdateStatus(s.name) else UpdateShare(s.name))
    case Release(_) => Some(UpdateShare(s.name))
    case Create(k, _) => Some(CreateObject(k))
    case ClaimObject(k) => Some(UpdateObject(k))
    case Transfer(k, _) => Some(UpdateObject(k))
    case SaveConfig(k, _) => Some(UpdateObject(k))
    case Resize(k, _) => Some(UpdateObject(k))
    case _ => None
  }

  /** If the action writes, its call does not fail. */
  predicate Goes(f: Faults, s: Share, a: Action) {
    WriteCall(s, a).Some? ==> WriteCall(s, a).value !in f
  }

  lemma InstanceStops(st: State, f: Faults, s: Share)
    ensures FetchInstance(st, f, s).Some? ==> FetchInstance(st, f, s) == FetchInstance(st, {}, s)
  {
  }

  lemma PeerStops(st: State, f: Faults, ic: Instance, others: seq<OwnerRef>)
    ensures SameOrFail(PeerStep(st, f, ic, others), PeerStep(st, {}, ic, others))
    ensures PeerStep(st, f, ic, others).Idle? || PeerStep(st, f, ic, others).Fail? || PeerStep(st, f, ic, others).Crash?
  {
    hide CheckCompatible, FetchInstance;
    if others != [] && others[0].name in st.shares {
      InstanceStops(st, f, st.shares[others[0].name]);
    }
  }

  lemma ConfigStops(st: State, f: Faults, s: Share, k: ObjKey, cm: Object)
    ensures SameOrFail(ConfigStep(st, f, s, k, cm), ConfigStep(st, {}, s, k, cm))
    ensures Goes(f, s, ConfigStep(st, f, s, k, cm))
  {
    hide PeerStep, FetchInstance, UpdatePanics, Updated, Contradicts, Reload, LoadConfig, WellFormedRefs, ShareRefs,
         Excluding;
    InstanceStops(st, f, s);
    if FetchInstance(st, f, s).Some? {
      PeerStops(st, f, FetchInstance(st, f, s).value, Excluding(ShareRefs(cm.owners), s.name, s.uid));
    }
  }

  lemma ConfigMapStops(st: State, f: Faults, s: Share)
    ensures SameOrFail(ConfigMapStep(st, f, s), ConfigMapStep(st, {}, s))
    ensures Goes(f, s, ConfigMapStep(st, f, s))
  {
    hide ConfigStep, FindClaim, New, Reload;
    if ConfigMapKey(s) in st.objects {
      ConfigStops(st, f, s, ConfigMapKey(s), st.objects[ConfigMapKey(s)]);
    }
  }

  lemma WorkloadStops(st: State, f: Faults, s: Share)
    ensures SameOrFail(WorkloadStep(st, f, s), WorkloadStep(st, {}, s))
    ensures Goes(f, s, WorkloadStep(st, f, s))
  {
    hide FindClaim, Wanted, Int32;
  }

  lemma ServerStops(st: State, f: Faults, s: Share)
    ensures SameOrFail(NextServer(st, f, s), NextServer(st, {}, s))
    ensures Goes(f, s, NextServer(st, f, s))
  {
    hide FindClaim, WorkloadStep;
    WorkloadStops(st, f, s);
  }

  lemma UpdateStops(st: State, f: Faults, s: Share)
    requires s.name != ""
    ensures SameOrFail(NextUpdate(st, f, s), NextUpdate(st, {}, s))
    ensures Goes(f, s, NextUpdate(st, f, s))
  {
    hide ConfigMapStep, NextServer, PvcName;
    ConfigMapStops(st, f, s);
    ServerStops(st, f, WithPvcName(s));
  }

  lemma {:induction false} PickStops(st: State, f: Faults, refs: seq<OwnerRef>)
    ensures PickOwner(st, f, refs) == PickOwner(st, {}, refs) || PickOwner(st, f, refs).PickError?
  {
    if refs == [] {
    } else {
      PickStops(st, f, refs[1..]);
    }
  }

  lemma TransferStops(st: State, f: Faults, s: Share, k: ObjKey, o: Object)
    ensures SameOrFail(TransferStep(st, f, s, k, o), TransferStep(st, {}, s, k, o))
    ensures Goes(f, s, TransferStep(st, f, s, k, o))
  {
    hide PickOwner, ShareRefs, Excluding, WellFormedRefs, HasController;
    PickStops(st, f, Excluding(ShareRefs(o.owners), s.name, s.uid));
  }

  lemma HandOverStops(st: State, f: Faults, s: Share, k: ObjKey)
    ensures SameOrFail(HandOver(st, f, s, k), HandOver(st, {}, s, k))
    ensures Goes(f, s, HandOver(st, f, s, k))
  {
    hide TransferStep;
    if k in st.objects {
      TransferStops(st, f, s, k, st.objects[k]);
    }
  }

  lemma ConfigMapFinalStops(st: State, f: Faults, s: Share)
    ensures SameOrFail(ConfigMapFinal(st, f, s), ConfigMapFinal(st, {}, s))
    ensures Goes(f, s, ConfigMapFinal(st, f, s))
  {
    hide TransferStep, Pruned, Reload, LoadConfig;
    if ConfigMapKey(s) in st.objects {
      TransferStops(st, f, s, ConfigMapKey(s), st.objects[ConfigMapKey(s)]);
    }
  }

  lemma FinalizeStops(st: State, f: Faults, s: Share)
    ensures SameOrFail(NextFinalize(st, f, s), NextFinalize(st, {}, s))
    ensures Goes(f, s, NextFinalize(st, f, s))
  {
    hide ConfigMapFinal, HandOver, Without;
    ConfigMapFinalStops(st, f, s);
    HandOverStops(st, f, s, WorkloadKey(s));
    HandOverStops(st, f, s, StatePvcKey(s));
    if NeedsPvc(s) {
      HandOverStops(st, f, s, DataPvcKey(s));
    }
  }

  /** Whatever calls fail, a pass does what it would do without failing calls, or it fails and leaves the store alone.
      If it writes, then neither the call that fetches its share nor the one that writes fails. */
  lemma FaultsOnlyStop(st: State, f: Faults, name: string)
    requires Keyed(st)
    ensures Next(st, f, name) == Next(st, {}, name)
            || (Next(st, f, name) == Fail && Process(st, f, name) == st)
    ensures name in st.shares && Next(st, f, name).Writes() ==>
              GetShare(name) !in f && Goes(f, st.shares[name], Next(st, f, name))
  {
    hide NextUpdate, NextFinalize, Goes;
    if name in st.shares {
      UpdateStops(st, f, st.shares[name]);
      FinalizeStops(st, f, st.shares[name]);
    }
  }
}
