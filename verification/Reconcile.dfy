/** What one reconcile pass decides: the first step that is not in order names the pass's action. */
module Reconcile {
  import opened Basics
  import opened SmbApi
  import opened ContainerConfig
  import opened Ownership
  import opened Planning
  import opened Compatible
  import opened Cluster

  const SHARE_FINALIZER := "samba-operator.samba.org/shareFinalizer"
  const SERVER_BACKEND := "samba-operator.samba.org/serverBackend"
  const CLUSTERED_BACKEND := "clustered:ctdb/statefulset"
  const STANDARD_BACKEND := "standard:deployment"

  /** The next step counts only when this one has nothing to do. */
  function Then(a: Action, b: Action): Action {
    if a.Idle? then b else a
  }

  /** A write that fails has no effect and ends the pass. */
  function Attempt(f: Faults, call: Call, a: Action): Action {
    if call in f then Fail else a
  }

  // ----- names -----

  function ConfigMapKey(s: Share): ObjKey { ObjKey(ConfigMap, s.serverGroup) }

  function ServiceKey(s: Share): ObjKey { ObjKey(Service, s.serverGroup) }

  function StatePvcKey(s: Share): ObjKey { ObjKey(Pvc, s.serverGroup + "-state") }

  predicate NeedsPvc(s: Share) {
    s.spec.pvc.Some? && s.spec.pvc.value.hasSpec
  }

  function PvcName(s: Share): string
    requires s.spec.pvc.Some?
  {
    if s.spec.pvc.value.name != "" then s.spec.pvc.value.name else s.name + "-pvc"
  }

  function DataPvcKey(s: Share): ObjKey
    requires NeedsPvc(s)
  {
    ObjKey(Pvc, PvcName(s))
  }

  function WorkloadKey(s: Share): ObjKey {
    ObjKey(if Clustered(s.spec) then StatefulSet else Deployment, s.serverGroup)
  }

  /** An embedded PVC that has no name gets the name of the PVC made for it. */
  function WithPvcName(s: Share): Share {
    if NeedsPvc(s) then s.(spec := s.spec.(pvc := Some(s.spec.pvc.value.(name := PvcName(s))))) else s
  }

  function Backend(s: Share): string {
    if SERVER_BACKEND in s.annotations then s.annotations[SERVER_BACKEND] else ""
  }

  function BackendFor(spec: ShareSpec): string {
    if Clustered(spec) then CLUSTERED_BACKEND else STANDARD_BACKEND
  }

  function NewObject(s: Share, data: Data, replicas: int): Object {
    Object([ShareRef(s.name, s.uid, true)], data, replicas)
  }

  // ----- the steps of an update, in order -----

  function FinalizerStep(f: Faults, s: Share): Action {
    if SHARE_FINALIZER in s.finalizers then Idle
    else Attempt(f, UpdateShare(s.name), SaveShare(s.(finalizers := s.finalizers + [SHARE_FINALIZER])))
  }

  /** The group a share asks for, or an error. */
  function ChooseGroup(s: Share): Option<string> {
    var mode := if s.spec.scaling.Some? then s.spec.scaling.value.groupMode else "never";
    var requested := if s.spec.scaling.Some? then s.spec.scaling.value.group else "";
    if mode == "never" || mode == "" then (if requested == "" then Some(s.name) else None)
    else if mode == "explicit" then (if requested != "" then Some(requested) else None)
    else None
  }

  function GroupStep(f: Faults, s: Share): Action {
    if s.serverGroup != "" then Idle
    else match ChooseGroup(s)
      case None => Fail
      case Some(g) => Attempt(f, UpdateStatus(s.name), SaveShare(s.(serverGroup := g)))
  }

  function ClaimStep(f: Faults, s: Share, k: ObjKey, o: Object): Action {
    match FindClaim(o.owners, s.name)
    case ClaimError => Fail
    case Owned => Idle
    case Unowned => Attempt(f, UpdateObject(k), ClaimObject(k))
  }

  /** Only the first other owner is compared with the share. */
  function PeerStep(st: State, f: Faults, ic: Instance, others: seq<OwnerRef>): Action {
    if others == [] then Idle
    else match FetchShare(st, f, others[0].name)
      case GetError => Fail
      case NotFound => Fail
      case Found(other) =>
        var otherIc := FetchInstance(st, f, other);
        if otherIc.None? then Fail
        else match CheckCompatible(CandidateOf(ic), CandidateOf(otherIc.value))
          case Compatible => Idle
          case Incompatible(_, _, _) => Fail
          case Panics => Crash
  }

  function PlanStep(f: Faults, k: ObjKey, data: Data, ic: Instance, c: Config): Action {
    if UpdatePanics(ic, c) then Crash
    else if Updated(ic, c) == c && !Contradicts(ic.share.spec) then Idle
    else if data.NoData? then Crash
    else Attempt(f, UpdateObject(k), SaveConfig(k, Reload(Updated(ic, c))))
  }

  function ConfigStep(st: State, f: Faults, s: Share, k: ObjKey, cm: Object): Action {
    var c, ic := LoadConfig(cm.data), FetchInstance(st, f, s);
    if c.None? || !WellFormedRefs(cm.owners) || s.deleting || ic.None? then Fail
    else
      Then(PeerStep(st, f, ic.value, Excluding(ShareRefs(cm.owners), s.name, s.uid)),
           PlanStep(f, k, cm.data, ic.value, c.value))
  }

  function ConfigMapStep(st: State, f: Faults, s: Share): Action {
    var k := ConfigMapKey(s);
    match FetchObject(st, f, k)
    case GetError => Fail
    case NotFound => Attempt(f, CreateObject(k), Create(k, NewObject(s, Json(Reload(New())), 0)))
    case Found(cm) => Then(ClaimStep(f, s, k, cm), ConfigStep(st, f, s, k, cm))
  }

  function PvcExistsStep(st: State, f: Faults, s: Share, k: ObjKey): Action {
    match FetchObject(st, f, k)
    case GetError => Fail
    case NotFound => Attempt(f, CreateObject(k), Create(k, NewObject(s, NoData, 0)))
    case Found(_) => Idle
  }

  function PvcStep(st: State, f: Faults, s: Share): Action {
    if NeedsPvc(s) then PvcExistsStep(st, f, s, DataPvcKey(s)) else Idle
  }

  function BackendStep(f: Faults, s: Share): Action {
    if Backend(s) == "" then
      Attempt(f, UpdateShare(s.name),
              SaveShare(s.(annotations := s.annotations[SERVER_BACKEND := BackendFor(s.spec)])))
    else if Backend(s) == BackendFor(s.spec) then Idle
    else Fail
  }

  /** A StatefulSet only grows; a Deployment has one replica. */
  function Wanted(s: Share, replicas: int): int {
    if !Clustered(s.spec) then 1
    else
      var size := Int32(s.spec.scaling.value.minClusterSize);
      if replicas < size then size else replicas
  }

  function ServerStep(st: State, f: Faults, s: Share): Action {
    var k := WorkloadKey(s);
    match FetchObject(st, f, k)
    case GetError => Fail
    case NotFound =>
      if s.spec.pvc.None? then Crash
      else
        var size := if Clustered(s.spec) then Int32(s.spec.scaling.value.minClusterSize) else 1;
        Attempt(f, CreateObject(k), Create(k, NewObject(s, NoData, size)))
    case Found(o) =>
      Then(ClaimStep(f, s, k, o),
           if Wanted(s, o.replicas) == o.replicas then Idle
           else Attempt(f, UpdateObject(k), Resize(k, Wanted(s, o.replicas))))
  }

  function WorkloadStep(st: State, f: Faults, s: Share): Action {
    if !Clustered(s.spec) then ServerStep(st, f, s)
    else if st.operator.clusterSupport != "ctdb-is-experimental" || !st.operator.stateSizeParses then Fail
    else Then(PvcExistsStep(st, f, s, StatePvcKey(s)), ServerStep(st, f, s))
  }

  function ServiceStep(st: State, f: Faults, s: Share): Action {
    var k := ServiceKey(s);
    match FetchObject(st, f, k)
    case GetError => Fail
    case NotFound => Attempt(f, CreateObject(k), Create(k, NewObject(s, NoData, 0)))
    case Found(o) => ClaimStep(f, s, k, o)
  }

  function NextServer(st: State, f: Faults, s: Share): Action {
    Then(BackendStep(f, s),
    Then(WorkloadStep(st, f, s),
         ServiceStep(st, f, s)))
  }

  function NextUpdate(st: State, f: Faults, s: Share): Action {
    Then(FinalizerStep(f, s),
    Then(GroupStep(f, s),
    Then(ConfigMapStep(st, f, s),
    Then(PvcStep(st, f, s),
         NextServer(st, f, WithPvcName(s))))))
  }

  // ----- the steps of a finalization, in order -----

  datatype Pick = PickError | NoPick | Picked(ref: OwnerRef)

  /** The first of the references whose share exists and is not being deleted. */
  function PickOwner(st: State, f: Faults, refs: seq<OwnerRef>): Pick {
    if refs == [] then NoPick
    else match FetchShare(st, f, refs[0].name)
      case GetError => PickError
      case NotFound => PickOwner(st, f, refs[1..])
      case Found(s) => if s.deleting then PickOwner(st, f, refs[1..]) else Picked(refs[0])
  }

  function TransferStep(st: State, f: Faults, s: Share, k: ObjKey, o: Object): Action {
    if !WellFormedRefs(o.owners) then Fail
    else
      var others := Excluding(ShareRefs(o.owners), s.name, s.uid);
      if HasController(others) then Idle
      else match PickOwner(st, f, others)
        case PickError => Fail
        case NoPick => Idle
        case Picked(r) =>
          if r.name == "" then Idle else Attempt(f, UpdateObject(k), Transfer(k, r))
  }

  function HandOver(st: State, f: Faults, s: Share, k: ObjKey): Action {
    match FetchObject(st, f, k)
    case GetError => Fail
    case NotFound => Idle
    case Found(o) => TransferStep(st, f, s, k, o)
  }

  /** What is needed of a share to prune it; its configuration resources may be gone already. */
  function BareInstance(st: State, s: Share): Instance {
    Instance(s, None, None, st.operator)
  }

  function PruneStep(st: State, f: Faults, s: Share, k: ObjKey, cm: Object): Action {
    var c := LoadConfig(cm.data);
    if c.None? || !s.deleting then Fail
    else
      var p := Pruned(BareInstance(st, s), c.value);
      if p == c.value then Idle
      else if cm.data.NoData? then Crash
      else Attempt(f, UpdateObject(k), SaveConfig(k, Reload(p)))
  }

  function ConfigMapFinal(st: State, f: Faults, s: Share): Action {
    var k := ConfigMapKey(s);
    match FetchObject(st, f, k)
    case GetError => Fail
    case NotFound => Idle
    case Found(cm) => Then(TransferStep(st, f, s, k, cm), PruneStep(st, f, s, k, cm))
  }

  function ServerFinal(st: State, f: Faults, s: Share): Action {
    Then(HandOver(st, f, s, WorkloadKey(s)),
         if Clustered(s.spec) then HandOver(st, f, s, StatePvcKey(s)) else Idle)
  }

  function DataPvcFinal(st: State, f: Faults, s: Share): Action {
    if NeedsPvc(s) then HandOver(st, f, s, DataPvcKey(s)) else Idle
  }

  function Without(list: seq<string>, x: string): (r: seq<string>)
    ensures x !in r
    ensures forall y :: y != x ==> (y in r <==> y in list)
  {
    if list == [] then []
    else
      assert list == [list[0]] + list[1..];
      (if list[0] == x then [] else [list[0]]) + Without(list[1..], x)
  }

  lemma {:induction false} WithoutAppend(list: seq<string>, y: string, x: string)
    ensures Without(list + [y], x) == Without(list, x) + (if y == x then [] else [y])
  {
    if list == [] {
    } else {
      assert (list + [y])[1..] == list[1..] + [y];
      WithoutAppend(list[1..], y, x);
    }
  }

  function ReleaseStep(f: Faults, s: Share): Action {
    Attempt(f, UpdateShare(s.name), Release(s.(finalizers := Without(s.finalizers, SHARE_FINALIZER))))
  }

  function NextFinalize(st: State, f: Faults, s: Share): Action {
    Then(ConfigMapFinal(st, f, s),
    Then(ServerFinal(st, f, s),
    Then(DataPvcFinal(st, f, s),
         ReleaseStep(f, s))))
  }

  // ----- a whole pass -----

  function NextFor(st: State, f: Faults, s: Share): Action {
    if !s.deleting then NextUpdate(st, f, s)
    else if SHARE_FINALIZER in s.finalizers then NextFinalize(st, f, s)
    else Idle
  }

  /** The action of one pass for the named share. */
  function Next(st: State, f: Faults, name: string): Action {
    match FetchShare(st, f, name)
    case GetError => Fail
    case NotFound => Idle
    case Found(s) => NextFor(st, f, s)
  }

  function Process(st: State, f: Faults, name: string): State {
    if name in st.shares then Apply(st, st.shares[name], Next(st, f, name)) else st
  }

  /** Shares are stored under their own, non-empty names. */
  predicate Keyed(st: State) {
    "" !in st.shares && forall n :: n in st.shares ==> st.shares[n].name == n
  }
}
