/** The controller flag moves to a live owner before a share lets go. */
module Controllers {
  import opened SmbApi
  import opened Ownership
  import opened Cluster
  import opened Reconcile
  import opened Justification
  import opened Runs

  predicate Alive(st: State, r: OwnerRef) {
    r.name in st.shares && !st.shares[r.name].deleting
  }

  /** The objects a finalization hands over to another owner. The Service is not one of them, nor is a workload
      of the kind that the share's spec does not ask for any more. */
  predicate HandsOver(s: Share, k: ObjKey) {
    OwnKey(s, k) && k != ServiceKey(s)
  }

  /** Among the references one is in control: to another share that is alive, and that is there, and not only its name,
      if and only if the references to the name are up to date. */
  ghost predicate SafelyControlled(st: State, name: string, k: ObjKey, refs: seq<OwnerRef>) {
    exists c :: 0 <= c < |refs| && refs[c].controller && Alive(st, refs[c]) && refs[c].name != name
      && (!OwnerGone(st, refs[c]) <==> CurrentFor(st, refs[c].name, k))
      && forall i :: 0 <= i < |refs| && i != c ==> !refs[i].controller
  }

  lemma TransferredRefs(st: State, name: string, k: ObjKey, to: OwnerRef)
    requires k in st.objects && RefsOk(st.objects[k].owners) && to in st.objects[k].owners
    requires to.name != name && Alive(st, to)
    ensures var refs := st.objects[k].owners;
            var refs' := WithController(refs, to.name, to.uid);
            SameOwners(refs', refs) && SafelyControlled(st, name, k, refs')
  {
  }

  /** A transfer changes no owner, only the flags: afterwards exactly one owner is in control. The name of the new
      one is that of another share, which exists and is not being deleted; it is that share, and not one that is
      gone, if and only if the reference to the name is up to date. */
  lemma TransferIsSafe(st: State, f: Faults, name: string)
    requires WellOwned(st) && name in st.shares
    requires NextFor(st, f, st.shares[name]).Transfer?
    requires CurrentFor(st, name, NextFor(st, f, st.shares[name]).key)
    ensures var k, s := NextFor(st, f, st.shares[name]).key, st.shares[name];
            && k in st.objects
            && var refs' := Apply(st, s, NextFor(st, f, s)).objects[k].owners;
               SameOwners(refs', st.objects[k].owners) && SafelyControlled(st, name, k, refs')
  {
    hide NextFor, ConfigEdit, OwnKey, WellFormedRefs, HasController, SafelyControlled, SameOwners, RefsOk,
         WithController;
    var s := st.shares[name];
    NextJustified(st, f, s);
    var a := NextFor(st, f, s);
    assert a.to in st.objects[a.key].owners && a.to.name != name;
    TransferredRefs(st, name, a.key, a.to);
  }

  lemma IdleLeavesController(st: State, f: Faults, s: Share, k: ObjKey, i: nat)
    requires WellOwned(st) && k in st.objects && i < |st.objects[k].owners|
    requires st.objects[k].owners[i].name != s.name && Alive(st, st.objects[k].owners[i])
    requires TransferStep(st, f, s, k, st.objects[k]).Idle?
    ensures HasController(Excluding(ShareRefs(st.objects[k].owners), s.name, s.uid))
  {
    hide PickOwner, DistinctNames, AtMostOneController, HasController, ShareRefs, Excluding;
    var refs := st.objects[k].owners;
    assert RefsOk(refs);
    var others := Excluding(ShareRefs(refs), s.name, s.uid);
    assert IsShareRef(refs[i]) && refs[i] in others;
    var j :| 0 <= j < |others| && others[j] == refs[i];
    PickedIsAlive(st, f, others);
  }

  /** If another live share owns the object, an idle transfer step means that one of the others is
      in control. */
  lemma IdleTransferIsControlled(st: State, f: Faults, s: Share, k: ObjKey)
    requires WellOwned(st) && k in st.objects
    requires TransferStep(st, f, s, k, st.objects[k]).Idle?
    requires exists i :: 0 <= i < |st.objects[k].owners| &&
               st.objects[k].owners[i].name != s.name && Alive(st, st.objects[k].owners[i])
    ensures exists i :: 0 <= i < |st.objects[k].owners| &&
              !(st.objects[k].owners[i].name == s.name && st.objects[k].owners[i].uid == s.uid) &&
              st.objects[k].owners[i].controller
  {
    hide TransferStep, WellOwned, ShareRefs, Excluding;
    var refs := st.objects[k].owners;
    var i :| 0 <= i < |refs| && refs[i].name != s.name && Alive(st, refs[i]);
    IdleLeavesController(st, f, s, k, i);
    var others := Excluding(ShareRefs(refs), s.name, s.uid);
    var c :| 0 <= c < |others| && others[c].controller;
    assert others[c] in refs;
  }

  lemma ReleasedMeansIdle(st: State, f: Faults, s: Share, k: ObjKey)
    requires NextFinalize(st, f, s).Release?
    requires k in st.objects && HandsOver(s, k)
    ensures TransferStep(st, f, s, k, st.objects[k]).Idle?
  {
    hide PickOwner, ShareRefs, Excluding, WellFormedRefs, HasController, LoadConfig;
  }

  /** Another share that exists and is not being deleted is an owner of the object. */
  predicate OtherLives(st: State, name: string, k: ObjKey) {
    && k in st.objects
    && exists i :: 0 <= i < |st.objects[k].owners| &&
         st.objects[k].owners[i].name != name && Alive(st, st.objects[k].owners[i])
  }

  /** Another owner of the object is in control. */
  predicate OtherControls(st: State, name: string, k: ObjKey) {
    && k in st.objects
    && exists i :: 0 <= i < |st.objects[k].owners| &&
         st.objects[k].owners[i].name != name && st.objects[k].owners[i].controller
  }

  /** When a share's finalizer is removed, another owner controls every object that was handed over and has
      another live owner. */
  lemma ReleaseLeavesController(st: State, f: Faults, name: string, k: ObjKey)
    requires WellOwned(st) && CurrentFor(st, name, k)
    requires name in st.shares && NextFor(st, f, st.shares[name]).Release?
    requires HandsOver(st.shares[name], k) && OtherLives(st, name, k)
    ensures OtherControls(st, name, k)
  {
    hide NextUpdate, NextFinalize, HandsOver, TransferStep;
    var s, refs := st.shares[name], st.objects[k].owners;
    NextJustified(st, f, s);
    ReleasedMeansIdle(st, f, s, k);
    IdleTransferIsControlled(st, f, s, k);
    var i :| 0 <= i < |refs| && !(refs[i].name == name && refs[i].uid == s.uid) && refs[i].controller;
    assert refs[i].name != name;
  }

  // ----- from the deletion to the release -----

  predicate OwnPasses(es: seq<Event>, name: string) {
    forall i :: 0 <= i < |es| ==> es[i].Pass? && es[i].name == name
  }

  /** What a departing share does not hand over keeps its owners and their flags. */
  lemma UnhandedStays(st: State, f: Faults, name: string, k: ObjKey)
    requires Keyed(st) && name in st.shares && st.shares[name].deleting && k in st.objects
    ensures k in Process(st, f, name).objects
    ensures !HandsOver(st.shares[name], k) ==> Process(st, f, name).objects[k].owners == st.objects[k].owners
    ensures SameOwners(Process(st, f, name).objects[k].owners, st.objects[k].owners)
  {
    hide NextFor, ConfigEdit, OwnKey, WellFormedRefs, HasController, ShareRefs, Excluding, WithController, Without,
         Apply;
    var s, a := st.shares[name], Next(st, f, name);
    NextJustified(st, f, s);
    assert a == NextFor(st, f, s) || a == Fail;
    ApplyOnOwners(st, s, a, k);
  }

  /** A pass of a departing share leaves it as it is, or takes its finalizer, and then nothing is left to do. */
  lemma DepartingPass(st: State, f: Faults, name: string)
    requires Keyed(st) && name in st.shares && st.shares[name].deleting
    ensures var st' := Process(st, f, name);
            || st'.shares == st.shares
            || (name in st'.shares && st'.shares[name].deleting && SHARE_FINALIZER !in st'.shares[name].finalizers)
  {
    hide NextUpdate, NextFinalize, ConfigEdit, OwnKey, WellFormedRefs, HasController, ShareRefs, Excluding,
         WithController, Without, Apply;
    var s, a := st.shares[name], Next(st, f, name);
    NextJustified(st, f, s);
    assert a == NextFor(st, f, s) || a == Fail;
    ApplyOnShares(st, s, a);
  }

  lemma {:induction false} ReleasedIsIdle(st: State, es: seq<Event>, name: string)
    requires name in st.shares && st.shares[name].deleting && SHARE_FINALIZER !in st.shares[name].finalizers
    requires OwnPasses(es, name)
    ensures Run(st, es) == st
    decreases |es|
  {
    hide NextUpdate, NextFinalize;
    if es == [] {
    } else {
      assert After(st, es[0]) == st;
      ReleasedIsIdle(st, es[1..], name);
    }
  }

  lemma OthersStay(st: State, st': State, name: string, k: ObjKey)
    requires k in st.objects && k in st'.objects && st'.shares == st.shares
    requires SameOwners(st'.objects[k].owners, st.objects[k].owners)
    ensures OtherLives(st', name, k) <==> OtherLives(st, name, k)
    ensures st'.objects[k].owners == st.objects[k].owners ==>
              (OtherControls(st', name, k) <==> OtherControls(st, name, k))
  {
  }

  /** For every object that another live share owns, whatever calls fail on the way: at the release another owner
      is in control if and only if the object was handed over or another owner was in control from the start. */
  lemma {:induction false} DepartureLeavesControllerIff(st: State, es: seq<Event>, f: Faults, name: string, k: ObjKey)
    requires WellOwned(st) && CurrentFor(st, name, k)
    requires name in st.shares && st.shares[name].deleting && OwnPasses(es, name)
    requires name in Run(st, es).shares && NextFor(Run(st, es), f, Run(st, es).shares[name]).Release?
    requires OtherLives(st, name, k)
    ensures Run(st, es).shares == st.shares
    ensures OtherControls(Run(st, es), name, k) <==> HandsOver(st.shares[name], k) || OtherControls(st, name, k)
    ensures k in Run(st, es).objects
    ensures !HandsOver(st.shares[name], k) ==> Run(st, es).objects[k].owners == st.objects[k].owners
    decreases |es|
  {
    hide Process, WellOwned, CurrentFor, HandsOver, NextFinalize, NextUpdate;
    if es == [] {
      if HandsOver(st.shares[name], k) {
        ReleaseLeavesController(st, f, name, k);
      }
    } else {
      var st' := Process(st, es[0].faults, name);
      WellOwnedIsKeyed(st);
      DepartingPass(st, es[0].faults, name);
      if st'.shares != st.shares {
        ReleasedIsIdle(st', es[1..], name);
        assert false;
      }
      PassKeepsWellOwned(st, es[0].faults, name);
      PassKeepsCurrentFor(st, es[0].faults, name, name, k);
      UnhandedStays(st, es[0].faults, name, k);
      OthersStay(st, st', name, k);
      DepartureLeavesControllerIff(st', es[1..], f, name, k);
    }
  }

  /** The workload of the backend that is recorded for the share. */
  function RecordedWorkload(s: Share): ObjKey {
    ObjKey(if Backend(s) == CLUSTERED_BACKEND then StatefulSet else Deployment, s.serverGroup)
  }

  /** The ConfigMap is always handed over; of the two workloads of the group the one that the spec asks for now, so
      the recorded one exactly when the spec still asks for its backend. */
  lemma WorkloadHandedOverIff(s: Share)
    ensures HandsOver(s, ConfigMapKey(s))
    ensures HandsOver(s, ObjKey(StatefulSet, s.serverGroup)) <==> Clustered(s.spec)
    ensures HandsOver(s, ObjKey(Deployment, s.serverGroup)) <==> !Clustered(s.spec)
    ensures Backend(s) in {CLUSTERED_BACKEND, STANDARD_BACKEND} ==>
              (HandsOver(s, RecordedWorkload(s)) <==> Backend(s) == BackendFor(s.spec))
  {
  }

  /** At its release a share leaves the ConfigMap with another controller. It leaves the workload of its backend with
      one if and only if its mode was not edited away from the backend, or another owner was in control already. */
  lemma WorkloadKeepsControllerIff(st: State, es: seq<Event>, f: Faults, name: string, k: ObjKey)
    requires WellOwned(st) && CurrentFor(st, name, k)
    requires name in st.shares && st.shares[name].deleting && OwnPasses(es, name)
    requires name in Run(st, es).shares && NextFor(Run(st, es), f, Run(st, es).shares[name]).Release?
    requires OtherLives(st, name, k) && Backend(st.shares[name]) in {CLUSTERED_BACKEND, STANDARD_BACKEND}
    ensures k == ConfigMapKey(st.shares[name]) ==> OtherControls(Run(st, es), name, k)
    ensures k == RecordedWorkload(st.shares[name]) ==>
              (OtherControls(Run(st, es), name, k) <==>
               Backend(st.shares[name]) == BackendFor(st.shares[name].spec) || OtherControls(st, name, k))
  {
    hide NextFor, Run, WellOwned, CurrentFor, OtherLives, OtherControls, HandsOver, OwnPasses;
    WorkloadHandedOverIff(st.shares[name]);
    DepartureLeavesControllerIff(st, es, f, name, k);
  }
}
