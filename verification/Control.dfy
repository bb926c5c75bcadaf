/** Exactly which events keep a controller in place for every object that a live share owns. */
module Control {
  import opened SmbApi
  import opened Ownership
  import opened Cluster
  import opened Reconcile
  import opened Justification
  import opened Runs
  import opened Controllers

  /** The share the reference is to, and not another one of its name. */
  predicate There(st: State, r: OwnerRef) {
    r.name in st.shares && st.shares[r.name].uid == r.uid
  }

  predicate LiveRef(st: State, r: OwnerRef) {
    There(st, r) && !st.shares[r.name].deleting
  }

  /** In control, and bound to hand over before it can go. */
  predicate FirmRef(st: State, r: OwnerRef) {
    r.controller && There(st, r) && SHARE_FINALIZER in st.shares[r.name].finalizers
  }

  predicate LiveOwner(st: State, k: ObjKey) {
    k in st.objects && exists i :: 0 <= i < |st.objects[k].owners| && LiveRef(st, st.objects[k].owners[i])
  }

  predicate FirmController(st: State, k: ObjKey) {
    k in st.objects && exists i :: 0 <= i < |st.objects[k].owners| && FirmRef(st, st.objects[k].owners[i])
  }

  /** If a live share owns the object, then a share that exists controls it. */
  predicate Controlled(st: State, k: ObjKey) {
    LiveOwner(st, k) ==> FirmController(st, k)
  }

  predicate OwnersFinalized(st: State, k: ObjKey) {
    k in st.objects ==>
      forall i :: 0 <= i < |st.objects[k].owners| && LiveRef(st, st.objects[k].owners[i]) ==>
        SHARE_FINALIZER in st.shares[st.objects[k].owners[i].name].finalizers
  }

  /** No share is created with the name and the uid of a reference that is there already. */
  predicate FreshUid(st: State, e: Event, k: ObjKey) {
    e.AddShare? && k in st.objects ==>
      forall i :: 0 <= i < |st.objects[k].owners| ==>
        !(st.objects[k].owners[i].name == e.share.name && st.objects[k].owners[i].uid == e.share.uid)
  }

  /** The share is in control of the object. */
  predicate Controls(st: State, s: Share, k: ObjKey) {
    && k in st.objects
    && exists i :: 0 <= i < |st.objects[k].owners| &&
         var r := st.objects[k].owners[i];
         r.controller && r.name == s.name && r.uid == s.uid
  }

  /** What can be looked up before an event: it is not a claim of an object nobody controls, a transfer to a reference
      that is out of date, or a release by the controller, while a live share owns the object. */
  predicate Orderly(st: State, e: Event, k: ObjKey) {
    e.Pass? && e.name in st.shares ==>
      match Next(st, e.faults, e.name)
      case ClaimObject(key) => key == k ==> FirmController(st, k)
      case Transfer(key, to) => key == k && LiveOwner(st, k) ==> There(st, to)
      case Release(_) => Controls(st, st.shares[e.name], k) ==> !LiveOwner(st, k)
      case _ => true
  }

  // ----- what does not matter -----

  /** The same owners, and no share of theirs came, went, was marked or lost the finalizer; some may have gained it. */
  ghost predicate SameStanding(st: State, st': State, k: ObjKey) {
    && k in st.objects && k in st'.objects && st'.objects[k].owners == st.objects[k].owners
    && forall i :: 0 <= i < |st.objects[k].owners| ==>
         var r := st.objects[k].owners[i];
         && (LiveRef(st', r) ==> LiveRef(st, r))
         && (FirmRef(st, r) ==> FirmRef(st', r))
         && (LiveRef(st', r) && SHARE_FINALIZER in st.shares[r.name].finalizers ==>
               SHARE_FINALIZER in st'.shares[r.name].finalizers)
  }

  lemma StandingKeepsControl(st: State, st': State, k: ObjKey)
    requires Controlled(st, k) && OwnersFinalized(st, k) && SameStanding(st, st', k)
    ensures Controlled(st', k) && OwnersFinalized(st', k)
  {
  }

  // ----- the three events that matter -----

  /** An object is made or claimed by a share that has its finalizer. */
  lemma TakerHasFinalizer(st: State, f: Faults, s: Share)
    requires NextFor(st, f, s).Create? || NextFor(st, f, s).ClaimObject?
    ensures !s.deleting && SHARE_FINALIZER in s.finalizers
  {
    hide ConfigMapStep, GroupStep, PvcStep, NextServer, NextFinalize, ConfigEdit, OwnKey, ShareEdit, InitialFor;
    NextJustified(st, f, s);
  }

  lemma ClaimKeepsControlIff(st: State, s: Share, k: ObjKey)
    requires s.name in st.shares && st.shares[s.name] == s && !s.deleting && SHARE_FINALIZER in s.finalizers
    requires k in st.objects && OwnersFinalized(st, k)
    ensures var st' := Apply(st, s, ClaimObject(k));
            OwnersFinalized(st', k) && (Controlled(st', k) <==> FirmController(st, k))
  {
    var st', own := Apply(st, s, ClaimObject(k)), ShareRef(s.name, s.uid, false);
    var refs := st.objects[k].owners;
    assert st'.objects[k].owners == refs + [own];
    assert (refs + [own])[|refs|] == own && LiveRef(st', own);
    assert forall i :: 0 <= i < |refs| ==> (refs + [own])[i] == refs[i];
    if i :| 0 <= i < |refs| && FirmRef(st, refs[i]) {
      assert FirmRef(st', (refs + [own])[i]);
    }
  }

  lemma TransferKeepsControlIff(st: State, s: Share, k: ObjKey, to: OwnerRef)
    requires k in st.objects && OwnersFinalized(st, k) && to in st.objects[k].owners
    requires There(st, to) ==> !st.shares[to.name].deleting
    ensures var st' := Apply(st, s, Transfer(k, to));
            OwnersFinalized(st', k) && (Controlled(st', k) <==> (LiveOwner(st, k) ==> There(st, to)))
  {
  }

  lemma ReleaseKeepsControlIff(st: State, s: Share, s': Share, k: ObjKey)
    requires k in st.objects && AtMostOneController(st.objects[k].owners)
    requires Controlled(st, k) && OwnersFinalized(st, k)
    requires s.name in st.shares && st.shares[s.name] == s && s.deleting
    requires s' == s.(finalizers := Without(s.finalizers, SHARE_FINALIZER))
    ensures var st' := Apply(st, s, Release(s'));
            OwnersFinalized(st', k) && (Controlled(st', k) <==> (Controls(st, s, k) ==> !LiveOwner(st, k)))
  {
    hide Without;
    var st', refs := Apply(st, s, Release(s')), st.objects[k].owners;
    assert forall i :: 0 <= i < |refs| ==> (LiveRef(st', refs[i]) <==> LiveRef(st, refs[i]));
    assert LiveOwner(st', k) <==> LiveOwner(st, k) by {
      if i :| 0 <= i < |refs| && LiveRef(st, refs[i]) {
        assert LiveRef(st', refs[i]);
      }
    }
    if Controls(st, s, k) {
      var c :| 0 <= c < |refs| && refs[c].controller && refs[c].name == s.name && refs[c].uid == s.uid;
      assert forall i :: 0 <= i < |refs| && refs[i].controller ==> i == c;
      assert !FirmController(st', k);
    } else if i :| 0 <= i < |refs| && FirmRef(st, refs[i]) {
      assert refs[i].name != s.name;
      assert FirmRef(st', refs[i]);
    }
  }

  // ----- one event -----

  lemma SavingStands(st: State, s: Share, s': Share, k: ObjKey)
    requires s.name in st.shares && st.shares[s.name] == s && k in st.objects && ShareEdit(s, s')
    ensures SameStanding(st, Apply(st, s, SaveShare(s')), k)
  {
    hide ChooseGroup, PvcName, BackendFor;
  }

  lemma OneControllerAt(st: State, k: ObjKey)
    requires WellOwned(st) && k in st.objects
    ensures AtMostOneController(st.objects[k].owners) && DistinctNames(st.objects[k].owners)
    ensures forall r :: r in st.objects[k].owners ==> IsShareRef(r)
  {
  }

  lemma MadeIsControlled(st: State, f: Faults, name: string, k: ObjKey)
    requires Keyed(st) && name in st.shares && k !in st.objects
    ensures OwnersFinalized(Process(st, f, name), k) && Controlled(Process(st, f, name), k)
    ensures Orderly(st, Pass(name, f), k)
  {
    hide NextFor, ConfigEdit, OwnKey, SharedKey, ShareEdit, NamesOwner, WellFormedRefs, HasController, Wanted,
         ShareRefs, Excluding, WithController, Without;
    var s, st' := st.shares[name], Process(st, f, name);
    NextJustified(st, f, s);
    var a := Next(st, f, name);
    assert a == NextFor(st, f, s) || a == Fail;
    if k in st'.objects {
      TakerHasFinalizer(st, f, s);
      assert st'.objects[k].owners[0] == ShareRef(name, s.uid, true);
    }
  }

  lemma PassKeepsControlIff(st: State, f: Faults, name: string, k: ObjKey)
    requires WellOwned(st) && name in st.shares && k in st.objects && Controlled(st, k) && OwnersFinalized(st, k)
    ensures OwnersFinalized(Process(st, f, name), k)
    ensures Controlled(Process(st, f, name), k) <==> Orderly(st, Pass(name, f), k)
  {
    hide NextFor, ConfigEdit, OwnKey, SharedKey, ShareEdit, InitialFor, NamesOwner, WellFormedRefs, HasController,
         Wanted, ShareRefs, Excluding, WithController, Without, RefsOk, AtMostOneController, Controlled,
         OwnersFinalized, FirmController, LiveOwner, Controls;
    var s, st' := st.shares[name], Process(st, f, name);
    NextJustified(st, f, s);
    OneControllerAt(st, k);
    var a := Next(st, f, name);
    assert a == NextFor(st, f, s) || a == Fail;
    match a
    case SaveShare(s') =>
      SavingStands(st, s, s', k);
      StandingKeepsControl(st, st', k);
    case Release(s') => ReleaseKeepsControlIff(st, s, s', k);
    case ClaimObject(key) =>
      if key == k {
        TakerHasFinalizer(st, f, s);
        ClaimKeepsControlIff(st, s, k);
      } else {
        StandingKeepsControl(st, st', k);
      }
    case Transfer(key, to) =>
      if key == k {
        TransferKeepsControlIff(st, s, k, to);
      } else {
        StandingKeepsControl(st, st', k);
      }
    case _ => StandingKeepsControl(st, st', k);
  }

  lemma SharesDecide(st: State, st': State)
    requires st'.shares == st.shares
    ensures forall r :: (LiveRef(st', r) <==> LiveRef(st, r)) && (FirmRef(st', r) <==> FirmRef(st, r))
  {
  }

  lemma FirmIsThere(st: State, r: OwnerRef)
    requires FirmRef(st, r)
    ensures !OwnerGone(st, r)
  {
  }

  lemma FewerOwners(st: State, st': State, k: ObjKey)
    requires st'.shares == st.shares && k in st.objects && k in st'.objects
    requires forall r :: r in st'.objects[k].owners <==> r in st.objects[k].owners && !OwnerGone(st, r)
    requires Controlled(st, k) && OwnersFinalized(st, k)
    ensures Controlled(st', k) && OwnersFinalized(st', k)
  {
    hide FirmRef, OwnerGone;
    var refs, left := st.objects[k].owners, st'.objects[k].owners;
    SharesDecide(st, st');
    forall j | 0 <= j < |left| && LiveRef(st', left[j])
      ensures LiveRef(st, left[j]) && left[j].name in st.shares
      ensures SHARE_FINALIZER in st.shares[left[j].name].finalizers && FirmController(st', k)
    {
      assert left[j] in refs;
      var i :| 0 <= i < |refs| && FirmRef(st, refs[i]);
      FirmIsThere(st, refs[i]);
      assert refs[i] in left;
    }
  }

  lemma PruningKeepsControl(st: State, k: ObjKey)
    requires k in st.objects && Controlled(st, k) && OwnersFinalized(st, k)
    ensures Controlled(After(st, PruneOwners(k)), k) && OwnersFinalized(After(st, PruneOwners(k)), k)
  {
    hide AllGone, Controlled, OwnersFinalized, OwnerGone;
    if After(st, PruneOwners(k)) != st {
      FewerOwners(st, After(st, PruneOwners(k)), k);
    }
  }

  lemma OtherEventOnObject(st: State, e: Event, k: ObjKey)
    requires k in st.objects && !e.Pass? && e != PruneOwners(k) && k in After(st, e).objects
    ensures After(st, e).objects[k].owners == st.objects[k].owners
  {
    hide AllGone, Present;
  }

  lemma OtherEventOnRef(st: State, e: Event, k: ObjKey, i: nat)
    requires k in st.objects && i < |st.objects[k].owners| && FreshUid(st, e, k) && !e.Pass?
    ensures var r, st' := st.objects[k].owners[i], After(st, e);
            && (LiveRef(st', r) ==> LiveRef(st, r))
            && (FirmRef(st, r) ==> FirmRef(st', r))
            && (LiveRef(st', r) ==> r.name in st.shares && r.name in st'.shares)
            && (LiveRef(st', r) && SHARE_FINALIZER in st.shares[r.name].finalizers ==>
                  SHARE_FINALIZER in st'.shares[r.name].finalizers)
  {
    hide AllGone, Present;
  }

  lemma OtherEventStands(st: State, e: Event, k: ObjKey)
    requires k in st.objects && FreshUid(st, e, k) && !e.Pass? && e != PruneOwners(k) && k in After(st, e).objects
    ensures SameStanding(st, After(st, e), k)
  {
    hide After, FreshUid, LiveRef, FirmRef;
    OtherEventOnObject(st, e, k);
    forall i | 0 <= i < |st.objects[k].owners|
      ensures var r := st.objects[k].owners[i];
              && (LiveRef(After(st, e), r) ==> LiveRef(st, r))
              && (FirmRef(st, r) ==> FirmRef(After(st, e), r))
              && (LiveRef(After(st, e), r) ==> r.name in st.shares && r.name in After(st, e).shares)
              && (LiveRef(After(st, e), r) && SHARE_FINALIZER in st.shares[r.name].finalizers ==>
                    SHARE_FINALIZER in After(st, e).shares[r.name].finalizers)
    {
      OtherEventOnRef(st, e, k, i);
    }
  }

  lemma AbsentIsControlled(st: State, k: ObjKey)
    requires k !in st.objects
    ensures Controlled(st, k) && OwnersFinalized(st, k)
  {
  }

  lemma OtherEventKeepsControl(st: State, e: Event, k: ObjKey)
    requires WellOwned(st) && k in st.objects && Controlled(st, k) && OwnersFinalized(st, k) && FreshUid(st, e, k)
    requires !e.Pass?
    ensures Controlled(After(st, e), k) && OwnersFinalized(After(st, e), k)
  {
    hide After, WellOwned, SameStanding, FreshUid, Controlled, OwnersFinalized;
    if e == PruneOwners(k) {
      PruningKeepsControl(st, k);
    } else if k in After(st, e).objects {
      OtherEventStands(st, e, k);
      StandingKeepsControl(st, After(st, e), k);
    } else {
      AbsentIsControlled(After(st, e), k);
    }
  }

  /** An event leaves the object controlled if and only if it is orderly. */
  lemma EventKeepsControlIff(st: State, e: Event, k: ObjKey)
    requires WellOwned(st) && Controlled(st, k) && OwnersFinalized(st, k) && FreshUid(st, e, k)
    ensures OwnersFinalized(After(st, e), k)
    ensures Controlled(After(st, e), k) <==> Orderly(st, e, k)
  {
    hide Process, Next, RefsOk, Controlled, OwnersFinalized, FirmController, LiveOwner, Controls, Present;
    WellOwnedIsKeyed(st);
    if e.Pass? && e.name in st.shares {
      if k in st.objects {
        PassKeepsControlIff(st, e.faults, e.name, k);
      } else {
        MadeIsControlled(st, e.faults, e.name, k);
      }
    } else if e.Pass? {
      IdlePass(st, e.faults, e.name);
    } else if k in st.objects {
      OtherEventKeepsControl(st, e, k);
    } else {
      AbsentIsControlled(After(st, e), k);
    }
  }

  // ----- whole runs -----

  ghost predicate FreshUids(st: State, es: seq<Event>, k: ObjKey)
    decreases |es|
  {
    es == [] || (FreshUid(st, es[0], k) && FreshUids(After(st, es[0]), es[1..], k))
  }

  ghost predicate OrderlyRun(st: State, es: seq<Event>, k: ObjKey)
    decreases |es|
  {
    es == [] || (Orderly(st, es[0], k) && OrderlyRun(After(st, es[0]), es[1..], k))
  }

  ghost predicate ControlledThroughout(st: State, es: seq<Event>, k: ObjKey)
    decreases |es|
  {
    Controlled(st, k) && (es == [] || ControlledThroughout(After(st, es[0]), es[1..], k))
  }

  lemma {:induction false} RunKeepsControlIff(st: State, es: seq<Event>, k: ObjKey)
    requires WellOwned(st) && Controlled(st, k) && OwnersFinalized(st, k) && FreshUids(st, es, k)
    ensures ControlledThroughout(st, es, k) <==> OrderlyRun(st, es, k)
    decreases |es|
  {
    hide After, WellOwned, Controlled, OwnersFinalized, FreshUid, Orderly;
    if es == [] {
    } else {
      EventKeepsControlIff(st, es[0], k);
      EventKeepsWellOwned(st, es[0]);
      if Orderly(st, es[0], k) {
        RunKeepsControlIff(After(st, es[0]), es[1..], k);
      }
    }
  }

  /** In every run from the empty store, whatever calls fail: whenever a live share owns the object, a share that
      exists controls it, if and only if nobody claims it while it has no such controller, control is handed to
      nobody who is gone, and its controller is not released while a live share owns it. */
  lemma ControlledIffOrderly(operator: OperatorConfig, es: seq<Event>, k: ObjKey)
    requires FreshUids(EmptyStore(operator), es, k)
    ensures ControlledThroughout(EmptyStore(operator), es, k) <==> OrderlyRun(EmptyStore(operator), es, k)
  {
    hide ControlledThroughout, OrderlyRun, FreshUids;
    EmptyIsFine(operator, "", k);
    AbsentIsControlled(EmptyStore(operator), k);
    RunKeepsControlIff(EmptyStore(operator), es, k);
  }

  // ----- where the operator is orderly by itself -----

  /** A release is orderly for everything that was handed over. */
  lemma HandedOverIsOrderly(st: State, f: Faults, name: string, k: ObjKey)
    requires WellOwned(st) && CurrentFor(st, name, k)
    requires name in st.shares && Next(st, f, name).Release? && HandsOver(st.shares[name], k)
    ensures Orderly(st, Pass(name, f), k)
  {
    hide NextFor, HandsOver, RefsOk;
    var s := st.shares[name];
    NextJustified(st, f, s);
    if Controls(st, s, k) && LiveOwner(st, k) {
      var i :| 0 <= i < |st.objects[k].owners| && LiveRef(st, st.objects[k].owners[i]);
      assert st.objects[k].owners[i].name != name && Alive(st, st.objects[k].owners[i]);
      ReleaseLeavesController(st, f, name, k);
      OneControllerAt(st, k);
      assert false;
    }
  }

  /** A transfer is orderly if its reference is up to date. */
  lemma CurrentTransferIsOrderly(st: State, f: Faults, name: string, k: ObjKey, to: OwnerRef)
    requires WellOwned(st) && name in st.shares && Next(st, f, name) == Transfer(k, to) && CurrentFor(st, to.name, k)
    ensures Orderly(st, Pass(name, f), k)
  {
    hide NextFor, ConfigEdit, OwnKey, WellFormedRefs, HasController;
    NextJustified(st, f, st.shares[name]);
  }
}
