/** Who gets an object when its controller leaves: exactly the first other share in its references that is alive. */
module Heirs {
  import opened SmbApi
  import opened ContainerConfig
  import opened Ownership
  import opened Planning
  import opened Cluster
  import opened Reconcile
  import opened Justification
  import opened Provision

  /** The share was looked up, and it is missing or being deleted. */
  predicate PassedOver(st: State, f: Faults, r: OwnerRef) {
    GetShare(r.name) !in f && (r.name in st.shares ==> st.shares[r.name].deleting)
  }

  /** The share was looked up, and it is there to stay. */
  predicate Eligible(st: State, f: Faults, r: OwnerRef) {
    GetShare(r.name) !in f && r.name in st.shares && !st.shares[r.name].deleting
  }

  /** The reference is to a share other than the departing one. */
  predicate IsOther(s: Share, r: OwnerRef) {
    && r.api.GroupVersion? && r.api.group == "samba-operator.samba.org" && r.kind == "SmbShare"
    && !(r.name == s.name && r.uid == s.uid)
  }

  // ----- the search -----

  /** How many references are passed over before the search stops. */
  function Passed(st: State, f: Faults, refs: seq<OwnerRef>): (n: nat)
    ensures n <= |refs| && forall j :: 0 <= j < n ==> PassedOver(st, f, refs[j])
    ensures n < |refs| ==> !PassedOver(st, f, refs[n])
  {
    if refs == [] || !PassedOver(st, f, refs[0]) then 0 else 1 + Passed(st, f, refs[1..])
  }

  lemma {:induction false} StopsAt(st: State, f: Faults, refs: seq<OwnerRef>)
    ensures var n := Passed(st, f, refs);
            PickOwner(st, f, refs) ==
            if n == |refs| then NoPick else if GetShare(refs[n].name) in f then PickError else Picked(refs[n])
  {
    if refs == [] {
    } else {
      StopsAt(st, f, refs[1..]);
    }
  }

  /** The search picks the first reference whose share is alive, and ends with an error at the first failing call
      if that comes before. */
  lemma PickOwnerIff(st: State, f: Faults, refs: seq<OwnerRef>, r: OwnerRef)
    ensures PickOwner(st, f, refs) == Picked(r) <==>
            exists i :: 0 <= i < |refs| && refs[i] == r && Eligible(st, f, r)
              && forall j :: 0 <= j < i ==> PassedOver(st, f, refs[j])
    ensures PickOwner(st, f, refs).PickError? <==>
            exists i :: 0 <= i < |refs| && GetShare(refs[i].name) in f
              && forall j :: 0 <= j < i ==> PassedOver(st, f, refs[j])
    ensures PickOwner(st, f, refs).NoPick? <==> forall j :: 0 <= j < |refs| ==> PassedOver(st, f, refs[j])
  {
    hide PickOwner;
    StopsAt(st, f, refs);
    var n := Passed(st, f, refs);
    assert forall i {:trigger refs[i]} :: n < i < |refs| ==> !(forall j :: 0 <= j < i ==> PassedOver(st, f, refs[j]));
  }

  // ----- the transfer -----

  predicate Skipped(st: State, f: Faults, s: Share, r: OwnerRef) {
    IsOther(s, r) ==> PassedOver(st, f, r)
  }

  /** The owner is another share that is alive, and every other share before it is missing or being deleted. */
  ghost predicate IsHeir(st: State, f: Faults, s: Share, refs: seq<OwnerRef>, c: nat) {
    && c < |refs| && IsOther(s, refs[c]) && Eligible(st, f, refs[c])
    && forall j :: 0 <= j < c ==> Skipped(st, f, s, refs[j])
  }

  function SkippedCount(st: State, f: Faults, s: Share, refs: seq<OwnerRef>): (n: nat)
    ensures n <= |refs| && forall j :: 0 <= j < n ==> Skipped(st, f, s, refs[j])
    ensures n < |refs| ==> !Skipped(st, f, s, refs[n])
  {
    if refs == [] || !Skipped(st, f, s, refs[0]) then 0 else 1 + SkippedCount(st, f, s, refs[1..])
  }

  lemma ShareRefsFirst(refs: seq<OwnerRef>)
    requires refs != []
    ensures ShareRefs(refs) == (if IsShareRef(refs[0]) then [refs[0]] else []) + ShareRefs(refs[1..])
  {
  }

  lemma ExcludingFirst(r: OwnerRef, rest: seq<OwnerRef>, name: string, uid: string)
    ensures Excluding([r] + rest, name, uid) ==
            (if r.name != name || r.uid != uid then [r] else []) + Excluding(rest, name, uid)
  {
    assert ([r] + rest)[1..] == rest;
  }

  lemma FirstOfOthers(s: Share, refs: seq<OwnerRef>)
    requires refs != []
    ensures Excluding(ShareRefs(refs), s.name, s.uid) ==
            (if IsOther(s, refs[0]) then [refs[0]] else []) + Excluding(ShareRefs(refs[1..]), s.name, s.uid)
  {
    hide ShareRefs, Excluding;
    var rest := ShareRefs(refs[1..]);
    ShareRefsFirst(refs);
    ExcludingFirst(refs[0], rest, s.name, s.uid);
    assert [] + rest == rest;
  }

  lemma PicksFurther(st: State, f: Faults, r: OwnerRef, rest: seq<OwnerRef>)
    ensures PickOwner(st, f, [r] + rest) ==
            if GetShare(r.name) in f then PickError
            else if PassedOver(st, f, r) then PickOwner(st, f, rest) else Picked(r)
  {
    assert ([r] + rest)[1..] == rest;
  }

  lemma {:induction false} HeirAt(st: State, f: Faults, s: Share, refs: seq<OwnerRef>)
    ensures var n := SkippedCount(st, f, s, refs);
            PickOwner(st, f, Excluding(ShareRefs(refs), s.name, s.uid)) ==
            if n == |refs| then NoPick else if GetShare(refs[n].name) in f then PickError else Picked(refs[n])
  {
    if refs == [] {
    } else {
      hide ShareRefs, Excluding, PickOwner;
      HeirAt(st, f, s, refs[1..]);
      var rest := Excluding(ShareRefs(refs[1..]), s.name, s.uid);
      FirstOfOthers(s, refs);
      PicksFurther(st, f, refs[0], rest);
      assert [] + rest == rest;
    }
  }

  lemma OthersInControl(s: Share, refs: seq<OwnerRef>)
    ensures HasController(Excluding(ShareRefs(refs), s.name, s.uid)) <==>
            exists i :: 0 <= i < |refs| && IsOther(s, refs[i]) && refs[i].controller
  {
    hide ShareRefs, Excluding;
    var others := Excluding(ShareRefs(refs), s.name, s.uid);
    assert forall r :: r in others <==> r in refs && IsOther(s, r);
    if i :| 0 <= i < |refs| && IsOther(s, refs[i]) && refs[i].controller {
      assert refs[i] in others;
    }
    if HasController(others) {
      var j :| 0 <= j < |others| && others[j].controller;
      assert others[j] in refs;
    }
  }

  /** An object is handed to r if and only if its references parse, no other share controls it yet, r is its heir and
      the update does not fail. */
  lemma TransferIff(st: State, f: Faults, s: Share, k: ObjKey, o: Object, r: OwnerRef)
    requires "" !in st.shares
    ensures TransferStep(st, f, s, k, o) == Transfer(k, r) <==>
            && (forall i :: 0 <= i < |o.owners| ==> o.owners[i].api.GroupVersion?)
            && !(exists i :: 0 <= i < |o.owners| && IsOther(s, o.owners[i]) && o.owners[i].controller)
            && (exists c: nat :: IsHeir(st, f, s, o.owners, c) && o.owners[c] == r)
            && UpdateObject(k) !in f
  {
    hide PickOwner, ShareRefs, Excluding, HasController;
    var refs := o.owners;
    OthersInControl(s, refs);
    HeirAt(st, f, s, refs);
    var n := SkippedCount(st, f, s, refs);
    if n < |refs| && Eligible(st, f, refs[n]) {
      assert IsHeir(st, f, s, refs, n);
    }
    forall c: nat | IsHeir(st, f, s, refs, c) ensures c == n {
      assert !Skipped(st, f, s, refs[c]);
    }
  }

  lemma OnlyTransfers(st: State, f: Faults, s: Share, k: ObjKey, o: Object)
    ensures var a := TransferStep(st, f, s, k, o);
            a.Idle? || a.Fail? || (a.Transfer? && a.key == k)
  {
    hide PickOwner, ShareRefs, Excluding, WellFormedRefs, HasController;
  }

  lemma NeverTransfers(st: State, f: Faults, s: Share)
    ensures ConfigMapKey(s) in st.objects ==>
              !PruneStep(st, f, s, ConfigMapKey(s), st.objects[ConfigMapKey(s)]).Transfer?
  {
    hide Pruned, Reload;
  }

  lemma HandedOver(st: State, f: Faults, s: Share, k: ObjKey, r: OwnerRef)
    requires NextFinalize(st, f, s) == Transfer(k, r)
    ensures k in st.objects && TransferStep(st, f, s, k, st.objects[k]) == Transfer(k, r)
  {
    hide TransferStep, PruneStep, Without, PvcName;
    forall key | key in st.objects
      ensures var a := TransferStep(st, f, s, key, st.objects[key]);
              a.Transfer? ==> a.key == key
    {
      OnlyTransfers(st, f, s, key, st.objects[key]);
    }
    NeverTransfers(st, f, s);
  }

  /** Whatever a pass hands over goes to the heir: the first other share in the object's references, as the store has
      it, that exists and is not being deleted. Before, no other share was in control. */
  lemma PassHandsToHeir(st: State, f: Faults, name: string, k: ObjKey, r: OwnerRef)
    requires Keyed(st) && Next(st, f, name) == Transfer(k, r)
    ensures name in st.shares && st.shares[name].deleting && k in st.objects
    ensures var s, refs := st.shares[name], st.objects[k].owners;
            && (exists c: nat :: IsHeir(st, f, s, refs, c) && refs[c] == r)
            && forall i :: 0 <= i < |refs| && IsOther(s, refs[i]) ==> !refs[i].controller
  {
    hide NextUpdate, NextFinalize, TransferStep, ConfigEdit, OwnKey, ShareEdit, InitialFor;
    var s := st.shares[name];
    NextJustified(st, f, s);
    assert NextFor(st, f, s) == Transfer(k, r);
    HandedOver(st, f, s, k, r);
    TransferIff(st, f, s, k, st.objects[k], r);
  }

  // ----- in which order a share lets go -----

  /** The object is gone, or another share controls it, or no other share could. */
  ghost predicate LetGo(st: State, f: Faults, s: Share, k: ObjKey) {
    k in st.objects ==>
      var refs := st.objects[k].owners;
      && (forall i :: 0 <= i < |refs| ==> refs[i].api.GroupVersion?)
      && ((exists i :: 0 <= i < |refs| && IsOther(s, refs[i]) && refs[i].controller)
          || forall i :: 0 <= i < |refs| && IsOther(s, refs[i]) ==> PassedOver(st, f, refs[i]))
  }

  /** The group's configuration does not mention the share. */
  predicate Unmentioned(st: State, s: Share) {
    var k, key := ObjKey(ConfigMap, s.serverGroup), if s.spec.shareName != "" then s.spec.shareName else s.name;
    k in st.objects ==>
      && LoadConfig(st.objects[k].data).Some?
      && var c := LoadConfig(st.objects[k].data).value;
         && key !in c.shares
         && (s.serverGroup in c.configs ==> key !in c.configs[s.serverGroup].shares)
  }

  lemma IdleIff(st: State, f: Faults, s: Share, k: ObjKey)
    requires "" !in st.shares && k in st.objects
    ensures TransferStep(st, f, s, k, st.objects[k]).Idle? <==> LetGo(st, f, s, k)
  {
    hide PickOwner, ShareRefs, Excluding, HasController;
    var refs := st.objects[k].owners;
    OthersInControl(s, refs);
    HeirAt(st, f, s, refs);
    var n := SkippedCount(st, f, s, refs);
    if n < |refs| {
      assert !Skipped(st, f, s, refs[n]);
    }
  }

  lemma NothingThere(st: State, f: Faults, s: Share, k: ObjKey)
    requires k !in st.objects
    ensures LetGo(st, f, s, k)
  {
  }

  lemma HandOverIdle(st: State, f: Faults, s: Share, k: ObjKey)
    requires "" !in st.shares
    ensures HandOver(st, f, s, k).Idle? ==> LetGo(st, f, s, k)
    ensures HandOver(st, f, s, k).Transfer? ==> HandOver(st, f, s, k).key == k
    ensures var a := HandOver(st, f, s, k);
            a.Idle? || a.Fail? || a.Transfer?
  {
    hide TransferStep, LetGo;
    if k in st.objects {
      IdleIff(st, f, s, k);
      OnlyTransfers(st, f, s, k, st.objects[k]);
    } else {
      NothingThere(st, f, s, k);
    }
  }

  lemma PruneIdle(st: State, f: Faults, s: Share)
    requires ConfigMapKey(s) in st.objects
    ensures var a := PruneStep(st, f, s, ConfigMapKey(s), st.objects[ConfigMapKey(s)]);
            && (a.Idle? || a.Fail? || a.Crash? || a.SaveConfig?)
            && (a.Idle? ==> Unmentioned(st, s))
  {
    hide LoadConfig, Reload;
    var c, key := LoadConfig(st.objects[ConfigMapKey(s)].data), BareInstance(st, s).ShareName();
    if c.Some? && s.serverGroup in c.value.configs {
      RemoveFirstAbsent(c.value.configs[s.serverGroup].shares, key);
    }
  }

  lemma ConfigMapFirst(st: State, f: Faults, s: Share)
    requires "" !in st.shares
    ensures var a, k := ConfigMapFinal(st, f, s), ObjKey(ConfigMap, s.serverGroup);
            && (a.Idle? || a.Fail? || a.Crash? || a.SaveConfig? || (a.Transfer? && a.key == k))
            && (a.Idle? ==> LetGo(st, f, s, k) && Unmentioned(st, s))
            && (a.SaveConfig? ==> LetGo(st, f, s, k))
  {
    hide TransferStep, PruneStep, LetGo;
    if ConfigMapKey(s) in st.objects {
      IdleIff(st, f, s, ConfigMapKey(s));
      OnlyTransfers(st, f, s, ConfigMapKey(s), st.objects[ConfigMapKey(s)]);
      PruneIdle(st, f, s);
    } else {
      NothingThere(st, f, s, ConfigMapKey(s));
    }
  }

  /** A departing share lets go in this order: the ConfigMap, its section in there, the workload, the state PVC, the PVC
      it brought along. Only when all of that is done does it lose its finalizer. */
  lemma FinalizeInOrder(st: State, f: Faults, s: Share)
    requires "" !in st.shares
    ensures var a, cm := NextFinalize(st, f, s), ObjKey(ConfigMap, s.serverGroup);
            && (a.SaveConfig? ==> LetGo(st, f, s, cm))
            && (a.Transfer? && a.key != cm ==> LetGo(st, f, s, cm) && Unmentioned(st, s))
            && (a.Transfer? && a.key.kind == Pvc ==>
                  LetGo(st, f, s, ObjKey(if WantsCluster(s) then StatefulSet else Deployment, s.serverGroup)))
            && (a.Release? ==>
                  && Unmentioned(st, s)
                  && (forall k :: ShareObject(s, k) && k.kind != Service ==> LetGo(st, f, s, k))
                  && a.share == s.(finalizers := Without(s.finalizers, "samba-operator.samba.org/shareFinalizer")))
  {
    hide ConfigMapFinal, HandOver, LetGo, Unmentioned, Without;
    ConfigMapFirst(st, f, s);
    HandOverIdle(st, f, s, WorkloadKey(s));
    HandOverIdle(st, f, s, StatePvcKey(s));
    if NeedsPvc(s) {
      HandOverIdle(st, f, s, DataPvcKey(s));
    }
  }
}
