/** While a share exists, what it has finished setting up is never garbage-collected. */
module Survival {
  import opened SmbApi
  import opened Ownership
  import opened Cluster
  import opened Reconcile
  import opened Justification
  import opened Runs

  /** The share exists before and after every event. */
  ghost predicate Lives(st: State, es: seq<Event>, name: string)
    decreases |es|
  {
    name in st.shares && (es == [] || Lives(After(st, es[0]), es[1..], name))
  }

  predicate Owns(refs: seq<OwnerRef>, name: string, uid: string) {
    exists i :: 0 <= i < |refs| && IsShareRef(refs[i]) && refs[i].name == name && refs[i].uid == uid
  }

  /** The object exists and the existing share is one of its owners. */
  ghost predicate Anchored(st: State, name: string, k: ObjKey) {
    name in st.shares && k in st.objects && Owns(st.objects[k].owners, name, st.shares[name].uid)
  }

  lemma OwnsAppended(refs: seq<OwnerRef>, r: OwnerRef, name: string, uid: string)
    requires Owns(refs, name, uid)
    ensures Owns(refs + [r], name, uid)
  {
    var i :| 0 <= i < |refs| && IsShareRef(refs[i]) && refs[i].name == name && refs[i].uid == uid;
    assert (refs + [r])[i] == refs[i];
  }

  lemma OwnsTransferred(refs: seq<OwnerRef>, to: OwnerRef, name: string, uid: string)
    ensures Owns(WithController(refs, to.name, to.uid), name, uid) <==> Owns(refs, name, uid)
  {
  }

  lemma PassKeepsAnchor(st: State, e: Event, name: string, k: ObjKey)
    requires Keyed(st) && e.Pass? && Anchored(st, name, k)
    ensures Anchored(After(st, e), name, k)
  {
    hide Process, Owns;
    if e.name !in st.shares {
      IdlePass(st, e.faults, e.name);
    } else {
      PassOnShares(st, e.faults, e.name);
      PassOnOwners(st, e.faults, e.name, k);
      var s, refs := st.shares[e.name], st.objects[k].owners;
      var refs' := After(st, e).objects[k].owners;
      if refs' == refs + [ShareRef(s.name, s.uid, false)] {
        OwnsAppended(refs, ShareRef(s.name, s.uid, false), name, st.shares[name].uid);
      } else if refs' != refs {
        var to: OwnerRef :| refs' == WithController(refs, to.name, to.uid);
        OwnsTransferred(refs, to, name, st.shares[name].uid);
      }
    }
  }

  /** No event takes an owned object away from a share that stays. */
  lemma EventKeepsAnchor(st: State, e: Event, name: string, k: ObjKey)
    requires Keyed(st) && Anchored(st, name, k) && name in After(st, e).shares
    ensures Anchored(After(st, e), name, k)
  {
    hide Process;
    if e.Pass? {
      PassKeepsAnchor(st, e, name, k);
    } else {
      var refs := st.objects[k].owners;
      var i :| 0 <= i < |refs| && IsShareRef(refs[i]) && refs[i].name == name && refs[i].uid == st.shares[name].uid;
      assert !OwnerGone(st, refs[i]);
      if e.PruneOwners? && e.key == k {
        assert refs[i] in Present(st, refs);
      }
    }
  }

  /** What an existing share owns stays for as long as the share exists, in every run. */
  lemma {:induction false} RunKeepsAnchor(st: State, es: seq<Event>, name: string, k: ObjKey)
    requires Keyed(st) && Lives(st, es, name) && Anchored(st, name, k)
    ensures Anchored(Run(st, es), name, k)
    decreases |es|
  {
    hide After, Anchored, Keyed;
    if es == [] {
    } else {
      EventKeepsKeyed(st, es[0]);
      EventKeepsAnchor(st, es[0], name, k);
      RunKeepsAnchor(After(st, es[0]), es[1..], name, k);
    }
  }

  /** An update that has nothing left to do has claimed the ConfigMap, the workload and the Service. */
  lemma DoneClaimed(st: State, f: Faults, s: Share, k: ObjKey)
    requires NextUpdate(st, f, s).Idle? && SharedKey(s, k)
    ensures k in st.objects && NamesOwner(st.objects[k].owners, s.name)
  {
    hide ConfigStep, FindClaim, NamesOwner, PvcExistsStep;
    if k in st.objects {
      FindClaimMeans(st.objects[k].owners, s.name);
    }
  }

  lemma DoneAnchors(st: State, f: Faults, name: string, k: ObjKey)
    requires Keyed(st) && CurrentFor(st, name, k) && name in st.shares && !st.shares[name].deleting
    requires NextFor(st, f, st.shares[name]).Idle? && SharedKey(st.shares[name], k)
    ensures Anchored(st, name, k)
  {
    hide NextUpdate, SharedKey;
    var s := st.shares[name];
    DoneClaimed(st, f, s, k);
    var refs := st.objects[k].owners;
    var i :| 0 <= i < |refs| && IsShareRef(refs[i]) && refs[i].name == name;
    assert refs[i].uid == s.uid;
  }

  /** Once a share's update is done, its group's ConfigMap, workload and Service stay, and stay owned
      by it, in every later run in which the share exists: whatever other shares do, are edited,
      deleted or created again, while collection runs at any time, and while the share itself is being
      finalized. All that is asked is that the share was not created while the object carried its name. */
  lemma DoneSurvives(operator: OperatorConfig, before: seq<Event>, f: Faults, name: string, after: seq<Event>,
                     k: ObjKey)
    requires TidyForRun(EmptyStore(operator), before, name, k)
    requires var st := Run(EmptyStore(operator), before);
             && Lives(st, after, name) && !st.shares[name].deleting
             && NextFor(st, f, st.shares[name]).Idle? && SharedKey(st.shares[name], k)
    ensures Anchored(Run(EmptyStore(operator), before + after), name, k)
  {
    hide NextFor, After, TidyFor, CurrentFor, WellOwned, Anchored, SharedKey;
    var start, st := EmptyStore(operator), Run(EmptyStore(operator), before);
    RunAppend(start, before, after);
    EmptyIsFine(operator, name, k);
    RunKeepsKeyed(start, before);
    RunKeepsCurrentFor(start, before, name, k);
    DoneAnchors(st, f, name, k);
    RunKeepsAnchor(st, after, name, k);
  }
}
