/** Exactly what a share keeps: an object survives every run of its lifetime if and only if it owns it. */
module Eviction {
  import opened Basics
  import opened SmbApi
  import opened ContainerConfig
  import opened Ownership
  import opened PlannerTheorems
  import opened Cluster
  import opened Reconcile
  import opened Justification
  import opened Runs
  import opened ConfigRuns
  import opened Survival
  import opened Finalization

  /** Every ConfigMap has a configuration that parses. */
  ghost predicate AllReadable(st: State) {
    forall k :: k in st.objects && k.kind == ConfigMap ==> LoadConfig(st.objects[k].data).Some?
  }

  /** The object stays, and stays owned by the same shares. */
  ghost predicate KeepsOwners(st: State, st': State, k: ObjKey) {
    k in st.objects ==> k in st'.objects && SameOwners(st'.objects[k].owners, st.objects[k].owners)
  }

  lemma {:induction false} LivesAppend(st: State, a: seq<Event>, b: seq<Event>, name: string)
    requires Lives(st, a, name) && Lives(Run(st, a), b, name)
    ensures Lives(st, a + b, name)
    decreases |a|
  {
    hide After;
    if a == [] {
      assert a + b == b;
    } else {
      assert (a + b)[0] == a[0] && (a + b)[1..] == a[1..] + b;
      LivesAppend(After(st, a[0]), a[1..], b, name);
    }
  }

  // ----- finalizing one share -----

  lemma FinalPassReads(st: State, name: string)
    requires WellOwned(st) && AllReadable(st) && name in st.shares && st.shares[name].deleting
    ensures AllReadable(Process(st, {}, name)) && Readable(st, st.shares[name])
  {
    hide Process;
    forall k | k in Process(st, {}, name).objects && k.kind == ConfigMap
      ensures LoadConfig(Process(st, {}, name).objects[k].data).Some?
    {
      FinalPassOnData(st, {}, name, k);
    }
  }

  lemma FinalPassOnOwners(st: State, name: string, k: ObjKey)
    requires Keyed(st) && name in st.shares && st.shares[name].deleting
    ensures KeepsOwners(st, Process(st, {}, name), k)
  {
    hide NextFor, ConfigEdit, OwnKey, WellFormedRefs, HasController, ShareRefs, Excluding, WithController, Without,
         Apply;
    var s, a := st.shares[name], Next(st, {}, name);
    NextJustified(st, {}, s);
    assert a == NextFor(st, {}, s) || a == Fail;
    if k in st.objects {
      ApplyOnOwners(st, s, a, k);
    }
  }

  lemma FinalPass(st: State, name: string, k: ObjKey)
    requires WellOwned(st) && AllReadable(st) && name in st.shares
    requires st.shares[name].deleting && SHARE_FINALIZER in st.shares[name].finalizers
    ensures var s, st' := st.shares[name], Process(st, {}, name);
            && WellOwned(st') && AllReadable(st') && KeepsOwners(st, st', k)
            && if Next(st, {}, name).Release?
               then && st'.shares == st.shares[name := s.(finalizers := Without(s.finalizers, SHARE_FINALIZER))]
                    && BareInstance(st, s).ShareName() !in Entries(st', ConfigMapKey(s))
               else st'.shares == st.shares && FinalDebt(st', s) < FinalDebt(st, s)
  {
    hide NextFinalize, NextUpdate, FinalDebt, ConfigEdit, OwnKey, RefsOk, WellFormedRefs, HasController, ShareRefs,
         Excluding, WithController, Without, LoadConfig;
    var s, st' := st.shares[name], Process(st, {}, name);
    PassKeepsWellOwned(st, {}, name);
    FinalPassReads(st, name);
    WellOwnedIsReleasable(st, s);
    FinalizeNeverFails(st, s);
    NextJustified(st, {}, s);
    assert Next(st, {}, name) == NextFinalize(st, {}, s);
    FinalPassOnOwners(st, name, k);
    if !Next(st, {}, name).Release? {
      FinalPassPays(st, {}, name);
    } else if ConfigMapKey(s) in st.objects {
      ReleasedIsPruned(st, {}, s);
    }
  }

  /** Fault-free passes of a departing share until its finalizer is gone. */
  lemma Finalize(st: State, name: string, k: ObjKey) returns (es: seq<Event>)
    requires WellOwned(st) && AllReadable(st) && name in st.shares
    requires st.shares[name].deleting && SHARE_FINALIZER in st.shares[name].finalizers
    ensures var s, st' := st.shares[name], Run(st, es);
            && WellOwned(st') && AllReadable(st') && KeepsOwners(st, st', k)
            && st'.shares == st.shares[name := s.(finalizers := Without(s.finalizers, SHARE_FINALIZER))]
            && BareInstance(st, s).ShareName() !in Entries(st', ConfigMapKey(s))
    ensures forall i :: 0 <= i < |es| ==> es[i] == Pass(name, {})
    ensures forall n :: n in st.shares ==> Lives(st, es, n)
    decreases FinalDebt(st, st.shares[name])
  {
    hide Process, WellOwned, AllReadable, FinalDebt, Without, Entries;
    var s, st' := st.shares[name], Process(st, {}, name);
    var pass := Pass(name, {});
    FinalPass(st, name, k);
    if Next(st, {}, name).Release? {
      es := [pass];
      assert Run(st, es) == Run(st', es[1..]) == st';
      assert forall n :: n in st.shares ==> Lives(st', es[1..], n);
    } else {
      var rest := Finalize(st', name, k);
      es := [pass] + rest;
      assert es[1..] == rest;
      assert Run(st, es) == Run(st', rest);
      assert forall n :: n in st.shares ==> Lives(st', es[1..], n);
    }
  }

  // ----- removing one share -----

  lemma Withdraw(st: State, name: string)
    requires WellOwned(st) && AllReadable(st) && name in st.shares
    ensures var es := [MarkDeleted(name), DropForeignFinalizers(name)];
            var st', s := Run(st, es), st.shares[name];
            && WellOwned(st') && AllReadable(st') && st'.objects == st.objects
            && st'.shares == st.shares[name := s.(deleting := true, finalizers := OwnFinalizers(s.finalizers))]
            && forall n :: n in st.shares ==> Lives(st, es, n)
  {
    hide RefsOk, LoadConfig;
    var es := [MarkDeleted(name), DropForeignFinalizers(name)];
    var st1 := After(st, es[0]);
    var st2 := After(st1, es[1]);
    assert es[1..] == [es[1]] && es[1..][1..] == [];
    assert Run(st, es) == Run(st1, es[1..]) == Run(st2, []) == st2;
    forall n | n in st.shares ensures Lives(st, es, n) {
      assert Lives(st2, es[1..][1..], n);
      assert Lives(st1, es[1..], n);
    }
  }

  lemma NoFinalizers(own: seq<string>, finalizers: seq<string>)
    requires own == OwnFinalizers(finalizers)
    ensures own == [] || (own == [SHARE_FINALIZER] && Without(own, SHARE_FINALIZER) == [])
  {
  }

  lemma EmptyRun(st: State)
    ensures Run(st, []) == st
    ensures forall n :: n in st.shares ==> Lives(st, [], n)
  {
  }

  lemma Drop(st: State, name: string)
    requires WellOwned(st) && AllReadable(st) && name in st.shares
    requires st.shares[name].deleting && st.shares[name].finalizers == []
    ensures var st' := Run(st, [DropShare(name)]);
            && WellOwned(st') && AllReadable(st') && st'.objects == st.objects && st'.shares == st.shares - {name}
            && forall n :: n in st.shares && n != name ==> Lives(st, [DropShare(name)], n)
  {
  }

  lemma KeepsOwnersTrans(a: State, b: State, c: State, k: ObjKey)
    requires a == b || a.objects == b.objects || KeepsOwners(a, b, k)
    requires b.objects == c.objects || KeepsOwners(b, c, k)
    ensures KeepsOwners(a, c, k)
  {
  }

  /** Some run removes the share and nothing else that matters for the object or for the other shares. */
  lemma Remove(st: State, name: string, k: ObjKey) returns (es: seq<Event>)
    requires WellOwned(st) && AllReadable(st) && name in st.shares
    ensures var st' := Run(st, es);
            WellOwned(st') && AllReadable(st') && KeepsOwners(st, st', k) && st'.shares == st.shares - {name}
    ensures forall n :: n in st.shares && n != name ==> Lives(st, es, n)
  {
    hide After, WellOwned, AllReadable, KeepsOwners, Lives;
    var start := [MarkDeleted(name), DropForeignFinalizers(name)];
    var st1 := Run(st, start);
    Withdraw(st, name);
    KeepsOwnersTrans(st, st1, st1, k);
    var passes := [];
    if SHARE_FINALIZER in st1.shares[name].finalizers {
      passes := Finalize(st1, name, k);
    } else {
      EmptyRun(st1);
    }
    var st2 := Run(st1, passes);
    KeepsOwnersTrans(st, st1, st2, k);
    NoFinalizers(st1.shares[name].finalizers, st.shares[name].finalizers);
    assert st2.shares[name].deleting && st2.shares[name].finalizers == [];
    Drop(st2, name);
    var st3 := Run(st2, [DropShare(name)]);
    KeepsOwnersTrans(st, st2, st3, k);
    es := start + passes + [DropShare(name)];
    RunAppend(st, start, passes);
    RunAppend(st, start + passes, [DropShare(name)]);
    assert st3.shares == st.shares - {name};
    forall n | n in st.shares && n != name ensures Lives(st, es, n) {
      LivesAppend(st, start, passes, n);
      LivesAppend(st, start + passes, [DropShare(name)], n);
    }
  }

  // ----- removing everybody else -----

  /** From the i-th reference on, every other owner is removed. */
  lemma RemoveOthers(st: State, name: string, k: ObjKey, i: nat) returns (es: seq<Event>)
    requires WellOwned(st) && AllReadable(st) && name in st.shares
    requires k in st.objects && i <= |st.objects[k].owners|
    requires forall j :: 0 <= j < i ==>
               st.objects[k].owners[j].name == name || st.objects[k].owners[j].name !in st.shares
    ensures Lives(st, es, name)
    ensures var st' := Run(st, es);
            && WellOwned(st') && KeepsOwners(st, st', k)
            && name in st'.shares && st'.shares[name] == st.shares[name]
            && forall j :: 0 <= j < |st.objects[k].owners| ==>
                 st.objects[k].owners[j].name == name || st.objects[k].owners[j].name !in st'.shares
    decreases |st.objects[k].owners| - i
  {
    hide After, WellOwned, AllReadable;
    var refs := st.objects[k].owners;
    if i == |refs| {
      es := [];
      EmptyRun(st);
    } else if refs[i].name == name || refs[i].name !in st.shares {
      es := RemoveOthers(st, name, k, i + 1);
    } else {
      var first := Remove(st, refs[i].name, k);
      var st1 := Run(st, first);
      var rest := RemoveOthers(st1, name, k, i + 1);
      es := first + rest;
      RunAppend(st, first, rest);
      LivesAppend(st, first, rest, name);
    }
  }

  lemma CollectsAll(st: State, st': State, name: string, k: ObjKey)
    requires k in st.objects && WellOwned(st') && KeepsOwners(st, st', k)
    requires name in st.shares && name in st'.shares && st'.shares[name] == st.shares[name]
    requires !Owns(st.objects[k].owners, name, st.shares[name].uid)
    requires forall j :: 0 <= j < |st.objects[k].owners| ==>
               st.objects[k].owners[j].name == name || st.objects[k].owners[j].name !in st'.shares
    ensures k !in After(st', Collect(k)).objects
  {
  }

  /** An object a share does not own can be lost while the share exists. */
  lemma CanBeLost(st: State, name: string, k: ObjKey) returns (es: seq<Event>)
    requires WellOwned(st) && AllReadable(st) && name in st.shares && k in st.objects
    requires !Owns(st.objects[k].owners, name, st.shares[name].uid)
    ensures Lives(st, es, name) && k !in Run(st, es).objects
  {
    hide RefsOk;
    var first := RemoveOthers(st, name, k, 0);
    var st1 := Run(st, first);
    CollectsAll(st, st1, name, k);
    es := first + [Collect(k)];
    RunAppend(st, first, [Collect(k)]);
    assert Run(st1, [Collect(k)]) == Run(After(st1, Collect(k)), []) == After(st1, Collect(k));
    assert Lives(After(st1, Collect(k)), [Collect(k)][1..], name);
    LivesAppend(st, first, [Collect(k)], name);
  }

  /** For every share and every object: the object is there after every run in which the share exists
      throughout if and only if the share owns it, by name and by uid. */
  lemma SurvivesIffOwned(st: State, name: string, k: ObjKey)
    requires WellOwned(st) && AllReadable(st) && name in st.shares && k in st.objects
    ensures (forall es :: Lives(st, es, name) ==> k in Run(st, es).objects) <==>
            Owns(st.objects[k].owners, name, st.shares[name].uid)
  {
    hide After, Lives, Owns, AllReadable, RefsOk;
    if Owns(st.objects[k].owners, name, st.shares[name].uid) {
      forall es | Lives(st, es, name) ensures k in Run(st, es).objects {
        RunKeepsAnchor(st, es, name, k);
      }
    } else {
      var es := CanBeLost(st, name, k);
    }
  }

  lemma ReachableIsFine(operator: OperatorConfig, es: seq<Event>)
    ensures WellOwned(Run(EmptyStore(operator), es)) && ConfigsServe(Run(EmptyStore(operator), es))
    ensures AllReadable(Run(EmptyStore(operator), es))
  {
    hide After, RefsOk, Serves;
    var start := EmptyStore(operator);
    EmptyIsFine(operator, "", ObjKey(Service, ""));
    RunKeepsWellOwned(start, es);
    RunKeepsConfigs(start, es);
  }

  /** In any run from the empty store, whatever names are reused: a share whose update is done keeps its
      ConfigMap, workload and Service for life if and only if their references carry its uid and not only
      its name. */
  lemma DoneSurvivesIff(operator: OperatorConfig, before: seq<Event>, f: Faults, name: string, k: ObjKey)
    requires var st := Run(EmptyStore(operator), before);
             && name in st.shares && !st.shares[name].deleting
             && NextFor(st, f, st.shares[name]).Idle? && SharedKey(st.shares[name], k)
    ensures var st := Run(EmptyStore(operator), before);
            && k in st.objects
            && ((forall es :: Lives(st, es, name) ==> k in Run(st, es).objects) <==>
                Owns(st.objects[k].owners, name, st.shares[name].uid))
  {
    hide After, NextUpdate, Lives, Owns, SharedKey;
    var start, st := EmptyStore(operator), Run(EmptyStore(operator), before);
    ReachableIsFine(operator, before);
    DoneClaimed(st, f, st.shares[name], k);
    SurvivesIffOwned(st, name, k);
  }
}
