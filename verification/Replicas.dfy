/** A StatefulSet never shrinks, and ends at the largest size its group asks for. */
module Replicas {
  import opened SmbApi
  import opened Ownership
  import opened Cluster
  import opened Reconcile
  import opened Justification
  import opened Runs
  import opened Survival

  lemma WantedNeverLess(s: Share, n: int)
    requires Clustered(s.spec) && Wanted(s, n) != n
    ensures n < Wanted(s, n) == Int32(s.spec.scaling.value.minClusterSize)
  {
  }

  /** A pass changes a StatefulSet's replicas only to raise them to its own share's size. */
  lemma PassOnReplicas(st: State, f: Faults, name: string, k: ObjKey)
    requires Keyed(st) && name in st.shares && k.kind == StatefulSet && k in st.objects
    ensures k in Process(st, f, name).objects
    ensures var s, n, n' := st.shares[name], st.objects[k].replicas, Process(st, f, name).objects[k].replicas;
            && n <= n'
            && (n < n' ==> k == WorkloadKey(s) && Clustered(s.spec) && n' == Int32(s.spec.scaling.value.minClusterSize))
  {
    hide NextFor, ConfigEdit, ShareEdit, OwnKey, SharedKey, InitialFor, NamesOwner, WellFormedRefs, HasController,
         ShareRefs, Excluding, Int32, Wanted;
    var s := st.shares[name];
    NextJustified(st, f, s);
    var a := NextFor(st, f, s);
    if a.Resize? && a.key == k {
      WantedNeverLess(s, st.objects[k].replicas);
    }
    assert Next(st, f, name) == a || Next(st, f, name) == Fail;
  }

  lemma PassCreatesSized(st: State, f: Faults, name: string, k: ObjKey)
    requires Keyed(st) && name in st.shares && k.kind == StatefulSet
    requires k !in st.objects && k in Process(st, f, name).objects
    ensures var s := st.shares[name];
            && k == WorkloadKey(s) && Clustered(s.spec)
            && Process(st, f, name).objects[k].replicas == Int32(s.spec.scaling.value.minClusterSize)
  {
    hide NextFor, ConfigEdit, ShareEdit, OwnKey, SharedKey, NamesOwner, WellFormedRefs, HasController,
         ShareRefs, Excluding, Int32, Wanted;
    NextJustified(st, f, st.shares[name]);
    assert Next(st, f, name) == NextFor(st, f, st.shares[name]) || Next(st, f, name) == Fail;
  }

  /** Whatever happens, a StatefulSet that stays does not lose replicas. */
  lemma EventNeverShrinks(st: State, e: Event, k: ObjKey)
    requires Keyed(st) && k.kind == StatefulSet && k in st.objects && k in After(st, e).objects
    ensures st.objects[k].replicas <= After(st, e).objects[k].replicas
  {
    hide Process;
    if e.Pass? {
      if e.name in st.shares {
        PassOnReplicas(st, e.faults, e.name, k);
      } else {
        IdlePass(st, e.faults, e.name);
      }
    }
  }

  // ----- the size a group ends at -----

  /** The clustered shares of group g are among the members, each with its fixed size. */
  ghost predicate FixedSizes(st: State, g: string, sizes: map<string, int>) {
    forall n :: n in st.shares && st.shares[n].serverGroup == g && Clustered(st.shares[n].spec) ==>
      n in sizes && Int32(st.shares[n].spec.scaling.value.minClusterSize) == sizes[n]
  }

  ghost predicate FixedSizesRun(st: State, es: seq<Event>, g: string, sizes: map<string, int>)
    decreases |es|
  {
    FixedSizes(st, g, sizes) && (es == [] || FixedSizesRun(After(st, es[0]), es[1..], g, sizes))
  }

  function SetKey(g: string): ObjKey {
    ObjKey(StatefulSet, g)
  }

  /** If the StatefulSet exists, its size is that of some member. */
  ghost predicate SizedByMember(st: State, g: string, sizes: map<string, int>) {
    SetKey(g) in st.objects ==> exists n :: n in sizes && sizes[n] == st.objects[SetKey(g)].replicas
  }

  lemma EventKeepsSized(st: State, e: Event, g: string, sizes: map<string, int>)
    requires Keyed(st) && FixedSizes(st, g, sizes) && SizedByMember(st, g, sizes)
    ensures SizedByMember(After(st, e), g, sizes)
  {
    hide Process, Int32;
    var k := SetKey(g);
    if e.Pass? && e.name in st.shares && k in After(st, e).objects {
      if k in st.objects {
        PassOnReplicas(st, e.faults, e.name, k);
      } else {
        PassCreatesSized(st, e.faults, e.name, k);
      }
      if k !in st.objects || st.objects[k].replicas != After(st, e).objects[k].replicas {
        assert e.name in sizes && sizes[e.name] == After(st, e).objects[k].replicas;
      }
    } else if e.Pass? && e.name !in st.shares {
      IdlePass(st, e.faults, e.name);
    }
  }

  lemma {:induction false} RunKeepsSized(st: State, es: seq<Event>, g: string, sizes: map<string, int>)
    requires Keyed(st) && FixedSizesRun(st, es, g, sizes) && SizedByMember(st, g, sizes)
    ensures SizedByMember(Run(st, es), g, sizes)
    decreases |es|
  {
    hide After, Keyed, FixedSizes, SizedByMember;
    if es == [] {
    } else {
      EventKeepsKeyed(st, es[0]);
      EventKeepsSized(st, es[0], g, sizes);
      RunKeepsSized(After(st, es[0]), es[1..], g, sizes);
    }
  }

  /** While a share that owns it exists, a StatefulSet never loses replicas. */
  lemma {:induction false} RunNeverShrinks(st: State, es: seq<Event>, name: string, k: ObjKey)
    requires Keyed(st) && Lives(st, es, name) && Anchored(st, name, k)
    requires k.kind == StatefulSet
    ensures k in st.objects && k in Run(st, es).objects
    ensures st.objects[k].replicas <= Run(st, es).objects[k].replicas
    decreases |es|
  {
    hide After, Keyed, Owns;
    if es == [] {
    } else {
      EventKeepsKeyed(st, es[0]);
      EventKeepsAnchor(st, es[0], name, k);
      EventNeverShrinks(st, es[0], k);
      RunNeverShrinks(After(st, es[0]), es[1..], name, k);
    }
  }

  lemma DoneIsLargeEnough(st: State, f: Faults, s: Share)
    requires NextUpdate(st, f, s).Idle? && Clustered(s.spec)
    ensures WorkloadKey(s) in st.objects
    ensures Int32(s.spec.scaling.value.minClusterSize) <= st.objects[WorkloadKey(s)].replicas
  {
    hide ConfigMapStep, FindClaim, PvcExistsStep, ServiceStep, BackendStep, Int32;
  }

  /** The member had finished its update after the first i events and exists ever since. */
  ghost predicate FinishedAt(start: State, es: seq<Event>, g: string, name: string, i: nat)
    requires i <= |es|
  {
    var st := Run(start, es[..i]);
    && Lives(st, es[i..], name)
    && var s := st.shares[name];
       && !s.deleting && s.serverGroup == g && Clustered(s.spec)
       && NextFor(st, {}, s).Idle?
  }

  lemma KeyedName(st: State, name: string)
    requires Keyed(st) && name in st.shares
    ensures st.shares[name].name == name
  {
  }

  lemma FinishedIsCovered(operator: OperatorConfig, es: seq<Event>, g: string, sizes: map<string, int>,
                          name: string, i: nat)
    requires i <= |es| && TidyForRun(EmptyStore(operator), es[..i], name, SetKey(g))
    requires FinishedAt(EmptyStore(operator), es, g, name, i)
    requires FixedSizes(Run(EmptyStore(operator), es[..i]), g, sizes)
    ensures var st := Run(EmptyStore(operator), es);
            SetKey(g) in st.objects && name in sizes && sizes[name] <= st.objects[SetKey(g)].replicas
  {
    hide After, TidyFor, CurrentFor, WellOwned, NextUpdate, Anchored, Int32;
    var start := EmptyStore(operator);
    var st := Run(start, es[..i]);
    RunSplit(start, es, i);
    EmptyIsFine(operator, name, SetKey(g));
    RunKeepsKeyed(start, es[..i]);
    RunKeepsCurrentFor(start, es[..i], name, SetKey(g));
    DoneAnchors(st, {}, name, SetKey(g));
    KeyedName(st, name);
    DoneIsLargeEnough(st, {}, st.shares[name]);
    RunNeverShrinks(st, es[i..], name, SetKey(g));
  }

  lemma {:induction false} FixedSizesAt(st: State, es: seq<Event>, g: string, sizes: map<string, int>, i: nat)
    requires FixedSizesRun(st, es, g, sizes) && i <= |es|
    ensures FixedSizes(Run(st, es[..i]), g, sizes)
    decreases |es|
  {
    hide After, FixedSizes;
    if i == 0 {
    } else {
      assert es[..i][0] == es[0] && es[..i][1..] == es[1..][..i - 1];
      FixedSizesAt(After(st, es[0]), es[1..], g, sizes, i - 1);
    }
  }

  lemma EmptyIsSized(operator: OperatorConfig, g: string, sizes: map<string, int>)
    ensures Keyed(EmptyStore(operator)) && SizedByMember(EmptyStore(operator), g, sizes)
  {
  }

  /** Once every member of a group has finished its update at some time and still exists, the group's
      StatefulSet has exactly the largest of their sizes. */
  lemma GroupEndsAtMaximum(operator: OperatorConfig, es: seq<Event>, g: string, sizes: map<string, int>,
                           when: map<string, nat>)
    requires FixedSizesRun(EmptyStore(operator), es, g, sizes) && sizes != map[]
    requires forall n :: n in sizes ==>
               && n in when && when[n] <= |es|
               && FinishedAt(EmptyStore(operator), es, g, n, when[n])
               && TidyForRun(EmptyStore(operator), es[..when[n]], n, SetKey(g))
    ensures var st := Run(EmptyStore(operator), es);
            && SetKey(g) in st.objects
            && (forall n :: n in sizes ==> sizes[n] <= st.objects[SetKey(g)].replicas)
            && exists n :: n in sizes && sizes[n] == st.objects[SetKey(g)].replicas
  {
    hide After, FixedSizes, FinishedAt, EmptyStore, TidyForRun;
    var start := EmptyStore(operator);
    forall n | n in sizes
      ensures SetKey(g) in Run(start, es).objects && sizes[n] <= Run(start, es).objects[SetKey(g)].replicas
    {
      FixedSizesAt(start, es, g, sizes, when[n]);
      FinishedIsCovered(operator, es, g, sizes, n, when[n]);
    }
    EmptyIsSized(operator, g, sizes);
    RunKeepsSized(start, es, g, sizes);
    var m :| m in sizes;
    assert SetKey(g) in Run(start, es).objects;
  }
}
