/** Groups of ready shares: with fair turns they all end at Done together. */
module Harmony {
  import opened Basics
  import opened SmbApi
  import opened ContainerConfig
  import opened Ownership
  import opened Planning
  import opened Cluster
  import opened Reconcile
  import opened Justification
  import opened Runs
  import opened ConfigRuns
  import opened Convergence
  import opened Panics
  import opened Readiness
  import opened GroupConvergence

  /** Two shares of one group that its server can host together. */
  predicate Matching(s: Share, t: Share) {
    GroupOf(s).Some? && GroupOf(s) == GroupOf(t) ==>
      && s.namespace == t.namespace
      && s.spec.pvc.Some? && t.spec.pvc.Some? && s.spec.pvc.value.name == t.spec.pvc.value.name
      && s.spec.securityConfig == t.spec.securityConfig && s.spec.commonConfig == t.spec.commonConfig
  }

  /** Ready, and with a PVC that has its name. */
  predicate Steady(st: State, s: Share) {
    Ready(st, s) && s.spec.pvc.Some? && WithPvcName(s) == s
  }

  /** All shares are ready, and the server of a group can host them together; nothing is asked for differently under
      one name, and configurations are of the operator's making. */
  ghost predicate InHarmony(st: State, names: seq<string>) {
    && Keyed(st) && RefsParse(st) && ConfigsServe(st) && Concord(st, names)
    && (forall n :: n in names ==> n in st.shares && Steady(st, st.shares[n]))
    && (forall m, n :: m in names && n in names && m != n ==> Matching(st.shares[m], st.shares[n]))
  }

  // ----- what one share does keeps another ready -----

  lemma MatchingAgrees(st: State, s: Share, t: Share, others: seq<OwnerRef>)
    requires s.name in st.shares && st.shares[s.name] == s && others != [] && others[0].name == s.name
    requires FetchInstance(st, {}, s).Some? && FetchInstance(st, {}, t).Some?
    requires GroupOf(s).Some? && GroupOf(s) == GroupOf(t) && Matching(s, t)
    ensures PeerAgrees(st, {}, FetchInstance(st, {}, t).value, others)
  {
  }

  lemma SteadyAgreesOnce(st: State, t: Share, others: seq<OwnerRef>)
    requires t.name in st.shares && st.shares[t.name] == t && WithPvcName(t) == t && FetchInstance(st, {}, t).Some?
    ensures AgreesWith(st, t, others) <==> PeerAgrees(st, {}, FetchInstance(st, {}, t).value, others)
  {
    hide FetchInstance, PeerAgrees;
    assert Named(t) == t && With(st, t) == st;
  }

  /** The parts of readiness that only the ConfigMap and the workload decide. */
  lemma StillReady(st: State, st': State, t: Share)
    requires st'.shares == st.shares && SameSpecs(st, st') && Ready(st, t)
    requires ConfigReady(st', Grouped(t))
    requires WorkloadKey(Grouped(t)) in st.objects ==> WorkloadKey(Grouped(t)) in st'.objects
    ensures Ready(st', t)
  {
  }

  lemma ReadyParts(st: State, t: Share)
    requires Ready(st, t)
    ensures GroupOf(t).Some? && FetchInstance(st, {}, t).Some? && ConfigReady(st, Grouped(t)) && !t.deleting
  {
  }

  lemma OwnKeyGroup(s: Share, k: ObjKey)
    requires OwnKey(s, k) && k.kind == ConfigMap
    ensures k == ConfigMapKey(s)
  {
  }

  lemma SamePut(st: State, k: ObjKey, o: Object)
    ensures SameSpecs(st, Put(st, k, o))
  {
  }

  lemma GroupedAlike(t: Share)
    requires GroupOf(t).Some?
    ensures var p := Grouped(t);
            && p.spec == t.spec && p.name == t.name && p.uid == t.uid && p.namespace == t.namespace
            && GroupOf(p) == GroupOf(t)
            && (WithPvcName(t) == t ==> WithPvcName(p) == p)
  {
  }

  /** Under its group or before it has one, the share agrees with a matching first other. */
  lemma GroupedAgrees(st: State, s: Share, t: Share, others: seq<OwnerRef>)
    requires s.name in st.shares && st.shares[s.name] == s && t.name in st.shares && st.shares[t.name] == t
    requires others != [] && others[0].name == s.name && s.name != t.name
    requires FetchInstance(st, {}, s).Some? && FetchInstance(st, {}, t).Some?
    requires GroupOf(s).Some? && GroupOf(s) == GroupOf(t) && Matching(s, t) && WithPvcName(t) == t
    ensures AgreesWith(st, Grouped(t), others)
  {
    hide FetchInstance, PeerAgrees, WithPvcName, ChooseGroup, SameSpecs;
    MatchingAgrees(st, s, t, others);
    SteadyAgreesOnce(st, t, others);
    GroupedAlike(t);
    SameAsBefore(st);
    NamedAlike(t, Grouped(t));
    AgreesWithSame(st, st, t, Grouped(t), others);
  }

  lemma OneOther(s: Share, t: Share)
    requires s.name != t.name
    ensures Excluding(ShareRefs([ShareRef(s.name, s.uid, true)]), t.name, t.uid) == [ShareRef(s.name, s.uid, true)]
  {
  }

  /** A ConfigMap that another share of the group made is ready for the share. */
  lemma MadeConfigReady(st: State, s: Share, t: Share, o: Object)
    requires s.name in st.shares && st.shares[s.name] == s && t.name in st.shares && st.shares[t.name] == t
    requires s.name != t.name && Matching(s, t) && s.serverGroup != ""
    requires GroupOf(t) == Some(s.serverGroup) && WithPvcName(t) == t && t.spec.pvc.Some?
    requires FetchInstance(st, {}, s).Some? && FetchInstance(st, {}, t).Some?
    requires o.owners == [ShareRef(s.name, s.uid, true)] && o.data == Json(Reload(New()))
    ensures ConfigReady(Put(st, ConfigMapKey(s), o), Grouped(t))
  {
    hide FetchInstance, PeerAgrees, ShareRefs, Excluding, UpdatePanics, WithPvcName, Named, SameSpecs;
    var st', p := Put(st, ConfigMapKey(s), o), Grouped(t);
    OneOther(s, t);
    SamePut(st, ConfigMapKey(s), o);
    InstanceSame(st, st', s, s);
    InstanceSame(st, st', t, t);
    GroupedAgrees(st', s, t, o.owners);
    InstanceSame(st', st', t, p);
    FetchInstanceOf(st', {}, p);
    assert Reload(New()) == New();
    NewPanicsIff(FetchInstance(st', {}, p).value);
  }

  lemma MakingKeepsOthers(st: State, s: Share, t: Share, k: ObjKey, o: Object)
    requires s.name in st.shares && st.shares[s.name] == s && t.name in st.shares && st.shares[t.name] == t
    requires s.name != t.name && Matching(s, t) && s.serverGroup != "" && Steady(st, t)
    requires FetchInstance(st, {}, s).Some?
    requires k !in st.objects && OwnKey(s, k) && InitialFor(s, k, o)
    ensures Ready(Put(st, k, o), t)
  {
    hide Ready, FetchInstance, PeerAgrees, AgreesWith, Others, ChooseGroup, WithPvcName, UpdatePanics, SameSpecs,
         OwnKey, InitialFor, Matching;
    ReadyParts(st, t);
    var st', p := Put(st, k, o), Grouped(t);
    SamePut(st, k, o);
    if k == ConfigMapKey(p) {
      InitialContent(s, k, o);
      OwnKeyGroup(s, k);
      MadeConfigReady(st, s, t, o);
    } else {
      ConfigReadySame(st, st', p, p);
    }
    StillReady(st, st', t);
  }

  lemma SamePlans(st: State, st': State, p: Share)
    requires st'.securities == st.securities && st'.commons == st.commons && st'.operator == st.operator
    ensures FetchInstance(st', {}, p) == FetchInstance(st, {}, p)
  {
  }

  lemma FirstDecides(st: State, p: Share, others: seq<OwnerRef>, more: seq<OwnerRef>)
    requires others != [] && more != [] && more[0] == others[0]
    ensures AgreesWith(st, p, others) <==> AgreesWith(st, p, more)
  {
  }

  /** One more owner at the end does not matter, unless it is the first other one; then it is a matching one. */
  lemma ClaimedAgrees(st: State, st': State, s: Share, t: Share, others: seq<OwnerRef>)
    requires SameSpecs(st, st') && st'.shares == st.shares
    requires s.name in st.shares && st.shares[s.name] == s && t.name in st.shares && st.shares[t.name] == t
    requires s.name != t.name && GroupOf(s).Some? && GroupOf(s) == GroupOf(t) && Matching(s, t) && WithPvcName(t) == t
    requires FetchInstance(st', {}, s).Some? && FetchInstance(st', {}, t).Some?
    requires AgreesWith(st, Grouped(t), others)
    ensures AgreesWith(st', Grouped(t), others + [ShareRef(s.name, s.uid, false)])
  {
    hide FetchInstance, PeerAgrees, WithPvcName, ChooseGroup, SameSpecs, Matching, AgreesWith;
    var p := Grouped(t);
    if others == [] {
      GroupedAgrees(st', s, t, others + [ShareRef(s.name, s.uid, false)]);
    } else {
      AgreesWithSame(st, st', p, p, others);
      FirstDecides(st', p, others, others + [ShareRef(s.name, s.uid, false)]);
    }
  }

  lemma ClaimingKeepsOthers(st: State, s: Share, t: Share, k: ObjKey)
    requires s.name in st.shares && st.shares[s.name] == s && t.name in st.shares && st.shares[t.name] == t
    requires s.name != t.name && Matching(s, t) && s.serverGroup != "" && Steady(st, t)
    requires FetchInstance(st, {}, s).Some?
    requires k in st.objects && SharedKey(s, k)
    ensures Ready(Apply(st, s, ClaimObject(k)), t)
  {
    hide Ready, FetchInstance, PeerAgrees, AgreesWith, ChooseGroup, WithPvcName, UpdatePanics, SameSpecs, Matching,
         ShareRefs, Excluding, LoadConfig;
    ReadyParts(st, t);
    GroupedAlike(t);
    var st', p := Apply(st, s, ClaimObject(k)), Grouped(t);
    SamePut(st, k, st'.objects[k]);
    if k == ConfigMapKey(p) {
      ClaimedByAnother(st.objects[k].owners, s, p);
      InstanceSame(st, st', s, s);
      InstanceSame(st, st', t, t);
      ClaimedAgrees(st, st', s, t, Others(p, st.objects[k]));
      InstanceSame(st, st', p, p);
      SamePlans(st, st', p);
    } else {
      ConfigReadySame(st, st', p, p);
    }
    StillReady(st, st', t);
  }

  lemma ServedNeverPanics(st: State, k: ObjKey, ic: Instance)
    requires ConfigsServe(st) && k in st.objects && k.kind == ConfigMap && ic.InstanceName() == k.name
    requires ic.share.spec.pvc.Some?
    ensures st.objects[k].data.Json? && !UpdatePanics(ic, st.objects[k].data.config)
  {
  }

  lemma StoredSpecs(st: State, s: Share, c: Config)
    requires ConfigMapKey(s) in st.objects
    ensures var k := ConfigMapKey(s);
            var st' := Apply(st, s, SaveConfig(k, c));
            && st' == Put(st, k, st.objects[k].(data := Json(c)))
  {
  }

  lemma StoringKeepsOthers(st: State, s: Share, t: Share, c: Config)
    requires t.name in st.shares && st.shares[t.name] == t && Steady(st, t) && ConfigMapKey(s) in st.objects
    requires ConfigsServe(Apply(st, s, SaveConfig(ConfigMapKey(s), c)))
    ensures Ready(Apply(st, s, SaveConfig(ConfigMapKey(s), c)), t)
  {
    hide Ready, FetchInstance, PeerAgrees, AgreesWith, ChooseGroup, WithPvcName, UpdatePanics, SameSpecs, ShareRefs,
         Excluding, Apply, DataServes, ConfigsServe;
    ReadyParts(st, t);
    GroupedAlike(t);
    var k := ConfigMapKey(s);
    var st', p := Apply(st, s, SaveConfig(k, c)), Grouped(t);
    StoredSpecs(st, s, c);
    SamePut(st, k, st'.objects[k]);
    if k == ConfigMapKey(p) {
      AgreesWithSame(st, st', p, p, Others(p, st.objects[k]));
      SamePlans(st, st', p);
      InstanceSame(st, st', t, p);
      FetchInstanceOf(st', {}, p);
      ServedNeverPanics(st', k, FetchInstance(st', {}, p).value);
    } else {
      ConfigReadySame(st, st', p, p);
    }
    StillReady(st, st', t);
  }

  lemma RestKeepsOthers(st: State, st': State, t: Share)
    requires SameSpecs(st, st') && t.name in st.shares && Ready(st, t)
    requires SameConfigMap(st, st', Grouped(t))
    requires WorkloadKey(Grouped(t)) in st'.objects <==> WorkloadKey(Grouped(t)) in st.objects
    ensures Ready(st', t)
  {
    hide Ready, SameSpecs, SameConfigMap, ChooseGroup;
    ReadySame(st, st', t, t);
  }

  /** Nothing of the spec changes any more. */
  lemma SteadySaving(s: Share, s': Share)
    requires ShareEdit(s, s') && WithPvcName(s) == s
    ensures s'.spec == s.spec && s'.namespace == s.namespace && s'.name == s.name && GroupOf(s') == GroupOf(s)
    ensures s'.deleting == s.deleting && WithPvcName(s') == s'
  {
  }

  lemma ActionKeepsOthersReady(st: State, s: Share, t: Share, a: Action)
    requires s.name in st.shares && st.shares[s.name] == s && t.name in st.shares && st.shares[t.name] == t
    requires s.name != t.name && Steady(st, s) && Steady(st, t) && Matching(s, t)
    requires Justified(st, {}, s, a) && ConfigsServe(Apply(st, s, a))
    ensures Ready(Apply(st, s, a), t)
  {
    hide ConfigEdit, OwnKey, SharedKey, InitialFor, NamesOwner, WellFormedRefs, HasController, Wanted, ShareRefs,
         Excluding, Ready, ConfigsServe, Matching, SameSpecs, WithController, GroupOf, Others, WithPvcName,
         ShareEdit, FetchInstance, Grouped, Backend;
    var st' := Apply(st, s, a);
    ReadyParts(st, s);
    ReadyParts(st, t);
    match a
    case SaveShare(s') =>
      SteadySaving(s, s');
      SaveSpecs(st, s, s');
      RestKeepsOthers(st, st', t);
    case Create(k, o) => MakingKeepsOthers(st, s, t, k, o);
    case ClaimObject(k) => ClaimingKeepsOthers(st, s, t, k);
    case SaveConfig(k, c) => StoringKeepsOthers(st, s, t, c);
    case Resize(k, n) =>
      SamePut(st, k, st'.objects[k]);
      RestKeepsOthers(st, st', t);
    case _ =>
  }

  /** What a pass of one share does leaves a matching one of its group as ready as it was. */
  lemma PassKeepsOthersReady(st: State, name: string, other: string)
    requires Keyed(st) && ConfigsServe(st) && name in st.shares && other in st.shares && name != other
    requires Steady(st, st.shares[name]) && Steady(st, st.shares[other])
    requires Matching(st.shares[name], st.shares[other])
    ensures other in Process(st, {}, name).shares && Process(st, {}, name).shares[other] == st.shares[other]
    ensures Ready(Process(st, {}, name), st.shares[other])
  {
    hide NextUpdate, NextFinalize, Justified, Ready, ConfigsServe, Matching, Apply, WithPvcName;
    var s := st.shares[name];
    NextJustified(st, {}, s);
    PassKeepsConfigs(st, {}, name);
    PassOnShares(st, {}, name);
    assert Next(st, {}, name) == NextFor(st, {}, s);
    ActionKeepsOthersReady(st, s, st.shares[other], NextFor(st, {}, s));
  }

  // ----- all of them -----

  lemma SavingKeepsMatching(s: Share, s': Share, t: Share)
    requires s'.spec == s.spec && s'.namespace == s.namespace && GroupOf(s') == GroupOf(s)
    ensures Matching(s, t) ==> Matching(s', t)
    ensures Matching(t, s) ==> Matching(t, s')
  {
  }

  /** A pass that is requeued leaves its own share steady, and with the same partners. */
  lemma PassKeepsSteady(st: State, name: string)
    requires Keyed(st) && name in st.shares && Steady(st, st.shares[name])
    requires ResultOf(Next(st, {}, name)).Requeue?
    ensures name in Process(st, {}, name).shares
    ensures var s, s' := st.shares[name], Process(st, {}, name).shares[name];
            && Steady(Process(st, {}, name), s')
            && s'.spec == s.spec && s'.namespace == s.namespace && GroupOf(s') == GroupOf(s)
  {
    hide Process, Next, Ready, ShareEdit, GroupOf, WithPvcName;
    ReadyIsLive(st, st.shares[name]);
    PassKeepsReady(st, name);
    PassEdits(st, {}, name);
    if Process(st, {}, name).shares[name] != st.shares[name] {
      SteadySaving(st.shares[name], Process(st, {}, name).shares[name]);
    }
  }

  lemma PassKeepsHarmony(st: State, names: seq<string>, name: string)
    requires InHarmony(st, names) && name in names && ResultOf(Next(st, {}, name)).Requeue?
    ensures InHarmony(Process(st, {}, name), names)
  {
    hide Process, Next, Keyed, RefsParse, ConfigsServe, Concord, Ready, Matching, GroupOf, WithPvcName;
    var s, st' := st.shares[name], Process(st, {}, name);
    ProcessKeepsKeyed(st, {}, name);
    PassKeepsParse(st, {}, name);
    PassKeepsConfigs(st, {}, name);
    PassKeepsConcord(st, {}, names, name);
    PassKeepsSteady(st, name);
    forall t: Share
      ensures (Matching(s, t) ==> Matching(st'.shares[name], t)) && (Matching(t, s) ==> Matching(t, st'.shares[name]))
    {
      SavingKeepsMatching(s, st'.shares[name], t);
    }
    forall n | n in names && n != name
      ensures n in st'.shares && st'.shares[n] == st.shares[n] && Ready(st', st'.shares[n])
    {
      PassKeepsOthersReady(st, name, n);
    }
  }

  /** In harmony no pass fails or panics. */
  lemma HarmoniousPass(st: State, names: seq<string>, name: string)
    requires InHarmony(st, names) && name in names
    ensures Next(st, {}, name).Idle? || ResultOf(Next(st, {}, name)).Requeue?
    ensures Next(st, {}, name).Idle? ==> Process(st, {}, name) == st && Settled(st, st.shares[name])
  {
    hide NextUpdate, Keyed, RefsParse, ConfigsServe, Concord, Ready, Matching, WithPvcName, Settled;
    var s := st.shares[name];
    ReadyIsLive(st, s);
    ReadyNeverFails(st, s);
    NextIsJustified(st, name);
    assert Next(st, {}, name) == NextUpdate(st, {}, s);
    if Next(st, {}, name).Idle? {
      DoneIsSettled(st, {}, s);
    }
  }

  /** Every share is done and set up. */
  ghost predicate AllDone(st: State, names: seq<string>) {
    forall n :: n in names ==> n in st.shares && Next(st, {}, n).Idle? && Settled(st, st.shares[n])
  }

  /** Passes of these shares without failing calls. */
  predicate TurnsOf(es: seq<Event>, names: seq<string>) {
    forall i :: 0 <= i < |es| ==> es[i].Pass? && es[i].name in names && es[i].faults == {}
  }

  /** One turn or more for every share. */
  ghost predicate Round(es: seq<Event>, names: seq<string>) {
    TurnsOf(es, names) && forall n :: n in names ==> Pass(n, {}) in es
  }

  lemma {:induction false} TurnsKeepHarmony(st: State, names: seq<string>, es: seq<Event>)
    requires InHarmony(st, names) && TurnsOf(es, names)
    ensures InHarmony(Run(st, es), names)
    ensures Requeues(st, es) == 0 ==>
              Run(st, es) == st && forall i :: 0 <= i < |es| ==> Next(st, {}, es[i].name).Idle?
    decreases |es|
  {
    hide Process, Next, InHarmony;
    if es == [] {
    } else {
      var name := es[0].name;
      HarmoniousPass(st, names, name);
      if ResultOf(Next(st, {}, name)).Requeue? {
        PassKeepsHarmony(st, names, name);
      }
      TurnsKeepHarmony(After(st, es[0]), names, es[1..]);
    }
  }

  lemma QuietRound(st: State, names: seq<string>, es: seq<Event>)
    requires InHarmony(st, names) && Round(es, names) && Requeues(st, es) == 0
    ensures AllDone(st, names)
  {
    hide Next, Settled, Concord, Steady, Matching;
    TurnsKeepHarmony(st, names, es);
    forall n | n in names ensures Next(st, {}, n).Idle? && Settled(st, st.shares[n]) {
      var i :| 0 <= i < |es| && es[i] == Pass(n, {});
      assert Next(st, {}, es[i].name).Idle?;
      HarmoniousPass(st, names, n);
    }
  }

  function Flat(rounds: seq<seq<Event>>): seq<Event> {
    if rounds == [] then [] else rounds[0] + Flat(rounds[1..])
  }

  lemma {:induction false} DoneStaysDone(st: State, names: seq<string>, es: seq<Event>)
    requires AllDone(st, names) && TurnsOf(es, names)
    ensures Run(st, es) == st
    decreases |es|
  {
    hide Next, Settled;
    if es == [] {
    } else {
      assert After(st, es[0]) == st;
      DoneStaysDone(st, names, es[1..]);
    }
  }

  lemma {:induction false} FlatTurns(rounds: seq<seq<Event>>, names: seq<string>)
    requires forall i :: 0 <= i < |rounds| ==> Round(rounds[i], names)
    ensures TurnsOf(Flat(rounds), names)
  {
    if rounds == [] {
    } else {
      FlatTurns(rounds[1..], names);
    }
  }

  lemma RoundTurns(es: seq<Event>, names: seq<string>)
    requires Round(es, names)
    ensures TurnsOf(es, names)
  {
  }

  lemma HarmonyParts(st: State, names: seq<string>)
    requires InHarmony(st, names)
    ensures Keyed(st) && Concord(st, names)
  {
  }

  /** When every share of a harmonious group gets its turns, in whatever order, all of them end at Done and set up,
      after at most as many rounds as they owe together. */
  lemma {:induction false} FairConverges(st: State, names: seq<string>, rounds: seq<seq<Event>>)
    requires InHarmony(st, names) && forall i :: 0 <= i < |rounds| ==> Round(rounds[i], names)
    requires forall n :: n in names ==> n in st.shares
    requires |rounds| > GroupDebt(st, names)
    ensures AllDone(Run(st, Flat(rounds)), names)
    decreases |rounds|
  {
    hide After, InHarmony, AllDone, GroupDebt, Concord, Round, Keyed;
    var es, rest := rounds[0], Flat(rounds[1..]);
    RoundTurns(es, names);
    FlatTurns(rounds[1..], names);
    RunAppend(st, es, rest);
    TurnsKeepHarmony(st, names, es);
    if Requeues(st, es) == 0 {
      QuietRound(st, names, es);
      DoneStaysDone(st, names, rest);
    } else {
      HarmonyParts(st, names);
      GroupConverges(st, names, es);
      ConcordIsThere(Run(st, es), names);
      FairConverges(Run(st, es), names, rounds[1..]);
    }
  }
}
