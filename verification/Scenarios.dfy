/** Concrete runs from the empty store in which the operator fails its users, step by step. */
module Scenarios {
  import opened Basics
  import opened SmbApi
  import opened ContainerConfig
  import opened Ownership
  import opened Planning
  import opened PlannerTheorems
  import opened Cluster
  import opened Reconcile
  import opened Runs
  import opened Convergence
  import opened Panics
  import opened Survival

  const NO_FAULTS: Faults := {}

  // ----- single passes without failing calls -----

  lemma FinalizerPass(st: State, name: string)
    requires Keyed(st) && name in st.shares && !st.shares[name].deleting
    requires SHARE_FINALIZER !in st.shares[name].finalizers
    ensures var s := st.shares[name];
            Process(st, {}, name) ==
            st.(shares := st.shares[name := s.(finalizers := s.finalizers + [SHARE_FINALIZER])])
  {
    hide ConfigMapStep, NextServer, PvcStep;
  }

  lemma GroupPass(st: State, name: string)
    requires Keyed(st) && name in st.shares && !st.shares[name].deleting
    requires SHARE_FINALIZER in st.shares[name].finalizers && st.shares[name].serverGroup == ""
    requires ChooseGroup(st.shares[name]).Some?
    ensures var s := st.shares[name];
            Process(st, {}, name) == st.(shares := st.shares[name := s.(serverGroup := ChooseGroup(s).value)])
  {
    hide ConfigMapStep, NextServer, PvcStep, ChooseGroup;
  }

  lemma CreateConfigPass(st: State, name: string)
    requires Keyed(st) && name in st.shares && !st.shares[name].deleting
    requires SHARE_FINALIZER in st.shares[name].finalizers && st.shares[name].serverGroup != ""
    requires ConfigMapKey(st.shares[name]) !in st.objects
    ensures var s := st.shares[name];
            Process(st, {}, name) == Put(st, ConfigMapKey(s), NewObject(s, Json(Reload(New())), 0))
  {
    hide ConfigStep, NextServer, PvcStep, New, Reload, FindClaim;
  }

  lemma ClaimConfigPass(st: State, name: string)
    requires Keyed(st) && name in st.shares && !st.shares[name].deleting
    requires SHARE_FINALIZER in st.shares[name].finalizers && st.shares[name].serverGroup != ""
    requires ConfigMapKey(st.shares[name]) in st.objects
    requires FindClaim(st.objects[ConfigMapKey(st.shares[name])].owners, name).Unowned?
    ensures var s := st.shares[name];
            Process(st, {}, name) == Apply(st, s, ClaimObject(ConfigMapKey(s)))
  {
    hide ConfigStep, NextServer, PvcStep, FindClaim;
  }

  lemma {:induction false} Extend(start: State, es: seq<Event>, e: Event)
    ensures Run(start, es + [e]) == After(Run(start, es), e)
  {
    hide After;
    RunAppend(start, es, [e]);
    assert Run(Run(start, es), [e]) == Run(After(Run(start, es), e), []);
  }

  // ----- a name is reused while references still carry it -----

  const PLAIN_SPEC := ShareSpec("", Some(PvcSource("data", false, "")), false, true, "", "", None, None)
  const OLD := Share("ns", "x", "old", false, [], map[], "", PLAIN_SPEC)
  const REUSED := OLD.(uid := "new")

  /** A share with its finalizer and its group set. */
  function Placed(s: Share): Share {
    s.(finalizers := [SHARE_FINALIZER], serverGroup := "x")
  }

  function Solo(operator: OperatorConfig, s: Share, objects: map<ObjKey, Object>): State {
    State(operator, map["x" := s], objects, map[], map[])
  }

  const CONFIG_KEY := ObjKey(ConfigMap, "x")
  const STALE := [ShareRef("x", "old", true)]

  function Unserved(refs: seq<OwnerRef>): Object {
    Object(refs, Json(New()), 0)
  }

  /** What the old share leaves behind: a ConfigMap that only it owned. */
  const LEFT: map<ObjKey, Object> := map[CONFIG_KEY := Unserved(STALE)]

  /** The old share comes, gets its ConfigMap and goes. */
  const FIRST_LIFE: seq<Event> :=
    [AddShare(OLD), Pass("x", NO_FAULTS), Pass("x", NO_FAULTS), Pass("x", NO_FAULTS),
     MarkDeleted("x"), Pass("x", NO_FAULTS), DropShare("x")]

  const NO_PVC := OLD.(spec := PLAIN_SPEC.(pvc := None))

  lemma StartLife(operator: OperatorConfig, s: Share, objects: map<ObjKey, Object>)
    requires s in {OLD, REUSED, NO_PVC}
    ensures var st := State(operator, map[], objects, map[], map[]);
            Run(st, [AddShare(s), Pass("x", NO_FAULTS), Pass("x", NO_FAULTS)]) == Solo(operator, Placed(s), objects)
  {
    hide Process;
    var st := State(operator, map[], objects, map[], map[]);
    var s1 := s.(finalizers := [SHARE_FINALIZER]);
    var e := Pass("x", NO_FAULTS);
    assert map[]["x" := s] == map["x" := s];
    assert Run(st, [AddShare(s)]) == Run(After(st, AddShare(s)), []) == Solo(operator, s, objects);
    FinalizerPass(Solo(operator, s, objects), "x");
    assert s.finalizers + [SHARE_FINALIZER] == [SHARE_FINALIZER];
    assert map["x" := s]["x" := s1] == map["x" := s1];
    Extend(st, [AddShare(s)], e);
    assert Run(st, [AddShare(s)] + [e]) == Solo(operator, s1, objects);
    GroupPass(Solo(operator, s1, objects), "x");
    assert map["x" := s1]["x" := Placed(s)] == map["x" := Placed(s)];
    Extend(st, [AddShare(s)] + [e], e);
    assert [AddShare(s)] + [e] + [e] == [AddShare(s), e, e];
  }

  /** The old share gets as far as its ConfigMap. */
  const ARRIVAL: seq<Event> := [AddShare(OLD), Pass("x", NO_FAULTS), Pass("x", NO_FAULTS), Pass("x", NO_FAULTS)]

  lemma Arrival(operator: OperatorConfig)
    ensures Run(EmptyStore(operator), ARRIVAL) == Solo(operator, Placed(OLD), LEFT)
  {
    hide Process;
    var e := Pass("x", NO_FAULTS);
    StartLife(operator, OLD, map[]);
    Extend(EmptyStore(operator), [AddShare(OLD), e, e], e);
    CreateConfigPass(Solo(operator, Placed(OLD), map[]), "x");
    assert [AddShare(OLD), e, e] + [e] == ARRIVAL;
    assert Reload(New()) == New();
  }

  lemma NoOthers()
    ensures Excluding(ShareRefs(STALE), "x", "old") == []
  {
  }

  lemma ReleasePass(operator: OperatorConfig)
    ensures var gone := Placed(OLD).(deleting := true);
            Process(Solo(operator, gone, LEFT), {}, "x") == Solo(operator, gone.(finalizers := []), LEFT)
  {
    hide NextUpdate;
    var gone := Placed(OLD).(deleting := true);
    var st := Solo(operator, gone, LEFT);
    NoOthers();
    assert TransferStep(st, {}, gone, CONFIG_KEY, LEFT[CONFIG_KEY]).Idle?;
    assert PruneStep(st, {}, gone, CONFIG_KEY, LEFT[CONFIG_KEY]).Idle? by {
      assert Pruned(BareInstance(st, gone), New()) == New();
    }
    assert Without([SHARE_FINALIZER], SHARE_FINALIZER) == [];
    assert ConfigMapFinal(st, {}, gone).Idle? && ServerFinal(st, {}, gone).Idle?;
  }

  lemma FirstLife(operator: OperatorConfig)
    ensures Run(EmptyStore(operator), FIRST_LIFE) == State(operator, map[], LEFT, map[], map[])
  {
    hide Process;
    var st, e, s := EmptyStore(operator), Pass("x", NO_FAULTS), Placed(OLD);
    Arrival(operator);
    Extend(st, ARRIVAL, MarkDeleted("x"));
    var gone := s.(deleting := true);
    assert Run(st, ARRIVAL + [MarkDeleted("x")]) == Solo(operator, gone, LEFT);
    ReleasePass(operator);
    Extend(st, ARRIVAL + [MarkDeleted("x")], e);
    assert Run(st, ARRIVAL + [MarkDeleted("x")] + [e]) == Solo(operator, gone.(finalizers := []), LEFT);
    Extend(st, ARRIVAL + [MarkDeleted("x")] + [e], DropShare("x"));
    assert ARRIVAL + [MarkDeleted("x")] + [e] + [DropShare("x")] == FIRST_LIFE;
  }

  const GROUPED := Placed(REUSED)
  const BACKED := GROUPED.(annotations := map[SERVER_BACKEND := STANDARD_BACKEND])
  const FRESH := [ShareRef("x", "new", true)]

  function Served(operator: OperatorConfig, refs: seq<OwnerRef>): Object {
    Object(refs, Json(Reload(Updated(Instance(GROUPED, None, None, operator), New()))), 0)
  }

  lemma NobodyElse(refs: seq<OwnerRef>)
    requires refs in {STALE, FRESH}
    ensures FindClaim(refs, "x").Owned?
    ensures Excluding(ShareRefs(refs), "x", "new") == if refs == STALE then STALE else []
  {
  }

  /** The share finds itself, under another uid, or nobody; either way it passes the peer check. */
  lemma ConfigFound(operator: OperatorConfig, s: Share, objects: map<ObjKey, Object>)
    requires s in {GROUPED, BACKED} && CONFIG_KEY in objects && objects[CONFIG_KEY].owners in {STALE, FRESH}
    requires LoadConfig(objects[CONFIG_KEY].data).Some?
    ensures ConfigMapStep(Solo(operator, s, objects), {}, s) ==
            PlanStep({}, CONFIG_KEY, objects[CONFIG_KEY].data, Instance(s, None, None, operator),
                     LoadConfig(objects[CONFIG_KEY].data).value)
  {
    hide UpdatePanics, Updated, Contradicts, Reload, New, PlanStep, LoadConfig, FindClaim, ShareRefs, Excluding;
    var st, refs := Solo(operator, s, objects), objects[CONFIG_KEY].owners;
    NobodyElse(refs);
    assert PeerStep(st, {}, Instance(s, None, None, operator), Excluding(ShareRefs(refs), "x", "new")).Idle?;
  }

  lemma NewNeverPanics(ic: Instance)
    requires ic.share.spec.pvc.Some?
    ensures !UpdatePanics(ic, New())
  {
  }

  lemma StorePass(operator: OperatorConfig, refs: seq<OwnerRef>)
    requires refs in {STALE, FRESH}
    ensures Process(Solo(operator, GROUPED, map[CONFIG_KEY := Unserved(refs)]), {}, "x") ==
            Solo(operator, GROUPED, map[CONFIG_KEY := Served(operator, refs)])
  {
    hide ConfigMapStep, NextServer, Reload, Updated, UpdatePanics;
    var ic := Instance(GROUPED, None, None, operator);
    var objects := map[CONFIG_KEY := Unserved(refs)];
    ConfigFound(operator, GROUPED, objects);
    NewNeverPanics(ic);
    UpdatedHasUsers(ic);
    assert objects[CONFIG_KEY := Served(operator, refs)] == map[CONFIG_KEY := Served(operator, refs)];
  }

  /** From here on the configuration has nothing left to update. */
  lemma ConfigDone(operator: OperatorConfig, s: Share, objects: map<ObjKey, Object>, refs: seq<OwnerRef>)
    requires s in {GROUPED, BACKED} && refs in {STALE, FRESH}
    requires CONFIG_KEY in objects && objects[CONFIG_KEY] == Served(operator, refs)
    ensures ConfigMapStep(Solo(operator, s, objects), {}, s).Idle?
  {
    hide ConfigMapStep, UpdatePanics, Updated, Reload;
    var ic := Instance(GROUPED, None, None, operator);
    ConfigFound(operator, s, objects);
    NewNeverPanics(ic);
    StoredAgain(ic, New());
    PlannedAlikeUpdates(ic, s, Reload(Updated(ic, New())));
    assert Instance(s, None, None, operator) == ic.(share := s);
  }

  lemma ServerPasses(operator: OperatorConfig, refs: seq<OwnerRef>)
    requires refs in {STALE, FRESH}
    ensures var dep, svc := ObjKey(Deployment, "x"), ObjKey(Service, "x");
            var o0 := map[CONFIG_KEY := Served(operator, refs)];
            var o1 := o0[dep := NewObject(BACKED, NoData, 1)];
            var o2 := o1[svc := NewObject(BACKED, NoData, 0)];
            && Process(Solo(operator, GROUPED, o0), {}, "x") == Solo(operator, BACKED, o0)
            && Process(Solo(operator, BACKED, o0), {}, "x") == Solo(operator, BACKED, o1)
            && Process(Solo(operator, BACKED, o1), {}, "x") == Solo(operator, BACKED, o2)
            && NextFor(Solo(operator, BACKED, o2), {}, BACKED).Idle?
  {
    hide ConfigMapStep, Served;
    var dep, svc := ObjKey(Deployment, "x"), ObjKey(Service, "x");
    var o0 := map[CONFIG_KEY := Served(operator, refs)];
    var o1 := o0[dep := NewObject(BACKED, NoData, 1)];
    var o2 := o1[svc := NewObject(BACKED, NoData, 0)];
    ConfigDone(operator, GROUPED, o0, refs);
    ConfigDone(operator, BACKED, o0, refs);
    ConfigDone(operator, BACKED, o1, refs);
    ConfigDone(operator, BACKED, o2, refs);
    assert FindClaim(FRESH, "x").Owned?;
    assert map["x" := GROUPED]["x" := BACKED] == map["x" := BACKED];
  }

  /** The share is the only one, its update is done, and the ConfigMap has these owners. */
  ghost predicate Settles(st: State, refs: seq<OwnerRef>) {
    && st.shares == map["x" := BACKED] && NextFor(st, {}, BACKED).Idle?
    && CONFIG_KEY in st.objects && st.objects[CONFIG_KEY].owners == refs
  }

  const FOUR_PASSES: seq<Event> :=
    [Pass("x", NO_FAULTS), Pass("x", NO_FAULTS), Pass("x", NO_FAULTS), Pass("x", NO_FAULTS)]

  lemma TwoPasses(st: State, st1: State, st2: State)
    requires Process(st, {}, "x") == st1 && Process(st1, {}, "x") == st2
    ensures Run(st, [Pass("x", NO_FAULTS), Pass("x", NO_FAULTS)]) == st2
  {
    hide Process;
    var es := [Pass("x", NO_FAULTS), Pass("x", NO_FAULTS)];
    assert es[1..][1..] == [];
    assert Run(st, es) == Run(st1, es[1..]) == Run(st2, es[1..][1..]);
  }

  lemma FourPasses(operator: OperatorConfig, refs: seq<OwnerRef>)
    requires refs in {STALE, FRESH}
    ensures Settles(Run(Solo(operator, GROUPED, map[CONFIG_KEY := Unserved(refs)]), FOUR_PASSES), refs)
  {
    hide Process, NextFor, NewObject;
    var st, e := Solo(operator, GROUPED, map[CONFIG_KEY := Unserved(refs)]), Pass("x", NO_FAULTS);
    var o0 := map[CONFIG_KEY := Served(operator, refs)];
    var o1 := o0[ObjKey(Deployment, "x") := NewObject(BACKED, NoData, 1)];
    var o2 := o1[ObjKey(Service, "x") := NewObject(BACKED, NoData, 0)];
    StorePass(operator, refs);
    ServerPasses(operator, refs);
    TwoPasses(st, Solo(operator, GROUPED, o0), Solo(operator, BACKED, o0));
    TwoPasses(Solo(operator, BACKED, o0), Solo(operator, BACKED, o1), Solo(operator, BACKED, o2));
    RunAppend(st, [e, e], [e, e]);
    assert [e, e] + [e, e] == FOUR_PASSES;
  }

  /** The new share sets up a group of its own around the ConfigMap it found. */
  const SECOND_LIFE: seq<Event> := [AddShare(REUSED), Pass("x", NO_FAULTS), Pass("x", NO_FAULTS)] + FOUR_PASSES

  lemma SecondLife(operator: OperatorConfig)
    ensures Settles(Run(EmptyStore(operator), FIRST_LIFE + SECOND_LIFE), STALE)
  {
    hide After, NextFor;
    var left := State(operator, map[], LEFT, map[], map[]);
    FirstLife(operator);
    StartLife(operator, REUSED, LEFT);
    FourPasses(operator, STALE);
    RunAppend(left, [AddShare(REUSED), Pass("x", NO_FAULTS), Pass("x", NO_FAULTS)], FOUR_PASSES);
    RunAppend(EmptyStore(operator), FIRST_LIFE, SECOND_LIFE);
  }

  /** The same share in an empty store sets up everything by itself. */
  const ONLY_LIFE: seq<Event> :=
    [AddShare(REUSED), Pass("x", NO_FAULTS), Pass("x", NO_FAULTS)] + [Pass("x", NO_FAULTS)] + FOUR_PASSES

  lemma OnlyLife(operator: OperatorConfig)
    ensures Settles(Run(EmptyStore(operator), ONLY_LIFE), FRESH)
  {
    hide Process, NextFor;
    var st, e := EmptyStore(operator), Pass("x", NO_FAULTS);
    var es := [AddShare(REUSED), e, e];
    StartLife(operator, REUSED, map[]);
    Extend(st, es, e);
    CreateConfigPass(Solo(operator, GROUPED, map[]), "x");
    assert Reload(New()) == New();
    assert Run(st, es + [e]) == Solo(operator, GROUPED, map[CONFIG_KEY := Unserved(FRESH)]);
    FourPasses(operator, FRESH);
    RunAppend(st, es + [e], FOUR_PASSES);
  }

  /** A claim goes by name alone: in this run the new share's update is done, it does not own its ConfigMap,
      and collection takes the ConfigMap although the share exists. */
  lemma ReuseLosesConfigMap(operator: OperatorConfig)
    ensures var st := Run(EmptyStore(operator), FIRST_LIFE + SECOND_LIFE);
            && "x" in st.shares && !st.shares["x"].deleting && NextFor(st, {}, st.shares["x"]).Idle?
            && ConfigMapKey(st.shares["x"]) == CONFIG_KEY && CONFIG_KEY in st.objects
            && !Owns(st.objects[CONFIG_KEY].owners, "x", st.shares["x"].uid)
            && CONFIG_KEY !in After(st, Collect(CONFIG_KEY)).objects
            && Lives(st, [Collect(CONFIG_KEY)], "x")
  {
    hide NextFor;
    SecondLife(operator);
    var st := Run(EmptyStore(operator), FIRST_LIFE + SECOND_LIFE);
    var st' := After(st, Collect(CONFIG_KEY));
    assert AllGone(st, STALE);
    assert Lives(st', [Collect(CONFIG_KEY)][1..], "x");
  }

  // ----- a share without a PVC -----

  lemma NoPvcPanicDue(operator: OperatorConfig)
    ensures PanicDue(Solo(operator, Placed(NO_PVC), LEFT), {}, Placed(NO_PVC))
  {
    var st, s := Solo(operator, Placed(NO_PVC), LEFT), Placed(NO_PVC);
    assert NamesOwner(STALE, "x") by {
      assert IsShareRef(STALE[0]);
    }
    NoOthers();
    assert ConfigPanics(st, {}, s);
  }

  /** The source of the storage is optional, but a share without one makes its fourth pass panic. */
  lemma FourthPassPanics(operator: OperatorConfig)
    ensures var e := Pass("x", NO_FAULTS);
            var st := Run(EmptyStore(operator), [AddShare(NO_PVC), e, e, e]);
            Next(st, {}, "x").Crash?
  {
    hide Next, Process;
    var start, e, s := EmptyStore(operator), Pass("x", NO_FAULTS), Placed(NO_PVC);
    var es := [AddShare(NO_PVC), e, e];
    var st := Solo(operator, s, LEFT);
    StartLife(operator, NO_PVC, map[]);
    Extend(start, es, e);
    CreateConfigPass(Solo(operator, s, map[]), "x");
    assert es + [e] == [AddShare(NO_PVC), e, e, e];
    assert Reload(New()) == New();
    assert After(Solo(operator, s, map[]), e) == Process(Solo(operator, s, map[]), {}, "x") == st;
    NoPvcPanicDue(operator);
    PassPanicsIff(st, {}, "x");
  }

  // ----- a configuration with a nil map -----

  /** Text in which maps are null. */
  function Nulled(nils: set<Field>): Config {
    RawConfig(map[], map[], map[], map[], nils)
  }

  lemma NulledConfigPanics(operator: OperatorConfig, nils: set<Field>)
    ensures var st := Solo(operator, GROUPED, map[CONFIG_KEY := Object(FRESH, Json(Nulled(nils)), 0)]);
            ConfigPanics(st, {}, GROUPED) <==> nils != {}
  {
    hide UpdatePanics, ShareRefs, Excluding;
    var ic := Instance(GROUPED, None, None, operator);
    NobodyElse(FRESH);
    assert NamesOwner(FRESH, "x") by {
      assert IsShareRef(FRESH[0]);
    }
    if nils == {} {
      NewNeverPanics(ic);
    } else {
      NilMapPanics(ic, Nulled(nils));
    }
  }

  /** The share's next pass panics if and only if one of the maps of its stored configuration is nil. */
  lemma NullMapPanics(operator: OperatorConfig, nils: set<Field>)
    ensures var st := Solo(operator, GROUPED, map[CONFIG_KEY := Object(FRESH, Json(Nulled(nils)), 0)]);
            Next(st, {}, "x").Crash? <==> nils != {}
  {
    hide NextFor, ConfigPanics, ConfigInOrder, ServerPanics, Nulled;
    var st := Solo(operator, GROUPED, map[CONFIG_KEY := Object(FRESH, Json(Nulled(nils)), 0)]);
    NulledConfigPanics(operator, nils);
    NoPanicWithPvc(st, {}, GROUPED);
    PassPanicsIff(st, {}, "x");
  }

  // ----- two shares meet -----

  /** A second share that asks for the group of the first and for its name. */
  const TWIN := Share("ns", "y", "twin", false, [], map[], "",
                      PLAIN_SPEC.(shareName := "x", scaling := Some(Scaling("", 0, "x", "explicit"))))

  function Duo(operator: OperatorConfig, s: Share, t: Share, objects: map<ObjKey, Object>): State {
    State(operator, map["x" := s, "y" := t], objects, map[], map[])
  }

  /** The ConfigMap of the first share, claimed by the second. */
  const BOTH := [ShareRef("x", "old", true), ShareRef("y", "twin", false)]
  const MET: map<ObjKey, Object> := map[CONFIG_KEY := Unserved(BOTH)]

  /** A second share joins the first and claims its ConfigMap. */
  function Meeting(t: Share): seq<Event> {
    ARRIVAL + [AddShare(t)] + [Pass("y", NO_FAULTS)] + [Pass("y", NO_FAULTS)] + [Pass("y", NO_FAULTS)]
  }

  lemma SameChoice(s: Share, s': Share)
    requires s'.spec == s.spec && s'.name == s.name
    ensures ChooseGroup(s') == ChooseGroup(s)
  {
  }

  lemma SecondClaims(operator: OperatorConfig, x: Share, t: Share)
    requires x.name == "x" && t.name == "y" && t.uid == "twin" && !t.deleting
    ensures Process(Duo(operator, x, Placed(t), LEFT), {}, "y") == Duo(operator, x, Placed(t), MET)
  {
    hide Process, New;
    ClaimConfigPass(Duo(operator, x, Placed(t), LEFT), "y");
    assert STALE + [ShareRef("y", "twin", false)] == BOTH;
    assert LEFT[CONFIG_KEY := Unserved(BOTH)] == MET;
  }

  lemma JoiningPasses(operator: OperatorConfig, x: Share, t: Share)
    requires x.name == "x" && t.name == "y" && t.uid == "twin" && !t.deleting && t.finalizers == []
    requires t.serverGroup == "" && ChooseGroup(t) == Some("x")
    ensures var t1, t2 := t.(finalizers := [SHARE_FINALIZER]), Placed(t);
            && Process(Duo(operator, x, t, LEFT), {}, "y") == Duo(operator, x, t1, LEFT)
            && Process(Duo(operator, x, t1, LEFT), {}, "y") == Duo(operator, x, t2, LEFT)
            && Process(Duo(operator, x, t2, LEFT), {}, "y") == Duo(operator, x, t2, MET)
  {
    hide Process, New, ChooseGroup;
    var t1 := t.(finalizers := [SHARE_FINALIZER]);
    FinalizerPass(Duo(operator, x, t, LEFT), "y");
    assert t.finalizers + [SHARE_FINALIZER] == [SHARE_FINALIZER];
    assert map["x" := x, "y" := t]["y" := t1] == map["x" := x, "y" := t1];
    SameChoice(t, t1);
    GroupPass(Duo(operator, x, t1, LEFT), "y");
    assert map["x" := x, "y" := t1]["y" := Placed(t)] == map["x" := x, "y" := Placed(t)];
    SecondClaims(operator, x, t);
  }

  lemma NamedOld()
    ensures Placed(OLD).name == "x"
  {
  }

  lemma Meet(operator: OperatorConfig, t: Share)
    requires t.name == "y" && t.uid == "twin" && !t.deleting && t.finalizers == []
    requires t.serverGroup == "" && ChooseGroup(t) == Some("x")
    ensures Run(EmptyStore(operator), Meeting(t)) == Duo(operator, Placed(OLD), Placed(t), MET)
  {
    hide Process, New, ChooseGroup, Placed;
    var start, e, x := EmptyStore(operator), Pass("y", NO_FAULTS), Placed(OLD);
    Arrival(operator);
    Extend(start, ARRIVAL, AddShare(t));
    assert map["x" := x]["y" := t] == map["x" := x, "y" := t];
    assert Run(start, ARRIVAL + [AddShare(t)]) == Duo(operator, x, t, LEFT);
    NamedOld();
    JoiningPasses(operator, x, t);
    Extend(start, ARRIVAL + [AddShare(t)], e);
    Extend(start, ARRIVAL + [AddShare(t)] + [e], e);
    Extend(start, ARRIVAL + [AddShare(t)] + [e] + [e], e);
  }

  // ----- control is handed to a share that is gone -----

  const LATER := TWIN.(uid := "later")

  /** The second share goes, a third takes its name, and the first goes. */
  const FAREWELL: seq<Event> :=
    Meeting(TWIN) + [MarkDeleted("y")] + [Pass("y", NO_FAULTS)] + [DropShare("y")]
    + [AddShare(LATER)] + [MarkDeleted("x")] + [Pass("x", NO_FAULTS)]

  const HANDED := [ShareRef("x", "old", false), ShareRef("y", "twin", true)]

  lemma OthersOfBoth()
    ensures Excluding(ShareRefs(BOTH), "y", "twin") == [BOTH[0]]
    ensures Excluding(ShareRefs(BOTH), "x", "old") == [BOTH[1]]
    ensures WithController(BOTH, "y", "twin") == HANDED
  {
    assert BOTH[1..] == [BOTH[1]];
    assert ShareRefs([BOTH[1]]) == [BOTH[1]];
    assert ShareRefs(BOTH) == BOTH;
    assert Excluding([BOTH[1]], "y", "twin") == [] && Excluding([BOTH[1]], "x", "old") == [BOTH[1]];
  }

  lemma PrunedNew(ic: Instance)
    ensures Pruned(ic, New()) == New()
  {
  }

  lemma TwinReleased(operator: OperatorConfig)
    ensures var gone := Placed(TWIN).(deleting := true);
            Process(Duo(operator, Placed(OLD), gone, MET), {}, "y") ==
            Duo(operator, Placed(OLD), gone.(finalizers := []), MET)
  {
    hide NextUpdate, New, Pruned, ShareRefs, Excluding;
    var gone := Placed(TWIN).(deleting := true);
    var st := Duo(operator, Placed(OLD), gone, MET);
    OthersOfBoth();
    assert [BOTH[0]][0].controller;
    assert TransferStep(st, {}, gone, CONFIG_KEY, MET[CONFIG_KEY]).Idle?;
    PrunedNew(BareInstance(st, gone));
    assert Without([SHARE_FINALIZER], SHARE_FINALIZER) == [];
    assert ConfigMapFinal(st, {}, gone).Idle? && ServerFinal(st, {}, gone).Idle?;
    assert map["x" := Placed(OLD), "y" := gone]["y" := gone.(finalizers := [])] ==
           map["x" := Placed(OLD), "y" := gone.(finalizers := [])];
  }

  lemma HandedToTwin(operator: OperatorConfig)
    ensures var gone := Placed(OLD).(deleting := true);
            Process(Duo(operator, gone, LATER, MET), {}, "x") ==
            Duo(operator, gone, LATER, map[CONFIG_KEY := Unserved(HANDED)])
  {
    hide NextUpdate, New, Pruned, ShareRefs, Excluding, WithController;
    var gone := Placed(OLD).(deleting := true);
    var st := Duo(operator, gone, LATER, MET);
    OthersOfBoth();
    assert PickOwner(st, {}, [BOTH[1]]) == Picked(BOTH[1]);
    assert TransferStep(st, {}, gone, CONFIG_KEY, MET[CONFIG_KEY]) == Transfer(CONFIG_KEY, BOTH[1]);
    assert MET[CONFIG_KEY := Unserved(HANDED)] == map[CONFIG_KEY := Unserved(HANDED)];
  }

  /** The second share leaves without a trace but its reference, and a third one takes its name. */
  lemma TwinReplaced(operator: OperatorConfig, es: seq<Event>)
    requires Run(EmptyStore(operator), es) == Duo(operator, Placed(OLD), Placed(TWIN), MET)
    ensures Run(EmptyStore(operator),
                es + [MarkDeleted("y")] + [Pass("y", NO_FAULTS)] + [DropShare("y")] + [AddShare(LATER)]) ==
            Duo(operator, Placed(OLD), LATER, MET)
  {
    hide Process, New, Placed;
    var start, x, y := EmptyStore(operator), Placed(OLD), Placed(TWIN);
    var gone := y.(deleting := true);
    Extend(start, es, MarkDeleted("y"));
    assert map["x" := x, "y" := y]["y" := gone] == map["x" := x, "y" := gone];
    TwinReleased(operator);
    Extend(start, es + [MarkDeleted("y")], Pass("y", NO_FAULTS));
    Extend(start, es + [MarkDeleted("y")] + [Pass("y", NO_FAULTS)], DropShare("y"));
    assert map["x" := x, "y" := gone.(finalizers := [])] - {"y"} == map["x" := x];
    Extend(start, es + [MarkDeleted("y")] + [Pass("y", NO_FAULTS)] + [DropShare("y")], AddShare(LATER));
    assert map["x" := x]["y" := LATER] == map["x" := x, "y" := LATER];
  }

  /** A transfer goes by name alone: in this run it makes a share the controller that does not exist any more. */
  lemma StaleTransfer(operator: OperatorConfig)
    ensures var st := Run(EmptyStore(operator), FAREWELL);
            && CONFIG_KEY in st.objects && st.objects[CONFIG_KEY].owners == HANDED
            && HANDED[1].controller && OwnerGone(st, HANDED[1])
            && "y" in st.shares && !st.shares["y"].deleting
  {
    hide Process, New, Placed, Meeting;
    var start, x := EmptyStore(operator), Placed(OLD);
    var gone := x.(deleting := true);
    Meet(operator, TWIN);
    TwinReplaced(operator, Meeting(TWIN));
    var es := Meeting(TWIN) + [MarkDeleted("y")] + [Pass("y", NO_FAULTS)] + [DropShare("y")] + [AddShare(LATER)];
    Extend(start, es, MarkDeleted("x"));
    assert map["x" := x, "y" := LATER]["x" := gone] == map["x" := gone, "y" := LATER];
    HandedToTwin(operator);
    Extend(start, es + [MarkDeleted("x")], Pass("x", NO_FAULTS));
  }
}
