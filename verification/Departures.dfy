/** A run from the empty store in which a departing share leaves a live one without a controller. */
module Departures {
  import opened Basics
  import opened SmbApi
  import opened Ownership
  import opened Planning
  import opened Cluster
  import opened Reconcile
  import opened Justification
  import opened Runs
  import opened ConfigRuns
  import opened Convergence
  import opened Controllers
  import opened Finalization
  import opened Panics
  import opened Readiness
  import opened GroupConvergence
  import opened Harmony
  import opened Eviction
  import opened Scenarios

  /** Passes of one share without failing calls. */
  function Turns(n: nat, name: string): seq<Event> {
    seq(n, i => Pass(name, {}))
  }

  lemma {:induction false} TurnsArePasses(st: State, n: nat, name: string)
    ensures Run(st, Turns(n, name)) == Passes(st, NoFaults(n), name)
    decreases n
  {
    hide Process;
    if n == 0 {
    } else {
      assert Turns(n, name)[0] == Pass(name, {}) && Turns(n, name)[1..] == Turns(n - 1, name);
      assert NoFaults(n)[0] == {} && NoFaults(n)[1..] == NoFaults(n - 1);
      TurnsArePasses(Process(st, {}, name), n - 1, name);
    }
  }

  lemma DoneInTurns(st: State, n: nat, name: string)
    requires DoneAfter(st, name, n)
    ensures var end := Run(st, Turns(n, name));
            name in end.shares && Settled(end, end.shares[name])
  {
    hide Settled, Next, Process;
    TurnsArePasses(st, n, name);
  }

  lemma ReleasedInTurns(st: State, n: nat, name: string)
    requires name in st.shares && ReleasedAfter(st, name, n)
    ensures OwnPasses(Turns(n, name), name)
    ensures var end := Run(st, Turns(n, name));
            && name in end.shares && end.shares[name] == st.shares[name]
            && NextFor(end, {}, end.shares[name]).Release?
  {
    hide NextFor, Process, Entries;
    TurnsArePasses(st, n, name);
  }

  // ----- what the passes of one live share leave as it is -----

  /** The other shares and the surroundings, and of the share itself all but its record. */
  predicate OnlyPlaced(st: State, st': State, name: string) {
    && name in st.shares && st'.shares.Keys == st.shares.Keys
    && (forall n :: n in st.shares && n != name ==> st'.shares[n] == st.shares[n])
    && st'.operator == st.operator && st'.securities == st.securities && st'.commons == st.commons
    && var s, s' := st.shares[name], st'.shares[name];
       && s'.name == s.name && s'.uid == s.uid && s'.namespace == s.namespace && s'.spec == s.spec
       && !s'.deleting && GroupOf(s') == GroupOf(s)
  }

  lemma PassOnlyPlaces(st: State, name: string)
    requires Keyed(st) && name in st.shares && !st.shares[name].deleting
    requires WithPvcName(st.shares[name]) == st.shares[name]
    ensures OnlyPlaced(st, Process(st, {}, name), name)
    ensures WithPvcName(Process(st, {}, name).shares[name]) == Process(st, {}, name).shares[name]
  {
    hide Process, ShareEdit, GroupOf, WithPvcName;
    PassOnShares(st, {}, name);
    PassEdits(st, {}, name);
    if Process(st, {}, name).shares[name] != st.shares[name] {
      SteadySaving(st.shares[name], Process(st, {}, name).shares[name]);
    }
  }

  lemma {:induction false} TurnsOnlyPlace(st: State, n: nat, name: string)
    requires Keyed(st) && name in st.shares && !st.shares[name].deleting
    requires WithPvcName(st.shares[name]) == st.shares[name]
    ensures OnlyPlaced(st, Run(st, Turns(n, name)), name)
    decreases n
  {
    hide Process, GroupOf, WithPvcName, Keyed;
    if n == 0 {
    } else {
      assert Turns(n, name)[0] == Pass(name, {}) && Turns(n, name)[1..] == Turns(n - 1, name);
      PassOnlyPlaces(st, name);
      ProcessKeepsKeyed(st, {}, name);
      TurnsOnlyPlace(Process(st, {}, name), n - 1, name);
    }
  }

  lemma LivePassOnOwners(st: State, name: string, k: ObjKey)
    requires Keyed(st) && name in st.shares && !st.shares[name].deleting && k in st.objects
    ensures k in Process(st, {}, name).objects
    ensures var s, refs, refs' := st.shares[name], st.objects[k].owners, Process(st, {}, name).objects[k].owners;
            refs' == refs || (refs' == refs + [ShareRef(name, s.uid, false)] && !NamesOwner(refs, name))
  {
    hide NextFor, ConfigEdit, InitialFor, ShareEdit, OwnKey, SharedKey, NamesOwner, WellFormedRefs, HasController,
         Wanted, ShareRefs, Excluding, Apply, WithController;
    var s := st.shares[name];
    NextJustified(st, {}, s);
    assert Next(st, {}, name) == NextFor(st, {}, s);
    ApplyOnOwners(st, s, NextFor(st, {}, s), k);
  }

  /** The object has its first owners, or these and the share; the share does not own it twice. */
  ghost predicate OwnedFirstBy(st: State, name: string, k: ObjKey, first: seq<OwnerRef>) {
    && name in st.shares
    && var uid := st.shares[name].uid;
       if k in st.objects then
         var refs := st.objects[k].owners;
         refs == first || (refs == first + [ShareRef(name, uid, false)] && !NamesOwner(first, name))
       else
         first == [ShareRef(name, uid, true)]
  }

  lemma {:induction false} TurnsOnOwners(st: State, n: nat, name: string, k: ObjKey, first: seq<OwnerRef>)
    requires Keyed(st) && name in st.shares && !st.shares[name].deleting && OwnedFirstBy(st, name, k, first)
    ensures OwnedFirstBy(Run(st, Turns(n, name)), name, k, first)
    decreases n
  {
    hide Process, NamesOwner, Keyed;
    if n == 0 {
    } else {
      var st' := Process(st, {}, name);
      assert Turns(n, name)[0] == Pass(name, {}) && Turns(n, name)[1..] == Turns(n - 1, name);
      KeyedHere(st, name);
      ProcessKeepsKeyed(st, {}, name);
      PassOnShares(st, {}, name);
      if k in st.objects {
        LivePassOnOwners(st, name, k);
        AppendedIsNamed(first, st.shares[name]);
      } else if k in st'.objects {
        PassCreates(st, {}, name, k);
      }
      TurnsOnOwners(st', n - 1, name, k, first);
    }
  }

  // ----- two clustered shares in one group -----

  const FIRST := OLD.(spec := PLAIN_SPEC.(scaling := Some(Scaling("clustered", 1, "", ""))))
  const SECOND := Share("ns", "y", "twin", false, [], map[], "",
                        PLAIN_SPEC.(scaling := Some(Scaling("clustered", 1, "x", "explicit"))))

  const CLUSTER_KEY := ObjKey(StatefulSet, "x")
  const X := ShareRef("x", "old", true)
  const Y := ShareRef("y", "twin", false)

  predicate Supports(operator: OperatorConfig) {
    operator.clusterSupport == "ctdb-is-experimental" && operator.stateSizeParses
  }

  predicate IsFirst(s: Share) {
    && s.name == "x" && s.uid == "old" && s.namespace == "ns" && s.spec == FIRST.spec && !s.deleting
    && s.serverGroup == "x" && SHARE_FINALIZER in s.finalizers
  }

  /** The first share as its passes leave it: of its group, with its finalizer, in control of what it made. */
  predicate FirstIn(st: State) {
    && st.securities == map[] && st.commons == map[] && Supports(st.operator)
    && CONFIG_KEY in st.objects && st.objects[CONFIG_KEY].owners == [X]
    && CLUSTER_KEY in st.objects && st.objects[CLUSTER_KEY].owners == [X]
    && "x" in st.shares && IsFirst(st.shares["x"])
  }

  lemma FirstIsReady(operator: OperatorConfig)
    requires Supports(operator)
    ensures Ready(Solo(operator, FIRST, map[]), FIRST) && GroupOf(FIRST) == Some("x") && WithPvcName(FIRST) == FIRST
  {
  }

  lemma FirstKeys(s: Share)
    requires s.spec == FIRST.spec && s.serverGroup == "x"
    ensures WorkloadKey(s) == CLUSTER_KEY && ConfigMapKey(s) == CONFIG_KEY
  {
  }

  lemma SettledPlace(st: State, s: Share, g: string)
    requires Settled(st, s) && GroupOf(s) == Some(g)
    ensures s.serverGroup == g && SHARE_FINALIZER in s.finalizers
    ensures ConfigMapKey(s) in st.objects && WorkloadKey(s) in st.objects
    ensures NamesOwner(st.objects[WorkloadKey(s)].owners, s.name)
  {
  }

  lemma FirstGetsIn(operator: OperatorConfig) returns (n: nat)
    requires Supports(operator)
    ensures var end := Run(Solo(operator, FIRST, map[]), Turns(n, "x"));
            FirstIn(end) && end.shares.Keys == {"x"}
  {
    hide Process, Next, Ready, GroupOf, WithPvcName, Debt, Settled;
    var st := Solo(operator, FIRST, map[]);
    FirstIsReady(operator);
    ReadyEndsDone(st, "x");
    n :| DoneAfter(st, "x", n);
    DoneInTurns(st, n, "x");
    var end := Run(st, Turns(n, "x"));
    TurnsOnlyPlace(st, n, "x");
    TurnsOnOwners(st, n, "x", CONFIG_KEY, [X]);
    TurnsOnOwners(st, n, "x", CLUSTER_KEY, [X]);
    assert IsShareRef([X][0]) && NamesOwner([X], "x");
    SettledPlace(end, end.shares["x"], "x");
    FirstKeys(end.shares["x"]);
  }

  lemma FirstSettles(operator: OperatorConfig) returns (n: nat)
    requires Supports(operator)
    ensures var st := Run(EmptyStore(operator), [AddShare(FIRST)] + Turns(n, "x"));
            FirstIn(st) && st.shares.Keys == {"x"}
  {
    hide Process, FirstIn, Turns;
    var start, st := EmptyStore(operator), Solo(operator, FIRST, map[]);
    assert map[]["x" := FIRST] == map["x" := FIRST];
    assert Run(start, [AddShare(FIRST)]) == Run(After(start, AddShare(FIRST)), []) == st;
    n := FirstGetsIn(operator);
    RunAppend(start, [AddShare(FIRST)], Turns(n, "x"));
  }

  lemma WellOwnedParses(st: State)
    requires WellOwned(st)
    ensures RefsParse(st)
  {
  }

  lemma SecondMatches(s: Share)
    requires IsFirst(s)
    ensures GroupOf(SECOND) == Some("x") && GroupOf(s) == GroupOf(SECOND) && Matching(s, SECOND)
    ensures WithPvcName(SECOND) == SECOND && Grouped(SECOND) == SECOND.(serverGroup := "x")
  {
  }

  lemma SecondIsReady(st: State)
    requires FirstIn(st) && ConfigsServe(st) && "y" in st.shares && st.shares["y"] == SECOND
    ensures Ready(st, SECOND)
  {
    hide ConfigsServe, PeerAgrees, AgreesWith, UpdatePanics, GroupOf, WithPvcName, Matching, ShareRefs, Excluding;
    var s, p := st.shares["x"], SECOND.(serverGroup := "x");
    SecondMatches(s);
    OneOther(s, SECOND);
    GroupedAgrees(st, s, SECOND, [X]);
    ServedNeverPanics(st, CONFIG_KEY, Instance(p, None, None, st.operator));
    assert !Contradicts(SECOND.spec);
  }

  /** The second share as its passes leave it: the StatefulSet is the first one's and its. */
  predicate SecondIn(st: State) {
    && "x" in st.shares && IsFirst(st.shares["x"])
    && "y" in st.shares && !st.shares["y"].deleting && st.shares["y"].uid == "twin"
    && CLUSTER_KEY in st.objects && st.objects[CLUSTER_KEY].owners == [X, Y]
  }

  lemma SecondKey(s: Share)
    requires s.spec == SECOND.spec && s.serverGroup == "x"
    ensures WorkloadKey(s) == CLUSTER_KEY
  {
  }

  lemma SecondGetsIn(st: State) returns (n: nat)
    requires FirstIn(st) && Keyed(st) && RefsParse(st) && ConfigsServe(st)
    requires "y" in st.shares && st.shares["y"] == SECOND
    ensures SecondIn(Run(st, Turns(n, "y")))
  {
    hide Process, Next, Ready, GroupOf, WithPvcName, Debt, Settled, ConfigsServe, RefsParse, Keyed;
    SecondIsReady(st);
    SecondMatches(st.shares["x"]);
    ReadyEndsDone(st, "y");
    n :| DoneAfter(st, "y", n);
    DoneInTurns(st, n, "y");
    var end := Run(st, Turns(n, "y"));
    TurnsOnlyPlace(st, n, "y");
    TurnsOnOwners(st, n, "y", CLUSTER_KEY, [X]);
    SettledPlace(end, end.shares["y"], "x");
    SecondKey(end.shares["y"]);
    assert !NamesOwner([X], "y");
    assert [X] + [Y] == [X, Y];
  }

  // ----- the first one leaves -----

  /** The first share's availability mode is edited, and it is deleted. */
  const EDITED: seq<Event> := [EditSpec("x", PLAIN_SPEC), MarkDeleted("x")]

  lemma Edited(st: State)
    requires SecondIn(st) && Keyed(st)
    ensures var st' := Run(st, EDITED);
            && st'.objects == st.objects
            && st'.shares == st.shares["x" := st.shares["x"].(spec := PLAIN_SPEC, deleting := true)]
  {
    var st1 := After(st, EDITED[0]);
    var st2 := After(st1, EDITED[1]);
    assert EDITED[1..] == [EDITED[1]] && EDITED[1..][1..] == [];
    assert Run(st, EDITED) == Run(st1, EDITED[1..]) == Run(st2, []) == st2;
  }

  /** The first share is gone, the second is there, and the first is still the only one in control. */
  ghost predicate Uncontrolled(st: State) {
    && "x" !in st.shares && "y" in st.shares && !st.shares["y"].deleting && st.shares["y"].uid == "twin"
    && CLUSTER_KEY in st.objects && st.objects[CLUSTER_KEY].owners == [X, Y] && OwnerGone(st, X)
  }

  lemma LeavingIsStale(st: State)
    requires "x" in st.shares && st.shares["x"].spec == PLAIN_SPEC
    requires st.shares["x"].uid == "old" && "y" in st.shares && !st.shares["y"].deleting
    requires CLUSTER_KEY in st.objects && st.objects[CLUSTER_KEY].owners == [X, Y]
    ensures !HandsOver(st.shares["x"], CLUSTER_KEY) && CurrentFor(st, "x", CLUSTER_KEY)
    ensures OtherLives(st, "x", CLUSTER_KEY)
  {
    assert st.objects[CLUSTER_KEY].owners[1] == Y && Alive(st, Y);
  }

  lemma ReadableHere(st: State, s: Share)
    requires AllReadable(st)
    ensures Readable(st, s)
  {
  }

  lemma ReleasingPass(st: State, name: string)
    requires Keyed(st) && name in st.shares && NextFor(st, {}, st.shares[name]).Release?
    ensures var s, st' := st.shares[name], Process(st, {}, name);
            && s.deleting
            && st' == st.(shares := st.shares[name := s.(finalizers := Without(s.finalizers, SHARE_FINALIZER))])
  {
    hide NextFor, Without;
    NextJustified(st, {}, st.shares[name]);
  }

  lemma LastSteps(st: State, es: seq<Event>)
    requires var end := Run(st, es);
             && Keyed(end) && "x" in end.shares && NextFor(end, {}, end.shares["x"]).Release?
             && "y" in end.shares && !end.shares["y"].deleting && end.shares["y"].uid == "twin"
             && CLUSTER_KEY in end.objects && end.objects[CLUSTER_KEY].owners == [X, Y]
    ensures Uncontrolled(Run(st, es + [Pass("x", {})] + [DropForeignFinalizers("x")] + [DropShare("x")]))
  {
    hide Process, NextFor, Without;
    var end := Run(st, es);
    ReleasingPass(end, "x");
    Extend(st, es, Pass("x", {}));
    Extend(st, es + [Pass("x", {})], DropForeignFinalizers("x"));
    Extend(st, es + [Pass("x", {})] + [DropForeignFinalizers("x")], DropShare("x"));
  }

  lemma FirstLeaves(st: State) returns (n: nat)
    requires WellOwned(st) && AllReadable(st) && "x" in st.shares && st.shares["x"].spec == PLAIN_SPEC
    requires st.shares["x"].deleting && SHARE_FINALIZER in st.shares["x"].finalizers && st.shares["x"].uid == "old"
    requires "y" in st.shares && !st.shares["y"].deleting && st.shares["y"].uid == "twin"
    requires CLUSTER_KEY in st.objects && st.objects[CLUSTER_KEY].owners == [X, Y]
    ensures Uncontrolled(Run(st, Turns(n, "x") + [Pass("x", {})] + [DropForeignFinalizers("x")] + [DropShare("x")]))
  {
    hide After, WellOwned, AllReadable, FinalDebt, HandsOver, OtherLives, OtherControls, CurrentFor, Releasable,
         NextFor, ReleasedAfter, Uncontrolled, Keyed;
    WellOwnedIsKeyed(st);
    ReadableHere(st, st.shares["x"]);
    WellOwnedIsReleasable(st, st.shares["x"]);
    FinalizationCompletes(st, "x");
    n :| ReleasedAfter(st, "x", n);
    ReleasedInTurns(st, n, "x");
    LeavingIsStale(st);
    RunKeepsKeyed(st, Turns(n, "x"));
    DepartureLeavesControllerIff(st, Turns(n, "x"), {}, "x", CLUSTER_KEY);
    LastSteps(st, Turns(n, "x"));
  }

  lemma SecondArrives(st: State)
    requires FirstIn(st) && st.shares.Keys == {"x"}
    ensures var st' := After(st, AddShare(SECOND));
            FirstIn(st') && "y" in st'.shares && st'.shares["y"] == SECOND
  {
    hide Process;
  }

  lemma SecondParts(st: State)
    requires SecondIn(st)
    ensures "x" in st.shares && st.shares["x"].uid == "old" && SHARE_FINALIZER in st.shares["x"].finalizers
    ensures "y" in st.shares && !st.shares["y"].deleting && st.shares["y"].uid == "twin"
    ensures CLUSTER_KEY in st.objects && st.objects[CLUSTER_KEY].owners == [X, Y]
  {
  }

  /** Two clustered shares settle in one group, the mode of the first is edited to standard, and it is deleted and
      finalized without a failing call. The StatefulSet has a live owner, and its only controller is gone. */
  lemma EditedModeLosesController(operator: OperatorConfig) returns (es: seq<Event>)
    requires Supports(operator)
    ensures Uncontrolled(Run(EmptyStore(operator), es))
  {
    hide After, FirstIn, SecondIn, Uncontrolled, Turns, WellOwned, ConfigsServe, AllReadable, RefsParse;
    var start := EmptyStore(operator);
    var n := FirstSettles(operator);
    var es1 := [AddShare(FIRST)] + Turns(n, "x");
    Extend(start, es1, AddShare(SECOND));
    SecondArrives(Run(start, es1));
    var es2 := es1 + [AddShare(SECOND)];
    ReachableIsFine(operator, es2);
    WellOwnedIsKeyed(Run(start, es2));
    WellOwnedParses(Run(start, es2));
    var m := SecondGetsIn(Run(start, es2));
    RunAppend(start, es2, Turns(m, "y"));
    var es3 := es2 + Turns(m, "y");
    ReachableIsFine(operator, es3);
    WellOwnedIsKeyed(Run(start, es3));
    Edited(Run(start, es3));
    RunAppend(start, es3, EDITED);
    var es4 := es3 + EDITED;
    ReachableIsFine(operator, es4);
    SecondParts(Run(start, es3));
    var l := FirstLeaves(Run(start, es4));
    var last := Turns(l, "x") + [Pass("x", {})] + [DropForeignFinalizers("x")] + [DropShare("x")];
    RunAppend(start, es4, last);
    es := es4 + last;
  }
}
