/** A finished share keeps its section exactly when no other share of its group can lay hands on the name. */
module Rivals {
  import opened Basics
  import opened SmbApi
  import opened ContainerConfig
  import opened Cluster
  import opened Reconcile
  import opened Justification
  import opened Runs
  import opened ConfigRuns
  import opened Survival
  import opened Convergence
  import opened Finalization
  import opened Eviction
  import opened Sections
  import opened Scenarios

  /** Another share is, or will be by its own passes, one of the group under the same name; one that is being
      deleted counts only while it has the finalizer. */
  predicate IsRival(s: Share, g: string, key: Key) {
    && ShareKey(s) == key
    && if s.serverGroup != "" then s.serverGroup == g && (SHARE_FINALIZER in s.finalizers || !s.deleting)
       else !s.deleting && ChooseGroup(s) == Some(g)
  }

  ghost predicate Unrivalled(st: State, name: string, g: string, key: Key) {
    forall n :: n in st.shares && n != name ==> !IsRival(st.shares[n], g, key)
  }

  /** The share exists, is not being deleted and is one of the group under this name. */
  predicate InPlace(st: State, name: string, g: string, key: Key) {
    && name in st.shares && !st.shares[name].deleting
    && st.shares[name].serverGroup == g && ShareKey(st.shares[name]) == key
  }

  ghost predicate Calm(st: State, name: string, g: string, key: Key) {
    InPlace(st, name, g, key) && Unrivalled(st, name, g, key)
  }

  ghost predicate CalmRun(st: State, es: seq<Event>, name: string, g: string, key: Key)
    decreases |es|
  {
    Calm(st, name, g, key) && (es == [] || CalmRun(After(st, es[0]), es[1..], name, g, key))
  }

  /** The section is there, with these options. */
  predicate Exported(st: State, g: string, key: Key) {
    key in Entries(st, GroupKey(g))
  }

  lemma OwnEditKeeps(s: Share, g: string, key: Key, before: map<Key, Options>, after: map<Key, Options>)
    requires OwnEdit(s, g, before, after) && key in before
    requires s.deleting ==> ShareKey(s) != key
    ensures key in after
    ensures ShareKey(s) != key ==> after[key].Entries() == before[key].Entries()
  {
    if ShareKey(s) != key {
      assert key in before - {ShareKey(s)};
      assert !s.deleting ==> key in after - {ShareKey(s)};
    }
  }

  /** No event of a calm store takes the section away, and none but the share's own pass changes its options. */
  lemma EventKeepsSection(st: State, e: Event, name: string, g: string, key: Key)
    requires Keyed(st) && g != "" && Calm(st, name, g, key)
    requires Anchored(st, name, GroupKey(g)) && name in After(st, e).shares && Exported(st, g, key)
    ensures Exported(After(st, e), g, key)
    ensures !(e.Pass? && e.name == name) ==>
              Entries(After(st, e), GroupKey(g))[key].Entries() == Entries(st, GroupKey(g))[key].Entries()
  {
    hide Process, Entries, Owns;
    EventKeepsAnchor(st, e, name, GroupKey(g));
    if !e.Pass? {
      OtherEventOnEntries(st, e, GroupKey(g));
    } else if e.name in st.shares {
      var s := st.shares[e.name];
      var before, after := Entries(st, GroupKey(g)), Entries(After(st, e), GroupKey(g));
      PassOnEntries(st, e.faults, e.name, g);
      if after != before {
        assert e.name != name ==> !IsRival(s, g, key);
        OwnEditKeeps(s, g, key, before, after);
      }
    } else {
      IdlePass(st, e.faults, e.name);
    }
  }

  /** While a share is in place and unrivalled, its section stays, whatever else happens. */
  lemma {:induction false} RunKeepsSection(st: State, es: seq<Event>, name: string, g: string, key: Key)
    requires Keyed(st) && g != "" && CalmRun(st, es, name, g, key)
    requires Anchored(st, name, GroupKey(g)) && Exported(st, g, key)
    ensures Exported(Run(st, es), g, key)
    decreases |es|
  {
    hide After, Keyed, Exported, Anchored, Unrivalled;
    if es == [] {
    } else {
      EventKeepsKeyed(st, es[0]);
      EventKeepsAnchor(st, es[0], name, GroupKey(g));
      EventKeepsSection(st, es[0], name, g, key);
      RunKeepsSection(After(st, es[0]), es[1..], name, g, key);
    }
  }

  lemma DoneIsExported(st: State, f: Faults, s: Share)
    requires NextUpdate(st, f, s).Idle?
    ensures Exported(st, s.serverGroup, ShareKey(s)) && s.serverGroup != ""
  {
    hide ConfigMapStep, NextServer, LoadConfig;
    DoneConfigServes(st, f, s);
  }

  lemma ExportedIsListed(st: State, g: string, key: Key)
    requires ConfigsServe(st) && Exported(st, g, key)
    ensures GroupKey(g) in st.objects && LoadConfig(st.objects[GroupKey(g)].data).Some?
    ensures var c := LoadConfig(st.objects[GroupKey(g)].data).value;
            g in c.configs && key in c.configs[g].shares
  {
  }

  /** A share whose update is done keeps its section, and its place in the instance's list, in every later run in
      which it is not deleted or renamed and no other share of the group takes the name. */
  lemma DoneStaysExported(operator: OperatorConfig, before: seq<Event>, f: Faults, name: string, after: seq<Event>,
                          g: string, key: Key)
    requires TidyForRun(EmptyStore(operator), before, name, GroupKey(g))
    requires var st := Run(EmptyStore(operator), before);
             && CalmRun(st, after, name, g, key)
             && NextFor(st, f, st.shares[name]).Idle?
    ensures var end := Run(EmptyStore(operator), before + after);
            && Exported(end, g, key)
            && var c := LoadConfig(end.objects[GroupKey(g)].data).value;
               g in c.configs && key in c.configs[g].shares
  {
    hide After, NextUpdate, TidyFor, CurrentFor, Anchored, Exported, Unrivalled;
    var start, st := EmptyStore(operator), Run(EmptyStore(operator), before);
    var s := st.shares[name];
    RunAppend(start, before, after);
    EmptyIsFine(operator, name, GroupKey(g));
    RunKeepsKeyed(start, before);
    RunKeepsCurrentFor(start, before, name, GroupKey(g));
    DoneIsExported(st, f, s);
    DoneAnchors(st, f, name, GroupKey(g));
    RunKeepsSection(st, after, name, g, key);
    ReachableIsFine(operator, before + after);
    ExportedIsListed(Run(st, after), g, key);
  }

  // ----- the exact condition, for runs of the operator alone -----

  /** Nobody creates a share or edits one; shares may still be deleted, and anything may fail. */
  predicate Unedited(es: seq<Event>) {
    forall i :: 0 <= i < |es| ==> !es[i].AddShare? && !es[i].EditSpec?
  }

  ghost predicate Undeleted(st: State, es: seq<Event>, name: string)
    decreases |es|
  {
    && name in st.shares && !st.shares[name].deleting
    && (es == [] || Undeleted(After(st, es[0]), es[1..], name))
  }

  lemma EditKeepsRivalry(s: Share, s': Share, g: string, key: Key)
    requires ShareEdit(s, s') && !s.deleting && IsRival(s', g, key) && g != ""
    ensures IsRival(s, g, key)
  {
  }

  lemma ReleaseKeepsRivalry(s: Share, s': Share, g: string, key: Key)
    requires s.deleting && s' == s.(finalizers := Without(s.finalizers, SHARE_FINALIZER))
    ensures !IsRival(s', g, key)
  {
  }

  lemma ShareEditKeepsKey(s: Share, s': Share)
    requires ShareEdit(s, s')
    ensures ShareKey(s') == ShareKey(s)
  {
  }

  lemma PassKeepsCalm(st: State, f: Faults, pass: string, name: string, g: string, key: Key)
    requires Keyed(st) && g != "" && Calm(st, name, g, key)
    ensures Calm(Process(st, f, pass), name, g, key)
  {
    hide Process, ShareEdit, Without, IsRival, ShareKey;
    if pass !in st.shares {
      IdlePass(st, f, pass);
    } else {
      PassOnShares(st, f, pass);
      PassOnOwnShare(st, f, pass);
      var s, s' := st.shares[pass], Process(st, f, pass).shares[pass];
      if !s.deleting && ShareEdit(s, s') {
        ShareEditKeepsKey(s, s');
        if IsRival(s', g, key) {
          EditKeepsRivalry(s, s', g, key);
        }
      } else if s.deleting && s' != s {
        ReleaseKeepsRivalry(s, s', g, key);
      }
    }
  }

  lemma EventKeepsCalm(st: State, e: Event, name: string, g: string, key: Key)
    requires Keyed(st) && g != "" && Calm(st, name, g, key)
    requires !e.AddShare? && !e.EditSpec? && name in After(st, e).shares && !After(st, e).shares[name].deleting
    ensures Calm(After(st, e), name, g, key)
  {
    hide Process;
    if e.Pass? {
      PassKeepsCalm(st, e.faults, e.name, name, g, key);
    }
  }

  lemma {:induction false} UneditedIsCalm(st: State, es: seq<Event>, name: string, g: string, key: Key)
    requires Keyed(st) && g != "" && Calm(st, name, g, key) && Unedited(es) && Undeleted(st, es, name)
    ensures CalmRun(st, es, name, g, key)
    decreases |es|
  {
    hide After, Keyed, Calm;
    if es == [] {
    } else {
      EventKeepsKeyed(st, es[0]);
      EventKeepsCalm(st, es[0], name, g, key);
      UneditedIsCalm(After(st, es[0]), es[1..], name, g, key);
    }
  }

  // ----- what a rival does -----

  lemma {:induction false} OthersLeaveAlone(st: State, es: seq<Event>, rival: string, name: string)
    requires Keyed(st) && name in st.shares && !st.shares[name].deleting && rival != name
    requires forall i :: 0 <= i < |es| ==> es[i] == Pass(rival, {}) || es[i] == MarkDeleted(rival)
    ensures Undeleted(st, es, name) && Unedited(es)
    decreases |es|
  {
    hide Process, Keyed;
    if es == [] {
    } else {
      EventKeepsKeyed(st, es[0]);
      if es[0].Pass? && rival in st.shares {
        assert Keyed(st);
        PassOnShares(st, {}, rival);
      } else if es[0].Pass? {
        IdlePass(st, {}, rival);
      }
      OthersLeaveAlone(After(st, es[0]), es[1..], rival, name);
    }
  }

  /** Passes of its own bring a rival that is not being deleted into the group, finalizer and all. */
  lemma Joins(st: State, rival: string, g: string, key: Key) returns (es: seq<Event>)
    requires WellOwned(st) && AllReadable(st) && rival in st.shares && g != ""
    requires IsRival(st.shares[rival], g, key)
    ensures forall i :: 0 <= i < |es| ==> es[i] == Pass(rival, {})
    ensures var st' := Run(st, es);
            && WellOwned(st') && AllReadable(st') && rival in st'.shares
            && var s := st'.shares[rival];
               s.serverGroup == g && SHARE_FINALIZER in s.finalizers && ShareKey(s) == key
    decreases SHARE_FINALIZER !in st.shares[rival].finalizers, st.shares[rival].serverGroup == ""
  {
    hide Process, ChooseGroup, RefsOk, LoadConfig;
    var s, pass := st.shares[rival], Pass(rival, {});
    if SHARE_FINALIZER !in s.finalizers {
      FinalizerPass(st, rival);
      var st1 := Process(st, {}, rival);
      var s1 := s.(finalizers := s.finalizers + [SHARE_FINALIZER]);
      assert st1.shares[rival] == s1 && SHARE_FINALIZER in s1.finalizers;
      PassKeepsWellOwned(st, {}, rival);
      SameChoice(s, s1);
      var rest := Joins(st1, rival, g, key);
      es := [pass] + rest;
      assert es[1..] == rest;
    } else if s.serverGroup == "" {
      GroupPass(st, rival);
      PassKeepsWellOwned(st, {}, rival);
      es := [pass];
      assert Run(st, es) == Run(Process(st, {}, rival), es[1..]) == Process(st, {}, rival);
    } else {
      es := [];
    }
  }

  lemma Marked(st: State, name: string)
    requires WellOwned(st) && AllReadable(st) && name in st.shares
    ensures var st' := Run(st, [MarkDeleted(name)]);
            && WellOwned(st') && AllReadable(st')
            && st' == st.(shares := st.shares[name := st.shares[name].(deleting := true)])
  {
    hide RefsOk, LoadConfig;
    var st' := After(st, MarkDeleted(name));
    assert Run(st, [MarkDeleted(name)]) == Run(st', []) == st';
  }

  /** A rival that joins, is deleted and finalized takes the section with it. */
  lemma RivalTakesSection(st: State, name: string, rival: string, g: string, key: Key) returns (es: seq<Event>)
    requires WellOwned(st) && AllReadable(st) && g != "" && InPlace(st, name, g, key)
    requires rival in st.shares && rival != name && IsRival(st.shares[rival], g, key)
    ensures Unedited(es) && Undeleted(st, es, name) && !Exported(Run(st, es), g, key)
  {
    hide After, WellOwned, AllReadable, IsRival, Entries;
    WellOwnedIsKeyed(st);
    var join := Joins(st, rival, g, key);
    var st1 := Run(st, join);
    var st2 := Run(st1, [MarkDeleted(rival)]);
    Marked(st1, rival);
    var final := Finalize(st2, rival, GroupKey(g));
    es := join + [MarkDeleted(rival)] + final;
    RunAppend(st, join, [MarkDeleted(rival)]);
    RunAppend(st, join + [MarkDeleted(rival)], final);
    OthersLeaveAlone(st, es, rival, name);
  }

  /** The section of a share that owns its group's ConfigMap stays in every run without edits in which the share
      is not deleted if and only if it has no rival. */
  lemma SectionStaysIffUnrivalled(st: State, name: string, g: string, key: Key)
    requires WellOwned(st) && AllReadable(st) && g != "" && InPlace(st, name, g, key)
    requires Anchored(st, name, GroupKey(g)) && Exported(st, g, key)
    ensures (forall es :: Unedited(es) && Undeleted(st, es, name) ==> Exported(Run(st, es), g, key)) <==>
            Unrivalled(st, name, g, key)
  {
    hide After, AllReadable, RefsOk, IsRival, Exported, Anchored, Unedited, Undeleted;
    if Unrivalled(st, name, g, key) {
      forall es | Unedited(es) && Undeleted(st, es, name) ensures Exported(Run(st, es), g, key) {
        UneditedIsCalm(st, es, name, g, key);
        RunKeepsSection(st, es, name, g, key);
      }
    } else {
      var rival :| rival in st.shares && rival != name && IsRival(st.shares[rival], g, key);
      var es := RivalTakesSection(st, name, rival, g, key);
    }
  }

  // ----- two shares with one name -----

  lemma TwinArrives(done: State)
    requires Settles(done, FRESH) && Exported(done, "x", "x")
    ensures var st := After(done, AddShare(TWIN));
            && InPlace(st, "x", "x", "x") && "y" in st.shares && IsRival(st.shares["y"], "x", "x")
            && Exported(st, "x", "x")
  {
    hide NextFor, Entries;
    OtherEventOnEntries(done, AddShare(TWIN), GroupKey("x"));
  }

  lemma LivingIsUpdated(st: State)
    ensures NextFor(st, {}, BACKED) == NextUpdate(st, {}, BACKED)
  {
  }

  /** In this run the first share is done and exported. The twin is created, its passes bring it into the group,
      and when it is deleted it takes the section of the first share with it. */
  lemma TwinTakesSection(operator: OperatorConfig) returns (es: seq<Event>)
    ensures var done := Run(EmptyStore(operator), ONLY_LIFE);
            "x" in done.shares && NextFor(done, {}, done.shares["x"]).Idle? && Exported(done, "x", "x")
    ensures var st := Run(EmptyStore(operator), ONLY_LIFE + [AddShare(TWIN)]);
            Unedited(es) && Undeleted(st, es, "x") && Exported(st, "x", "x") && !Exported(Run(st, es), "x", "x")
  {
    hide NextFor, After, Entries, IsRival, Exported, AllReadable, WellOwned, EmptyStore;
    OnlyLife(operator);
    var done := Run(EmptyStore(operator), ONLY_LIFE);
    LivingIsUpdated(done);
    DoneIsExported(done, {}, BACKED);
    TwinArrives(done);
    Extend(EmptyStore(operator), ONLY_LIFE, AddShare(TWIN));
    ReachableIsFine(operator, ONLY_LIFE + [AddShare(TWIN)]);
    es := RivalTakesSection(After(done, AddShare(TWIN)), "x", "y", "x", "x");
  }
}
