/** A share's section of the group's configuration: when it stays, and whose sections are there at all. */
module Sections {
  import opened Basics
  import opened SmbApi
  import opened ContainerConfig
  import opened Ownership
  import opened Planning
  import opened Cluster
  import opened Reconcile
  import opened Justification
  import opened Runs
  import opened Finalization

  /** The name a share is exported under. */
  function ShareKey(s: Share): Key {
    if s.spec.shareName != "" then s.spec.shareName else s.name
  }

  function GroupKey(g: string): ObjKey {
    ObjKey(ConfigMap, g)
  }

  // ----- how one pass changes the sections -----

  /** A pass that stores a configuration after an update has its finalizer and its group. */
  lemma StoringIsPlaced(st: State, f: Faults, s: Share)
    requires NextFor(st, f, s).SaveConfig? && !s.deleting
    ensures SHARE_FINALIZER in s.finalizers && s.serverGroup != ""
  {
    hide ConfigMapStep, PvcStep, NextServer, ChooseGroup;
  }

  lemma PruningHasFinalizer(st: State, f: Faults, s: Share)
    requires NextFor(st, f, s).SaveConfig? && s.deleting
    ensures SHARE_FINALIZER in s.finalizers
  {
  }

  lemma UpdatedEntries(ic: Instance, c: Config)
    requires !UpdatePanics(ic, c)
    ensures var key, after := ic.ShareName(), Reload(Updated(ic, c)).shares;
            SameContent(after - {key}, c.shares - {key}) && key in after
  {
    hide CustomOptions, SpecOptions, UpdatedGlobals, UpdatedSection;
  }

  lemma PrunedEntries(ic: Instance, c: Config)
    ensures SameContent(Reload(Pruned(ic, c)).shares, c.shares - {ic.ShareName()})
  {
  }

  lemma EditedEntries(st: State, f: Faults, s: Share, cm: Object, c: Config)
    requires ConfigEdit(st, f, s, cm, c)
    ensures LoadConfig(cm.data).Some?
    ensures var before := LoadConfig(cm.data).value.shares;
            if s.deleting then SameContent(c.shares, before - {ShareKey(s)})
            else SameContent(c.shares - {ShareKey(s)}, before - {ShareKey(s)}) && ShareKey(s) in c.shares
  {
    hide LoadConfig, FetchInstance, PeerStep, WellFormedRefs, UpdatePanics, Updated, Pruned, Reload, Contradicts,
         SameContent;
    var before := LoadConfig(cm.data).value;
    if s.deleting {
      PrunedEntries(BareInstance(st, s), before);
    } else {
      FetchInstanceOf(st, f, s);
      UpdatedEntries(FetchInstance(st, f, s).value, before);
    }
  }

  /** The share sets or removes its own section of its own group. */
  predicate OwnEdit(s: Share, g: string, before: map<Key, Options>, after: map<Key, Options>) {
    && s.serverGroup == g && SHARE_FINALIZER in s.finalizers
    && if s.deleting then SameContent(after, before - {ShareKey(s)})
       else SameContent(after - {ShareKey(s)}, before - {ShareKey(s)}) && ShareKey(s) in after
  }

  lemma SavedEntries(st: State, f: Faults, s: Share, k: ObjKey, c: Config)
    requires NextFor(st, f, s) == SaveConfig(k, c)
    ensures k == GroupKey(s.serverGroup) && k in st.objects && OwnEdit(s, s.serverGroup, Entries(st, k), c.shares)
  {
    hide NextFor, ConfigEdit, SameContent, LoadConfig;
    NextJustified(st, f, s);
    EditedEntries(st, f, s, st.objects[k], c);
    if s.deleting {
      PruningHasFinalizer(st, f, s);
    } else {
      StoringIsPlaced(st, f, s);
    }
  }

  lemma NewHasNoEntries()
    ensures Reload(New()).shares == map[]
  {
  }

  /** A pass changes the sections of a group only by its share's own section, and only of the share's group. */
  lemma PassOnEntries(st: State, f: Faults, name: string, g: string)
    requires Keyed(st) && name in st.shares
    ensures var before, after := Entries(st, GroupKey(g)), Entries(Process(st, f, name), GroupKey(g));
            after == before || OwnEdit(st.shares[name], g, before, after)
  {
    hide NextFor, ConfigEdit, OwnKey, SharedKey, ShareEdit, NamesOwner, WellFormedRefs, HasController, Wanted,
         ShareRefs, Excluding, WithController, Without, OwnEdit, New, Reload;
    var s, k := st.shares[name], GroupKey(g);
    NextJustified(st, f, s);
    NewHasNoEntries();
    var a := Next(st, f, name);
    assert a == NextFor(st, f, s) || a == Fail;
    if a.SaveConfig? && a.key == k {
      SavedEntries(st, f, s, k, a.config);
    }
  }

  // ----- whose sections are there -----

  predicate Holds(s: Share, g: string, key: Key) {
    s.serverGroup == g && SHARE_FINALIZER in s.finalizers && ShareKey(s) == key
  }

  /** Every section of the group's configuration belongs to a share of the group that has the finalizer. */
  ghost predicate SectionsHeld(st: State, g: string) {
    forall key :: key in Entries(st, GroupKey(g)) ==> exists n :: n in st.shares && Holds(st.shares[n], g, key)
  }

  /** The event does not change what a share of the group is exported under. */
  ghost predicate KeepsName(st: State, e: Event, g: string) {
    e.EditSpec? && e.name in st.shares && st.shares[e.name].serverGroup == g ==>
      ShareKey(st.shares[e.name].(spec := e.spec)) == ShareKey(st.shares[e.name])
  }

  ghost predicate KeepsNamesRun(st: State, es: seq<Event>, g: string)
    decreases |es|
  {
    es == [] || (KeepsName(st, es[0], g) && KeepsNamesRun(After(st, es[0]), es[1..], g))
  }

  lemma EditHolds(s: Share, s': Share, g: string, key: Key)
    requires ShareEdit(s, s') && g != "" && Holds(s, g, key)
    ensures Holds(s', g, key)
  {
  }

  lemma ReleasedHasNoSection(st: State, f: Faults, s: Share)
    requires NextFinalize(st, f, s).Release?
    ensures ShareKey(s) !in Entries(st, ConfigMapKey(s))
  {
  }

  /** A pass takes the finalizer off its share only if the share's section is gone. */
  lemma PassKeepsHolder(st: State, f: Faults, pass: string, g: string, n: string, key: Key)
    requires Keyed(st) && g != "" && pass in st.shares && n in st.shares && Holds(st.shares[n], g, key)
    requires key in Entries(Process(st, f, pass), GroupKey(g))
    ensures n in Process(st, f, pass).shares && Holds(Process(st, f, pass).shares[n], g, key)
  {
    hide NextUpdate, NextFinalize, ConfigEdit, OwnKey, SharedKey, ShareEdit, NamesOwner, WellFormedRefs, HasController,
         Wanted, ShareRefs, Excluding, WithController, Without;
    var s := st.shares[pass];
    NextJustified(st, f, s);
    var a := Next(st, f, pass);
    assert a == NextFor(st, f, s) || a == Fail;
    if n == pass {
      if a.SaveShare? {
        EditHolds(s, a.share, g, key);
      } else if a.Release? {
        ReleasedHasNoSection(st, f, s);
      }
    }
  }

  lemma NewSectionIsOwn(s: Share, g: string, before: map<Key, Options>, after: map<Key, Options>, key: Key)
    requires OwnEdit(s, g, before, after) && key in after && key !in before
    ensures Holds(s, g, key)
  {
    assert key in after - {ShareKey(s)} <==> key != ShareKey(s);
  }

  lemma PassKeepsSectionsHeld(st: State, f: Faults, pass: string, g: string)
    requires Keyed(st) && g != "" && SectionsHeld(st, g)
    ensures SectionsHeld(Process(st, f, pass), g)
  {
    hide Process, Entries, Holds;
    if pass !in st.shares {
      IdlePass(st, f, pass);
    } else {
      var s, st' := st.shares[pass], Process(st, f, pass);
      var before, after := Entries(st, GroupKey(g)), Entries(st', GroupKey(g));
      PassOnEntries(st, f, pass, g);
      forall key | key in after ensures exists n :: n in st'.shares && Holds(st'.shares[n], g, key) {
        if key in before {
          var n :| n in st.shares && Holds(st.shares[n], g, key);
          PassKeepsHolder(st, f, pass, g, n, key);
        } else {
          NewSectionIsOwn(s, g, before, after, key);
          PassKeepsHolder(st, f, pass, g, pass, key);
        }
      }
    }
  }

  lemma OtherEventKeepsHolder(st: State, e: Event, g: string, n: string, key: Key)
    requires !e.Pass? && KeepsName(st, e, g) && n in st.shares && Holds(st.shares[n], g, key)
    ensures n in After(st, e).shares && Holds(After(st, e).shares[n], g, key)
  {
  }

  lemma OtherEventOnEntries(st: State, e: Event, k: ObjKey)
    requires !e.Pass?
    ensures k in After(st, e).objects ==> Entries(After(st, e), k) == Entries(st, k)
    ensures k !in After(st, e).objects ==> Entries(After(st, e), k) == map[]
  {
    hide LoadConfig;
  }

  lemma EventKeepsSectionsHeld(st: State, e: Event, g: string)
    requires Keyed(st) && g != "" && SectionsHeld(st, g) && KeepsName(st, e, g)
    ensures SectionsHeld(After(st, e), g)
  {
    if e.Pass? {
      hide Process;
      PassKeepsSectionsHeld(st, e.faults, e.name, g);
    } else {
      hide After, Entries, Holds, KeepsName;
      OtherEventOnEntries(st, e, GroupKey(g));
      var st' := After(st, e);
      forall key | key in Entries(st', GroupKey(g))
        ensures exists n :: n in st'.shares && Holds(st'.shares[n], g, key)
      {
        var n :| n in st.shares && Holds(st.shares[n], g, key);
        OtherEventKeepsHolder(st, e, g, n, key);
      }
    }
  }

  /** In every run in which no share of the group is renamed, each section of its stored configuration belongs
      to an existing share of the group that has the finalizer: nothing is left behind. */
  lemma {:induction false} RunKeepsSectionsHeld(st: State, es: seq<Event>, g: string)
    requires Keyed(st) && g != "" && SectionsHeld(st, g) && KeepsNamesRun(st, es, g)
    ensures SectionsHeld(Run(st, es), g)
    decreases |es|
  {
    hide After, Keyed, SectionsHeld, KeepsName;
    if es == [] {
    } else {
      EventKeepsKeyed(st, es[0]);
      EventKeepsSectionsHeld(st, es[0], g);
      RunKeepsSectionsHeld(After(st, es[0]), es[1..], g);
    }
  }

  lemma ReachableSectionsHeld(operator: OperatorConfig, es: seq<Event>, g: string)
    requires g != "" && KeepsNamesRun(EmptyStore(operator), es, g)
    ensures SectionsHeld(Run(EmptyStore(operator), es), g)
  {
    RunKeepsSectionsHeld(EmptyStore(operator), es, g);
  }
}
