/** Every stored configuration, in every run, is a group configuration that serves exactly its shares. */
module ConfigRuns {
  import opened Basics
  import opened SmbApi
  import opened ContainerConfig
  import opened Ownership
  import opened Planning
  import opened PlannerTheorems
  import opened Cluster
  import opened Reconcile
  import opened Justification
  import opened Runs

  /** A ConfigMap of the group holds a configuration of the group. */
  ghost predicate DataServes(k: ObjKey, data: Data) {
    data.Json? && Serves(data.config, k.name, data.config.shares.Keys)
  }

  ghost predicate ConfigsServe(st: State) {
    forall k :: k in st.objects && k.kind == ConfigMap ==> DataServes(k, st.objects[k].data)
  }

  /** What a pass stores is one planner edit of what was stored before. */
  lemma StoredByEdit(st: State, f: Faults, s: Share, cm: Object, c: Config)
    requires cm.data.Json? && ConfigEdit(st, f, s, cm, c)
    ensures var before := cm.data.config;
            if s.deleting then c == Edited(before, Drop(BareInstance(st, s)))
            else
              && FetchInstance(st, f, s).Some?
              && !UpdatePanics(FetchInstance(st, f, s).value, before)
              && c == Edited(before, Add(FetchInstance(st, f, s).value))
  {
  }

  lemma ServedKeys(c: Config, id: Key, live: set<Key>)
    requires Serves(c, id, live)
    ensures c.shares.Keys == live
  {
  }

  lemma SavedServes(st: State, f: Faults, s: Share, c: Config)
    requires ConfigMapKey(s) in st.objects && DataServes(ConfigMapKey(s), st.objects[ConfigMapKey(s)].data)
    requires ConfigEdit(st, f, s, st.objects[ConfigMapKey(s)], c)
    ensures Serves(c, s.serverGroup, c.shares.Keys)
  {
    hide ConfigEdit, Serves, Edited, UpdatePanics, FetchInstance;
    var before := st.objects[ConfigMapKey(s)].data.config;
    var live := before.shares.Keys;
    StoredByEdit(st, f, s, st.objects[ConfigMapKey(s)], c);
    if s.deleting {
      DropServes(BareInstance(st, s), before, live);
      ServedKeys(c, s.serverGroup, live - {BareInstance(st, s).ShareName()});
    } else {
      var ic := FetchInstance(st, f, s).value;
      FetchInstanceOf(st, f, s);
      AddServes(ic, before, live);
      ServedKeys(c, s.serverGroup, live + {ic.ShareName()});
    }
  }

  lemma NewServes(id: Key)
    ensures Reload(New()) == New()
    ensures Serves(Reload(New()), id, Reload(New()).shares.Keys)
  {
  }

  lemma PassKeepsConfigs(st: State, f: Faults, name: string)
    requires Keyed(st) && ConfigsServe(st)
    ensures ConfigsServe(Process(st, f, name))
  {
    hide NextFor, ConfigEdit, ShareEdit, NamesOwner, WellFormedRefs, HasController, Wanted, ShareRefs,
         Excluding, Serves, New, Reload;
    if name in st.shares {
      var s := st.shares[name];
      NextJustified(st, f, s);
      var a := NextFor(st, f, s);
      assert Next(st, f, name) == a || Next(st, f, name) == Fail;
      if a.SaveConfig? {
        SavedServes(st, f, s, a.config);
      } else if a.Create? {
        NewServes(a.key.name);
      }
    }
  }

  /** For every interleaving of passes, edits and deletions, faults included: each group's stored
      configuration lists each of its shares once, defines every global it uses and has no empty map. */
  lemma {:induction false} RunKeepsConfigs(st: State, es: seq<Event>)
    requires Keyed(st) && ConfigsServe(st)
    ensures ConfigsServe(Run(st, es))
    decreases |es|
  {
    hide Process, DataServes;
    if es == [] {
    } else {
      EventKeepsKeyed(st, es[0]);
      if es[0].Pass? {
        PassKeepsConfigs(st, es[0].faults, es[0].name);
      }
      RunKeepsConfigs(After(st, es[0]), es[1..]);
    }
  }
}
