/** Properties that span several planner calls, with the configuration stored in between. */
module PlannerTheorems {
  import opened Basics
  import opened SmbApi
  import opened ContainerConfig
  import opened Planning

  lemma SharesAgain(ic: Instance, shares: map<Key, Options>)
    requires ic.ShareName() in shares || ic.share.spec.pvc.Some?
    ensures UpdatedShares(ic, UpdatedShares(ic, shares)) == UpdatedShares(ic, shares)
  {
    var s1 := UpdatedShares(ic, shares);
    var custom, own := CustomOptions(ic.share.spec.custom), SpecOptions(ic.share.spec);
    var o := s1[ic.ShareName()].entries;
    assert o + custom + own == o;
    assert UpdatedShares(ic, s1)[ic.ShareName()] == Opts(o);
  }

  lemma GlobalsAgain(ic: Instance, globals: map<Key, Options>)
    ensures UpdatedGlobals(ic, UpdatedGlobals(ic, globals)) == UpdatedGlobals(ic, globals)
  {
    var c1, g1 := CustomisedGlobals(ic, globals), UpdatedGlobals(ic, globals);
    assert g1[GLOBALS] == c1[GLOBALS];
    var o := DefaultedGlobals(ic, globals)[GLOBALS];
    assert o.Entries() + CustomGlobal(ic) + CustomGlobal(ic) == o.Entries() + CustomGlobal(ic);
    assert Merge(g1[GLOBALS], CustomGlobal(ic)) == g1[GLOBALS];
    assert CustomisedGlobals(ic, g1) == g1;
  }

  lemma UpdatedAgain(ic: Instance, c: Config)
    requires !UpdatePanics(ic, c)
    ensures !UpdatePanics(ic, Updated(ic, c))
    ensures Updated(ic, Updated(ic, c)) == Updated(ic, c)
  {
    SharesAgain(ic, c.shares);
    GlobalsAgain(ic, c.globals);
    assert GLOBALS in UpdatedGlobals(ic, c.globals);
    assert UpdatedGlobals(ic, c.globals)[GLOBALS] == CustomisedGlobals(ic, c.globals)[GLOBALS];
  }

  lemma ReloadedGlobalsAgain(ic: Instance, globals: map<Key, Options>)
    requires UpdatedGlobals(ic, globals) == globals
    requires GLOBALS in globals && !(globals[GLOBALS].NilMap? && CustomGlobal(ic) != map[])
    ensures var r := ReloadedOptions(globals);
            UpdatedGlobals(ic, r) == r && !(r[GLOBALS].NilMap? && CustomGlobal(ic) != map[])
  {
  }

  lemma ReloadedAgain(ic: Instance, u: Config)
    requires !UpdatePanics(ic, u) && Updated(ic, u) == u
    ensures !UpdatePanics(ic, Reload(u)) && Updated(ic, Reload(u)) == Reload(u)
  {
    var r, key := Reload(u), ic.ShareName();
    assert u.shares == UpdatedShares(ic, u.shares) && u.globals == UpdatedGlobals(ic, u.globals);
    assert BROWSEABLE in u.shares[key].entries;
    assert r.shares[key] == u.shares[key];
    assert UpdatedShares(ic, r.shares) == r.shares[key := UpdatedShares(ic, u.shares)[key]] == r.shares;
    ReloadedGlobalsAgain(ic, u.globals);
    assert r.globals == ReloadedOptions(u.globals);
    assert r.configs == u.configs && r.users == u.users;
  }

  lemma UpdatedHasUsers(ic: Instance)
    requires ic.share.spec.pvc.Some?
    ensures Updated(ic, New()) != New()
  {
  }

  /** For any configuration: once an update is stored and read back, there is nothing more to update. */
  lemma StoredAgain(ic: Instance, c: Config)
    requires !UpdatePanics(ic, c)
    ensures var r := Reload(Updated(ic, c));
            !UpdatePanics(ic, r) && Updated(ic, r) == r
  {
    hide Updated, Reload, CustomGlobal;
    UpdatedAgain(ic, c);
    ReloadedAgain(ic, Updated(ic, c));
  }

  /** Updating twice is updating once, and the second update reports a change if and only if an
      enabled custom option contradicts the spec. */
  method UpdateTwice(ic: Instance, c: Config) returns (first: Outcome, second: Outcome, result: Config)
    ensures first.Panicked? <==> UpdatePanics(ic, c)
    ensures first.Returned? ==>
            && second.Returned?
            && result == Updated(ic, c)
            && (second.changed <==> Contradicts(ic.share.spec))
  {
    var p := new Planner(ic, c);
    first := p.Update();
    second, result := first, p.state;
    if first.Returned? {
      UpdatedAgain(ic, c);
      second := p.Update();
      result := p.state;
    }
  }

  lemma {:induction false} RemoveAppended(keys: seq<Key>, k: Key)
    requires k !in keys
    ensures RemoveFirst(keys + [k], k) == keys
  {
    RemoveFirstAt(keys + [k], |keys|, k);
  }

  lemma {:induction false} RemoveFirstCounts(keys: seq<Key>, k: Key)
    ensures multiset(RemoveFirst(keys, k)) == multiset(keys) - multiset{k}
  {
    if keys == [] {
    } else {
      assert keys == [keys[0]] + keys[1..];
      if keys[0] != k {
        RemoveFirstCounts(keys[1..], k);
      }
    }
  }

  /** Update then Prune of a share that was absent restores the shares; it restores an instance's
      list if and only if the list did not name the share already. */
  lemma UpdateThenPrune(ic: Instance, c: Config)
    requires ic.ShareName() !in c.shares && ic.share.spec.pvc.Some?
    ensures var id, key, r := ic.InstanceName(), ic.ShareName(), Pruned(ic, Updated(ic, c));
            && r.shares == c.shares
            && id in r.configs
            && (id in c.configs ==> (r.configs[id] == c.configs[id] <==> key !in c.configs[id].shares))
            && (id !in c.configs ==> r.configs[id].shares == [])
            && (forall i :: i in c.configs && i != id ==> i in r.configs && r.configs[i] == c.configs[i])
  {
    var id, key, u := ic.InstanceName(), ic.ShareName(), Updated(ic, c);
    assert Pruned(ic, u).shares == c.shares;
    if id in c.configs {
      if key in c.configs[id].shares {
        RemoveFirstAbsent(c.configs[id].shares, key);
      } else {
        RemoveAppended(c.configs[id].shares, key);
      }
    } else {
      assert RemoveFirst([key], key) == [];
    }
  }

  lemma RemoveFirstTwice(keys: seq<Key>, k: Key)
    ensures RemoveFirst(RemoveFirst(keys, k), k) == RemoveFirst(keys, k) <==> multiset(keys)[k] <= 1
  {
    RemoveFirstCounts(keys, k);
    RemoveFirstAbsent(RemoveFirst(keys, k), k);
    assert k in RemoveFirst(keys, k) <==> multiset(RemoveFirst(keys, k))[k] > 0;
  }

  /** A second Prune changes nothing if and only if the instance listed the share at most once. */
  lemma PruneTwice(ic: Instance, c: Config)
    ensures Pruned(ic, Pruned(ic, c)) == Pruned(ic, c) <==>
            (ic.InstanceName() in c.configs ==>
              multiset(c.configs[ic.InstanceName()].shares)[ic.ShareName()] <= 1)
  {
    var id, key, p := ic.InstanceName(), ic.ShareName(), Pruned(ic, c);
    assert Pruned(ic, p).shares == p.shares;
    if id in c.configs {
      RemoveFirstTwice(c.configs[id].shares, key);
      assert Pruned(ic, p).configs == p.configs[id := Pruned(ic, p).configs[id]];
    }
  }

  /** Adding or dropping one share leaves every other share's options alone. */
  lemma OtherSharesUntouched(ic: Instance, c: Config, key: Key)
    requires key != ic.ShareName() && key in c.shares
    ensures !UpdatePanics(ic, c) ==> key in Updated(ic, c).shares && Updated(ic, c).shares[key] == c.shares[key]
    ensures key in Pruned(ic, c).shares && Pruned(ic, c).shares[key] == c.shares[key]
  {
  }

  // ----- a group's configuration refines the set of its live shares -----

  datatype Edit = Add(ic: Instance) | Drop(ic: Instance)

  /** One planner call on the stored configuration: the result is stored again if it is reported
      changed, and a panicking call stores nothing. */
  function Edited(c: Config, e: Edit): Config {
    match e
    case Add(ic) =>
      if UpdatePanics(ic, c) then c
      else if Updated(ic, c) != c || Contradicts(ic.share.spec) then Reload(Updated(ic, c))
      else c
    case Drop(ic) =>
      if Pruned(ic, c) != c then Reload(Pruned(ic, c)) else c
  }

  function EditedAll(c: Config, edits: seq<Edit>): Config
    decreases |edits|
  {
    if edits == [] then c else EditedAll(Edited(c, edits[0]), edits[1..])
  }

  function LiveAfter(live: set<Key>, edits: seq<Edit>): set<Key>
    decreases |edits|
  {
    if edits == [] then live
    else
      var key := edits[0].ic.ShareName();
      LiveAfter(if edits[0].Add? then live + {key} else live - {key}, edits[1..])
  }

  ghost predicate ListsExactly(keys: seq<Key>, live: set<Key>) {
    NoDuplicates(keys) && forall k :: k in keys <==> k in live
  }

  /** The configuration is one of a group that serves exactly the live shares. */
  ghost predicate Serves(c: Config, id: Key, live: set<Key>) {
    && Filled(c)
    && c.shares.Keys == live
    && (id !in c.configs ==> live == {})
    && (id in c.configs ==>
          && ListsExactly(c.configs[id].shares, live)
          && forall i :: 0 <= i < |c.configs[id].globals| ==> c.configs[id].globals[i] in c.globals)
  }

  lemma RealmHasSecurity(ic: Instance)
    requires ic.security.Some?
    ensures "security" in RealmOptions(ic)
  {
  }

  lemma MergeStaysFilled(o: Options, over: map<string, string>)
    requires o.Opts? && o.entries != map[]
    ensures Merge(o, over).Opts? && Merge(o, over).entries != map[]
  {
  }

  lemma GlobalsStayFilled(ic: Instance, globals: map<Key, Options>)
    requires AllFilled(globals)
    ensures AllFilled(UpdatedGlobals(ic, globals))
  {
    hide RealmOptions, CustomGlobal, Merge;
    var d := DefaultedGlobals(ic, globals)[GLOBALS];
    assert "printing" in NewGlobals(ic.operator.smbdPort);
    MergeStaysFilled(d, CustomGlobal(ic));
    if ic.ADMode() {
      RealmHasSecurity(ic);
    }
  }

  lemma SharesStayFilled(ic: Instance, shares: map<Key, Options>)
    requires AllFilled(shares) && (ic.ShareName() in shares || ic.share.spec.pvc.Some?)
    ensures AllFilled(UpdatedShares(ic, shares))
  {
    hide CustomOptions;
    assert BROWSEABLE in UpdatedShares(ic, shares)[ic.ShareName()].entries;
  }

  lemma UpdatedStaysFilled(ic: Instance, c: Config)
    requires Filled(c) && !UpdatePanics(ic, c)
    ensures Filled(Updated(ic, c))
  {
    hide UpdatedShares, UpdatedGlobals, UpdatedSection, AllFilled;
    SharesStayFilled(ic, c.shares);
    GlobalsStayFilled(ic, c.globals);
  }

  lemma {:induction false} RemoveFirstLists(keys: seq<Key>, live: set<Key>, k: Key)
    requires ListsExactly(keys, live)
    ensures ListsExactly(RemoveFirst(keys, k), live - {k})
  {
    if k in keys {
      var i :| 0 <= i < |keys| && keys[i] == k;
      assert k !in keys[..i];
      RemoveFirstAt(keys, i, k);
      var r := keys[..i] + keys[i + 1..];
      forall x ensures x in r <==> x in live - {k} {
        if x in live && x != k {
          var j :| 0 <= j < |keys| && keys[j] == x;
          assert r[if j < i then j else j - 1] == x;
        }
      }
    } else {
      RemoveFirstAbsent(keys, k);
    }
  }

  lemma SectionGlobalsDefined(ic: Instance, c: Config, live: set<Key>)
    requires Serves(c, ic.InstanceName(), live)
    ensures var section := UpdatedSection(ic, c.configs);
            forall i :: 0 <= i < |section.globals| ==> section.globals[i] in UpdatedGlobals(ic, c.globals)
  {
  }

  lemma SectionListsShare(ic: Instance, c: Config, live: set<Key>)
    requires Serves(c, ic.InstanceName(), live)
    ensures ListsExactly(UpdatedSection(ic, c.configs).shares, live + {ic.ShareName()})
  {
  }

  lemma AddServes(ic: Instance, c: Config, live: set<Key>)
    requires Serves(c, ic.InstanceName(), live) && !UpdatePanics(ic, c)
    ensures Serves(Edited(c, Add(ic)), ic.InstanceName(), live + {ic.ShareName()})
  {
    hide UpdatedGlobals, UpdatedSection, Reload;
    SectionGlobalsDefined(ic, c, live);
    SectionListsShare(ic, c, live);
    UpdatedStaysFilled(ic, c);
    ReloadIsIdentityIffNoEmptyMap(Updated(ic, c));
    assert Edited(c, Add(ic)) == Updated(ic, c);
  }

  /** A group's configuration never makes an update panic; only a missing PVC does. */
  lemma ServingNeverPanics(ic: Instance, c: Config, live: set<Key>)
    requires Serves(c, ic.InstanceName(), live)
    ensures UpdatePanics(ic, c) <==> ic.ShareName() !in live && ic.share.spec.pvc.None?
  {
  }

  lemma DropServes(ic: Instance, c: Config, live: set<Key>)
    requires Serves(c, ic.InstanceName(), live)
    ensures Serves(Edited(c, Drop(ic)), ic.InstanceName(), live - {ic.ShareName()})
  {
    var id, key, p := ic.InstanceName(), ic.ShareName(), Pruned(ic, c);
    if id in c.configs {
      RemoveFirstLists(c.configs[id].shares, live, key);
    }
    ReloadIsIdentityIffNoEmptyMap(p);
    assert Edited(c, Drop(ic)) == p;
  }

  lemma EmptyServesNobody(id: Key)
    ensures Serves(New(), id, {})
  {
  }

  /** From the empty configuration, any interleaving of updates and prunes of one group never
      panics and always leaves the configuration of exactly the live shares. */
  lemma {:induction false} GroupRefinesLiveShares(c: Config, id: Key, live: set<Key>, edits: seq<Edit>, n: nat)
    requires Serves(c, id, live)
    requires forall i :: 0 <= i < |edits| ==> edits[i].ic.InstanceName() == id
    requires forall i :: 0 <= i < |edits| && edits[i].Add? ==> edits[i].ic.share.spec.pvc.Some?
    requires n <= |edits|
    ensures Serves(EditedAll(c, edits[..n]), id, LiveAfter(live, edits[..n]))
    ensures n < |edits| && edits[n].Add? ==> !UpdatePanics(edits[n].ic, EditedAll(c, edits[..n]))
    ensures Serves(New(), id, {})
    decreases n
  {
    hide Serves, Edited, UpdatePanics;
    EmptyServesNobody(id);
    if n == 0 {
      assert edits[..0] == [];
      if |edits| > 0 && edits[0].Add? {
        ServingNeverPanics(edits[0].ic, c, live);
      }
    } else {
      var e := edits[0];
      if e.Add? {
        ServingNeverPanics(e.ic, c, live);
        AddServes(e.ic, c, live);
      } else {
        DropServes(e.ic, c, live);
      }
      var live' := if e.Add? then live + {e.ic.ShareName()} else live - {e.ic.ShareName()};
      assert edits[..n][0] == e && edits[..n][1..] == edits[1..][..n - 1];
      GroupRefinesLiveShares(Edited(c, e), id, live', edits[1..], n - 1);
    }
  }
}
