/** The planner: it edits a stored configuration so that it serves one share, or stops serving it. */
module Planning {
  import opened Basics
  import opened SmbApi
  import opened ContainerConfig
  import Idmap

  datatype Outcome = Panicked | Returned(changed: bool)

  /** What a custom section contributes: nothing unless the user opted in. */
  function CustomOptions(c: Option<CustomConfig>): map<string, string> {
    if c.Some? && c.value.useUnsafe then c.value.configs else map[]
  }

  function CustomGlobal(ic: Instance): map<string, string> {
    if ic.common.Some? then CustomOptions(ic.common.value.custom) else map[]
  }

  /** The two options the share's own spec controls. */
  function SpecOptions(spec: ShareSpec): map<string, string> {
    map[BROWSEABLE := YesNo(spec.browseable), READ_ONLY := YesNo(spec.readOnly)]
  }

  /** An enabled custom option disagrees with the spec about browseable or read only. */
  predicate Contradicts(spec: ShareSpec) {
    var custom := CustomOptions(spec.custom);
    || (BROWSEABLE in custom && custom[BROWSEABLE] != YesNo(spec.browseable))
    || (READ_ONLY in custom && custom[READ_ONLY] != YesNo(spec.readOnly))
  }

  function Merge(o: Options, over: map<string, string>): Options {
    if over == map[] then o else Opts(o.Entries() + over)
  }

  function RealmOptions(ic: Instance): map<string, string>
    requires ic.security.Some?
  {
    Idmap.OptionsFor(ic.security)
      ["security" := "ads"]["workgroup" := ic.Workgroup()]["realm" := ic.Realm()]
  }

  function NewSection(ic: Instance): ConfigSection {
    ConfigSection(
      [ic.ShareName()],
      [GLOBALS] + (if ic.ADMode() then [ic.Realm()] else []),
      ic.InstanceName(),
      if ic.IsClustered() then ["ctdb"] else [],
      NewPermissions())
  }

  function RemoveFirst(keys: seq<Key>, k: Key): seq<Key> {
    if keys == [] then [] else
    if keys[0] == k then keys[1..] else [keys[0]] + RemoveFirst(keys[1..], k)
  }

  /** The globals step writes to a nil map: of sections, or of the options it customises. */
  predicate GlobalsPanic(ic: Instance, c: Config) {
    if GLOBALS in c.globals then c.globals[GLOBALS].NilMap? && CustomGlobal(ic) != map[]
    else GlobalsField in c.nils
  }

  /** The share step dereferences a missing PVC or writes to a nil map. */
  predicate SharePanics(ic: Instance, c: Config) {
    if ic.ShareName() in c.shares then c.shares[ic.ShareName()].NilMap?
    else ic.share.spec.pvc.None? || SharesField in c.nils
  }

  /** The section step adds the instance to a nil map. */
  predicate SectionPanics(ic: Instance, c: Config) {
    ic.InstanceName() !in c.configs && ConfigsField in c.nils
  }

  predicate UpdatePanics(ic: Instance, c: Config) {
    GlobalsPanic(ic, c) || SharePanics(ic, c) || SectionPanics(ic, c)
  }

  /** An update writes to each of the three outer maps, so it panics whenever one of them is nil. */
  lemma NilMapPanics(ic: Instance, c: Config)
    requires c.nils != {}
    ensures UpdatePanics(ic, c)
  {
    var field :| field in c.nils;
    match field
    case ConfigsField => assert c.configs == map[];
    case SharesField => assert c.shares == map[];
    case GlobalsField => assert c.globals == map[];
  }

  function UpdatedShares(ic: Instance, shares: map<Key, Options>): map<Key, Options>
    requires ic.ShareName() in shares || ic.share.spec.pvc.Some?
  {
    var base := if ic.ShareName() in shares then shares[ic.ShareName()].Entries()
                else NewSimpleShare(ic.SharePath());
    shares[ic.ShareName() :=
      Opts(base + CustomOptions(ic.share.spec.custom) + SpecOptions(ic.share.spec))]
  }

  function DefaultedGlobals(ic: Instance, globals: map<Key, Options>): (r: map<Key, Options>)
    ensures GLOBALS in r
  {
    if GLOBALS in globals then globals
    else globals[GLOBALS := Opts(NewGlobals(ic.operator.smbdPort))]
  }

  function CustomisedGlobals(ic: Instance, globals: map<Key, Options>): (r: map<Key, Options>)
    ensures GLOBALS in r
  {
    var g := DefaultedGlobals(ic, globals);
    g[GLOBALS := Merge(g[GLOBALS], CustomGlobal(ic))]
  }

  function UpdatedGlobals(ic: Instance, globals: map<Key, Options>): map<Key, Options> {
    var g := CustomisedGlobals(ic, globals);
    if ic.ADMode() && ic.Realm() !in g then g[ic.Realm() := Opts(RealmOptions(ic))] else g
  }

  function UpdatedSection(ic: Instance, configs: map<Key, ConfigSection>): ConfigSection {
    var section := if ic.InstanceName() in configs then configs[ic.InstanceName()] else NewSection(ic);
    if ic.ShareName() in section.shares then section
    else section.(shares := section.shares + [ic.ShareName()])
  }

  /** The configuration that serves the share. */
  function Updated(ic: Instance, c: Config): Config
    requires ic.ShareName() in c.shares || ic.share.spec.pvc.Some?
  {
    RawConfig(
      c.configs[ic.InstanceName() := UpdatedSection(ic, c.configs)],
      UpdatedShares(ic, c.shares),
      UpdatedGlobals(ic, c.globals),
      if c.users == map[] then NewDefaultUsers() else c.users,
      {})
  }

  /** The configuration without the share. */
  function Pruned(ic: Instance, c: Config): Config {
    var id, key := ic.InstanceName(), ic.ShareName();
    c.(configs := if id in c.configs
                  then c.configs[id := c.configs[id].(shares := RemoveFirst(c.configs[id].shares, key))]
                  else c.configs,
       shares := c.shares - {key})
  }

  lemma {:induction false} RemoveFirstAbsent(keys: seq<Key>, k: Key)
    ensures RemoveFirst(keys, k) == keys <==> k !in keys
    ensures |RemoveFirst(keys, k)| == |keys| - (if k in keys then 1 else 0)
  {
    if keys == [] {
    } else if keys[0] == k {
      assert |keys[1..]| < |keys|;
    } else {
      RemoveFirstAbsent(keys[1..], k);
      assert keys == [keys[0]] + keys[1..];
      if RemoveFirst(keys, k) == keys {
        assert RemoveFirst(keys, k)[1..] == RemoveFirst(keys[1..], k);
      }
    }
  }

  lemma {:induction false} RemoveFirstAt(keys: seq<Key>, i: nat, k: Key)
    requires i < |keys| && keys[i] == k && k !in keys[..i]
    ensures RemoveFirst(keys, k) == keys[..i] + keys[i + 1..]
  {
    if i == 0 {
    } else {
      assert keys[0] == keys[..i][0];
      assert keys[1..][..i - 1] == keys[1..i] == keys[..i][1..];
      RemoveFirstAt(keys[1..], i - 1, k);
      assert keys[1..][i..] == keys[i + 1..];
      assert keys[..i] == [keys[0]] + keys[1..i];
    }
  }

  /** The custom step or the spec step writes something exactly when the two together change the
      options or the custom options contradict the spec. */
  lemma MergeReport(base: map<string, string>, spec: ShareSpec)
    ensures var custom, own := CustomOptions(spec.custom), SpecOptions(spec);
            (base + custom != base || base + custom + own != base + custom)
            <==> (base + custom + own != base || Contradicts(spec))
  {
  }

  lemma SettingChanges<V>(m: map<Key, V>, k: Key, v: V)
    requires k in m
    ensures m[k := v] == m <==> m[k] == v
  {
  }

  /** A later stage never undoes an earlier one, so any stage's change is the whole update's. */
  lemma UpdatedInStages(ic: Instance, c: Config)
    requires c.nils == {}
    requires ic.ShareName() in c.shares || ic.share.spec.pvc.Some?
    ensures Updated(ic, c) != c <==>
            || CustomisedGlobals(ic, c.globals) != c.globals
            || UpdatedGlobals(ic, c.globals) != CustomisedGlobals(ic, c.globals)
            || UpdatedShares(ic, c.shares) != c.shares
            || c.configs[ic.InstanceName() := UpdatedSection(ic, c.configs)] != c.configs
            || c.users == map[]
  {
    var g, u := CustomisedGlobals(ic, c.globals), UpdatedGlobals(ic, c.globals);
    assert g != c.globals ==> GLOBALS !in c.globals || g[GLOBALS] != c.globals[GLOBALS];
    assert GLOBALS in u && u[GLOBALS] == g[GLOBALS];
    assert u != g ==> ic.Realm() !in c.globals && ic.Realm() in u;
    assert "all_entries" in NewDefaultUsers();
  }

  class Planner {
    const ic: Instance
    var state: Config

    constructor (ic: Instance, state: Config)
      ensures this.ic == ic && this.state == state
    {
      this.ic, this.state := ic, state;
    }

    /** Merge custom options into a map, visiting them in any order. */
    static method ApplyCustom(target: Options, custom: Option<CustomConfig>)
        returns (result: Options, r: Outcome)
      ensures r.Panicked? <==> target.NilMap? && CustomOptions(custom) != map[]
      ensures r.Returned? ==> result == Merge(target, CustomOptions(custom))
      ensures r.Returned? ==> (r.changed <==> result != target)
    {
      result, r := target, Returned(false);
      if custom.None? || !custom.value.useUnsafe {
        return;
      }
      var configs := custom.value.configs;
      var pending := configs.Keys;
      ghost var base := target.Entries();
      while pending != {}
        invariant pending <= configs.Keys
        invariant r.Returned?
        invariant target.NilMap? ==> pending == configs.Keys
        invariant result == if pending == configs.Keys then target
                            else Opts(base + map k | k in configs && k !in pending :: configs[k])
        invariant r.changed <==> result != target
        decreases |pending|
      {
        var k :| k in pending;
        ghost var before, beforePending := result, pending;
        var present := result.Opts? && k in result.entries;
        if !present || result.entries[k] != configs[k] {
          if result.NilMap? {
            r := Panicked;
            assert k in configs;
            return;
          }
          assert k !in base || base[k] != configs[k];
          result := Opts(result.entries[k := configs[k]]);
          r := Returned(true);
          assert result.entries[k] == configs[k];
        }
        pending := pending - {k};
        assert k in beforePending && k !in pending;
        assert result.entries == base + map x | x in configs && x !in pending :: configs[x];
      }
      if configs != map[] {
        assert exists k :: k in configs;
        assert (map k | k in configs && k !in pending :: configs[k]) == configs;
      }
    }

    /** Set the two options the spec controls. */
    static method ApplyShareValues(share: Options, spec: ShareSpec)
        returns (result: Options, r: Outcome)
      ensures r.Panicked? <==> share.NilMap?
      ensures r.Returned? ==> result == Opts(share.Entries() + SpecOptions(spec))
      ensures r.Returned? ==> (r.changed <==> result != share)
    {
      result, r := share, Returned(false);
      var browseable, readOnly := YesNo(spec.browseable), YesNo(spec.readOnly);
      if share.NilMap? {
        return share, Panicked;
      }
      if BROWSEABLE !in result.entries || result.entries[BROWSEABLE] != browseable {
        result, r := Opts(result.entries[BROWSEABLE := browseable]), Returned(true);
        assert result.entries[BROWSEABLE] == browseable;
      }
      if READ_ONLY !in result.entries || result.entries[READ_ONLY] != readOnly {
        result, r := Opts(result.entries[READ_ONLY := readOnly]), Returned(true);
        assert result.entries[READ_ONLY] == readOnly;
      }
      assert result.entries == share.entries + SpecOptions(spec);
    }

    /** The custom options first, the spec's own last. */
    static method ApplyOptions(share: Options, spec: ShareSpec)
        returns (result: Options, r: Outcome)
      ensures r.Panicked? <==> share.NilMap?
      ensures r.Returned? ==>
              && result == Opts(share.Entries() + CustomOptions(spec.custom) + SpecOptions(spec))
              && (r.changed <==> result != share || Contradicts(spec))
    {
      var custom, c := ApplyCustom(share, spec.custom);
      if c.Panicked? {
        return share, Panicked;
      }
      assert custom.Entries() == share.Entries() + CustomOptions(spec.custom);
      var own, v := ApplyShareValues(custom, spec);
      if v.Panicked? {
        return share, Panicked;
      }
      MergeReport(share.Entries(), spec);
      return own, Returned(c.changed || v.changed);
    }

    static method HasShare(section: ConfigSection, k: Key) returns (found: bool)
      ensures found <==> k in section.shares
    {
      for i := 0 to |section.shares|
        invariant k !in section.shares[..i]
      {
        if section.shares[i] == k {
          return true;
        }
      }
      return false;
    }

    static method RemoveShare(section: ConfigSection, k: Key)
        returns (result: ConfigSection, removed: bool)
      ensures removed <==> k in section.shares
      ensures result == section.(shares := RemoveFirst(section.shares, k))
    {
      for i := 0 to |section.shares|
        invariant k !in section.shares[..i]
      {
        if section.shares[i] == k {
          RemoveFirstAt(section.shares, i, k);
          return section.(shares := section.shares[..i] + section.shares[i + 1..]), true;
        }
      }
      assert section.shares[..|section.shares|] == section.shares;
      RemoveFirstAbsent(section.shares, k);
      return section, false;
    }

    /** Globals section present, with the custom global options merged in. */
    method UpdateGlobals() returns (r: Outcome)
      modifies this
      ensures r.Panicked? <==> GlobalsPanic(ic, old(state))
      ensures r.Returned? ==>
              && state == old(state).(globals := CustomisedGlobals(ic, old(state).globals))
              && (r.changed <==> state != old(state))
    {
      r := Returned(false);
      if GLOBALS !in state.globals {
        if GlobalsField in state.nils {
          return Panicked;
        }
        state := state.(globals := state.globals[GLOBALS := Opts(NewGlobals(ic.operator.smbdPort))]);
        r := Returned(true);
      }
      ghost var defaulted := state.globals;
      if ic.common.Some? {
        var globals, c := ApplyCustom(state.globals[GLOBALS], ic.common.value.custom);
        if c.Panicked? {
          return Panicked;
        }
        state := state.(globals := state.globals[GLOBALS := globals]);
        if c.changed {
          r := Returned(true);
        }
      }
      assert state.globals == CustomisedGlobals(ic, old(state).globals);
      assert GLOBALS in old(state).globals ==>
             (state != old(state) <==> state.globals[GLOBALS] != old(state).globals[GLOBALS]);
    }

    /** The share's own section present and up to date. */
    method UpdateShare() returns (r: Outcome)
      modifies this
      ensures r.Panicked? <==> SharePanics(ic, old(state))
      ensures r.Returned? ==>
              && state == old(state).(shares := UpdatedShares(ic, old(state).shares))
              && (r.changed <==> state != old(state) || Contradicts(ic.share.spec))
    {
      hide CustomOptions, SpecOptions, Contradicts;
      r := Returned(false);
      var key := ic.ShareName();
      if key !in state.shares {
        if ic.share.spec.pvc.None? || SharesField in state.nils {
          return Panicked;
        }
        state := state.(shares := state.shares[key := Opts(NewSimpleShare(ic.SharePath()))]);
        r := Returned(true);
      }
      var share, o := ApplyOptions(state.shares[key], ic.share.spec);
      if o.Panicked? {
        return Panicked;
      }
      if o.changed {
        r := Returned(true);
      }
      SettingChanges(state.shares, key, share);
      state := state.(shares := state.shares[key := share]);
      assert key !in old(state).shares ==> state.shares.Keys != old(state).shares.Keys;
    }

    /** The instance's section lists the share. */
    method UpdateSection() returns (r: Outcome)
      modifies this
      ensures r.Panicked? <==> SectionPanics(ic, old(state))
      ensures r.Returned? ==>
              && state == old(state).(
                   configs := old(state).configs[ic.InstanceName() := UpdatedSection(ic, old(state).configs)])
              && (r.changed <==> state != old(state))
    {
      var id, key := ic.InstanceName(), ic.ShareName();
      var changed := false;
      var section;
      if id in state.configs {
        section := state.configs[id];
      } else {
        section := ConfigSection([key], [GLOBALS], id, [], NewPermissions());
        if ic.ADMode() {
          section := section.(globals := section.globals + [ic.Realm()]);
        }
        if ic.IsClustered() {
          section := section.(features := ["ctdb"]);
        }
        changed := true;
      }
      var found := HasShare(section, key);
      if !found {
        section := section.(shares := section.shares + [key]);
        changed := true;
      }
      if changed {
        if ConfigsField in state.nils {
          return Panicked;
        }
        state := state.(configs := state.configs[id := section]);
      }
      assert state.configs[id] == UpdatedSection(ic, old(state).configs);
      if id in old(state).configs {
        assert |UpdatedSection(ic, old(state).configs).shares| != |old(state).configs[id].shares| <==> changed;
      }
      r := Returned(changed);
    }

    /** Default users and, for Active Directory, the realm's globals. */
    method UpdateUsersAndRealm() returns (changed: bool)
      requires GlobalsField !in state.nils
      modifies this
      ensures state == old(state).(
                users := if old(state).users == map[] then NewDefaultUsers() else old(state).users,
                globals := if ic.ADMode() && ic.Realm() !in old(state).globals
                           then old(state).globals[ic.Realm() := Opts(RealmOptions(ic))]
                           else old(state).globals)
      ensures changed <==> state != old(state)
    {
      changed := false;
      if |state.users| == 0 {
        state := state.(users := NewDefaultUsers());
        changed := true;
      }
      if ic.ADMode() {
        var realm := ic.Realm();
        if realm !in state.globals {
          var opts := Idmap.BuildOptions(ic.security);
          opts := opts["security" := "ads"]["workgroup" := ic.Workgroup()]["realm" := realm];
          state := state.(globals := state.globals[realm := Opts(opts)]);
          changed := true;
        }
      }
    }

    /** Make the configuration serve the share. The report is exact up to a contradiction. */
    method Update() returns (r: Outcome)
      modifies this
      ensures r.Panicked? <==> UpdatePanics(ic, old(state))
      ensures r.Returned? ==> state == Updated(ic, old(state))
      ensures r.Returned? ==> (r.changed <==> state != old(state) || Contradicts(ic.share.spec))
    {
      var globals := UpdateGlobals();
      if globals.Panicked? {
        return Panicked;
      }
      var share := UpdateShare();
      if share.Panicked? {
        return Panicked;
      }
      var section := UpdateSection();
      if section.Panicked? {
        return Panicked;
      }
      assert old(state).nils == {} by {
        if old(state).nils != {} {
          NilMapPanics(ic, old(state));
        }
      }
      var rest := UpdateUsersAndRealm();
      r := Returned(globals.changed || share.changed || section.changed || rest);
      UpdatedInStages(ic, old(state));
    }

    /** Remove the share from the configuration. */
    method Prune() returns (changed: bool)
      modifies this
      ensures state == Pruned(ic, old(state))
      ensures changed <==> state != old(state)
    {
      var id, key := ic.InstanceName(), ic.ShareName();
      changed := false;
      if id in state.configs {
        RemoveFirstAbsent(state.configs[id].shares, key);
        var section, removed := RemoveShare(state.configs[id], key);
        if removed {
          state := state.(configs := state.configs[id := section]);
          changed := true;
          assert state.configs[id].shares != old(state).configs[id].shares;
        }
      }
      if key in state.shares {
        state := state.(shares := state.shares - {key});
        changed := true;
      }
      assert state.configs == Pruned(ic, old(state)).configs;
      assert state.shares == Pruned(ic, old(state)).shares;
    }
  }
}
