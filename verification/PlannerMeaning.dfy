/** What a planned configuration says, option by option: for a fresh configuration and for one that was there. */
module PlannerMeaning {
  import opened Basics
  import opened SmbApi
  import opened ContainerConfig
  import opened Planning
  import opened Cluster
  import Idmap

  // ----- the inputs, in literal terms -----

  /** The options of a custom section count only if the user opted in. */
  predicate Enabled(c: Option<CustomConfig>, o: string) {
    c.Some? && c.value.useUnsafe && o in c.value.configs
  }

  predicate ActiveDirectory(ic: Instance) {
    ic.security.Some? && ic.security.value.mode == "active-directory"
  }

  /** The name the share is exported under. */
  function ExportName(s: Share): string {
    if s.spec.shareName != "" then s.spec.shareName else s.name
  }

  /** Where the data of the share is mounted: by group if it asks for one, by its uid otherwise. */
  function MountedAt(s: Share): string {
    if s.spec.scaling.Some? && s.spec.scaling.value.groupMode == "explicit"
    then "/mnt/" + s.spec.scaling.value.group else "/mnt/" + s.uid
  }

  function ExportPath(s: Share): string
    requires s.spec.pvc.Some?
  {
    if s.spec.pvc.value.path == "" then MountedAt(s) else MountedAt(s) + "/" + s.spec.pvc.value.path
  }

  lemma {:induction false} UpToDotIs(s: string)
    ensures var r := UpToDot(s);
            r <= s && '.' !in r && (|r| < |s| ==> s[|r|] == '.')
  {
    if s == "" || s[0] == '.' {
    } else {
      UpToDotIs(s[1..]);
      assert s == [s[0]] + s[1..];
    }
  }

  /** The realm is the configured one in capitals, and the workgroup is what comes before its first dot. */
  lemma RealmIs(ic: Instance)
    requires ic.security.Some?
    ensures |ic.Realm()| == |ic.security.value.realm|
    ensures forall i :: 0 <= i < |ic.Realm()| ==>
              var c := ic.security.value.realm[i];
              ic.Realm()[i] == if 'a' <= c <= 'z' then (c as int - 'a' as int + 'A' as int) as char else c
    ensures var w := ic.Workgroup();
            w <= ic.Realm() && '.' !in w && (|w| < |ic.Realm()| ==> ic.Realm()[|w|] == '.')
  {
    UpToDotIs(ic.Realm());
  }

  lemma InstanceIs(ic: Instance)
    ensures ic.ShareName() == ExportName(ic.share) && ic.InstanceName() == ic.share.serverGroup
    ensures ic.ADMode() <==> ActiveDirectory(ic)
    ensures ic.share.spec.pvc.Some? ==> ic.SharePath() == ExportPath(ic.share)
    ensures ic.ShareMountPath() == MountedAt(ic.share)
    ensures ic.IsClustered() <==>
            ic.share.spec.scaling.Some? && ic.share.spec.scaling.value.availabilityMode == "clustered"
  {
  }

  // ----- the globals -----

  /** What the globals start from. */
  function DefaultGlobals(port: nat): map<string, string> {
    map["load printers" := "no", "printing" := "bsd", "printcap name" := "/dev/null", "disable spoolss" := "yes",
        "dos charset" := "ascii", "smb ports" := Itoa(port), "vfs objects" := "fileid", "fileid:algorithm" := "fsid"]
  }

  function GlobalsBefore(ic: Instance, c: Config): map<string, string> {
    if "globals" in c.globals then c.globals["globals"].Entries() else DefaultGlobals(ic.operator.smbdPort)
  }

  lemma CustomIs(c: Option<CustomConfig>, o: string)
    ensures o in CustomOptions(c) <==> Enabled(c, o)
    ensures Enabled(c, o) ==> CustomOptions(c)[o] == c.value.configs[o]
    ensures CustomOptions(c) != map[] <==> exists p :: Enabled(c, p)
  {
    if CustomOptions(c) != map[] {
      var p :| p in CustomOptions(c);
      assert Enabled(c, p);
    }
  }

  lemma OtherGlobals(ic: Instance, c: Config, k: Key)
    requires !UpdatePanics(ic, c) && k != "globals" && !(ActiveDirectory(ic) && k == ic.Realm())
    ensures k in Updated(ic, c).globals <==> k in c.globals
    ensures k in c.globals ==> Updated(ic, c).globals[k] == c.globals[k]
  {
    hide UpdatePanics, CustomOptions, RealmOptions;
  }

  lemma DefaultsIs(ic: Instance, c: Config)
    ensures DefaultedGlobals(ic, c.globals)["globals"].Entries() == GlobalsBefore(ic, c)
  {
  }

  lemma OwnGlobals(ic: Instance, c: Config)
    ensures "globals" in UpdatedGlobals(ic, c.globals)
    ensures UpdatedGlobals(ic, c.globals)["globals"].Entries() == GlobalsBefore(ic, c) + CustomGlobal(ic)
  {
    hide CustomGlobal, RealmOptions, DefaultedGlobals, GlobalsBefore;
    DefaultsIs(ic, c);
    assert GlobalsBefore(ic, c) + map[] == GlobalsBefore(ic, c);
  }

  /** Every enabled custom option of the common configuration stands in the globals with its value; every other option
      is as it was, or as it is by default if there were no globals. No section but the realm's is touched besides. */
  lemma GlobalsMean(ic: Instance, c: Config, o: string)
    requires !UpdatePanics(ic, c)
    ensures var g, before := Updated(ic, c).globals, GlobalsBefore(ic, c);
            && "globals" in g
            && var after := g["globals"].Entries();
               if ic.common.Some? && Enabled(ic.common.value.custom, o)
               then o in after && after[o] == ic.common.value.custom.value.configs[o]
               else (o in after <==> o in before) && (o in before ==> after[o] == before[o])
    ensures forall k :: k != "globals" && !(ActiveDirectory(ic) && k == ic.Realm()) ==>
              && (k in Updated(ic, c).globals <==> k in c.globals)
              && (k in c.globals ==> Updated(ic, c).globals[k] == c.globals[k])
  {
    forall k | k != "globals" && !(ActiveDirectory(ic) && k == ic.Realm())
      ensures k in Updated(ic, c).globals <==> k in c.globals
      ensures k in c.globals ==> Updated(ic, c).globals[k] == c.globals[k]
    {
      OtherGlobals(ic, c, k);
    }
    hide CustomOptions, UpdatePanics, GlobalsBefore, UpdatedGlobals, UpdatedShares, UpdatedSection;
    OwnGlobals(ic, c);
    if ic.common.Some? {
      CustomIs(ic.common.value.custom, o);
    }
  }

  lemma RealmIsCapital(ic: Instance)
    requires ic.security.Some?
    ensures ic.Realm() != "globals"
  {
    RealmIs(ic);
    assert "globals"[0] == 'g';
  }

  /** With Active Directory the realm has a section: the one that was there, or a new one with the security mode, the
      workgroup, the realm and the ID mapping. */
  lemma RealmMeans(ic: Instance, c: Config, o: string)
    requires !UpdatePanics(ic, c) && ActiveDirectory(ic)
    ensures var g := Updated(ic, c).globals;
            && ic.Realm() in g
            && if ic.Realm() in c.globals then g[ic.Realm()] == c.globals[ic.Realm()]
               else
                 var after, ids := g[ic.Realm()].Entries(), Idmap.OptionsFor(ic.security);
                 && "security" in after && after["security"] == "ads"
                 && "workgroup" in after && after["workgroup"] == ic.Workgroup()
                 && "realm" in after && after["realm"] == ic.Realm()
                 && (o !in {"security", "workgroup", "realm"} ==>
                       (o in after <==> o in ids) && (o in ids ==> after[o] == ids[o]))
  {
    hide CustomOptions, UpdatedShares, UpdatedSection, Idmap.OptionsFor, UpdatePanics, Upper, UpToDot;
    RealmIsCapital(ic);
  }

  // ----- the shares -----

  function ShareBefore(ic: Instance, c: Config): map<string, string>
    requires ExportName(ic.share) in c.shares || ic.share.spec.pvc.Some?
  {
    if ExportName(ic.share) in c.shares then c.shares[ExportName(ic.share)].Entries()
    else map["path" := ExportPath(ic.share), "read only" := "no"]
  }

  lemma OtherShares(ic: Instance, c: Config, k: Key)
    requires !UpdatePanics(ic, c) && k != ExportName(ic.share)
    ensures k in Updated(ic, c).shares <==> k in c.shares
    ensures k in c.shares ==> Updated(ic, c).shares[k] == c.shares[k]
  {
    hide CustomOptions, SpecOptions;
  }

  lemma SpecIs(spec: ShareSpec, o: string)
    ensures o in SpecOptions(spec) <==> o in {"browseable", "read only"}
    ensures o == "browseable" ==> SpecOptions(spec)[o] == if spec.browseable then "yes" else "no"
    ensures o == "read only" ==> SpecOptions(spec)[o] == if spec.readOnly then "yes" else "no"
  {
  }

  lemma OwnShare(ic: Instance, c: Config)
    requires !UpdatePanics(ic, c)
    ensures ExportName(ic.share) in c.shares || ic.share.spec.pvc.Some?
    ensures ExportName(ic.share) in Updated(ic, c).shares
    ensures Updated(ic, c).shares[ExportName(ic.share)].Entries() ==
            ShareBefore(ic, c) + CustomOptions(ic.share.spec.custom) + SpecOptions(ic.share.spec)
  {
    hide CustomOptions, SpecOptions, UpdatedGlobals, UpdatedSection;
    InstanceIs(ic);
  }

  /** The spec decides "browseable" and "read only"; the enabled custom options of the share stand with their values;
      every other option is as it was, or a fresh section has its path. Other shares are not touched. */
  lemma SharesMean(ic: Instance, c: Config, o: string)
    requires !UpdatePanics(ic, c)
    ensures ExportName(ic.share) in c.shares || ic.share.spec.pvc.Some?
    ensures var key, spec := ExportName(ic.share), ic.share.spec;
            && key in Updated(ic, c).shares
            && var before, after := ShareBefore(ic, c), Updated(ic, c).shares[key].Entries();
               if o == "browseable" then o in after && after[o] == (if spec.browseable then "yes" else "no")
               else if o == "read only" then o in after && after[o] == (if spec.readOnly then "yes" else "no")
               else if Enabled(spec.custom, o) then o in after && after[o] == spec.custom.value.configs[o]
               else (o in after <==> o in before) && (o in before ==> after[o] == before[o])
    ensures forall k :: k != ExportName(ic.share) ==>
              && (k in Updated(ic, c).shares <==> k in c.shares)
              && (k in c.shares ==> Updated(ic, c).shares[k] == c.shares[k])
  {
    forall k | k != ExportName(ic.share)
      ensures k in Updated(ic, c).shares <==> k in c.shares
      ensures k in c.shares ==> Updated(ic, c).shares[k] == c.shares[k]
    {
      OtherShares(ic, c, k);
    }
    hide CustomOptions, UpdatePanics, Updated, ShareBefore, SpecOptions;
    CustomIs(ic.share.spec.custom, o);
    SpecIs(ic.share.spec, o);
    OwnShare(ic, c);
  }

  // ----- the instances and the users -----

  /** The instance of the group lists the share; a new one has these globals, features and permissions, an old one
      only grows at the end. Other instances are not touched. */
  lemma SectionsMean(ic: Instance, c: Config)
    requires !UpdatePanics(ic, c)
    ensures var g, key := ic.share.serverGroup, ExportName(ic.share);
            && g in Updated(ic, c).configs
            && Updated(ic, c).configs[g] ==
               if g !in c.configs then
                 ConfigSection(
                   [key],
                   if ActiveDirectory(ic) then ["globals", ic.Realm()] else ["globals"],
                   g,
                   if ic.share.spec.scaling.Some? && ic.share.spec.scaling.value.availabilityMode == "clustered"
                   then ["ctdb"] else [],
                   Permissions("initialize-share-perms", "user.share-perms-status", "0777"))
               else if key in c.configs[g].shares then c.configs[g]
               else c.configs[g].(shares := c.configs[g].shares + [key])
    ensures forall k :: k != ic.share.serverGroup ==>
              (k in Updated(ic, c).configs <==> k in c.configs)
              && (k in c.configs ==> Updated(ic, c).configs[k] == c.configs[k])
    ensures Updated(ic, c).users ==
            if c.users == map[] then map["all_entries" := [UserEntry("sambauser", "samba")]] else c.users
    ensures Updated(ic, c).nils == {}
  {
  }

  lemma {:induction false} FirstIndex(keys: seq<Key>, k: Key) returns (i: nat)
    requires k in keys
    ensures i < |keys| && keys[i] == k && k !in keys[..i]
  {
    i := 0;
    while keys[i] != k
      invariant i < |keys| && k !in keys[..i] && k in keys[i..]
      decreases |keys| - i
    {
      i := i + 1;
    }
  }

  lemma FirstIsCut(keys: seq<Key>, key: Key)
    ensures if key !in keys then RemoveFirst(keys, key) == keys
            else exists i :: 0 <= i < |keys| && keys[i] == key && key !in keys[..i]
                   && RemoveFirst(keys, key) == keys[..i] + keys[i + 1..]
  {
    RemoveFirstAbsent(keys, key);
    if key in keys {
      var i := FirstIndex(keys, key);
      RemoveFirstAt(keys, i, key);
    }
  }

  /** A prune takes out the share's section and its first entry in the group's list, and leaves all else. */
  lemma PruneMeans(ic: Instance, c: Config)
    ensures var p, g, key := Pruned(ic, c), ic.share.serverGroup, ExportName(ic.share);
            && p.globals == c.globals && p.users == c.users && p.nils == c.nils
            && p.shares == (map k | k in c.shares && k != key :: c.shares[k])
            && p.configs.Keys == c.configs.Keys
            && (forall k :: k in c.configs && k != g ==> p.configs[k] == c.configs[k])
            && (g in c.configs ==>
                  && p.configs[g] == c.configs[g].(shares := p.configs[g].shares)
                  && if key !in c.configs[g].shares then p.configs[g].shares == c.configs[g].shares
                     else exists i :: 0 <= i < |c.configs[g].shares| && c.configs[g].shares[i] == key
                            && key !in c.configs[g].shares[..i]
                            && p.configs[g].shares == c.configs[g].shares[..i] + c.configs[g].shares[i + 1..])
  {
    if ic.share.serverGroup in c.configs {
      FirstIsCut(c.configs[ic.share.serverGroup].shares, ExportName(ic.share));
    }
    hide RemoveFirst;
  }

  // ----- reading, writing and panics -----

  /** A ConfigMap without data, or without the key, reads as an empty configuration; text that does not parse is an
      error. */
  lemma ReadMeans(d: Data)
    ensures LoadConfig(d) ==
            if d.Json? then Some(d.config)
            else if d.BadJson? then None
            else Some(RawConfig(map[], map[], map[], map[], {}))
  {
  }

  /** A map without entries is written as none and read back as nil; everything else is read back as it was. */
  lemma ReloadMeans(c: Config, k: Key)
    ensures var r := Reload(c);
            && r.configs == c.configs && r.users == c.users && r.nils == {}
            && (k in r.shares <==> k in c.shares) && (k in r.globals <==> k in c.globals)
            && (k in c.shares ==>
                  && r.shares[k].Entries() == c.shares[k].Entries()
                  && (r.shares[k].NilMap? <==> c.shares[k].Entries() == map[]))
            && (k in c.globals ==>
                  && r.globals[k].Entries() == c.globals[k].Entries()
                  && (r.globals[k].NilMap? <==> c.globals[k].Entries() == map[]))
  {
  }

  /** An update panics exactly on a write to a nil map, or if a share without a section has no PVC to make one of. */
  lemma PanicsMean(ic: Instance, c: Config)
    ensures UpdatePanics(ic, c) <==>
            || ("globals" !in c.globals && GlobalsField in c.nils)
            || ("globals" in c.globals && c.globals["globals"].NilMap?
                && ic.common.Some? && exists o :: Enabled(ic.common.value.custom, o))
            || (ExportName(ic.share) !in c.shares && (ic.share.spec.pvc.None? || SharesField in c.nils))
            || (ExportName(ic.share) in c.shares && c.shares[ExportName(ic.share)].NilMap?)
            || (ic.share.serverGroup !in c.configs && ConfigsField in c.nils)
  {
    hide CustomOptions;
    if ic.common.Some? {
      CustomIs(ic.common.value.custom, "");
    }
  }
}
