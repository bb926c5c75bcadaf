/** Finalizing a share ends, and takes out of the group's configuration exactly that share. */
module Finalization {
  import opened Basics
  import opened SmbApi
  import opened ContainerConfig
  import opened Ownership
  import opened Planning
  import opened PlannerTheorems
  import opened Cluster
  import opened Reconcile
  import opened Justification
  import opened Runs
  import opened Convergence
  import opened Controllers

  /** Nobody but the departing share controls the object, although another owner could. */
  ghost predicate NeedsTransfer(st: State, s: Share, k: ObjKey) {
    && k in st.objects
    && var others := Excluding(ShareRefs(st.objects[k].owners), s.name, s.uid);
       !HasController(others) && exists r :: r in others && Alive(st, r)
  }

  function PrunesLeft(c: Config, ic: Instance): nat {
    var id, key := ic.InstanceName(), ic.ShareName();
    (if id in c.configs then multiset(c.configs[id].shares)[key] else 0) + One(key in c.shares)
  }

  function PruneDebt(st: State, s: Share): nat {
    var k := ConfigMapKey(s);
    if k !in st.objects || LoadConfig(st.objects[k].data).None? then 0
    else PrunesLeft(LoadConfig(st.objects[k].data).value, BareInstance(st, s))
  }

  ghost function TransferDebt(st: State, s: Share): nat {
    One(NeedsTransfer(st, s, ConfigMapKey(s)))
    + One(NeedsTransfer(st, s, WorkloadKey(s)))
    + One(Clustered(s.spec) && NeedsTransfer(st, s, StatePvcKey(s)))
    + One(NeedsPvc(s) && NeedsTransfer(st, s, DataPvcKey(s)))
  }

  /** What is still to be handed over and pruned before the share can be released. */
  ghost function FinalDebt(st: State, s: Share): nat {
    TransferDebt(st, s) + PruneDebt(st, s)
  }

  lemma RemovalCounts(keys: seq<Key>, k: Key)
    ensures multiset(RemoveFirst(keys, k))[k] == multiset(keys)[k] - One(k in keys)
    ensures k !in keys ==> RemoveFirst(keys, k) == keys
  {
    RemoveFirstCounts(keys, k);
    RemoveFirstAbsent(keys, k);
  }

  lemma ReloadKeeps(c: Config)
    ensures Reload(c).configs == c.configs && Reload(c).shares.Keys == c.shares.Keys
  {
  }

  lemma PruningPays(ic: Instance, c: Config)
    requires Pruned(ic, c) != c
    ensures PrunesLeft(Reload(Pruned(ic, c)), ic) < PrunesLeft(c, ic)
  {
    hide RemoveFirst, Reload;
    var id, key, p := ic.InstanceName(), ic.ShareName(), Pruned(ic, c);
    ReloadKeeps(p);
    if id in c.configs {
      RemovalCounts(c.configs[id].shares, key);
      assert key !in c.configs[id].shares ==> p.configs == c.configs;
    }
    assert key !in c.shares ==> p.shares == c.shares;
  }

  lemma TargetControls(refs: seq<OwnerRef>, to: OwnerRef, name: string, uid: string)
    requires to in Excluding(ShareRefs(refs), name, uid)
    ensures HasController(Excluding(ShareRefs(WithController(refs, to.name, to.uid)), name, uid))
  {
  }

  lemma TransferSettles(st: State, s: Share, k: ObjKey, to: OwnerRef)
    requires k in st.objects
    requires to in Excluding(ShareRefs(st.objects[k].owners), s.name, s.uid)
    ensures !NeedsTransfer(Apply(st, s, Transfer(k, to)), s, k)
  {
    hide ShareRefs, Excluding, WithController, HasController;
    TargetControls(st.objects[k].owners, to, s.name, s.uid);
  }

  lemma NeedsSame(st: State, st': State, s: Share, k: ObjKey)
    requires st'.shares == st.shares
    requires k in st.objects <==> k in st'.objects
    requires k in st.objects ==> st'.objects[k].owners == st.objects[k].owners
    ensures NeedsTransfer(st', s, k) <==> NeedsTransfer(st, s, k)
  {
  }

  lemma TransferPays(st: State, s: Share, k: ObjKey, to: OwnerRef)
    requires k in st.objects && OwnKey(s, k) && k != ServiceKey(s)
    requires to in Excluding(ShareRefs(st.objects[k].owners), s.name, s.uid)
    requires NeedsTransfer(st, s, k)
    ensures FinalDebt(Apply(st, s, Transfer(k, to)), s) < FinalDebt(st, s)
  {
    hide NeedsTransfer, ShareRefs, Excluding, LoadConfig, PrunesLeft, PvcName;
    var st' := Apply(st, s, Transfer(k, to));
    TransferSettles(st, s, k, to);
    forall x | x != k ensures NeedsTransfer(st', s, x) <==> NeedsTransfer(st, s, x) {
      NeedsSame(st, st', s, x);
    }
    assert BareInstance(st', s) == BareInstance(st, s);
    assert PruneDebt(st', s) == PruneDebt(st, s);
  }

  lemma SavePays(st: State, f: Faults, s: Share, c: Config)
    requires s.deleting && ConfigMapKey(s) in st.objects
    requires ConfigEdit(st, f, s, st.objects[ConfigMapKey(s)], c)
    ensures FinalDebt(Apply(st, s, SaveConfig(ConfigMapKey(s), c)), s) < FinalDebt(st, s)
  {
    hide NeedsTransfer, PrunesLeft, Pruned, Reload, PvcName;
    var k := ConfigMapKey(s);
    var st' := Apply(st, s, SaveConfig(k, c));
    var before := LoadConfig(st.objects[k].data).value;
    PruningPays(BareInstance(st, s), before);
    assert BareInstance(st', s) == BareInstance(st, s);
    forall x ensures NeedsTransfer(st', s, x) <==> NeedsTransfer(st, s, x) {
      NeedsSame(st, st', s, x);
    }
    assert TransferDebt(st', s) == TransferDebt(st, s);
  }

  lemma NeededForTransfer(st: State, s: Share, k: ObjKey, to: OwnerRef)
    requires k in st.objects
    requires var others := Excluding(ShareRefs(st.objects[k].owners), s.name, s.uid);
             to in others && !HasController(others)
    requires Alive(st, to)
    ensures NeedsTransfer(st, s, k)
  {
  }

  /** Every requeued pass on a departing share lowers its debt, and leaves the share as it is. */
  lemma FinalPassPays(st: State, f: Faults, name: string)
    requires Keyed(st) && name in st.shares && st.shares[name].deleting
    requires ResultOf(Next(st, f, name)).Requeue?
    ensures Process(st, f, name).shares == st.shares
    ensures FinalDebt(Process(st, f, name), st.shares[name]) < FinalDebt(st, st.shares[name])
  {
    hide NextFor, ConfigEdit, OwnKey, NeedsTransfer, WellFormedRefs, HasController, ShareRefs, Excluding, FinalDebt;
    var s := st.shares[name];
    NextJustified(st, f, s);
    var a := NextFor(st, f, s);
    assert Next(st, f, name) == a;
    match a
    case Transfer(k, to) =>
      NeededForTransfer(st, s, k, to);
      TransferPays(st, s, k, to);
    case SaveConfig(k, c) => SavePays(st, f, s, c);
    case _ =>
  }

  // ----- without failing calls, the finalizer is removed -----

  lemma {:induction false} PicksWithoutError(st: State, refs: seq<OwnerRef>)
    ensures !PickOwner(st, {}, refs).PickError?
  {
    if refs == [] {
    } else {
      PicksWithoutError(st, refs[1..]);
    }
  }

  lemma HandOverNeverFails(st: State, s: Share, k: ObjKey)
    requires k in st.objects ==> WellFormedRefs(st.objects[k].owners)
    ensures !HandOver(st, {}, s, k).Fail? && !HandOver(st, {}, s, k).Crash?
  {
    hide PickOwner, ShareRefs, Excluding;
    if k in st.objects {
      PicksWithoutError(st, Excluding(ShareRefs(st.objects[k].owners), s.name, s.uid));
    }
  }

  /** The group's ConfigMap is missing or has a configuration that parses. */
  predicate Readable(st: State, s: Share) {
    ConfigMapKey(s) in st.objects ==> LoadConfig(st.objects[ConfigMapKey(s)].data).Some?
  }

  /** The configuration parses, and so do the owner references of every object the share hands over. */
  ghost predicate Releasable(st: State, s: Share) {
    && Readable(st, s)
    && forall k :: k in st.objects && HandsOver(s, k) ==> WellFormedRefs(st.objects[k].owners)
  }

  lemma WellOwnedIsReleasable(st: State, s: Share)
    requires WellOwned(st) && Readable(st, s)
    ensures Releasable(st, s)
  {
  }

  lemma PruneNeverPanics(st: State, f: Faults, s: Share, k: ObjKey, cm: Object)
    ensures !PruneStep(st, f, s, k, cm).Crash?
  {
  }

  /** Without failing calls, a finalization pass of a share that can be released neither fails nor panics. */
  lemma FinalizeNeverFails(st: State, s: Share)
    requires s.deleting && Releasable(st, s)
    ensures var a := NextFinalize(st, {}, s);
            a.Release? || a.Transfer? || a.SaveConfig?
  {
    hide PickOwner, ShareRefs, Excluding, Pruned, Reload, WellFormedRefs, HasController, PvcName, Without, LoadConfig,
         New;
    HandOverNeverFails(st, s, ConfigMapKey(s));
    HandOverNeverFails(st, s, WorkloadKey(s));
    if Clustered(s.spec) {
      HandOverNeverFails(st, s, StatePvcKey(s));
    }
    if NeedsPvc(s) {
      HandOverNeverFails(st, s, DataPvcKey(s));
    }
    if ConfigMapKey(s) in st.objects {
      PruneNeverPanics(st, {}, s, ConfigMapKey(s), st.objects[ConfigMapKey(s)]);
    }
  }

  lemma ConfigMapFinalNeverReleases(st: State, f: Faults, s: Share)
    requires NextFinalize(st, f, s).Release?
    ensures ConfigMapFinal(st, f, s).Idle?
  {
  }

  /** Anything that does not parse blocks the release, with or without failing calls. */
  lemma UnreadableBlocksRelease(st: State, f: Faults, s: Share)
    requires !Releasable(st, s)
    ensures !NextFinalize(st, f, s).Release?
  {
    hide PickOwner, ShareRefs, Excluding, WellFormedRefs, HasController, LoadConfig, Pruned, Reload, Without, OwnKey,
         NextFinalize;
    if NextFinalize(st, f, s).Release? {
      forall k | k in st.objects && HandsOver(s, k) ensures WellFormedRefs(st.objects[k].owners) {
        ReleasedMeansIdle(st, f, s, k);
      }
      ConfigMapFinalNeverReleases(st, f, s);
    }
  }

  /** A finalization pass makes no object, takes none away and changes no data but to prune it. */
  lemma FinalPassOnData(st: State, f: Faults, name: string, k: ObjKey)
    requires Keyed(st) && name in st.shares && st.shares[name].deleting
    ensures var s, st' := st.shares[name], Process(st, f, name);
            && (k in st'.objects <==> k in st.objects)
            && (k in st.objects && st'.objects[k].data != st.objects[k].data ==>
                  && k == ConfigMapKey(s) && LoadConfig(st.objects[k].data).Some?
                  && st'.objects[k].data ==
                     Json(Reload(Pruned(BareInstance(st, s), LoadConfig(st.objects[k].data).value))))
  {
    hide NextFor, OwnKey, WellFormedRefs, HasController, ShareRefs, Excluding, WithController, Pruned, Reload, PeerStep,
         Without, FetchInstance, LoadConfig;
    var s := st.shares[name];
    NextJustified(st, f, s);
    var a := NextFor(st, f, s);
    assert Next(st, f, name) == a || Next(st, f, name) == Fail;
  }

  lemma SameForm(refs: seq<OwnerRef>, refs': seq<OwnerRef>, s: Share)
    requires
      || refs' == refs
      || refs' == refs + [ShareRef(s.name, s.uid, false)]
      || exists to: OwnerRef :: refs' == WithController(refs, to.name, to.uid)
    ensures WellFormedRefs(refs') <==> WellFormedRefs(refs)
  {
    if refs' == refs + [ShareRef(s.name, s.uid, false)] {
      assert forall i :: 0 <= i < |refs| ==> refs'[i] == refs[i];
    } else if refs' != refs {
      var to: OwnerRef :| refs' == WithController(refs, to.name, to.uid);
      assert forall i :: 0 <= i < |refs| ==> refs'[i].api == refs[i].api;
    }
  }

  lemma FinalPassKeepsReleasable(st: State, f: Faults, name: string)
    requires Keyed(st) && name in st.shares && st.shares[name].deleting
    ensures Releasable(Process(st, f, name), st.shares[name]) <==> Releasable(st, st.shares[name])
  {
    hide Process, Pruned, Reload, HandsOver, WellFormedRefs;
    FinalPassOnData(st, f, name, ConfigMapKey(st.shares[name]));
    forall k ensures k in st.objects <==> k in Process(st, f, name).objects {
      FinalPassOnData(st, f, name, k);
    }
    forall k | k in st.objects
      ensures WellFormedRefs(Process(st, f, name).objects[k].owners) <==> WellFormedRefs(st.objects[k].owners)
    {
      PassOnOwners(st, f, name, k);
      SameForm(st.objects[k].owners, Process(st, f, name).objects[k].owners, st.shares[name]);
    }
  }

  /** The options of the shares in a ConfigMap. */
  function Entries(st: State, k: ObjKey): map<Key, Options> {
    if k in st.objects && LoadConfig(st.objects[k].data).Some?
    then LoadConfig(st.objects[k].data).value.shares else map[]
  }

  /** The same keys with the same options, whether an empty map was stored as one or not at all. */
  predicate SameContent(a: map<Key, Options>, b: map<Key, Options>) {
    a.Keys == b.Keys && forall k :: k in a ==> a[k].Entries() == b[k].Entries()
  }

  lemma PruneKeepsOthers(ic: Instance, c: Config)
    ensures SameContent(Reload(Pruned(ic, c)).shares - {ic.ShareName()}, c.shares - {ic.ShareName()})
  {
  }

  lemma SameAsItself(a: map<Key, Options>)
    ensures SameContent(a, a)
  {
  }

  lemma FinalPassKeepsOthers(st: State, f: Faults, name: string, k: ObjKey)
    requires Keyed(st) && name in st.shares && st.shares[name].deleting && k.kind == ConfigMap
    ensures var key := BareInstance(st, st.shares[name]).ShareName();
            SameContent(Entries(Process(st, f, name), k) - {key}, Entries(st, k) - {key})
  {
    hide Process, Pruned, Reload, SameContent;
    var key := BareInstance(st, st.shares[name]).ShareName();
    FinalPassOnData(st, f, name, k);
    SameAsItself(Entries(st, k) - {key});
    if k in st.objects && LoadConfig(st.objects[k].data).Some? {
      PruneKeepsOthers(BareInstance(st, st.shares[name]), LoadConfig(st.objects[k].data).value);
    }
  }

  /** When a share is released, the group's configuration does not mention it any more. */
  lemma ReleasedIsPruned(st: State, f: Faults, s: Share)
    requires NextFinalize(st, f, s).Release? && ConfigMapKey(s) in st.objects
    ensures var c, ic := LoadConfig(st.objects[ConfigMapKey(s)].data), BareInstance(st, s);
            && c.Some?
            && ic.ShareName() !in c.value.shares
            && (s.serverGroup in c.value.configs ==> ic.ShareName() !in c.value.configs[s.serverGroup].shares)
  {
    hide TransferStep, Reload, Without, PvcName, LoadConfig;
    var c, ic := LoadConfig(st.objects[ConfigMapKey(s)].data), BareInstance(st, s);
    ConfigMapFinalNeverReleases(st, f, s);
    assert Pruned(ic, c.value) == c.value;
    if s.serverGroup in c.value.configs {
      RemoveFirstAbsent(c.value.configs[s.serverGroup].shares, ic.ShareName());
    }
  }

  function NoFaults(n: nat): seq<Faults> {
    seq(n, i => {})
  }

  /** The n-th fault-free pass from here removes the finalizer, with the configuration as it must be. */
  ghost predicate ReleasedAfter(st: State, name: string, n: nat)
    requires name in st.shares
  {
    var s, end := st.shares[name], Passes(st, NoFaults(n), name);
    var k, key := ConfigMapKey(s), BareInstance(st, s).ShareName();
    && name in end.shares && end.shares[name] == s
    && Next(end, {}, name).Release?
    && key !in Entries(end, k)
    && SameContent(Entries(end, k) - {key}, Entries(st, k) - {key})
    && (k in end.objects && end.objects[k].data.Json? && s.serverGroup in end.objects[k].data.config.configs ==>
          key !in end.objects[k].data.config.configs[s.serverGroup].shares)
  }

  lemma ReleasedNow(st: State, name: string)
    requires Keyed(st) && name in st.shares && Next(st, {}, name).Release?
    ensures ReleasedAfter(st, name, 0)
  {
    hide NextUpdate, NextFinalize, ConfigEdit, OwnKey;
    var s := st.shares[name];
    NextJustified(st, {}, s);
    assert Passes(st, NoFaults(0), name) == st;
    if ConfigMapKey(s) in st.objects {
      ReleasedIsPruned(st, {}, s);
    }
  }

  lemma ReleasedLater(st: State, name: string, n: nat)
    requires Keyed(st) && name in st.shares && st.shares[name].deleting
    requires Process(st, {}, name).shares == st.shares && ReleasedAfter(Process(st, {}, name), name, n)
    ensures ReleasedAfter(st, name, n + 1)
  {
    hide Process, Next, Entries;
    var st' := Process(st, {}, name);
    assert NoFaults(n + 1)[0] == {} && NoFaults(n + 1)[1..] == NoFaults(n);
    assert Passes(st, NoFaults(n + 1), name) == Passes(st', NoFaults(n), name);
    FinalPassKeepsOthers(st, {}, name, ConfigMapKey(st.shares[name]));
  }

  /** Without failing calls, the finalizer of a share that can be released goes after at most as many passes as
      the share's debt. Then the group's configuration lacks the share's key and every other entry has the options
      it had. */
  lemma {:induction false} FinalizationCompletes(st: State, name: string)
    requires Keyed(st) && name in st.shares && Releasable(st, st.shares[name])
    requires st.shares[name].deleting && SHARE_FINALIZER in st.shares[name].finalizers
    ensures exists n: nat :: n <= FinalDebt(st, st.shares[name]) && ReleasedAfter(st, name, n)
    decreases FinalDebt(st, st.shares[name])
  {
    hide Process, Keyed, Releasable, NextFinalize, FinalDebt, ReleasedAfter;
    var s := st.shares[name];
    FinalizeNeverFails(st, s);
    assert Next(st, {}, name) == NextFinalize(st, {}, s);
    if Next(st, {}, name).Release? {
      ReleasedNow(st, name);
    } else {
      var st' := Process(st, {}, name);
      FinalPassPays(st, {}, name);
      ProcessKeepsKeyed(st, {}, name);
      FinalPassKeepsReleasable(st, {}, name);
      FinalizationCompletes(st', name);
      var n: nat :| n <= FinalDebt(st', s) && ReleasedAfter(st', name, n);
      ReleasedLater(st, name, n);
    }
  }

  lemma UnreleasedStays(st: State, name: string)
    requires Keyed(st) && name in st.shares && st.shares[name].deleting && !Next(st, {}, name).Release?
    ensures Process(st, {}, name).shares == st.shares
  {
    hide NextUpdate, NextFinalize, ConfigEdit, OwnKey, WellFormedRefs, HasController, ShareRefs, Excluding,
         WithController, Without, Apply;
    NextJustified(st, {}, st.shares[name]);
    ApplyOnShares(st, st.shares[name], Next(st, {}, name));
  }

  lemma {:induction false} ReleaseNeedsReleasable(st: State, name: string, n: nat)
    requires Keyed(st) && name in st.shares
    requires st.shares[name].deleting && SHARE_FINALIZER in st.shares[name].finalizers
    requires Next(Passes(st, NoFaults(n), name), {}, name).Release?
    ensures Releasable(st, st.shares[name])
    decreases n
  {
    hide Process, Keyed, Releasable, NextFinalize, NextUpdate;
    var s := st.shares[name];
    assert n == 0 ==> Passes(st, NoFaults(n), name) == st;
    if Next(st, {}, name).Release? {
      if !Releasable(st, s) {
        UnreadableBlocksRelease(st, {}, s);
      }
    } else if n > 0 {
      var st' := Process(st, {}, name);
      UnreleasedStays(st, name);
      ProcessKeepsKeyed(st, {}, name);
      assert NoFaults(n)[0] == {} && NoFaults(n)[1..] == NoFaults(n - 1);
      assert Passes(st, NoFaults(n), name) == Passes(st', NoFaults(n - 1), name);
      ReleaseNeedsReleasable(st', name, n - 1);
      FinalPassKeepsReleasable(st, {}, name);
    }
  }

  /** So without failing calls the finalizer goes if and only if the configuration and the references parse. */
  lemma ReleasedIffReleasable(st: State, name: string)
    requires Keyed(st) && name in st.shares
    requires st.shares[name].deleting && SHARE_FINALIZER in st.shares[name].finalizers
    ensures (exists n: nat :: ReleasedAfter(st, name, n)) <==> Releasable(st, st.shares[name])
  {
    hide Releasable, Next, Process, Entries, FinalDebt;
    if Releasable(st, st.shares[name]) {
      FinalizationCompletes(st, name);
    }
    if n: nat :| ReleasedAfter(st, name, n) {
      ReleaseNeedsReleasable(st, name, n);
    }
  }
}
