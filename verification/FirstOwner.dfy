/** Comparing a share with the first other owner alone keeps a group compatible. */
module FirstOwner {
  import opened Basics
  import opened SmbApi
  import opened Ownership
  import opened Compatible
  import opened Planning
  import opened Cluster
  import opened Reconcile
  import opened Justification
  import opened Runs

  /** A share's profile as the store defines it. */
  function StoredProfile(st: State, s: Share): Profile
    requires s.spec.pvc.Some?
  {
    Profile(s.namespace, s.spec.pvc.value.name, s.spec.securityConfig, s.spec.commonConfig,
            if s.spec.securityConfig != "" && s.spec.securityConfig in st.securities
            then st.securities[s.spec.securityConfig].uid else "",
            if s.spec.commonConfig != "" && s.spec.commonConfig in st.commons
            then st.commons[s.spec.commonConfig].uid else "")
  }

  lemma FetchedProfile(st: State, f: Faults, s: Share)
    requires FetchInstance(st, f, s).Some? && s.spec.pvc.Some?
    ensures ProfileOf(CandidateOf(FetchInstance(st, f, s).value)) == StoredProfile(st, s)
  {
  }

  /** Every share has a PVC and the profile that is fixed for its name. */
  ghost predicate FixedProfiles(st: State, profiles: map<string, Profile>) {
    forall n :: n in st.shares ==>
      st.shares[n].spec.pvc.Some? && n in profiles && StoredProfile(st, st.shares[n]) == profiles[n]
  }

  ghost predicate FixedProfilesRun(st: State, es: seq<Event>, profiles: map<string, Profile>)
    decreases |es|
  {
    FixedProfiles(st, profiles) && (es == [] || FixedProfilesRun(After(st, es[0]), es[1..], profiles))
  }

  /** No owner reference of the object is ever removed. */
  ghost predicate AppendOnly(es: seq<Event>, k: ObjKey) {
    forall i :: 0 <= i < |es| ==> es[i] != Collect(k) && es[i] != PruneOwners(k)
  }

  /** The event is an update pass of the named share that writes the configuration in the object. */
  predicate Writes(st: State, e: Event, name: string, k: ObjKey) {
    && e.Pass? && e.name == name && name in st.shares && !st.shares[name].deleting
    && Next(st, e.faults, name).SaveConfig?
    && Next(st, e.faults, name).key == k
  }

  /** The instance such an event writes for. */
  function Writer(st: State, e: Event): Option<Instance>
    requires e.Pass? && e.name in st.shares
  {
    FetchInstance(st, e.faults, st.shares[e.name])
  }

  function FirstName(st: State, k: ObjKey): Option<string> {
    if k in st.objects && st.objects[k].owners != [] then Some(st.objects[k].owners[0].name) else None
  }

  lemma ExcludingFirst(refs: seq<OwnerRef>, name: string, uid: string)
    requires refs != [] && IsShareRef(refs[0]) && refs[0].name != name
    ensures var others := Excluding(ShareRefs(refs), name, uid);
            others != [] && others[0] == refs[0]
  {
  }

  /** A share that passed the check was found to have the profile of the first owner, unless it is the first. */
  lemma WriterMatchesPeer(st: State, f: Faults, name: string, k: ObjKey, profiles: map<string, Profile>)
    requires Keyed(st) && FixedProfiles(st, profiles) && name in st.shares
    requires k in st.objects && st.objects[k].owners != []
    requires IsShareRef(st.objects[k].owners[0]) && st.objects[k].owners[0].name != name
    requires FetchInstance(st, f, st.shares[name]).Some?
    requires PeerStep(st, f, FetchInstance(st, f, st.shares[name]).value,
               Excluding(ShareRefs(st.objects[k].owners), name, st.shares[name].uid)).Idle?
    ensures var first := st.objects[k].owners[0].name;
            first in profiles && profiles[first] == profiles[name]
  {
    hide CheckCompatible, FetchInstance, ShareRefs, Excluding, ProfileOf;
    var s, refs := st.shares[name], st.objects[k].owners;
    ExcludingFirst(refs, name, s.uid);
    var ic, peer := FetchInstance(st, f, s), st.shares[refs[0].name];
    var other := FetchInstance(st, f, peer);
    FetchInstanceOf(st, f, s);
    FetchInstanceOf(st, f, peer);
    FetchedProfile(st, f, s);
    FetchedProfile(st, f, peer);
    CompatibleIffSameProfile(CandidateOf(ic.value), CandidateOf(other.value));
  }

  /** Whoever writes the configuration has the profile of the first owner, and so of all writers. */
  lemma WriterMatchesFirst(st: State, e: Event, name: string, k: ObjKey, profiles: map<string, Profile>)
    requires WellOwned(st) && FixedProfiles(st, profiles) && Writes(st, e, name, k)
    ensures FirstName(st, k).Some?
    ensures Writer(st, e).Some? && HasPvc(CandidateOf(Writer(st, e).value))
    ensures ProfileOf(CandidateOf(Writer(st, e).value)) == profiles[name]
    ensures FirstName(st, k).value in profiles && profiles[FirstName(st, k).value] == profiles[name]
  {
    hide NextFor, PeerStep, FetchInstance, OwnKey, SharedKey, ShareRefs, Excluding, ProfileOf, UpdatePanics, Updated,
         Contradicts;
    var s := st.shares[name];
    NextJustified(st, e.faults, s);
    assert RefsOk(st.objects[k].owners);
    FetchInstanceOf(st, e.faults, s);
    FetchedProfile(st, e.faults, s);
    if st.objects[k].owners[0].name != name {
      WriterMatchesPeer(st, e.faults, name, k, profiles);
    }
  }

  lemma EventKeepsFirst(st: State, e: Event, k: ObjKey)
    requires WellOwned(st) && e != Collect(k) && e != PruneOwners(k) && FirstName(st, k).Some?
    ensures FirstName(After(st, e), k) == FirstName(st, k)
  {
    hide Process;
    if e.Pass? {
      if e.name in st.shares {
        PassOnOwners(st, e.faults, e.name, k);
      } else {
        IdlePass(st, e.faults, e.name);
      }
    }
  }

  lemma {:induction false} RunKeepsFirst(st: State, es: seq<Event>, k: ObjKey)
    requires WellOwned(st) && AppendOnly(es, k) && FirstName(st, k).Some?
    ensures FirstName(Run(st, es), k) == FirstName(st, k)
    decreases |es|
  {
    hide After, WellOwned, FirstName;
    if es == [] {
    } else {
      EventKeepsWellOwned(st, es[0]);
      EventKeepsFirst(st, es[0], k);
      RunKeepsFirst(After(st, es[0]), es[1..], k);
    }
  }

  lemma {:induction false} FixedProfilesAt(st: State, es: seq<Event>, profiles: map<string, Profile>, i: nat)
    requires FixedProfilesRun(st, es, profiles) && i <= |es|
    ensures FixedProfiles(Run(st, es[..i]), profiles)
    decreases |es|
  {
    hide After, FixedProfiles;
    if i == 0 {
    } else {
      assert es[..i][0] == es[0] && es[..i][1..] == es[1..][..i - 1];
      FixedProfilesAt(After(st, es[0]), es[1..], profiles, i - 1);
    }
  }

  /** With fixed profiles and owner references that are only appended, any two shares that ever wrote
      their entries into one ConfigMap are compatible, though neither was compared with the other. */
  lemma WritersAreCompatible(st: State, es: seq<Event>, k: ObjKey, profiles: map<string, Profile>,
                             i: nat, a: string, j: nat, b: string)
    requires WellOwned(st) && AppendOnly(es, k) && FixedProfilesRun(st, es, profiles)
    requires i <= j < |es|
    requires Writes(Run(st, es[..i]), es[i], a, k) && Writes(Run(st, es[..j]), es[j], b, k)
    ensures var wa, wb := Writer(Run(st, es[..i]), es[i]), Writer(Run(st, es[..j]), es[j]);
            && wa.Some? && wb.Some?
            && CheckCompatible(CandidateOf(wa.value), CandidateOf(wb.value)).Compatible?
  {
    hide After, WellOwned, FirstName, FixedProfiles, Writer, CheckCompatible, ProfileOf, Next;
    var si, sj := Run(st, es[..i]), Run(st, es[..j]);
    RunSplit(st, es, i);
    RunSplit(st, es, j);
    RunSplit(st, es[..j], i);
    assert es[..j][..i] == es[..i];
    RunKeepsWellOwned(st, es[..i]);
    RunKeepsWellOwned(st, es[..j]);
    FixedProfilesAt(st, es, profiles, i);
    FixedProfilesAt(st, es, profiles, j);
    WriterMatchesFirst(si, es[i], a, k, profiles);
    WriterMatchesFirst(sj, es[j], b, k, profiles);
    RunKeepsFirst(si, es[..j][i..], k);
    CompatibleIffSameProfile(CandidateOf(Writer(si, es[i]).value), CandidateOf(Writer(sj, es[j]).value));
  }

  lemma NamedEditKeepsSpec(s: Share, s': Share)
    requires ShareEdit(s, s')
    requires s.spec.pvc.Some? && (NeedsPvc(s) ==> s.spec.pvc.value.name != "")
    ensures s'.spec == s.spec
  {
  }

  /** A pass keeps its share's spec, and so its profile, unless it has to name an unnamed PVC. */
  lemma PassKeepsNamedSpec(st: State, f: Faults, name: string)
    requires Keyed(st) && name in st.shares && st.shares[name].spec.pvc.Some?
    requires NeedsPvc(st.shares[name]) ==> st.shares[name].spec.pvc.value.name != ""
    ensures name in Process(st, f, name).shares
    ensures Process(st, f, name).shares[name].spec == st.shares[name].spec
  {
    hide NextFor, ConfigEdit, ShareEdit, OwnKey, SharedKey, InitialFor, NamesOwner, WellFormedRefs, HasController,
         Wanted, ShareRefs, Excluding, Without;
    var s := st.shares[name];
    NextJustified(st, f, s);
    var a := NextFor(st, f, s);
    if a.SaveShare? {
      NamedEditKeepsSpec(s, a.share);
    }
    assert Next(st, f, name) == a || Next(st, f, name) == Fail;
  }
}
