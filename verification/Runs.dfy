/** Runs of the whole system: passes of any shares, user edits and garbage collection, in any order. */
module Runs {
  import opened Basics
  import opened SmbApi
  import opened Ownership
  import opened Cluster
  import opened Reconcile
  import opened Justification

  datatype Event =
    | Pass(name: string, faults: Faults)
    | AddShare(share: Share)
    | EditSpec(name: string, spec: ShareSpec)
    | MarkDeleted(name: string)
    | DropForeignFinalizers(name: string)
    | DropShare(name: string)
    | SetSecurity(name: string, security: Option<SecurityConfig>)
    | SetCommon(name: string, common: Option<CommonConfig>)
    | Collect(key: ObjKey)
    | PruneOwners(key: ObjKey)

  /** The owner is not in the store; owners that are not shares are never taken for gone. */
  predicate OwnerGone(st: State, r: OwnerRef) {
    IsShareRef(r) && !(r.name in st.shares && st.shares[r.name].uid == r.uid)
  }

  predicate AllGone(st: State, refs: seq<OwnerRef>) {
    forall i :: 0 <= i < |refs| ==> OwnerGone(st, refs[i])
  }

  /** The references to owners that still exist, in order. */
  function Present(st: State, refs: seq<OwnerRef>): (r: seq<OwnerRef>)
    ensures forall x :: x in r <==> x in refs && !OwnerGone(st, x)
  {
    if refs == [] then []
    else
      assert refs == [refs[0]] + refs[1..];
      (if OwnerGone(st, refs[0]) then [] else [refs[0]]) + Present(st, refs[1..])
  }

  /** What is left of a share's finalizers when everybody else has removed theirs. */
  function OwnFinalizers(finalizers: seq<string>): seq<string> {
    if SHARE_FINALIZER in finalizers then [SHARE_FINALIZER] else []
  }

  /** The store after an event; an event that is not enabled changes nothing. */
  function After(st: State, e: Event): State {
    match e
    case Pass(name, f) => Process(st, f, name)
    case AddShare(s) =>
      if s.name == "" || s.name in st.shares || s.deleting || s.serverGroup != "" then st
      else st.(shares := st.shares[s.name := s])
    case EditSpec(name, spec) =>
      if name !in st.shares then st
      else st.(shares := st.shares[name := st.shares[name].(spec := spec)])
    case MarkDeleted(name) =>
      if name !in st.shares then st
      else st.(shares := st.shares[name := st.shares[name].(deleting := true)])
    case DropForeignFinalizers(name) =>
      if name !in st.shares then st
      else
        var s := st.shares[name];
        st.(shares := st.shares[name := s.(finalizers := OwnFinalizers(s.finalizers))])
    case DropShare(name) =>
      if name in st.shares && st.shares[name].deleting && st.shares[name].finalizers == []
      then st.(shares := st.shares - {name})
      else st
    case SetSecurity(name, c) =>
      st.(securities := if c.Some? then st.securities[name := c.value] else st.securities - {name})
    case SetCommon(name, c) =>
      st.(commons := if c.Some? then st.commons[name := c.value] else st.commons - {name})
    case Collect(k) =>
      if k in st.objects && st.objects[k].owners != [] && AllGone(st, st.objects[k].owners)
      then st.(objects := st.objects - {k})
      else st
    case PruneOwners(k) =>
      if k in st.objects && !AllGone(st, st.objects[k].owners)
      then Put(st, k, st.objects[k].(owners := Present(st, st.objects[k].owners)))
      else st
  }

  function Run(st: State, es: seq<Event>): State
    decreases |es|
  {
    if es == [] then st else Run(After(st, es[0]), es[1..])
  }

  /** The share is not created while references of the object carry its name already. */
  ghost predicate TidyFor(st: State, e: Event, name: string, k: ObjKey) {
    e.AddShare? && e.share.name == name && name !in st.shares && k in st.objects ==>
      forall i :: 0 <= i < |st.objects[k].owners| ==> st.objects[k].owners[i].name != name
  }

  ghost predicate TidyForRun(st: State, es: seq<Event>, name: string, k: ObjKey)
    decreases |es|
  {
    es == [] || (TidyFor(st, es[0], name, k) && TidyForRun(After(st, es[0]), es[1..], name, k))
  }

  function EmptyStore(operator: OperatorConfig): State {
    State(operator, map[], map[], map[], map[])
  }

  // ----- the owner references of every reachable object -----

  ghost predicate DistinctNames(refs: seq<OwnerRef>) {
    forall i, j :: 0 <= i < j < |refs| ==> refs[i].name != refs[j].name
  }

  /** Shares only, each named once, and at most one of them in control. */
  ghost predicate RefsOk(refs: seq<OwnerRef>) {
    && refs != []
    && (forall i :: 0 <= i < |refs| ==> IsShareRef(refs[i]) && refs[i].name != "")
    && DistinctNames(refs)
    && AtMostOneController(refs)
  }

  /** Every object is well owned. */
  ghost predicate WellOwned(st: State) {
    Keyed(st) && forall k :: k in st.objects ==> RefsOk(st.objects[k].owners)
  }

  lemma WellOwnedIsKeyed(st: State)
    requires WellOwned(st)
    ensures Keyed(st)
  {
  }

  /** The object's references to the name of an existing share are references to that share. */
  ghost predicate CurrentFor(st: State, name: string, k: ObjKey) {
    name in st.shares && k in st.objects ==>
      forall i :: 0 <= i < |st.objects[k].owners| && st.objects[k].owners[i].name == name ==>
        st.objects[k].owners[i].uid == st.shares[name].uid
  }

  lemma {:induction false} PresentIsOk(st: State, refs: seq<OwnerRef>)
    requires DistinctNames(refs) && AtMostOneController(refs)
    ensures DistinctNames(Present(st, refs)) && AtMostOneController(Present(st, refs))
  {
    if refs == [] {
    } else {
      var rest := Present(st, refs[1..]);
      PresentIsOk(st, refs[1..]);
      forall i | 0 <= i < |rest|
        ensures rest[i].name != refs[0].name && !(rest[i].controller && refs[0].controller)
      {
        assert rest[i] in refs[1..];
        var j :| 0 <= j < |refs[1..]| && refs[1..][j] == rest[i];
        assert refs[j + 1] == rest[i];
      }
    }
  }

  lemma ClaimIsOk(refs: seq<OwnerRef>, name: string, uid: string)
    requires RefsOk(refs) && !NamesOwner(refs, name) && name != ""
    ensures RefsOk(refs + [ShareRef(name, uid, false)])
  {
  }

  lemma TransferIsOk(refs: seq<OwnerRef>, to: OwnerRef)
    requires RefsOk(refs)
    ensures RefsOk(WithController(refs, to.name, to.uid))
  {
  }

  lemma ApplyOnOwners(st: State, s: Share, a: Action, k: ObjKey)
    requires k in st.objects && !(a.Create? && a.key == k)
    ensures k in Apply(st, s, a).objects
    ensures Apply(st, s, a).objects[k].owners ==
            if a.ClaimObject? && a.key == k then st.objects[k].owners + [ShareRef(s.name, s.uid, false)]
            else if a.Transfer? && a.key == k then WithController(st.objects[k].owners, a.to.name, a.to.uid)
            else st.objects[k].owners
  {
    hide WithController;
  }

  /** How one pass can change the owner references of an object that exists. */
  lemma PassOnOwners(st: State, f: Faults, name: string, k: ObjKey)
    requires name in st.shares && Keyed(st) && k in st.objects
    ensures var s, refs := st.shares[name], st.objects[k].owners;
            && k in Process(st, f, name).objects
            && var refs' := Process(st, f, name).objects[k].owners;
               || refs' == refs
               || (refs' == refs + [ShareRef(s.name, s.uid, false)] && !NamesOwner(refs, s.name))
               || exists to: OwnerRef :: refs' == WithController(refs, to.name, to.uid)
  {
    hide NextFor, ConfigEdit, InitialFor, ShareEdit, OwnKey, SharedKey, NamesOwner, WellFormedRefs, HasController,
         Wanted, ShareRefs, Excluding, Apply, WithController;
    var s := st.shares[name];
    NextJustified(st, f, s);
    var a := Next(st, f, name);
    assert a == NextFor(st, f, s) || a == Fail;
    ApplyOnOwners(st, s, a, k);
  }

  /** The objects a pass makes are owned and controlled by its share. */
  lemma PassCreates(st: State, f: Faults, name: string, k: ObjKey)
    requires name in st.shares && Keyed(st) && k !in st.objects && k in Process(st, f, name).objects
    ensures var s := st.shares[name];
            Process(st, f, name).objects[k].owners == [ShareRef(s.name, s.uid, true)]
  {
    hide NextFor, ConfigEdit, NamesOwner, WellFormedRefs, HasController, Wanted;
    NextJustified(st, f, st.shares[name]);
    assert Next(st, f, name) == NextFor(st, f, st.shares[name]) || Next(st, f, name) == Fail;
  }

  /** Identity and deletion stay; the group and the backend are set once. */
  predicate SameShare(s: Share, s': Share) {
    && s'.name == s.name && s'.uid == s.uid && s'.namespace == s.namespace && s'.deleting == s.deleting
    && (s.serverGroup != "" ==> s'.serverGroup == s.serverGroup)
    && (Backend(s) != "" ==> Backend(s') == Backend(s))
  }

  lemma ShareEditKeepsShare(s: Share, s': Share)
    requires ShareEdit(s, s')
    ensures SameShare(s, s')
  {
  }

  lemma ApplyOnShares(st: State, s: Share, a: Action)
    requires s.name in st.shares
    ensures var st' := Apply(st, s, a);
            && st'.operator == st.operator && st'.securities == st.securities && st'.commons == st.commons
            && st'.shares == if a.SaveShare? || a.Release? then st.shares[s.name := a.share] else st.shares
  {
  }

  /** A pass changes no share but its own, and of that neither identity nor deletion. */
  lemma PassOnShares(st: State, f: Faults, name: string)
    requires name in st.shares && Keyed(st)
    ensures var st' := Process(st, f, name);
            && st'.shares.Keys == st.shares.Keys
            && (forall n :: n in st.shares && n != name ==> st'.shares[n] == st.shares[n])
            && SameShare(st.shares[name], st'.shares[name])
            && st'.operator == st.operator && st'.securities == st.securities && st'.commons == st.commons
  {
    hide NextFor, ConfigEdit, InitialFor, ShareEdit, OwnKey, SharedKey, NamesOwner, WellFormedRefs, HasController,
         Wanted, ShareRefs, Excluding, Without, Apply;
    var s := st.shares[name];
    NextJustified(st, f, s);
    var a := Next(st, f, name);
    assert a == NextFor(st, f, s) || a == Fail;
    ApplyOnShares(st, s, a);
    if a.SaveShare? {
      ShareEditKeepsShare(s, a.share);
    }
  }

  /** How one pass can change its own share. */
  lemma PassOnOwnShare(st: State, f: Faults, name: string)
    requires name in st.shares && Keyed(st)
    ensures var s := st.shares[name];
            && name in Process(st, f, name).shares
            && var s' := Process(st, f, name).shares[name];
               || s' == s
               || (!s.deleting && ShareEdit(s, s'))
               || (s.deleting && s' == s.(finalizers := Without(s.finalizers, SHARE_FINALIZER)))
  {
    hide NextFor, ConfigEdit, InitialFor, ShareEdit, OwnKey, SharedKey, NamesOwner, WellFormedRefs, HasController,
         Wanted, ShareRefs, Excluding, Without, Apply;
    var s, a := st.shares[name], Next(st, f, name);
    NextJustified(st, f, s);
    assert a == NextFor(st, f, s) || a == Fail;
    ApplyOnShares(st, s, a);
  }

  lemma CreationIsOk(name: string, uid: string)
    requires name != ""
    ensures RefsOk([ShareRef(name, uid, true)])
  {
  }

  lemma IdlePass(st: State, f: Faults, name: string)
    requires name !in st.shares
    ensures Process(st, f, name) == st
  {
  }

  lemma PassKeepsWellOwned(st: State, f: Faults, name: string)
    requires WellOwned(st)
    ensures WellOwned(Process(st, f, name))
  {
    hide Process, RefsOk;
    if name in st.shares {
      var st', s := Process(st, f, name), st.shares[name];
      PassOnShares(st, f, name);
      forall k | k in st'.objects
        ensures RefsOk(st'.objects[k].owners)
      {
        if k in st.objects {
          var refs, refs' := st.objects[k].owners, st'.objects[k].owners;
          PassOnOwners(st, f, name, k);
          if refs' == refs {
          } else if refs' == refs + [ShareRef(s.name, s.uid, false)] && !NamesOwner(refs, s.name) {
            ClaimIsOk(refs, s.name, s.uid);
          } else {
            var to: OwnerRef :| refs' == WithController(refs, to.name, to.uid);
            TransferIsOk(refs, to);
          }
        } else {
          PassCreates(st, f, name, k);
          CreationIsOk(s.name, s.uid);
        }
      }
    } else {
      IdlePass(st, f, name);
    }
  }

  lemma PruningKeepsRefsOk(st: State, refs: seq<OwnerRef>)
    requires RefsOk(refs) && !AllGone(st, refs)
    ensures RefsOk(Present(st, refs))
  {
    PresentIsOk(st, refs);
    var i :| 0 <= i < |refs| && !OwnerGone(st, refs[i]);
    var left := Present(st, refs);
    assert refs[i] in left;
    assert forall j :: 0 <= j < |left| ==> left[j] in refs;
  }

  lemma EventKeepsWellOwned(st: State, e: Event)
    requires WellOwned(st)
    ensures WellOwned(After(st, e))
  {
    hide Process, RefsOk, Present, AllGone;
    if e.Pass? {
      PassKeepsWellOwned(st, e.faults, e.name);
    } else if e.PruneOwners? && After(st, e) != st {
      PruningKeepsRefsOk(st, st.objects[e.key].owners);
    }
  }

  /** In every run, every object is owned by shares only, each named once, with at most one controller. */
  lemma {:induction false} RunKeepsWellOwned(st: State, es: seq<Event>)
    requires WellOwned(st)
    ensures WellOwned(Run(st, es))
    decreases |es|
  {
    hide After, WellOwned;
    if es == [] {
    } else {
      EventKeepsWellOwned(st, es[0]);
      RunKeepsWellOwned(After(st, es[0]), es[1..]);
    }
  }

  lemma PassKeepsCurrentFor(st: State, f: Faults, pass: string, name: string, k: ObjKey)
    requires Keyed(st) && CurrentFor(st, name, k)
    ensures CurrentFor(Process(st, f, pass), name, k)
  {
    hide Process;
    if pass !in st.shares {
      IdlePass(st, f, pass);
    } else {
      PassOnShares(st, f, pass);
      var st' := Process(st, f, pass);
      if k in st.objects {
        PassOnOwners(st, f, pass, k);
      } else if k in st'.objects {
        PassCreates(st, f, pass, k);
      }
    }
  }

  lemma EventKeepsCurrentFor(st: State, e: Event, name: string, k: ObjKey)
    requires Keyed(st) && CurrentFor(st, name, k) && TidyFor(st, e, name, k)
    ensures CurrentFor(After(st, e), name, k)
  {
    hide Process;
    if e.Pass? {
      PassKeepsCurrentFor(st, e.faults, e.name, name, k);
    } else if e.PruneOwners? && e.key == k && k in st.objects {
      var refs := st.objects[k].owners;
      assert forall i :: 0 <= i < |Present(st, refs)| ==> Present(st, refs)[i] in refs;
    }
  }

  lemma EventKeepsKeyed(st: State, e: Event)
    requires Keyed(st)
    ensures Keyed(After(st, e))
  {
    hide Process;
    if e.Pass? {
      if e.name in st.shares {
        PassOnShares(st, e.faults, e.name);
      } else {
        IdlePass(st, e.faults, e.name);
      }
    }
  }

  /** However other names are reused, the object's references to this name stay up to date if the name
      is not reused while they carry it. */
  lemma {:induction false} RunKeepsCurrentFor(st: State, es: seq<Event>, name: string, k: ObjKey)
    requires Keyed(st) && CurrentFor(st, name, k) && TidyForRun(st, es, name, k)
    ensures CurrentFor(Run(st, es), name, k)
    decreases |es|
  {
    hide After, Keyed, CurrentFor, TidyFor;
    if es == [] {
    } else {
      EventKeepsKeyed(st, es[0]);
      EventKeepsCurrentFor(st, es[0], name, k);
      RunKeepsCurrentFor(After(st, es[0]), es[1..], name, k);
    }
  }

  lemma {:induction false} RunKeepsKeyed(st: State, es: seq<Event>)
    requires Keyed(st)
    ensures Keyed(Run(st, es))
    decreases |es|
  {
    hide After;
    if es == [] {
    } else {
      EventKeepsKeyed(st, es[0]);
      RunKeepsKeyed(After(st, es[0]), es[1..]);
    }
  }

  lemma EmptyIsFine(operator: OperatorConfig, name: string, k: ObjKey)
    ensures WellOwned(EmptyStore(operator)) && CurrentFor(EmptyStore(operator), name, k)
  {
  }

  // ----- runs in parts -----

  lemma {:induction false} RunSplit(st: State, es: seq<Event>, i: nat)
    requires i <= |es|
    ensures Run(st, es) == Run(Run(st, es[..i]), es[i..])
    decreases |es|
  {
    hide After;
    if i == 0 {
      assert es[..0] == [] && es[0..] == es;
    } else {
      assert es[..i][0] == es[0] && es[..i][1..] == es[1..][..i - 1] && es[i..] == es[1..][i - 1..];
      RunSplit(After(st, es[0]), es[1..], i - 1);
    }
  }

  lemma RunAppend(st: State, a: seq<Event>, b: seq<Event>)
    ensures Run(st, a + b) == Run(Run(st, a), b)
  {
    RunSplit(st, a + b, |a|);
    assert (a + b)[..|a|] == a && (a + b)[|a|..] == b;
  }
}
