/** Shares that own one ConfigMap settle exactly when they agree; if two of them insist on different options under one
    name, they undo each other for ever. */
module Contention {
  import opened Basics
  import opened SmbApi
  import opened ContainerConfig
  import opened Ownership
  import opened Planning
  import opened Cluster
  import opened Reconcile
  import opened Justification
  import opened Runs
  import opened ConfigRuns
  import opened Convergence
  import opened Sections
  import opened Panics
  import opened Readiness
  import opened GroupConvergence
  import opened Harmony
  import opened Eviction
  import opened Scenarios

  /** The share is one of its group's, owns its ConfigMap and may write into it. */
  predicate Seated(st: State, s: Share) {
    var k := ConfigMapKey(s);
    && !s.deleting && SHARE_FINALIZER in s.finalizers && s.serverGroup != "" && s.spec.pvc.Some?
    && k in st.objects && WellFormedRefs(st.objects[k].owners) && NamesOwner(st.objects[k].owners, s.name)
    && Allowed(st, s)
  }

  ghost predicate AllSeated(st: State, names: seq<string>) {
    && Keyed(st) && ConfigsServe(st) && NoDuplicates(names)
    && forall n :: n in names ==> n in st.shares && Seated(st, st.shares[n])
  }

  /** A seated share gets as far as its plan, and writes unless nothing is left to update. */
  lemma SeatedStep(st: State, s: Share)
    requires ConfigsServe(st) && Seated(st, s)
    ensures var k := ConfigMapKey(s);
            && FetchInstance(st, {}, s).Some? && st.objects[k].data.Json?
            && var c, ic := st.objects[k].data.config, FetchInstance(st, {}, s).value;
               && ic.share == s && !UpdatePanics(ic, c)
               && (Updated(ic, c) != c || Contradicts(s.spec) ==>
                     NextFor(st, {}, s) == SaveConfig(k, Reload(Updated(ic, c))))
  {
    hide UpdatePanics, Updated, Contradicts, Reload, New, FetchInstance, PeerStep, PeerAgrees, FindClaim, NamesOwner,
         ShareRefs, Excluding, WellFormedRefs, NextServer, PvcStep;
    var k := ConfigMapKey(s);
    var cm, ic := st.objects[k], FetchInstance(st, {}, s).value;
    FindClaimMeans(cm.owners, s.name);
    FetchInstanceOf(st, {}, s);
    PeerStepExactly(st, {}, ic, Others(s, cm));
    ServedNeverPanics(st, k, ic);
  }

  lemma StoringKeepsSeated(st: State, s: Share, t: Share, c: Config)
    requires Seated(st, s) && Seated(st, t)
    ensures Seated(Apply(st, s, SaveConfig(ConfigMapKey(s), c)), t)
  {
    hide Allowed, WellFormedRefs, NamesOwner, SameSpecs;
    StoredStore(st, s, c);
    KeptAllowed(st, Apply(st, s, SaveConfig(ConfigMapKey(s), c)), t);
  }

  lemma BothSettledAgree(a: Instance, b: Instance, c: Config)
    requires !UpdatePanics(a, c) && Updated(a, c) == c && !UpdatePanics(b, c) && Updated(b, c) == c
    requires a.ShareName() == b.ShareName()
    ensures AgreeOn(Forced(a.share), Forced(b.share))
  {
  }

  /** Two shares of one group under one name can both be done only if they insist on nothing differently, custom
      options included. */
  lemma BothDoneAgree(st: State, f: Faults, g: Faults, s: Share, t: Share)
    requires !s.deleting && !t.deleting && s.serverGroup == t.serverGroup && ShareKey(s) == ShareKey(t)
    requires NextUpdate(st, f, s).Idle? && NextUpdate(st, g, t).Idle?
    ensures AgreeOn(Forced(s), Forced(t))
  {
    hide ConfigMapStep, NextServer, UpdatePanics, Updated, Contradicts, LoadConfig, PeerAgrees, FetchInstance, Forced,
         AgreeOn, NamesOwner, WellFormedRefs, Others;
    ConfigStepExactly(st, f, s);
    ConfigStepExactly(st, g, t);
    FetchInstanceOf(st, f, s);
    FetchInstanceOf(st, g, t);
    BothSettledAgree(FetchInstance(st, f, s).value, FetchInstance(st, g, t).value,
                     LoadConfig(st.objects[ConfigMapKey(s)].data).value);
  }

  /** One of the two contradicts itself, or they contradict each other. */
  predicate AtOdds(s: Share, t: Share) {
    Contradicts(s.spec) || !InConcord(s, t)
  }

  lemma SeatedKeys(st: State, s: Share)
    requires Seated(st, s)
    ensures ConfigMapKey(s) in st.objects && GroupOf(s) == Some(s.serverGroup) && s.spec.pvc.Some?
  {
  }

  lemma InstanceKey(ic: Instance)
    ensures ic.ShareName() == ShareKey(ic.share)
  {
  }

  /** The next pass of one of two shares at odds writes, and leaves them at odds. */
  lemma OddsMove(st: State, m: string, n: string) returns (mover: string)
    requires Keyed(st) && ConfigsServe(st) && m in st.shares && n in st.shares
    requires Seated(st, st.shares[m]) && Seated(st, st.shares[n]) && AtOdds(st.shares[m], st.shares[n])
    ensures mover in {m, n} && ResultOf(Next(st, {}, mover)).Requeue?
    ensures var st' := Process(st, {}, mover);
            && Keyed(st') && ConfigsServe(st') && st'.shares == st.shares
            && Seated(st', st.shares[m]) && Seated(st', st.shares[n])
  {
    hide NextFor, Updated, UpdatePanics, Contradicts, Forced, AgreeOn, ConfigsServe, Reload, Seated;
    var s, t := st.shares[m], st.shares[n];
    SeatedStep(st, s);
    SeatedStep(st, t);
    SeatedKeys(st, s);
    SeatedKeys(st, t);
    var c, ic := st.objects[ConfigMapKey(s)].data.config, FetchInstance(st, {}, s).value;
    mover := if Updated(ic, c) != c || Contradicts(s.spec) then m else n;
    if mover == n {
      InstanceKey(ic);
      InstanceKey(FetchInstance(st, {}, t).value);
      if Updated(FetchInstance(st, {}, t).value, c) == c {
        BothSettledAgree(ic, FetchInstance(st, {}, t).value, c);
      }
    }
    var u := st.shares[mover];
    var a := Next(st, {}, mover);
    assert a.SaveConfig? && a.key == ConfigMapKey(u);
    StoringKeepsSeated(st, u, s, a.config);
    StoringKeepsSeated(st, u, t, a.config);
    ApplyOnShares(st, u, a);
    ProcessKeepsKeyed(st, {}, mover);
    PassKeepsConfigs(st, {}, mover);
  }

  /** Two seated shares at odds undo each other for ever: for every number there is a run of that many passes without
      failing calls, all of them requeued. */
  lemma Duel(st: State, m: string, n: string, count: nat) returns (es: seq<Event>)
    requires Keyed(st) && ConfigsServe(st) && m in st.shares && n in st.shares
    requires Seated(st, st.shares[m]) && Seated(st, st.shares[n]) && AtOdds(st.shares[m], st.shares[n])
    ensures |es| == count && TurnsOf(es, [m, n]) && Requeues(st, es) == count
    decreases count
  {
    hide Process, Next, Keyed, ConfigsServe, Seated, AtOdds;
    if count == 0 {
      es := [];
    } else {
      var mover := OddsMove(st, m, n);
      var rest := Duel(Process(st, {}, mover), m, n, count - 1);
      es := [Pass(mover, {})] + rest;
      assert es[1..] == rest;
    }
  }

  ghost predicate SettleWithin(st: State, names: seq<string>, bound: nat) {
    forall es :: TurnsOf(es, names) ==> Requeues(st, es) <= bound
  }

  lemma OddsNeverSettle(st: State, names: seq<string>, m: string, n: string, bound: nat)
    requires AllSeated(st, names) && m in names && n in names && AtOdds(st.shares[m], st.shares[n])
    ensures !SettleWithin(st, names, bound)
  {
    hide Seated, Keyed, ConfigsServe, AtOdds, Requeues;
    var es := Duel(st, m, n, bound + 1);
    assert TurnsOf(es, names);
  }

  lemma AllSeatedLive(st: State, names: seq<string>)
    requires AllSeated(st, names)
    ensures forall n :: n in names ==> n in st.shares && !st.shares[n].deleting
  {
  }

  /** Seated shares settle, however their passes are interleaved, if and only if none contradicts itself and no two of
      one group insist on different options under one name. */
  lemma SettleIffConcord(st: State, names: seq<string>)
    requires AllSeated(st, names)
    ensures (exists bound: nat :: SettleWithin(st, names, bound)) <==> Concord(st, names)
  {
    hide Seated, Keyed, ConfigsServe, InConcord, Contradicts, Requeues;
    AllSeatedLive(st, names);
    if Concord(st, names) {
      forall es | TurnsOf(es, names) ensures Requeues(st, es) <= GroupDebt(st, names) {
        GroupConverges(st, names, es);
      }
      assert SettleWithin(st, names, GroupDebt(st, names));
    }
    if bound: nat :| SettleWithin(st, names, bound) {
      forall m, n | m in names && n in names
        ensures !Contradicts(st.shares[m].spec) && InConcord(st.shares[m], st.shares[n])
      {
        if AtOdds(st.shares[m], st.shares[n]) {
          OddsNeverSettle(st, names, m, n, bound);
        }
      }
    }
  }

  // ----- two shares with one name -----

  /** A second share of the first one's group and name that is to be read only. */
  const READER := TWIN.(spec := TWIN.spec.(readOnly := true))

  lemma SeatedBoth(operator: OperatorConfig)
    ensures var st := Duo(operator, Placed(OLD), Placed(READER), MET);
            Seated(st, st.shares["x"]) && Seated(st, st.shares["y"])
  {
    hide ShareRefs, Excluding;
    OthersOfBoth();
    assert IsShareRef(BOTH[0]) && IsShareRef(BOTH[1]);
    assert NamesOwner(BOTH, "x") && NamesOwner(BOTH, "y");
  }

  lemma OldAndReaderAtOdds()
    ensures AtOdds(Placed(OLD), Placed(READER))
  {
  }

  /** From the empty store two such shares get there, and from then on they never let each other settle. */
  lemma TwinsNeverSettle(operator: OperatorConfig, count: nat) returns (es: seq<Event>)
    ensures |es| == count && TurnsOf(es, ["x", "y"])
    ensures Requeues(Run(EmptyStore(operator), Meeting(READER)), es) == count
  {
    hide Process, Next, Seated, AtOdds, After, Placed;
    Meet(operator, READER);
    ReachableIsFine(operator, Meeting(READER));
    WellOwnedIsKeyed(Run(EmptyStore(operator), Meeting(READER)));
    SeatedBoth(operator);
    OldAndReaderAtOdds();
    es := Duel(Run(EmptyStore(operator), Meeting(READER)), "x", "y", count);
  }
}
