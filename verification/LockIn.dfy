/** A share's server group and backend are recorded once and bind everything it creates. */
module LockIn {
  import opened SmbApi
  import opened Cluster
  import opened Reconcile
  import opened Justification
  import opened Runs
  import opened Survival

  predicate SameRecord(s: Share, s': Share) {
    && s'.uid == s.uid
    && (s.serverGroup != "" ==> s'.serverGroup == s.serverGroup)
    && (Backend(s) != "" ==> Backend(s') == Backend(s))
  }

  /** What is recorded about a share never changes while it exists, however its spec is edited. */
  lemma EventKeepsRecord(st: State, e: Event, name: string)
    requires Keyed(st) && name in st.shares && name in After(st, e).shares
    ensures SameRecord(st.shares[name], After(st, e).shares[name])
  {
    hide Process;
    if e.Pass? {
      if e.name in st.shares {
        PassOnShares(st, e.faults, e.name);
      } else {
        IdlePass(st, e.faults, e.name);
      }
    }
  }

  lemma {:induction false} RunKeepsRecord(st: State, es: seq<Event>, name: string)
    requires Keyed(st) && Lives(st, es, name)
    ensures name in Run(st, es).shares && SameRecord(st.shares[name], Run(st, es).shares[name])
    decreases |es|
  {
    hide After, Keyed;
    if es == [] {
    } else {
      EventKeepsKeyed(st, es[0]);
      EventKeepsRecord(st, es[0], name);
      RunKeepsRecord(After(st, es[0]), es[1..], name);
    }
  }

  /** The event is a pass of the named share that creates an object of this kind. */
  predicate Creates(st: State, e: Event, name: string, kind: Kind) {
    && e.Pass? && e.name == name
    && Next(st, e.faults, name).Create?
    && Next(st, e.faults, name).key.kind == kind
  }

  /** A Deployment is created only under the standard backend, a StatefulSet only under the clustered. */
  lemma CreationNeedsBackend(st: State, e: Event, name: string)
    requires name in st.shares
    ensures Creates(st, e, name, Deployment) ==> Backend(st.shares[name]) == STANDARD_BACKEND
    ensures Creates(st, e, name, StatefulSet) ==> Backend(st.shares[name]) == CLUSTERED_BACKEND
  {
    hide NextFor, ConfigEdit, ShareEdit;
    if e.Pass? && e.name == name {
      NextJustified(st, e.faults, st.shares[name]);
    }
  }

  lemma {:induction false} LivesPrefix(st: State, es: seq<Event>, i: nat, name: string)
    requires Lives(st, es, name) && i <= |es|
    ensures Lives(st, es[..i], name)
    decreases |es|
  {
    hide After;
    if i == 0 {
    } else {
      assert es[..i][0] == es[0] && es[..i][1..] == es[1..][..i - 1];
      LivesPrefix(After(st, es[0]), es[1..], i - 1, name);
    }
  }

  lemma {:induction false} LivesSuffix(st: State, es: seq<Event>, i: nat, name: string)
    requires Lives(st, es, name) && i <= |es|
    ensures Lives(Run(st, es[..i]), es[i..], name)
    decreases |es|
  {
    hide After;
    if i == 0 {
      assert es[..0] == [] && es[0..] == es;
    } else {
      assert es[..i][0] == es[0] && es[..i][1..] == es[1..][..i - 1] && es[i..] == es[1..][i - 1..];
      LivesSuffix(After(st, es[0]), es[1..], i - 1, name);
    }
  }

  /** Between any two points of its life a share keeps its record. */
  lemma LivesSplit(st: State, prefix: seq<Event>, lo: nat, es: seq<Event>, name: string)
    requires Keyed(st) && Lives(st, es, name) && lo <= |prefix| <= |es| && prefix == es[..|prefix|]
    ensures var a, b := Run(st, es[..lo]), Run(st, prefix);
            && name in a.shares && name in b.shares
            && SameRecord(a.shares[name], b.shares[name])
  {
    hide After, Keyed;
    LivesPrefix(st, es, |prefix|, name);
    LivesSuffix(st, prefix, lo, name);
    assert prefix[..lo] == es[..lo];
    RunSplit(st, prefix, lo);
    RunKeepsKeyed(st, es[..lo]);
    RunKeepsRecord(Run(st, es[..lo]), prefix[lo..], name);
  }

  /** However a share's availability mode is edited, it never causes the creation of both a Deployment
      and a StatefulSet in its lifetime, in either order. */
  lemma NeverBothWorkloads(st: State, es: seq<Event>, name: string, i: nat, j: nat)
    requires Keyed(st) && Lives(st, es, name) && i < |es| && j < |es|
    requires Creates(Run(st, es[..i]), es[i], name, Deployment)
    ensures !Creates(Run(st, es[..j]), es[j], name, StatefulSet)
  {
    hide After, Creates, Keyed;
    var lo, hi := if i <= j then i else j, if i <= j then j else i;
    LivesSplit(st, es[..hi], lo, es, name);
    var a, b := Run(st, es[..i]), Run(st, es[..j]);
    CreationNeedsBackend(a, es[i], name);
    CreationNeedsBackend(b, es[j], name);
  }
}
