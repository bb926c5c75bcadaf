/** Owner references of managed objects and the functions that search, filter and rewrite them. */
module Ownership {
  import opened Basics

  const SMB_GROUP := "samba-operator.samba.org"
  const SMB_VERSION := "v1alpha1"
  const SHARE_KIND := "SmbShare"

  /** An apiVersion string; parsing one with more than one slash is an error. */
  datatype ApiVersion = Malformed | GroupVersion(group: string, version: string)

  datatype OwnerRef = OwnerRef(
    api: ApiVersion, kind: string, name: string, uid: string, controller: bool, blocking: bool)

  predicate IsShareRef(r: OwnerRef) {
    r.api.GroupVersion? && r.api.group == SMB_GROUP && r.kind == SHARE_KIND
  }

  function ShareRef(name: string, uid: string, controller: bool): OwnerRef {
    OwnerRef(GroupVersion(SMB_GROUP, SMB_VERSION), SHARE_KIND, name, uid, controller, controller)
  }

  // ----- specifications -----

  predicate WellFormedRefs(refs: seq<OwnerRef>) {
    forall i :: 0 <= i < |refs| ==> refs[i].api.GroupVersion?
  }

  /** The references to shares, in order. */
  function ShareRefs(refs: seq<OwnerRef>): (r: seq<OwnerRef>)
    ensures forall x :: x in r <==> x in refs && IsShareRef(x)
  {
    if refs == [] then []
    else
      assert refs == [refs[0]] + refs[1..];
      (if IsShareRef(refs[0]) then [refs[0]] else []) + ShareRefs(refs[1..])
  }

  /** The references other than the named owner's, in order. */
  function Excluding(refs: seq<OwnerRef>, name: string, uid: string): (r: seq<OwnerRef>)
    ensures forall x :: x in r <==> x in refs && !(x.name == name && x.uid == uid)
  {
    if refs == [] then []
    else
      assert refs == [refs[0]] + refs[1..];
      (if refs[0].name != name || refs[0].uid != uid then [refs[0]] else [])
        + Excluding(refs[1..], name, uid)
  }

  function WithController(refs: seq<OwnerRef>, name: string, uid: string): (r: seq<OwnerRef>)
    ensures |r| == |refs|
    ensures forall i :: 0 <= i < |refs| ==>
              var mine := refs[i].name == name && refs[i].uid == uid;
              r[i] == refs[i].(controller := mine, blocking := mine)
  {
    seq(|refs|, i requires 0 <= i < |refs| =>
      var mine := refs[i].name == name && refs[i].uid == uid;
      refs[i].(controller := mine, blocking := mine))
  }

  datatype ClaimScan = Owned | Unowned | ClaimError

  /** What a claim finds: the first share reference with the name, or a malformed one before it. */
  function FindClaim(refs: seq<OwnerRef>, name: string): ClaimScan {
    if refs == [] then Unowned
    else if refs[0].api.Malformed? then ClaimError
    else if IsShareRef(refs[0]) && refs[0].name == name then Owned
    else FindClaim(refs[1..], name)
  }

  predicate NamesOwner(refs: seq<OwnerRef>, name: string) {
    exists i :: 0 <= i < |refs| && IsShareRef(refs[i]) && refs[i].name == name
  }

  lemma {:induction false} FindClaimMeans(refs: seq<OwnerRef>, name: string)
    ensures WellFormedRefs(refs) ==> FindClaim(refs, name) == if NamesOwner(refs, name) then Owned else Unowned
    ensures FindClaim(refs, name).Unowned? ==> WellFormedRefs(refs) && !NamesOwner(refs, name)
    ensures FindClaim(refs, name).Owned? ==> NamesOwner(refs, name)
  {
    if refs == [] {
    } else {
      FindClaimMeans(refs[1..], name);
      assert refs == [refs[0]] + refs[1..];
      if NamesOwner(refs[1..], name) {
        var i :| 0 <= i < |refs[1..]| && IsShareRef(refs[1..][i]) && refs[1..][i].name == name;
        assert IsShareRef(refs[i + 1]) && refs[i + 1].name == name;
      }
    }
  }

  lemma {:induction false} ShareRefsAppend(refs: seq<OwnerRef>, r: OwnerRef)
    ensures ShareRefs(refs + [r]) == ShareRefs(refs) + (if IsShareRef(r) then [r] else [])
  {
    if refs == [] {
    } else {
      assert (refs + [r])[1..] == refs[1..] + [r];
      ShareRefsAppend(refs[1..], r);
    }
  }

  lemma {:induction false} ExcludingAppend(refs: seq<OwnerRef>, r: OwnerRef, name: string, uid: string)
    ensures Excluding(refs + [r], name, uid) ==
            Excluding(refs, name, uid) + (if r.name != name || r.uid != uid then [r] else [])
  {
    if refs == [] {
    } else {
      assert (refs + [r])[1..] == refs[1..] + [r];
      ExcludingAppend(refs[1..], r, name, uid);
    }
  }

  // ----- the operations -----

  /** The share references, or an error if any apiVersion does not parse. */
  method SmbShareOwnerRefs(refs: seq<OwnerRef>) returns (r: Option<seq<OwnerRef>>)
    ensures r == if WellFormedRefs(refs) then Some(ShareRefs(refs)) else None
  {
    var found: seq<OwnerRef> := [];
    for i := 0 to |refs|
      invariant WellFormedRefs(refs[..i])
      invariant found == ShareRefs(refs[..i])
    {
      var ref := refs[i];
      if ref.api.Malformed? {
        return None;
      }
      assert refs[..i + 1] == refs[..i] + [ref];
      ShareRefsAppend(refs[..i], ref);
      if ref.api.group == SMB_GROUP && ref.kind == SHARE_KIND {
        found := found + [ref];
      }
    }
    assert refs[..|refs|] == refs;
    return Some(found);
  }

  method ExcludeOwnerRefs(refs: seq<OwnerRef>, name: string, uid: string) returns (out: seq<OwnerRef>)
    ensures out == Excluding(refs, name, uid)
  {
    out := [];
    for i := 0 to |refs|
      invariant out == Excluding(refs[..i], name, uid)
    {
      assert refs[..i + 1] == refs[..i] + [refs[i]];
      ExcludingAppend(refs[..i], refs[i], name, uid);
      if refs[i].name != name || refs[i].uid != uid {
        out := out + [refs[i]];
      }
    }
    assert refs[..|refs|] == refs;
  }

  /** Make one owner the controller and clear the flags of all others, in place. */
  method ChangeControllerOwnerTo(refs: array<OwnerRef>, target: OwnerRef)
    modifies refs
    ensures refs[..] == WithController(old(refs[..]), target.name, target.uid)
  {
    for i := 0 to refs.Length
      invariant forall j :: i <= j < refs.Length ==> refs[j] == old(refs[j])
      invariant refs[..i] == WithController(old(refs[..]), target.name, target.uid)[..i]
    {
      var mine := refs[i].name == target.name && refs[i].uid == target.uid;
      refs[i] := refs[i].(controller := mine, blocking := mine);
    }
  }

  method SearchClaim(refs: seq<OwnerRef>, name: string) returns (r: ClaimScan)
    ensures r == FindClaim(refs, name)
  {
    for i := 0 to |refs|
      invariant FindClaim(refs, name) == FindClaim(refs[i..], name)
    {
      var ref := refs[i];
      assert refs[i..][0] == ref && refs[i..][1..] == refs[i + 1..];
      if ref.api.Malformed? {
        return ClaimError;
      }
      if ref.api.group == SMB_GROUP && ref.kind == SHARE_KIND && ref.name == name {
        return Owned;
      }
    }
    return Unowned;
  }

  // ----- what the rewriting keeps -----

  predicate SameOwner(a: OwnerRef, b: OwnerRef) {
    a.name == b.name && a.uid == b.uid
  }

  /** The same owners in the same order, whatever their flags. */
  predicate SameOwners(a: seq<OwnerRef>, b: seq<OwnerRef>) {
    && |a| == |b|
    && forall i :: 0 <= i < |a| ==>
         a[i].api == b[i].api && a[i].kind == b[i].kind && SameOwner(a[i], b[i])
  }

  ghost predicate DistinctOwners(refs: seq<OwnerRef>) {
    forall i, j :: 0 <= i < j < |refs| ==> !SameOwner(refs[i], refs[j])
  }

  ghost predicate AtMostOneController(refs: seq<OwnerRef>) {
    forall i, j :: 0 <= i < j < |refs| ==> !(refs[i].controller && refs[j].controller)
  }

  predicate HasController(refs: seq<OwnerRef>) {
    exists i :: 0 <= i < |refs| && refs[i].controller
  }

  /** A transfer keeps the owners and their order and leaves exactly the target in control. */
  lemma TransferKeepsOwners(refs: seq<OwnerRef>, target: OwnerRef)
    requires DistinctOwners(refs) && target in refs
    ensures var r := WithController(refs, target.name, target.uid);
            && SameOwners(r, refs)
            && DistinctOwners(r)
            && AtMostOneController(r)
            && forall i :: 0 <= i < |r| ==> (r[i].controller <==> SameOwner(r[i], target))
  {
  }
}
