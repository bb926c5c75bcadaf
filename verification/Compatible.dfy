/** The check that decides whether two shares may be hosted by one server. */
module Compatible {
  import opened Basics
  import opened SmbApi

  /** A share with the configurations it refers to; the share itself may be missing. */
  datatype Candidate = Candidate(
    share: Option<Share>, security: Option<SecurityConfig>, common: Option<CommonConfig>)

  datatype Verdict = Compatible | Incompatible(current: string, existing: string, reason: string) | Panics

  function NameOf(c: Candidate): string {
    if c.share.Some? then c.share.value.name else "<invalid>"
  }

  function SecurityUid(c: Candidate): string {
    if c.security.Some? then c.security.value.uid else ""
  }

  function CommonUid(c: Candidate): string {
    if c.common.Some? then c.common.value.uid else ""
  }

  function CandidateOf(ic: Instance): Candidate {
    Candidate(Some(ic.share), ic.security, ic.common)
  }

  function CheckCompatible(current: Candidate, existing: Candidate): Verdict {
    var no := (reason: string) => Incompatible(NameOf(current), NameOf(existing), reason);
    if current.share.None? || existing.share.None? then
      no("instance configuration missing SmbShare")
    else
      var a, b := current.share.value, existing.share.value;
      if a.namespace != b.namespace then no("namespaces differ")
      else if a.spec.pvc.None? || b.spec.pvc.None? then Panics
      else if a.spec.pvc.value.name != b.spec.pvc.value.name then
        no("PersistentVolumeClaim name mismatch")
      else if a.spec.securityConfig != b.spec.securityConfig then no("security config name mismatch")
      else if a.spec.commonConfig != b.spec.commonConfig then no("common config name mismatch")
      else if SecurityUid(current) != SecurityUid(existing) then
        no("security configuration resources differ")
      else if CommonUid(current) != CommonUid(existing) then
        no("common configuration resources differ")
      else Compatible
  }

  /** Everything a server is shared on. */
  datatype Profile = Profile(
    namespace: string, pvc: string, security: string, common: string,
    securityUid: string, commonUid: string)

  predicate HasPvc(c: Candidate) {
    c.share.Some? && c.share.value.spec.pvc.Some?
  }

  function ProfileOf(c: Candidate): Profile
    requires HasPvc(c)
  {
    var s := c.share.value;
    Profile(s.namespace, s.spec.pvc.value.name, s.spec.securityConfig, s.spec.commonConfig,
            if c.security.Some? then c.security.value.uid else "",
            if c.common.Some? then c.common.value.uid else "")
  }

  /** Two candidates pass the check if and only if their profiles are equal, so passing it is an
      equivalence: reflexive, symmetric and transitive. It panics exactly on a missing PVC. */
  lemma CompatibleIffSameProfile(a: Candidate, b: Candidate)
    ensures CheckCompatible(a, b).Compatible? <==>
            HasPvc(a) && HasPvc(b) && ProfileOf(a) == ProfileOf(b)
    ensures CheckCompatible(a, b).Panics? <==>
            && a.share.Some? && b.share.Some?
            && a.share.value.namespace == b.share.value.namespace
            && !(HasPvc(a) && HasPvc(b))
  {
  }

  lemma CompatibleIsEquivalence(a: Candidate, b: Candidate, c: Candidate)
    ensures HasPvc(a) ==> CheckCompatible(a, a).Compatible?
    ensures CheckCompatible(a, b).Compatible? ==> CheckCompatible(b, a).Compatible?
    ensures CheckCompatible(a, b).Compatible? && CheckCompatible(b, c).Compatible? ==>
            CheckCompatible(a, c).Compatible?
  {
  }
}
