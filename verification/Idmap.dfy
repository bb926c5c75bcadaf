/** ID-mapping options of an Active Directory server: one block of ids per domain. */
module Idmap {
  import opened Basics
  import opened SmbApi

  const STEP: nat := 10000
  const FIRST_ID: nat := 2000
  const DEFAULT_DOMAIN := Domain("*", "autorid")

  datatype Field = Backend | SchemaMode | Range

  function FieldName(f: Field): string {
    match f
    case Backend => "backend"
    case SchemaMode => "schema_mode"
    case Range => "range"
  }

  function OptionKey(domain: string, f: Field): string {
    "idmap config " + domain + " : " + FieldName(f)
  }

  function RangeText(lo: nat, hi: nat): string {
    Itoa(lo) + "-" + Itoa(hi)
  }

  function BlockStart(i: nat): nat {
    i * STEP + FIRST_ID
  }

  function HasDefault(domains: seq<Domain>): bool {
    exists i :: 0 <= i < |domains| && domains[i].name == "*"
  }

  /** The user's domains, with a default one unless the user gave it. */
  function AllDomains(domains: seq<Domain>): seq<Domain> {
    if HasDefault(domains) then domains else domains + [DEFAULT_DOMAIN]
  }

  function WithDomain(o: map<string, string>, d: Domain, i: nat): map<string, string> {
    var backend :=
      if d.backend == "autorid" then o[OptionKey(d.name, Backend) := "autorid"]
      else o[OptionKey(d.name, Backend) := "ad"][OptionKey(d.name, SchemaMode) := "rfc2307"];
    backend[OptionKey(d.name, Range) := RangeText(BlockStart(i), BlockStart(i) + STEP - 1)]
  }

  /** The options after the first n domains. */
  function OptionsUpTo(domains: seq<Domain>, n: nat): map<string, string>
    requires n <= |domains|
  {
    if n == 0 then map[] else WithDomain(OptionsUpTo(domains, n - 1), domains[n - 1], n - 1)
  }

  function OptionsFor(security: Option<SecurityConfig>): map<string, string> {
    if security.None? || security.value.domains == [] then
      map[OptionKey("*", Backend) := "autorid", OptionKey("*", Range) := "2000-9999999"]
    else
      var domains := AllDomains(security.value.domains);
      OptionsUpTo(domains, |domains|)
  }

  /** Collect the domains and look for a user-given default on the way. */
  method CollectDomains(given: seq<Domain>) returns (domains: seq<Domain>)
    ensures domains == AllDomains(given)
  {
    domains := [];
    var userDefault := false;
    for i := 0 to |given|
      invariant domains == given[..i]
      invariant userDefault <==> exists j :: 0 <= j < i && given[j].name == "*"
    {
      domains := domains + [given[i]];
      if given[i].name == "*" {
        userDefault := true;
      }
    }
    if !userDefault {
      domains := domains + [Domain("*", "autorid")];
    }
  }

  method SetDomain(before: map<string, string>, d: Domain, i: nat) returns (o: map<string, string>)
    ensures o == WithDomain(before, d, i)
  {
    o := before;
    if d.backend == "autorid" {
      o := o[OptionKey(d.name, Backend) := "autorid"];
    } else {
      o := o[OptionKey(d.name, Backend) := "ad"];
      o := o[OptionKey(d.name, SchemaMode) := "rfc2307"];
    }
    var start := i * STEP + FIRST_ID;
    o := o[OptionKey(d.name, Range) := RangeText(start, start + STEP - 1)];
  }

  method BuildOptions(security: Option<SecurityConfig>) returns (o: map<string, string>)
    ensures o == OptionsFor(security)
  {
    if security.None? || |security.value.domains| == 0 {
      return map[OptionKey("*", Backend) := "autorid", OptionKey("*", Range) := "2000-9999999"];
    }
    var domains := CollectDomains(security.value.domains);
    o := map[];
    for i := 0 to |domains|
      invariant o == OptionsUpTo(domains, i)
    {
      o := SetDomain(o, domains[i], i);
    }
  }
}
