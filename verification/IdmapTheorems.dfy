/** What the ID-mapping options mean: disjoint blocks of ids that can be read back. */
module IdmapTheorems {
  import opened Basics
  import opened SmbApi
  import opened Idmap

  // ----- reading option names back -----

  function Suffix(f: Field): string {
    " : " + FieldName(f)
  }

  predicate IsKeyOf(k: string, f: Field) {
    && |k| >= 13 + |Suffix(f)|
    && k[..13] == "idmap config "
    && k[|k| - |Suffix(f)|..] == Suffix(f)
  }

  /** Read a domain and a field back from an option name. */
  function DecodeKey(k: string): Option<(string, Field)> {
    if IsKeyOf(k, Backend) then Some((k[13..|k| - |Suffix(Backend)|], Backend))
    else if IsKeyOf(k, Range) then Some((k[13..|k| - |Suffix(Range)|], Range))
    else if IsKeyOf(k, SchemaMode) then Some((k[13..|k| - |Suffix(SchemaMode)|], SchemaMode))
    else None
  }

  lemma SuffixEnds()
    ensures |Suffix(Backend)| == 10 && |Suffix(Range)| == 8 && |Suffix(SchemaMode)| == 14
    ensures Suffix(Backend)[9] == 'd' && Suffix(Range)[7] == 'e' && Suffix(SchemaMode)[13] == 'e'
    ensures Suffix(Range)[6] == 'g' && Suffix(SchemaMode)[12] == 'd'
  {
  }

  lemma KeyParts(domain: string, f: Field)
    ensures var k := OptionKey(domain, f);
            && |k| == 13 + |domain| + |Suffix(f)|
            && k[..13] == "idmap config "
            && k[13..|k| - |Suffix(f)|] == domain
            && k[|k| - |Suffix(f)|..] == Suffix(f)
  {
  }

  lemma OnlyOneField(k: string, f: Field, g: Field)
    requires IsKeyOf(k, f) && IsKeyOf(k, g)
    ensures f == g
  {
    SuffixEnds();
    assert k[|k| - 1] == Suffix(f)[|Suffix(f)| - 1] == Suffix(g)[|Suffix(g)| - 1];
    assert k[|k| - 2] == Suffix(f)[|Suffix(f)| - 2] == Suffix(g)[|Suffix(g)| - 2];
  }

  /** Option names decode to the domain and field they were made from. */
  lemma KeyRoundTrip(domain: string, f: Field)
    ensures DecodeKey(OptionKey(domain, f)) == Some((domain, f))
  {
    var k := OptionKey(domain, f);
    KeyParts(domain, f);
    assert IsKeyOf(k, f);
    if IsKeyOf(k, Backend) {
      OnlyOneField(k, f, Backend);
    } else if IsKeyOf(k, Range) {
      OnlyOneField(k, f, Range);
    }
  }

  /** Distinct (domain, field) pairs never share an option name. */
  lemma KeysInjective(d: string, f: Field, e: string, g: Field)
    requires OptionKey(d, f) == OptionKey(e, g)
    ensures d == e && f == g
  {
    KeyRoundTrip(d, f);
    KeyRoundTrip(e, g);
  }

  /** No domain can take over the options that select the security mode. */
  lemma KeysAvoidRealmOptions(d: string, f: Field)
    ensures OptionKey(d, f) !in {"security", "workgroup", "realm"}
  {
  }

  // ----- reading ranges back -----

  function FirstDash(s: string): (i: nat)
    ensures i <= |s|
  {
    if s == "" || s[0] == '-' then 0 else 1 + FirstDash(s[1..])
  }

  /** Read "lo-hi". */
  function ParseRange(s: string): Option<(nat, nat)> {
    var i := FirstDash(s);
    if i < |s| && AllDigits(s[..i]) && AllDigits(s[i + 1..])
    then Some((Atoi(s[..i]), Atoi(s[i + 1..])))
    else None
  }

  lemma {:induction false} DashAfterDigits(a: string, b: string)
    requires AllDigits(a)
    ensures FirstDash(a + "-" + b) == |a|
  {
    if a == "" {
    } else {
      assert (a + "-" + b)[1..] == a[1..] + "-" + b;
      assert IsDigit(a[0]);
      DashAfterDigits(a[1..], b);
    }
  }

  lemma RangeRoundTrip(lo: nat, hi: nat)
    ensures ParseRange(RangeText(lo, hi)) == Some((lo, hi))
  {
    var s, a, b := RangeText(lo, hi), Itoa(lo), Itoa(hi);
    DashAfterDigits(a, b);
    assert s[..|a|] == a && s[|a| + 1..] == b;
    AtoiOfItoa(lo);
    AtoiOfItoa(hi);
  }

  // ----- what each domain gets -----

  /** The index of the last of the first n domains with this name, or -1. */
  function LastIndex(domains: seq<Domain>, n: nat, name: string): (i: int)
    requires n <= |domains|
    ensures -1 <= i < n
    ensures i >= 0 ==> domains[i].name == name
    ensures forall j :: i < j < n ==> domains[j].name != name
  {
    if n == 0 then -1
    else if domains[n - 1].name == name then n - 1
    else LastIndex(domains, n - 1, name)
  }

  /** Some of the first n domains has this name and needs the RFC 2307 schema. */
  predicate UsesSchema(domains: seq<Domain>, n: nat, name: string)
    requires n <= |domains|
  {
    exists j :: 0 <= j < n && domains[j].name == name && domains[j].backend != "autorid"
  }

  /** What the first n domains say about one option of one name. */
  function Expected(domains: seq<Domain>, n: nat, name: string, f: Field): Option<string>
    requires n <= |domains|
  {
    var i := LastIndex(domains, n, name);
    if i < 0 then None
    else match f
      case Range => Some(RangeText(BlockStart(i), BlockStart(i) + STEP - 1))
      case Backend => Some(if domains[i].backend == "autorid" then "autorid" else "ad")
      case SchemaMode => if UsesSchema(domains, n, name) then Some("rfc2307") else None
  }

  function Lookup(o: map<string, string>, k: string): Option<string> {
    if k in o then Some(o[k]) else None
  }

  lemma OtherDomain(o: map<string, string>, d: Domain, i: nat, name: string, f: Field)
    requires d.name != name
    ensures Lookup(WithDomain(o, d, i), OptionKey(name, f)) == Lookup(o, OptionKey(name, f))
  {
    forall g ensures OptionKey(d.name, g) != OptionKey(name, f) {
      if OptionKey(d.name, g) == OptionKey(name, f) {
        KeysInjective(d.name, g, name, f);
      }
    }
  }

  lemma OwnDomain(o: map<string, string>, d: Domain, i: nat, f: Field)
    ensures Lookup(WithDomain(o, d, i), OptionKey(d.name, f)) ==
            match f
            case Range => Some(RangeText(BlockStart(i), BlockStart(i) + STEP - 1))
            case Backend => Some(if d.backend == "autorid" then "autorid" else "ad")
            case SchemaMode => if d.backend != "autorid" then Some("rfc2307")
                               else Lookup(o, OptionKey(d.name, f))
  {
  }

  /** The last entry of a name decides its backend and block; any entry can turn the schema on. */
  lemma {:induction false} OptionOf(domains: seq<Domain>, n: nat, name: string, f: Field)
    requires n <= |domains|
    ensures Lookup(OptionsUpTo(domains, n), OptionKey(name, f)) == Expected(domains, n, name, f)
  {
    hide OptionKey, RangeText, WithDomain;
    if n == 0 {
    } else {
      OptionOf(domains, n - 1, name, f);
      if domains[n - 1].name == name {
        OwnDomain(OptionsUpTo(domains, n - 1), domains[n - 1], n - 1, f);
      } else {
        OtherDomain(OptionsUpTo(domains, n - 1), domains[n - 1], n - 1, name, f);
      }
    }
  }

  lemma FieldAtEnd(name: string, text: string)
    ensures "idmap config " + name + " : " + text == "idmap config " + name + (" : " + text)
  {
  }

  /** The option names as smb.conf has them. */
  lemma LiteralKeys(name: string)
    ensures OptionKey(name, Backend) == "idmap config " + name + " : backend"
    ensures OptionKey(name, SchemaMode) == "idmap config " + name + " : schema_mode"
    ensures OptionKey(name, Range) == "idmap config " + name + " : range"
  {
    FieldAtEnd(name, "backend");
    FieldAtEnd(name, "schema_mode");
    FieldAtEnd(name, "range");
    assert " : " + "backend" == " : backend";
    assert " : " + "schema_mode" == " : schema_mode";
    assert " : " + "range" == " : range";
  }

  predicate Names(domains: seq<Domain>, name: string) {
    exists j :: 0 <= j < |domains| && domains[j].name == name
  }

  /** The ids an options map assigns to a domain, read from its text. */
  function RangeOf(o: map<string, string>, name: string): Option<(nat, nat)> {
    var text := Lookup(o, "idmap config " + name + " : range");
    if text.Some? then ParseRange(text.value) else None
  }

  lemma RangeOfText(o: map<string, string>, name: string, i: nat)
    requires Lookup(o, OptionKey(name, Range)) ==
             Some(RangeText(BlockStart(i), BlockStart(i) + STEP - 1))
    ensures RangeOf(o, name) == Some((BlockStart(i), BlockStart(i) + STEP - 1))
  {
    hide Itoa, Atoi, ParseRange, RangeText, OptionKey, BlockStart;
    LiteralKeys(name);
    RangeRoundTrip(BlockStart(i), BlockStart(i) + STEP - 1);
  }

  lemma RangeOfName(domains: seq<Domain>, name: string)
    ensures var i := LastIndex(domains, |domains|, name);
            RangeOf(OptionsUpTo(domains, |domains|), name) ==
            if Names(domains, name) then Some((BlockStart(i), BlockStart(i) + STEP - 1)) else None
  {
    hide OptionsUpTo, OptionKey, RangeText;
    LiteralKeys(name);
    OptionOf(domains, |domains|, name, Range);
    var i := LastIndex(domains, |domains|, name);
    if i >= 0 {
      RangeOfText(OptionsUpTo(domains, |domains|), name, i);
    }
  }

  /** For any domain list, duplicates included: "*" has a block, every block has 10000 ids, and the
      blocks of distinct names are disjoint. */
  lemma BlocksAreDisjoint(security: SecurityConfig, a: string, b: string)
    requires security.domains != []
    ensures var o := OptionsFor(Some(security));
            && RangeOf(o, "*").Some?
            && (RangeOf(o, a).Some? <==> Names(AllDomains(security.domains), a))
            && (RangeOf(o, a).Some? ==> RangeOf(o, a).value.1 - RangeOf(o, a).value.0 + 1 == 10000)
            && (a != b && RangeOf(o, a).Some? && RangeOf(o, b).Some? ==>
                || RangeOf(o, a).value.1 < RangeOf(o, b).value.0
                || RangeOf(o, b).value.1 < RangeOf(o, a).value.0)
  {
    hide OptionsUpTo, OptionKey, RangeOf;
    var domains := AllDomains(security.domains);
    if !HasDefault(security.domains) {
      assert domains[|domains| - 1].name == "*";
    }
    assert Names(domains, "*");
    RangeOfName(domains, a);
    RangeOfName(domains, b);
    RangeOfName(domains, "*");
  }

  /** The blocks of a list with distinct names, before they are put in an options map. */
  lemma Tiles(domains: seq<Domain>, i: nat)
    requires i < |domains|
    requires forall j, k :: 0 <= j < k < |domains| ==> domains[j].name != domains[k].name
    ensures var o, d := OptionsUpTo(domains, |domains|), domains[i];
            && RangeOf(o, d.name) == Some((BlockStart(i), BlockStart(i) + STEP - 1))
            && Lookup(o, OptionKey(d.name, Backend)) ==
               Some(if d.backend == "autorid" then "autorid" else "ad")
            && Lookup(o, OptionKey(d.name, SchemaMode)) == (if d.backend == "autorid" then None else Some("rfc2307"))
  {
    hide OptionsUpTo, OptionKey, RangeOf;
    var d := domains[i];
    RangeOfName(domains, d.name);
    OptionOf(domains, |domains|, d.name, SchemaMode);
    OptionOf(domains, |domains|, d.name, Backend);
    assert LastIndex(domains, |domains|, d.name) == i;
  }

  /** With distinct names the blocks follow the list, from id 2000 on and without gaps, and the
      backend of every domain can be read back. */
  lemma BlocksTile(security: SecurityConfig, i: nat)
    requires security.domains != []
    requires i < |AllDomains(security.domains)|
    requires forall j, k :: 0 <= j < k < |AllDomains(security.domains)| ==>
               AllDomains(security.domains)[j].name != AllDomains(security.domains)[k].name
    ensures var o, domains := OptionsFor(Some(security)), AllDomains(security.domains);
            && RangeOf(o, domains[i].name).Some?
            && (i == 0 ==> RangeOf(o, domains[i].name).value.0 == 2000)
            && (i > 0 ==>
                  var before := RangeOf(o, domains[i - 1].name);
                  before.Some? && RangeOf(o, domains[i].name).value.0 == before.value.1 + 1)
            && Lookup(o, OptionKey(domains[i].name, Backend)) ==
               Some(if domains[i].backend == "autorid" then "autorid" else "ad")
            && (Lookup(o, OptionKey(domains[i].name, SchemaMode)).Some? <==>
                domains[i].backend != "autorid")
  {
    hide OptionsUpTo, OptionKey, RangeOf, Lookup, AllDomains;
    Tiles(AllDomains(security.domains), i);
    if i > 0 {
      Tiles(AllDomains(security.domains), i - 1);
    }
  }

  // ----- a configuration without domains -----

  lemma DefaultText()
    ensures RangeText(2000, 9999999) == "2000-9999999"
  {
    assert Itoa(2000) == "2000";
    assert Itoa(9999999) == "9999999";
  }

  lemma StarKeys()
    ensures OptionKey("*", Backend) == "idmap config * : backend" && OptionKey("*", Range) == "idmap config * : range"
  {
    assert "idmap config " + "*" + " : " == "idmap config * : ";
  }

  lemma OnlyStar(security: Option<SecurityConfig>, name: string)
    requires security.None? || security.value.domains == []
    ensures var o := OptionsFor(security);
            && Lookup(o, OptionKey("*", Range)) == Some("2000-9999999")
            && Lookup(o, OptionKey("*", Backend)) == Some("autorid")
            && forall f :: OptionKey(name, f) in o ==> name == "*" && f != SchemaMode
  {
    hide OptionKey;
    if OptionKey("*", Backend) == OptionKey("*", Range) {
      KeysInjective("*", Backend, "*", Range);
    }
    forall f, g ensures OptionKey(name, f) == OptionKey("*", g) ==> name == "*" && f == g {
      if OptionKey(name, f) == OptionKey("*", g) {
        KeysInjective(name, f, "*", g);
      }
    }
  }

  lemma RangeOfKey(o: map<string, string>, name: string)
    ensures var text := Lookup(o, OptionKey(name, Range));
            RangeOf(o, name) == if text.Some? then ParseRange(text.value) else None
  {
    hide ParseRange, OptionKey;
    LiteralKeys(name);
  }

  /** Without domains there is one range, from 2000 to 9999999, for the domain "*", and nothing else. */
  lemma NoDomains(security: Option<SecurityConfig>, name: string)
    requires security.None? || security.value.domains == []
    ensures var o := OptionsFor(security);
            && RangeOf(o, "*") == Some((2000, 9999999))
            && Lookup(o, "idmap config * : backend") == Some("autorid")
            && "idmap config " + name + " : schema_mode" !in o
            && (name != "*" ==>
                  "idmap config " + name + " : backend" !in o && "idmap config " + name + " : range" !in o)
  {
    hide OptionKey, OptionsFor, RangeOf, ParseRange, RangeText;
    OnlyStar(security, name);
    RangeOfKey(OptionsFor(security), "*");
    DefaultText();
    RangeRoundTrip(2000, 9999999);
    StarKeys();
    LiteralKeys(name);
  }

  /** Whatever is configured, no name gets an id below 2000, where the ids of the system are. */
  lemma NoSystemIds(security: Option<SecurityConfig>, name: string)
    ensures var r := RangeOf(OptionsFor(security), name);
            r.Some? ==> 2000 <= r.value.0 < r.value.1
  {
    hide OptionsUpTo, OptionKey, RangeOf;
    if security.None? || security.value.domains == [] {
      NoDomains(security, name);
      RangeOfKey(OptionsFor(security), name);
      OnlyStar(security, name);
    } else {
      RangeOfName(AllDomains(security.value.domains), name);
    }
  }

  // ----- the domains as they are given -----

  predicate GivenOnce(domains: seq<Domain>) {
    forall i, j :: 0 <= i < j < |domains| ==> domains[i].name != domains[j].name
  }

  lemma LookedUp(o: map<string, string>, name: string)
    ensures Lookup(o, "idmap config " + name + " : backend") == Lookup(o, OptionKey(name, Backend))
    ensures Lookup(o, "idmap config " + name + " : schema_mode") == Lookup(o, OptionKey(name, SchemaMode))
  {
    hide OptionKey;
    LiteralKeys(name);
  }

  lemma BlockStartIs(i: nat)
    ensures BlockStart(i) == 2000 + 10000 * i
  {
  }

  lemma BlockOf(domains: seq<Domain>, i: nat)
    requires i < |domains| && GivenOnce(domains)
    ensures RangeOf(OptionsUpTo(domains, |domains|), domains[i].name) ==
            Some((2000 + 10000 * i, 2000 + 10000 * i + 9999))
  {
    hide OptionsUpTo, OptionKey, RangeOf, Lookup, BlockStart;
    Tiles(domains, i);
    BlockStartIs(i);
  }

  lemma TileOf(domains: seq<Domain>, i: nat)
    requires i < |domains| && GivenOnce(domains)
    ensures var o, d := OptionsUpTo(domains, |domains|), domains[i];
            && RangeOf(o, d.name) == Some((2000 + 10000 * i, 2000 + 10000 * i + 9999))
            && Lookup(o, "idmap config " + d.name + " : backend") ==
               Some(if d.backend == "autorid" then "autorid" else "ad")
            && Lookup(o, "idmap config " + d.name + " : schema_mode") ==
               if d.backend == "autorid" then None else Some("rfc2307")
  {
    hide OptionsUpTo, OptionKey, RangeOf, Lookup, BlockStart;
    BlockOf(domains, i);
    Tiles(domains, i);
    LookedUp(OptionsUpTo(domains, |domains|), domains[i].name);
  }

  lemma StarNames()
    ensures "idmap config " + "*" + " : backend" == "idmap config * : backend"
    ensures "idmap config " + "*" + " : schema_mode" == "idmap config * : schema_mode"
  {
  }

  /** Domains that are given once each get the i-th block of 10000 ids from 2000 on, in the order in which they are
      given, and the backend and schema they ask for. If "*" is not among them, it gets the block after the last, with
      the backend "autorid". */
  lemma BlocksInOrder(security: SecurityConfig, i: nat)
    requires security.domains != [] && GivenOnce(security.domains) && i < |security.domains|
    ensures var o, d := OptionsFor(Some(security)), security.domains[i];
            && RangeOf(o, d.name) == Some((2000 + 10000 * i, 2000 + 10000 * i + 9999))
            && Lookup(o, "idmap config " + d.name + " : backend") ==
               Some(if d.backend == "autorid" then "autorid" else "ad")
            && Lookup(o, "idmap config " + d.name + " : schema_mode") ==
               if d.backend == "autorid" then None else Some("rfc2307")
    ensures (forall j :: 0 <= j < |security.domains| ==> security.domains[j].name != "*") ==>
              var o, n := OptionsFor(Some(security)), |security.domains|;
              && RangeOf(o, "*") == Some((2000 + 10000 * n, 2000 + 10000 * n + 9999))
              && Lookup(o, "idmap config * : backend") == Some("autorid")
              && Lookup(o, "idmap config * : schema_mode") == None
  {
    hide OptionsUpTo, OptionKey, RangeOf, Lookup;
    var given, domains := security.domains, AllDomains(security.domains);
    TileOf(domains, i);
    if forall j :: 0 <= j < |given| ==> given[j].name != "*" {
      TileOf(domains, |given|);
      StarNames();
    }
  }
}
