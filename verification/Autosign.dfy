/** The autosign binary's decision, cmd/autosign/policy.go. Every method is proved
    against a quantified statement of what the policies grant. */
module Autosign {
  import opened Text
  import opened PuppetOids
  import Wildcard

  datatype Extension = Extension(id: Oid, value: string)

  datatype Csr = Csr(
    commonName: string,
    extensions: seq<Extension>,
    dnsNames: seq<string>,
    ipAddresses: seq<string>,
    uris: seq<string>,
    emailAddresses: seq<string>)

  datatype AttributeMatch = AttributeMatch(name: string, value: string)

  datatype Policy = Policy(
    name: string,
    any: bool,
    certnames: Option<seq<string>>,
    dnsAltNames: Option<seq<string>>,
    ipAltNames: Option<seq<string>>,
    uriAltNames: Option<seq<string>>,
    emailAltNames: Option<seq<string>>,
    extensions: Option<seq<string>>,
    csrAttributes: seq<AttributeMatch>)

  datatype PolicyConfig = PolicyConfig(reservedCertnames: seq<string>, policies: seq<Policy>)

  /** Library code the decision calls; every result below holds for any choice of it.
      `parseCidr` and `contains` are net.ParseCIDR and IPNet.Contains, `glob` is
      filepath.Match with its error read as no match, `decode` is asn1.Unmarshal
      into a string. */
  datatype Library = Library(
    equalFold: (string, string) -> bool,
    glob: (string, string) -> bool,
    parseCidr: string -> Option<string>,
    contains: (string, string) -> bool,
    decode: string -> Option<string>)

  // ---------- what a configuration grants ----------

  /** The value under the first extension with this identifier. */
  ghost predicate Carries(lib: Library, extensions: seq<Extension>, oid: Oid, value: string) {
    exists i :: 0 <= i < |extensions| && extensions[i].id == oid
      && (lib.decode(extensions[i].value) == Some(value)
          || (lib.decode(extensions[i].value).None? && value == extensions[i].value))
      && forall j :: 0 <= j < i ==> extensions[j].id != oid
  }

  /** Each privileged extension is allow-listed under its own name. */
  ghost predicate ExtensionsAllowed(policy: Policy, csr: Csr) {
    forall e :: e in csr.extensions && IsAuthorizationOid(e.id) ==>
      policy.extensions.Some?
      && exists name :: name in policy.extensions.value && OidByName(name) == Some(e.id)
  }

  ghost predicate SansCovered(lib: Library, policy: Policy, csr: Csr) {
    && (forall n :: n in csr.dnsNames ==>
         policy.dnsAltNames.Some? && exists p :: p in policy.dnsAltNames.value && lib.glob(p, n))
    && (forall ip :: ip in csr.ipAddresses ==>
         policy.ipAltNames.Some? && InSomeCidr(lib, policy.ipAltNames.value, ip))
    && (forall u :: u in csr.uris ==>
         policy.uriAltNames.Some? && exists p :: p in policy.uriAltNames.value && Wildcard.Matches(p, u))
    && (forall m :: m in csr.emailAddresses ==>
         policy.emailAltNames.Some? && exists p :: p in policy.emailAltNames.value && Wildcard.Matches(p, m))
  }

  ghost predicate InSomeCidr(lib: Library, cidrs: seq<string>, ip: string) {
    exists c :: c in cidrs && lib.parseCidr(c).Some? && lib.contains(lib.parseCidr(c).value, ip)
  }

  /** At least one condition is set and all that are set hold. */
  ghost predicate ConditionsHold(lib: Library, policy: Policy, certname: string, csr: Csr) {
    && (policy.certnames.Some? || policy.csrAttributes != [])
    && (policy.certnames.Some? ==> exists p :: p in policy.certnames.value && lib.glob(p, certname))
    && (forall a :: a in policy.csrAttributes ==>
         OidByName(a.name).Some? && Carries(lib, csr.extensions, OidByName(a.name).value, a.value))
  }

  ghost predicate Approves(lib: Library, policy: Policy, certname: string, csr: Csr) {
    && ExtensionsAllowed(policy, csr)
    && SansCovered(lib, policy, csr)
    && (policy.any || ConditionsHold(lib, policy, certname, csr))
  }

  ghost predicate Signs(lib: Library, cfg: PolicyConfig, certname: string, csr: Csr) {
    && (forall r :: r in cfg.reservedCertnames ==> !lib.equalFold(r, certname))
    && lib.equalFold(csr.commonName, certname)
    && exists p :: p in cfg.policies && Approves(lib, p, certname, csr)
  }

  // ---------- consequences ----------

  /** Policies combine as a union: neither their order nor their multiplicity matters,
      and adding policies never takes an approval away. */
  lemma PoliciesCombineAsUnion(lib: Library, reserved: seq<string>, a: seq<Policy>, b: seq<Policy>,
                               all: seq<Policy>, certname: string, csr: Csr)
    requires forall p :: p in all <==> p in a || p in b
    ensures Signs(lib, PolicyConfig(reserved, all), certname, csr) <==>
            Signs(lib, PolicyConfig(reserved, a), certname, csr) || Signs(lib, PolicyConfig(reserved, b), certname, csr)
  {
  }

  /** Extending a policy's guard lists keeps every approval. */
  lemma WiderGuardsKeepApproval(lib: Library, p: Policy, q: Policy, certname: string, csr: Csr)
    requires Approves(lib, p, certname, csr)
    requires q.any == p.any && q.certnames == p.certnames && q.csrAttributes == p.csrAttributes
    requires Extends(p.dnsAltNames, q.dnsAltNames) && Extends(p.ipAltNames, q.ipAltNames)
    requires Extends(p.uriAltNames, q.uriAltNames) && Extends(p.emailAltNames, q.emailAltNames)
    requires Extends(p.extensions, q.extensions)
    ensures Approves(lib, q, certname, csr)
  {
  }

  ghost predicate Extends(narrow: Option<seq<string>>, wide: Option<seq<string>>) {
    narrow.Some? ==> wide.Some? && forall x :: x in narrow.value ==> x in wide.value
  }

  // ---------- the code ----------

  function DecodeExtensionValue(lib: Library, e: Extension): string {
    match lib.decode(e.value)
    case Some(text) => text
    case None => e.value
  }

  function ExtractCsrExtensionByOid(lib: Library, extensions: seq<Extension>, oid: Oid): (r: Option<string>)
    ensures r.None? <==> forall e :: e in extensions ==> e.id != oid
    ensures forall v :: r == Some(v) <==> Carries(lib, extensions, oid, v)
  {
    if extensions == [] then None
    else if extensions[0].id == oid then
      assert Carries(lib, extensions, oid, DecodeExtensionValue(lib, extensions[0]));
      Some(DecodeExtensionValue(lib, extensions[0]))
    else
      assert forall v :: Carries(lib, extensions, oid, v) <==> Carries(lib, extensions[1..], oid, v) by {
        forall v ensures Carries(lib, extensions, oid, v) <==> Carries(lib, extensions[1..], oid, v) {
          CarriesTail(lib, extensions, oid, v);
        }
      }
      assert extensions == [extensions[0]] + extensions[1..];
      ExtractCsrExtensionByOid(lib, extensions[1..], oid)
  }

  lemma CarriesTail(lib: Library, extensions: seq<Extension>, oid: Oid, v: string)
    requires extensions != [] && extensions[0].id != oid
    ensures Carries(lib, extensions, oid, v) <==> Carries(lib, extensions[1..], oid, v)
  {
  }

  function ExtractCsrAttribute(lib: Library, extensions: seq<Extension>, name: string): Option<string> {
    match OidByName(name)
    case None => None
    case Some(oid) => ExtractCsrExtensionByOid(lib, extensions, oid)
  }

  method AllWildcardMatch(patterns: seq<string>, names: seq<string>) returns (ok: bool)
    ensures ok <==> forall n :: n in names ==> exists p :: p in patterns && Wildcard.Matches(p, n)
  {
    for i := 0 to |names|
      invariant forall k :: 0 <= k < i ==> exists p :: p in patterns && Wildcard.Matches(p, names[k])
    {
      var matched := false;
      for j := 0 to |patterns|
        invariant !matched
        invariant forall k :: 0 <= k < j ==> !Wildcard.Matches(patterns[k], names[i])
      {
        var hit := Wildcard.WildcardMatch(patterns[j], names[i]);
        if hit {
          assert patterns[j] in patterns;
          matched := true;
          break;
        }
      }
      if !matched {
        assert names[i] in names;
        return false;
      }
    }
    return true;
  }

  method MatchDnsAltNames(lib: Library, patterns: seq<string>, dnsNames: seq<string>) returns (ok: bool)
    ensures ok <==> forall n :: n in dnsNames ==> exists p :: p in patterns && lib.glob(p, n)
  {
    for i := 0 to |dnsNames|
      invariant forall k :: 0 <= k < i ==> exists p :: p in patterns && lib.glob(p, dnsNames[k])
    {
      var matched := false;
      for j := 0 to |patterns|
        invariant !matched
        invariant forall k :: 0 <= k < j ==> !lib.glob(patterns[k], dnsNames[i])
      {
        if lib.glob(patterns[j], dnsNames[i]) {
          assert patterns[j] in patterns;
          matched := true;
          break;
        }
      }
      if !matched {
        assert dnsNames[i] in dnsNames;
        return false;
      }
    }
    return true;
  }

  /** Invalid ranges are dropped first, so they never match. */
  method AllIpInCidrs(lib: Library, cidrs: seq<string>, ips: seq<string>) returns (ok: bool)
    ensures ok <==> forall ip :: ip in ips ==> InSomeCidr(lib, cidrs, ip)
  {
    var nets: seq<string> := [];
    for i := 0 to |cidrs|
      invariant forall n :: n in nets <==> exists k :: 0 <= k < i && lib.parseCidr(cidrs[k]) == Some(n)
    {
      var parsed := lib.parseCidr(cidrs[i]);
      if parsed.Some? {
        nets := nets + [parsed.value];
      }
    }
    forall ip ensures InSomeCidr(lib, cidrs, ip) <==> exists n :: n in nets && lib.contains(n, ip) {
      if InSomeCidr(lib, cidrs, ip) {
        var c :| c in cidrs && lib.parseCidr(c).Some? && lib.contains(lib.parseCidr(c).value, ip);
        var k :| 0 <= k < |cidrs| && cidrs[k] == c;
        assert lib.parseCidr(c).value in nets;
      }
    }
    for i := 0 to |ips|
      invariant forall k :: 0 <= k < i ==> InSomeCidr(lib, cidrs, ips[k])
    {
      var matched := false;
      for j := 0 to |nets|
        invariant !matched
        invariant forall k :: 0 <= k < j ==> !lib.contains(nets[k], ips[i])
      {
        if lib.contains(nets[j], ips[i]) {
          matched := true;
          break;
        }
      }
      if !matched {
        assert ips[i] in ips;
        return false;
      }
    }
    return true;
  }

  method GuardExtensions(policy: Policy, csr: Csr) returns (ok: bool)
    ensures ok <==> ExtensionsAllowed(policy, csr)
  {
    var allowed: set<string> := {};
    if policy.extensions.Some? {
      for i := 0 to |policy.extensions.value|
        invariant allowed == set k | 0 <= k < i :: policy.extensions.value[k]
      {
        allowed := allowed + {policy.extensions.value[i]};
      }
    }
    assert forall n :: n in allowed <==> policy.extensions.Some? && n in policy.extensions.value;
    for i := 0 to |csr.extensions|
      invariant forall k :: 0 <= k < i && IsAuthorizationOid(csr.extensions[k].id) ==>
        exists n :: n in allowed && OidByName(n) == Some(csr.extensions[k].id)
    {
      var ext := csr.extensions[i];
      if IsAuthorizationOid(ext.id) {
        var name := NameByOid(ext.id);
        if name.None? || name.value !in allowed {
          assert ext in csr.extensions;
          assert forall n :: n in allowed && OidByName(n) == Some(ext.id) ==> name == Some(n);
          return false;
        }
        assert OidByName(name.value) == Some(ext.id);
      }
    }
    return true;
  }

  method GuardSans(lib: Library, policy: Policy, csr: Csr) returns (ok: bool)
    ensures ok <==> SansCovered(lib, policy, csr)
  {
    if |csr.dnsNames| > 0 {
      if policy.dnsAltNames.None? {
        assert csr.dnsNames[0] in csr.dnsNames;
        return false;
      }
      var covered := MatchDnsAltNames(lib, policy.dnsAltNames.value, csr.dnsNames);
      if !covered { return false; }
    }
    if |csr.ipAddresses| > 0 {
      if policy.ipAltNames.None? {
        assert csr.ipAddresses[0] in csr.ipAddresses;
        return false;
      }
      var covered := AllIpInCidrs(lib, policy.ipAltNames.value, csr.ipAddresses);
      if !covered { return false; }
    }
    if |csr.uris| > 0 {
      if policy.uriAltNames.None? {
        assert csr.uris[0] in csr.uris;
        return false;
      }
      var covered := AllWildcardMatch(policy.uriAltNames.value, csr.uris);
      if !covered { return false; }
    }
    if |csr.emailAddresses| > 0 {
      if policy.emailAltNames.None? {
        assert csr.emailAddresses[0] in csr.emailAddresses;
        return false;
      }
      var covered := AllWildcardMatch(policy.emailAltNames.value, csr.emailAddresses);
      if !covered { return false; }
    }
    return true;
  }

  predicate MatchPattern(lib: Library, patterns: seq<string>, certname: string) {
    exists p :: p in patterns && lib.glob(p, certname)
  }

  predicate MatchCsrAttributes(lib: Library, attrs: seq<AttributeMatch>, csr: Csr) {
    forall a :: a in attrs ==> ExtractCsrAttribute(lib, csr.extensions, a.name) == Some(a.value)
  }

  method EvaluatePolicy(lib: Library, policy: Policy, certname: string, csr: Csr) returns (ok: bool)
    ensures ok <==> Approves(lib, policy, certname, csr)
  {
    var extensionsPass := GuardExtensions(policy, csr);
    if !extensionsPass { return false; }
    var sansPass := GuardSans(lib, policy, csr);
    if !sansPass { return false; }
    if policy.any { return true; }

    var hasCondition := false;
    if policy.certnames.Some? {
      hasCondition := true;
      if !MatchPattern(lib, policy.certnames.value, certname) { return false; }
    }
    if |policy.csrAttributes| > 0 {
      hasCondition := true;
      if !MatchCsrAttributes(lib, policy.csrAttributes, csr) { return false; }
    }
    return hasCondition;
  }

  predicate IsReservedCertname(lib: Library, cfg: PolicyConfig, certname: string) {
    exists r :: r in cfg.reservedCertnames && lib.equalFold(r, certname)
  }

  method EvaluatePolicies(lib: Library, cfg: PolicyConfig, certname: string, csr: Csr) returns (ok: bool)
    ensures ok <==> Signs(lib, cfg, certname, csr)
  {
    if IsReservedCertname(lib, cfg, certname) { return false; }
    if !lib.equalFold(csr.commonName, certname) { return false; }
    for i := 0 to |cfg.policies|
      invariant forall k :: 0 <= k < i ==> !Approves(lib, cfg.policies[k], certname, csr)
    {
      var approved := EvaluatePolicy(lib, cfg.policies[i], certname, csr);
      if approved {
        assert cfg.policies[i] in cfg.policies;
        return true;
      }
    }
    return false;
  }
}
