/** The Puppet extension names and their object identifiers, internal/puppet/oids.go. */
module PuppetOids {
  import opened Text

  type Oid = seq<nat>

  /** The prefix of the trusted-fact extensions, numbered 1 to 26 in this order. */
  const FACT_ARC: Oid := [1, 3, 6, 1, 4, 1, 34380, 1, 1]

  const FACT_NAMES: seq<string> := [
    "pp_uuid", "pp_instance_id", "pp_image_name", "pp_preshared_key",
    "pp_cost_center", "pp_product", "pp_project", "pp_application",
    "pp_service", "pp_employee", "pp_created_by", "pp_environment",
    "pp_role", "pp_software_version", "pp_department", "pp_cluster",
    "pp_provisioner", "pp_region", "pp_datacenter", "pp_zone",
    "pp_network", "pp_securitypolicy", "pp_cloudplatform", "pp_apptier",
    "pp_hostname", "pp_owner"
  ]

  /** The prefix of the privileged authorization extensions. */
  const AUTHORIZATION_ARC: Oid := [1, 3, 6, 1, 4, 1, 34380, 1, 3]

  const OTHER_NAMES: seq<string> := ["pp_authorization", "pp_auth_token", "pp_cli_auth", "challengePassword"]

  /** The position of a name in a list, counting from the front. */
  function Position(name: string, names: seq<string>): (p: Option<nat>)
    ensures p.None? <==> name !in names
    ensures p.Some? ==> p.value < |names| && names[p.value] == name
    decreases names, name
  {
    if names == [] then None
    else if names[0] == name then Some(0)
    else match Position(name, names[1..])
      case None => None
      case Some(k) => Some(k + 1)
  }

  /** The table with the given trusted facts. */
  function OidIn(facts: seq<string>, name: string): Option<Oid> {
    match Position(name, facts)
    case Some(k) => Some(FACT_ARC + [k + 1])
    case None =>
      if name == "pp_authorization" then Some(AUTHORIZATION_ARC + [1])
      else if name == "pp_auth_token" then Some(AUTHORIZATION_ARC + [2])
      else if name == "pp_cli_auth" then Some(AUTHORIZATION_ARC + [39])
      else if name == "challengePassword" then Some([1, 2, 840, 113549, 1, 9, 7])
      else None
  }

  function OidByName(name: string): Option<Oid> {
    OidIn(FACT_NAMES, name)
  }

  predicate IsAuthorizationOid(oid: Oid) {
    AUTHORIZATION_ARC <= oid
  }

  /** The arc 1.3.6.1.4.1.34380.1.3 itself and all below it, known to the table or not. */
  lemma ArcIff(oid: Oid)
    ensures IsAuthorizationOid(oid) <==>
      && |oid| >= 9 && oid[0] == 1 && oid[1] == 3 && oid[2] == 6 && oid[3] == 1 && oid[4] == 4 && oid[5] == 1
      && oid[6] == 34380 && oid[7] == 1 && oid[8] == 3
  {
    if |oid| >= 9 { assert oid[..9] == AUTHORIZATION_ARC <==> AUTHORIZATION_ARC <= oid; }
  }

  /** The names that grant elevated trust are these three and no others. */
  lemma PrivilegedNames(name: string)
    ensures OidByName(name).Some? && IsAuthorizationOid(OidByName(name).value)
       <==> name in {"pp_authorization", "pp_auth_token", "pp_cli_auth"}
  {
    PrivilegedIn(FACT_NAMES, name);
    NoFactIsPrivileged();
  }

  /** Not one of pp_au... and pp_cli... */
  predicate Unprivileged(name: string) {
    |name| > 5 && !(name[3] == 'a' && name[4] == 'u') && !(name[3] == 'c' && name[4] == 'l' && name[5] == 'i')
  }

  lemma FactsAreUnprivileged()
    ensures forall k :: 0 <= k < |FACT_NAMES| ==> Unprivileged(FACT_NAMES[k])
  {
    forall k | 0 <= k < |FACT_NAMES| ensures Unprivileged(FACT_NAMES[k]) {
      if k < 7 {
      } else if k < 14 {
      } else if k < 20 {
      } else {
      }
    }
  }

  lemma NoFactIsPrivileged()
    ensures "pp_authorization" !in FACT_NAMES && "pp_auth_token" !in FACT_NAMES && "pp_cli_auth" !in FACT_NAMES
  {
    FactsAreUnprivileged();
    assert !Unprivileged("pp_authorization") && !Unprivileged("pp_auth_token") && !Unprivileged("pp_cli_auth");
  }

  lemma PrivilegedIn(facts: seq<string>, name: string)
    ensures OidIn(facts, name).Some? && IsAuthorizationOid(OidIn(facts, name).value)
       <==> name !in facts && name in {"pp_authorization", "pp_auth_token", "pp_cli_auth"}
  {
    var arc: Oid := [1, 3, 6, 1, 4, 1, 34380, 1, 3];
    if name in facts {
      assert (FACT_ARC + [Position(name, facts).value + 1])[8] == 1 != arc[8];
    } else if name == "challengePassword" {
      assert OidIn(facts, name).value[1] == 2;
    }
  }

  lemma KnownIn(facts: seq<string>, name: string)
    ensures OidIn(facts, name).Some? <==> name in facts + OTHER_NAMES
  {
  }

  lemma InjectiveIn(facts: seq<string>, a: string, b: string)
    requires OidIn(facts, a).Some? && OidIn(facts, a) == OidIn(facts, b)
    ensures a == b
  {
    var oid := OidIn(facts, a).value;
    if a in facts {
      assert oid[8] == 1 && facts[oid[9] - 1] == a;
    }
    if b in facts {
      assert oid[8] == 1 && facts[oid[9] - 1] == b;
    }
    assert |oid| == 10 && oid[8] == 3 ==> oid[9] == 1 || oid[9] == 2 || oid[9] == 39;
  }

  /** No two names share an identifier, so looking one up by identifier has one answer. */
  lemma TableInjective(a: string, b: string)
    requires OidByName(a).Some? && OidByName(a) == OidByName(b)
    ensures a == b
  {
    InjectiveIn(FACT_NAMES, a, b);
  }

  /** NameByOID ranges over the table in whatever order the map yields. */
  method NameByOid(oid: Oid) returns (name: Option<string>)
    ensures forall n :: name == Some(n) <==> OidByName(n) == Some(oid)
  {
    name := NameIn(FACT_NAMES, oid);
  }

  method NameIn(facts: seq<string>, oid: Oid) returns (name: Option<string>)
    ensures forall n :: name == Some(n) <==> OidIn(facts, n) == Some(oid)
  {
    var left := set n | n in facts + OTHER_NAMES;
    forall n ensures OidIn(facts, n) == Some(oid) ==> n in left { KnownIn(facts, n); }
    while left != {}
      invariant forall n :: OidIn(facts, n) == Some(oid) ==> n in left
      decreases left
    {
      var n :| n in left;
      if OidIn(facts, n) == Some(oid) {
        forall m | OidIn(facts, m) == Some(oid) ensures m == n { InjectiveIn(facts, m, n); }
        return Some(n);
      }
      left := left - {n};
    }
    return None;
  }
}
