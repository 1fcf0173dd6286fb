/** buildCSRExtensions of internal/controller/certificate_signing.go, and its round
    trip through the autosign binary's extractCSRAttribute. */
module CsrExtensions {
  import opened Text
  import opened PuppetOids
  import opened Autosign

  datatype ExtensionsSpec = ExtensionsSpec(
    ppCliAuth: bool, ppRole: string, ppEnvironment: string, custom: map<string, string>)

  datatype BuildError = UnknownExtension(name: string) | Unencodable(name: string)

  datatype BuildResult = Ok(extensions: seq<Extension>) | Err(error: BuildError)

  /** puppet.OIDByName and asn1.Marshal of a string. */
  datatype Codec = Codec(oid: string -> Option<Oid>, marshal: string -> Option<string>)

  /** What ties the codec to the reading side: the same name table, and marshalling
      that the binary's decoder undoes. */
  ghost predicate Agrees(c: Codec, lib: Library) {
    && (forall name :: c.oid(name) == OidByName(name))
    && (forall v, e :: c.marshal(v) == Some(e) ==> lib.decode(e) == Some(v))
  }

  // ---------- what a spec asks for ----------

  /** The value a spec sets for a name; a dedicated field wins over a custom key. */
  function Wanted(spec: ExtensionsSpec, name: string): Option<string> {
    if name == "pp_cli_auth" && spec.ppCliAuth then Some("true")
    else if name == "pp_role" && spec.ppRole != "" then Some(spec.ppRole)
    else if name == "pp_environment" && spec.ppEnvironment != "" then Some(spec.ppEnvironment)
    else if name in spec.custom then Some(spec.custom[name])
    else None
  }

  predicate Encodable(c: Codec, name: string, value: string) {
    c.oid(name).Some? && c.marshal(value).Some?
  }

  ghost predicate DedicatedBuildable(c: Codec, spec: ExtensionsSpec) {
    && (spec.ppCliAuth ==> Encodable(c, "pp_cli_auth", "true"))
    && (spec.ppRole != "" ==> Encodable(c, "pp_role", spec.ppRole))
    && (spec.ppEnvironment != "" ==> Encodable(c, "pp_environment", spec.ppEnvironment))
  }

  /** Everything the spec sets can be encoded. */
  ghost predicate Buildable(c: Codec, spec: ExtensionsSpec) {
    && DedicatedBuildable(c, spec)
    && (forall name :: name in spec.custom ==> Encodable(c, name, spec.custom[name]))
  }

  // ---------- the list and what it carries ----------

  datatype Setting = Setting(name: string, value: string)

  function Encode(c: Codec, s: Setting): Extension
    requires Encodable(c, s.name, s.value)
  {
    Extension(c.oid(s.name).value, c.marshal(s.value).value)
  }

  ghost predicate Encodes(c: Codec, settings: seq<Setting>, extensions: seq<Extension>) {
    && |extensions| == |settings|
    && forall i :: 0 <= i < |settings| ==>
         Encodable(c, settings[i].name, settings[i].value) && extensions[i] == Encode(c, settings[i])
  }

  lemma EncodesAppend(c: Codec, settings: seq<Setting>, extensions: seq<Extension>, s: Setting)
    requires Encodes(c, settings, extensions) && Encodable(c, s.name, s.value)
    ensures Encodes(c, settings + [s], extensions + [Encode(c, s)])
  {
  }

  ghost predicate AllEncodable(c: Codec, settings: seq<Setting>) {
    forall s :: s in settings ==> Encodable(c, s.name, s.value)
  }

  /** The first setting of a name, if there is one. */
  function Lookup(settings: seq<Setting>, name: string): Option<string> {
    if settings == [] then None
    else if settings[0].name == name then Some(settings[0].value)
    else Lookup(settings[1..], name)
  }

  /** Extraction from an encoded list reads the first setting of the name. */
  lemma {:induction false} ExtractReadsFirst(c: Codec, lib: Library, settings: seq<Setting>,
                                             extensions: seq<Extension>, name: string)
    requires Agrees(c, lib) && AllEncodable(c, settings)
    requires Encodes(c, settings, extensions)
    ensures ExtractCsrAttribute(lib, extensions, name) == Lookup(settings, name)
  {
    if settings != [] {
      var first := settings[0];
      assert first in settings;
      ExtractReadsFirst(c, lib, settings[1..], extensions[1..], name);
      if first.name == name {
        assert lib.decode(extensions[0].value) == Some(first.value);
      } else if OidByName(name).Some? && OidByName(name).value == extensions[0].id {
        TableInjective(name, first.name);
      }
      if OidByName(name).None? { UnknownNotSet(c, settings, name); }
    }
  }

  lemma {:induction false} UnknownNotSet(c: Codec, settings: seq<Setting>, name: string)
    requires AllEncodable(c, settings) && c.oid(name).None?
    ensures Lookup(settings, name) == None
  {
    if settings != [] {
      assert settings[0] in settings;
      UnknownNotSet(c, settings[1..], name);
    }
  }

  // ---------- the order of the list ----------

  function Optional(name: string, value: string, present: bool): seq<Setting> {
    if present then [Setting(name, value)] else []
  }

  function DedicatedSettings(spec: ExtensionsSpec): seq<Setting> {
    Optional("pp_cli_auth", "true", spec.ppCliAuth)
    + Optional("pp_role", spec.ppRole, spec.ppRole != "")
    + Optional("pp_environment", spec.ppEnvironment, spec.ppEnvironment != "")
  }

  function CustomSettings(spec: ExtensionsSpec, keys: seq<string>): (r: seq<Setting>)
    requires forall k :: k in keys ==> k in spec.custom
    ensures |r| == |keys|
  {
    seq(|keys|, i requires 0 <= i < |keys| => Setting(keys[i], spec.custom[keys[i]]))
  }

  /** Dedicated settings first, then the custom ones in name order. */
  ghost function Settings(spec: ExtensionsSpec): seq<Setting> {
    var keys := SortedListing(spec.custom.Keys);
    assert forall k :: k in keys ==> k in Elements(keys);
    DedicatedSettings(spec) + CustomSettings(spec, keys)
  }

  lemma {:induction false} LookupConcat(a: seq<Setting>, b: seq<Setting>, name: string)
    ensures Lookup(a + b, name) == if Lookup(a, name).Some? then Lookup(a, name) else Lookup(b, name)
  {
    if a == [] {
      assert a + b == b;
    } else {
      assert (a + b)[1..] == a[1..] + b;
      LookupConcat(a[1..], b, name);
    }
  }

  lemma {:induction false} LookupCustom(spec: ExtensionsSpec, keys: seq<string>, name: string)
    requires forall k :: k in keys ==> k in spec.custom
    ensures Lookup(CustomSettings(spec, keys), name) == if name in keys then Some(spec.custom[name]) else None
  {
    if keys != [] {
      assert keys == [keys[0]] + keys[1..];
      assert CustomSettings(spec, keys)[1..] == CustomSettings(spec, keys[1..]);
      LookupCustom(spec, keys[1..], name);
    }
  }

  /** Three optional settings in a row: the first present one with the name counts. */
  lemma LookupOptionals(a: Setting, b: Setting, c: Setting, p: bool, q: bool, r: bool, name: string)
    ensures Lookup(Optional(a.name, a.value, p) + Optional(b.name, b.value, q) + Optional(c.name, c.value, r), name)
         == if p && name == a.name then Some(a.value)
            else if q && name == b.name then Some(b.value)
            else if r && name == c.name then Some(c.value)
            else None
  {
    var x, y, z := Optional(a.name, a.value, p), Optional(b.name, b.value, q), Optional(c.name, c.value, r);
    LookupConcat(x + y, z, name);
    LookupConcat(x, y, name);
  }

  lemma SettingsSetTheWanted(spec: ExtensionsSpec, name: string)
    ensures Lookup(Settings(spec), name) == Wanted(spec, name)
  {
    var keys := SortedListing(spec.custom.Keys);
    assert forall k :: k in keys <==> k in Elements(keys);
    LookupConcat(DedicatedSettings(spec), CustomSettings(spec, keys), name);
    LookupOptionals(Setting("pp_cli_auth", "true"), Setting("pp_role", spec.ppRole),
                    Setting("pp_environment", spec.ppEnvironment),
                    spec.ppCliAuth, spec.ppRole != "", spec.ppEnvironment != "", name);
    LookupCustom(spec, keys, name);
  }

  lemma OptionalEncodable(c: Codec, name: string, value: string, present: bool)
    requires present ==> Encodable(c, name, value)
    ensures AllEncodable(c, Optional(name, value, present))
  {
  }

  lemma BothEncodable(c: Codec, a: seq<Setting>, b: seq<Setting>)
    requires AllEncodable(c, a) && AllEncodable(c, b)
    ensures AllEncodable(c, a + b)
  {
  }

  lemma CustomEncodable(c: Codec, spec: ExtensionsSpec, keys: seq<string>)
    requires forall k :: k in keys ==> k in spec.custom && Encodable(c, k, spec.custom[k])
    ensures AllEncodable(c, CustomSettings(spec, keys))
  {
    forall s | s in CustomSettings(spec, keys) ensures Encodable(c, s.name, s.value) {
      var i :| 0 <= i < |keys| && s == CustomSettings(spec, keys)[i];
      assert keys[i] in keys;
    }
  }

  lemma BuildableEncodes(c: Codec, spec: ExtensionsSpec)
    requires Buildable(c, spec)
    ensures AllEncodable(c, Settings(spec))
  {
    var keys := SortedListing(spec.custom.Keys);
    assert forall k :: k in keys ==> k in Elements(keys);
    var cli := Optional("pp_cli_auth", "true", spec.ppCliAuth);
    var role := Optional("pp_role", spec.ppRole, spec.ppRole != "");
    OptionalEncodable(c, "pp_cli_auth", "true", spec.ppCliAuth);
    OptionalEncodable(c, "pp_role", spec.ppRole, spec.ppRole != "");
    OptionalEncodable(c, "pp_environment", spec.ppEnvironment, spec.ppEnvironment != "");
    BothEncodable(c, cli, role);
    BothEncodable(c, cli + role, Optional("pp_environment", spec.ppEnvironment, spec.ppEnvironment != ""));
    CustomEncodable(c, spec, keys);
    BothEncodable(c, DedicatedSettings(spec), CustomSettings(spec, keys));
  }

  /** The name of the first setting that cannot be encoded, and whether it is its name or
      its value that cannot. */
  ghost predicate FirstRefused(c: Codec, settings: seq<Setting>, error: BuildError) {
    exists i :: 0 <= i < |settings|
      && (forall j :: 0 <= j < i ==> Encodable(c, settings[j].name, settings[j].value))
      && (if error.UnknownExtension? then c.oid(settings[i].name).None?
          else c.oid(settings[i].name).Some? && c.marshal(settings[i].value).None?)
      && error.name == settings[i].name
  }

  lemma RefusedNext(c: Codec, settings: seq<Setting>, extensions: seq<Extension>, s: Setting, error: BuildError)
    requires Encodes(c, settings, extensions) && !Encodable(c, s.name, s.value)
    requires error == if c.oid(s.name).None? then UnknownExtension(s.name) else Unencodable(s.name)
    ensures FirstRefused(c, settings + [s], error)
  {
    assert (settings + [s])[|settings|] == s;
  }

  lemma RefusedBefore(c: Codec, settings: seq<Setting>, rest: seq<Setting>, error: BuildError)
    requires FirstRefused(c, settings, error)
    ensures FirstRefused(c, settings + rest, error)
  {
    var all := settings + rest;
    assert forall i :: 0 <= i < |settings| ==> all[i] == settings[i];
  }

  lemma RefusedAt(c: Codec, settings: seq<Setting>, more: seq<Setting>, i: nat, extensions: seq<Extension>,
                  error: BuildError)
    requires i < |more| && Encodes(c, settings + more[..i], extensions)
    requires !Encodable(c, more[i].name, more[i].value)
    requires error == if c.oid(more[i].name).None? then UnknownExtension(more[i].name) else Unencodable(more[i].name)
    ensures FirstRefused(c, settings + more, error)
  {
    RefusedNext(c, settings + more[..i], extensions, more[i], error);
    RefusedBefore(c, settings + more[..i] + [more[i]], more[i + 1..], error);
    assert settings + more[..i] + [more[i]] + more[i + 1..] == settings + more;
  }

  lemma RefusedInSettings(c: Codec, spec: ExtensionsSpec, error: BuildError)
    requires FirstRefused(c, DedicatedSettings(spec), error)
    ensures FirstRefused(c, Settings(spec), error)
  {
    var keys := SortedListing(spec.custom.Keys);
    assert forall k :: k in keys ==> k in Elements(keys);
    RefusedBefore(c, DedicatedSettings(spec), CustomSettings(spec, keys), error);
  }

  // ---------- the code ----------

  /** addExt: look the name up, encode the value, append. */
  method AddExt(c: Codec, extensions: seq<Extension>, name: string, value: string,
                ghost settings: seq<Setting>) returns (r: BuildResult)
    requires Encodes(c, settings, extensions)
    ensures r.Ok? <==> Encodable(c, name, value)
    ensures r.Ok? ==> Encodes(c, settings + [Setting(name, value)], r.extensions)
    ensures r.Err? ==> r.error == if c.oid(name).None? then UnknownExtension(name) else Unencodable(name)
  {
    var oid := c.oid(name);
    if oid.None? { return Err(UnknownExtension(name)); }
    var encoded := c.marshal(value);
    if encoded.None? { return Err(Unencodable(name)); }
    EncodesAppend(c, settings, extensions, Setting(name, value));
    return Ok(extensions + [Extension(oid.value, encoded.value)]);
  }

  /** Lists the custom keys in whatever order the map yields them. */
  method Keys(custom: map<string, string>) returns (keys: seq<string>)
    ensures Distinct(keys) && Elements(keys) == custom.Keys
  {
    keys := [];
    var left := custom.Keys;
    while left != {}
      invariant left <= custom.Keys
      invariant Distinct(keys) && Elements(keys) == custom.Keys - left
      decreases left
    {
      var k :| k in left;
      assert k !in keys by { assert k !in Elements(keys); }
      assert forall y :: y in keys + [k] <==> y in Elements(keys) || y == k;
      keys := keys + [k];
      left := left - {k};
    }
  }

  /** addExt behind its condition. */
  method AddIf(c: Codec, extensions: seq<Extension>, name: string, value: string, present: bool,
               ghost settings: seq<Setting>) returns (r: BuildResult)
    requires Encodes(c, settings, extensions)
    ensures r.Ok? <==> (present ==> Encodable(c, name, value))
    ensures r.Ok? ==> Encodes(c, settings + Optional(name, value, present), r.extensions)
    ensures r.Err? ==> FirstRefused(c, settings + Optional(name, value, present), r.error)
  {
    if !present {
      assert settings + [] == settings;
      return Ok(extensions);
    }
    r := AddExt(c, extensions, name, value, settings);
    if r.Err? { RefusedNext(c, settings, extensions, Setting(name, value), r.error); }
  }

  /** The three dedicated fields. */
  method AddDedicated(c: Codec, s: ExtensionsSpec) returns (r: BuildResult)
    ensures r.Ok? <==> DedicatedBuildable(c, s)
    ensures r.Ok? ==> Encodes(c, DedicatedSettings(s), r.extensions)
    ensures r.Err? ==> FirstRefused(c, DedicatedSettings(s), r.error)
  {
    ghost var cli := Optional("pp_cli_auth", "true", s.ppCliAuth);
    ghost var role := Optional("pp_role", s.ppRole, s.ppRole != "");
    ghost var environment := Optional("pp_environment", s.ppEnvironment, s.ppEnvironment != "");
    r := AddIf(c, [], "pp_cli_auth", "true", s.ppCliAuth, []);
    assert [] + cli == cli;
    if r.Err? {
      RefusedBefore(c, cli, role, r.error);
      RefusedBefore(c, cli + role, environment, r.error);
      return;
    }
    r := AddIf(c, r.extensions, "pp_role", s.ppRole, s.ppRole != "", cli);
    if r.Err? {
      RefusedBefore(c, cli + role, environment, r.error);
      return;
    }
    r := AddIf(c, r.extensions, "pp_environment", s.ppEnvironment, s.ppEnvironment != "", cli + role);
  }

  /** The custom settings, in the order of the keys. */
  method AddCustom(c: Codec, s: ExtensionsSpec, keys: seq<string>, extensions: seq<Extension>,
                   ghost dedicated: seq<Setting>) returns (r: BuildResult)
    requires forall k :: k in keys ==> k in s.custom
    requires Encodes(c, dedicated, extensions)
    ensures r.Ok? <==> forall k :: k in keys ==> Encodable(c, k, s.custom[k])
    ensures r.Ok? ==> Encodes(c, dedicated + CustomSettings(s, keys), r.extensions)
    ensures r.Err? ==> FirstRefused(c, dedicated + CustomSettings(s, keys), r.error)
  {
    ghost var custom := CustomSettings(s, keys);
    var i := 0;
    r := Ok(extensions);
    assert dedicated + custom[..0] == dedicated;
    while i < |keys|
      invariant 0 <= i <= |keys|
      invariant forall j :: 0 <= j < i ==> Encodable(c, keys[j], s.custom[keys[j]])
      invariant r.Ok? && Encodes(c, dedicated + custom[..i], r.extensions)
    {
      assert keys[i] in keys;
      ghost var soFar := r.extensions;
      r := AddExt(c, r.extensions, keys[i], s.custom[keys[i]], dedicated + custom[..i]);
      if r.Err? {
        RefusedAt(c, dedicated, custom, i, soFar, r.error);
        return;
      }
      assert dedicated + custom[..i + 1] == (dedicated + custom[..i]) + [custom[i]];
      i := i + 1;
    }
    assert custom[..i] == custom;
  }

  /** buildCSRExtensions. The list is fixed by the spec alone: the map's order is gone. */
  method BuildCsrExtensions(c: Codec, spec: Option<ExtensionsSpec>) returns (r: BuildResult)
    ensures spec.None? ==> r == Ok([])
    ensures spec.Some? ==> (r.Ok? <==> Buildable(c, spec.value))
    ensures spec.Some? && r.Ok? ==> Encodes(c, Settings(spec.value), r.extensions)
    ensures spec.Some? && r.Err? ==> FirstRefused(c, Settings(spec.value), r.error)
  {
    if spec.None? { return Ok([]); }
    var s := spec.value;
    r := AddDedicated(c, s);
    if r.Err? {
      RefusedInSettings(c, s, r.error);
      return;
    }
    var keys := Keys(s.custom);
    SortDistinct(keys);
    keys := SortStrings(keys);
    ListingIsSorted(keys, s.custom.Keys);
    assert forall k :: k in keys <==> k in Elements(keys);
    r := AddCustom(c, s, keys, r.extensions, DedicatedSettings(s));
  }

  /** The SAN extension that encoding DNS names puts in front of the requested ones. */
  const SAN_OID: Oid := [2, 5, 29, 17]

  lemma SanIsNoPuppetName(facts: seq<string>, name: string)
    ensures OidIn(facts, name) != Some(SAN_OID)
  {
  }

  /** The round trip: whatever the spec, if the list builds at all, every name reads
      back as what the spec set, and every name the spec did not set as absent. A SAN
      extension in front changes nothing. */
  lemma ExtensionsRoundTrip(c: Codec, lib: Library, spec: ExtensionsSpec,
                            extensions: seq<Extension>, san: string, name: string)
    requires Agrees(c, lib)
    requires Buildable(c, spec) && Encodes(c, Settings(spec), extensions)
    ensures ExtractCsrAttribute(lib, extensions, name) == Wanted(spec, name)
    ensures ExtractCsrAttribute(lib, [Extension(SAN_OID, san)] + extensions, name) == Wanted(spec, name)
  {
    BuildableEncodes(c, spec);
    ExtractReadsFirst(c, lib, Settings(spec), extensions, name);
    SettingsSetTheWanted(spec, name);
    var all := [Extension(SAN_OID, san)] + extensions;
    SanIsNoPuppetName(FACT_NAMES, name);
    assert all[1..] == extensions;
  }
}
