/** Drift detection: dedupeSorted (certificate_derived.go), signingSpecHash
    (certificate_controller.go) and hashStringMap (helpers.go). The hash is kept as
    the text fed to SHA-256, which stands for the digest. */
module SigningHash {
  import opened Text
  import opened CsrExtensions

  datatype CertSpec = CertSpec(
    certname: string, dnsAltNames: seq<string>, extensions: Option<ExtensionsSpec>, renewBefore: string)

  // ---------- dedupeSorted ----------

  /** slices.Compact on a sorted list: drop each name that repeats its predecessor. */
  method Compact(sorted: seq<string>) returns (r: seq<string>)
    requires Sorted(sorted)
    ensures StrictlySorted(r) && Elements(r) == Elements(sorted)
  {
    r := [];
    for i := 0 to |sorted|
      invariant StrictlySorted(r)
      invariant Elements(r) == Elements(sorted[..i])
      invariant i == 0 ==> r == []
      invariant i > 0 ==> r != [] && r[|r| - 1] == sorted[i - 1]
    {
      var x := sorted[i];
      assert sorted[..i + 1] == sorted[..i] + [x];
      ElementsAppend(sorted[..i], x);
      if i == 0 || x != sorted[i - 1] {
        if i > 0 { StrictAppend(r, x); }
        ElementsAppend(r, x);
        r := r + [x];
      } else {
        assert sorted[..i][i - 1] == x && x in Elements(sorted[..i]);
      }
    }
    assert sorted[..|sorted|] == sorted;
  }

  lemma StrictAppend(r: seq<string>, x: string)
    requires StrictlySorted(r) && r != [] && Less(r[|r| - 1], x)
    ensures StrictlySorted(r + [x])
  {
    forall k | 0 <= k < |r| ensures Less(r[k], x) {
      if k < |r| - 1 { LessTransitive(r[k], r[|r| - 1], x); }
    }
  }

  method DedupeSorted(names: seq<string>) returns (r: seq<string>)
    ensures r == SortedListing(Elements(names))
  {
    var sorted := SortStrings(names);
    SameElements(sorted, names);
    r := Compact(sorted);
    ListingIsSorted(r, Elements(names));
  }

  lemma ElementsAppend(s: seq<string>, x: string)
    ensures Elements(s + [x]) == Elements(s) + {x}
  {
  }

  // ---------- signingSpecHash ----------

  function FormatBool(b: bool): string {
    if b then "true" else "false"
  }

  const CERTNAME := "certname"
  const NAMES := "dnsAltNames"
  const CLI_AUTH := "ppCliAuth"
  const ENVIRONMENT := "ppEnvironment"
  const ROLE := "ppRole"
  const CUSTOM := "custom/"

  /** The fields that end up in the CSR, by name. */
  function Fields(spec: CertSpec, effectiveNames: seq<string>): map<string, string> {
    var fields := map[CERTNAME := spec.certname, NAMES := Join(SortStrings(effectiveNames), ',')];
    match spec.extensions
    case None => fields
    case Some(e) =>
      Overlay(fields + CustomFields(e.custom),
              CLI_AUTH, FormatBool(e.ppCliAuth), ENVIRONMENT, e.ppEnvironment, ROLE, e.ppRole)
  }

  /** Three more fields over a map. */
  function Overlay(m: map<string, string>, a: string, x: string, b: string, y: string, c: string, z: string)
    : map<string, string>
  {
    m[a := x][b := y][c := z]
  }

  function CustomFields(custom: map<string, string>): (fields: map<string, string>)
    ensures forall key :: key in fields <==> CUSTOM <= key && key[|CUSTOM|..] in custom
    ensures forall key :: key in fields ==> fields[key] == custom[key[|CUSTOM|..]]
  {
    var keys := set k | k in custom :: CUSTOM + k;
    assert forall key :: CUSTOM <= key && key[|CUSTOM|..] in custom ==> key == CUSTOM + key[|CUSTOM|..];
    map key | key in keys :: custom[key[|CUSTOM|..]]
  }

  /** Keys and values one after the other, no separators. */
  function Concatenated(keys: seq<string>, data: map<string, string>): string
    requires forall k :: k in keys ==> k in data
  {
    if keys == [] then ""
    else
      assert keys[0] in keys;
      keys[0] + data[keys[0]] + Concatenated(keys[1..], data)
  }

  ghost function Written(data: map<string, string>): string {
    var keys := SortedListing(data.Keys);
    assert forall k :: k in keys ==> k in Elements(keys);
    Concatenated(keys, data)
  }

  /** hashStringMap: collect the keys in map order, sort, write. */
  method HashStringMap(data: map<string, string>) returns (text: string)
    ensures text == Written(data)
  {
    var keys := Keys(data);
    SortDistinct(keys);
    keys := SortStrings(keys);
    ListingIsSorted(keys, data.Keys);
    assert forall k :: k in keys <==> k in Elements(keys);
    text := WriteInOrder(keys, data);
  }

  method WriteInOrder(keys: seq<string>, data: map<string, string>) returns (text: string)
    requires forall k :: k in keys ==> k in data
    ensures text == Concatenated(keys, data)
  {
    text := "";
    assert keys[0..] == keys;
    for i := 0 to |keys|
      invariant text + Concatenated(keys[i..], data) == Concatenated(keys, data)
    {
      assert keys[i] in keys;
      WriteNext(text, keys, i, data);
      text := text + keys[i] + data[keys[i]];
    }
  }

  lemma WriteNext(text: string, keys: seq<string>, i: nat, data: map<string, string>)
    requires i < |keys| && forall k :: k in keys ==> k in data
    ensures keys[i] in keys
    ensures text + keys[i] + data[keys[i]] + Concatenated(keys[i + 1..], data) == text + Concatenated(keys[i..], data)
  {
  }

  ghost function Digest(spec: CertSpec, effectiveNames: seq<string>): string {
    Written(Fields(spec, effectiveNames))
  }

  method SigningSpecHash(spec: CertSpec, effectiveNames: seq<string>) returns (text: string)
    ensures text == Digest(spec, effectiveNames)
  {
    text := HashStringMap(Fields(spec, effectiveNames));
  }

  // ---------- what a change of the hash means ----------

  /** Two maps that differ at one key write the same text only if they agree there too. */
  lemma {:induction false} OneKeyShows(keys: seq<string>, f: map<string, string>, g: map<string, string>, d: string)
    requires forall k :: k in keys ==> k in f && k in g && (k != d ==> f[k] == g[k])
    requires Distinct(keys) && d in keys
    ensures Concatenated(keys, f) == Concatenated(keys, g) <==> f[d] == g[d]
  {
    assert keys[0] in keys;
    if keys[0] == d {
      SameText(keys[1..], f, g);
      var rest := Concatenated(keys[1..], f);
      if Concatenated(keys, f) == Concatenated(keys, g) { Cancel(d, f[d], g[d], rest); }
    } else {
      OneKeyShows(keys[1..], f, g, d);
      var head := keys[0] + f[keys[0]];
      assert Concatenated(keys, f) == head + Concatenated(keys[1..], f);
      assert Concatenated(keys, g) == head + Concatenated(keys[1..], g);
      CancelFront(head, Concatenated(keys[1..], f), Concatenated(keys[1..], g));
    }
  }

  lemma {:induction false} SameText(keys: seq<string>, f: map<string, string>, g: map<string, string>)
    requires forall k :: k in keys ==> k in f && k in g && f[k] == g[k]
    ensures Concatenated(keys, f) == Concatenated(keys, g)
  {
    if keys != [] {
      assert keys[0] in keys;
      SameText(keys[1..], f, g);
    }
  }

  lemma Cancel(front: string, x: string, y: string, back: string)
    requires front + x + back == front + y + back
    ensures x == y
  {
    var a, b := front + x + back, front + y + back;
    assert |x| == |y|;
    assert x == a[|front|..|front| + |x|] && y == b[|front|..|front| + |y|];
  }

  lemma CancelFront(front: string, x: string, y: string)
    ensures front + x == front + y <==> x == y
  {
    assert x == (front + x)[|front|..] && y == (front + y)[|front|..];
  }

  /** A name the CRD and the webhook let through. */
  predicate ValidName(name: string) {
    name != "" && ',' !in name
  }

  lemma JoinInjective(a: seq<string>, b: seq<string>)
    requires forall x :: x in a ==> ValidName(x)
    requires forall x :: x in b ==> ValidName(x)
    requires Join(a, ',') == Join(b, ',')
    ensures a == b
  {
    if a != [] { SplitJoin(a, ','); assert a[0] in a; JoinNonEmpty(a); }
    if b != [] { SplitJoin(b, ','); assert b[0] in b; JoinNonEmpty(b); }
  }

  lemma JoinNonEmpty(a: seq<string>)
    requires a != [] && a[0] != ""
    ensures Join(a, ',') != ""
  {
  }

  /** With certname and extensions as they were, the hash changes exactly when the set
      of names does: not with its order or repetitions, not with renewBefore. */
  lemma HashTracksNames(a: CertSpec, b: CertSpec, aNames: seq<string>, bNames: seq<string>)
    requires a.certname == b.certname && a.extensions == b.extensions
    requires StrictlySorted(aNames) && StrictlySorted(bNames)
    requires forall x :: x in aNames ==> ValidName(x)
    requires forall x :: x in bNames ==> ValidName(x)
    ensures Digest(a, aNames) == Digest(b, bNames) <==> Elements(aNames) == Elements(bNames)
  {
    FieldsDifferAtNames(a, b, aNames, bNames);
    OneFieldShows(Fields(a, aNames), Fields(b, bNames), NAMES);
    SortedStays(aNames);
    SortedStays(bNames);
    if Join(aNames, ',') == Join(bNames, ',') { JoinInjective(aNames, bNames); }
    if Elements(aNames) == Elements(bNames) { StrictlySortedUnique(aNames, bNames); }
  }

  lemma FieldsDifferAtNames(a: CertSpec, b: CertSpec, aNames: seq<string>, bNames: seq<string>)
    requires a.certname == b.certname && a.extensions == b.extensions
    ensures var f, g := Fields(a, aNames), Fields(b, bNames);
      && f.Keys == g.Keys && NAMES in f
      && (forall k :: k in f && k != NAMES ==> f[k] == g[k])
      && f[NAMES] == Join(SortStrings(aNames), ',') && g[NAMES] == Join(SortStrings(bNames), ',')
  {
    var f := map[CERTNAME := a.certname, NAMES := Join(SortStrings(aNames), ',')];
    var g := map[CERTNAME := a.certname, NAMES := Join(SortStrings(bNames), ',')];
    if a.extensions.Some? {
      var e := a.extensions.value;
      NamesKeyApart();
      LayersKeep(f, g, NAMES, CustomFields(e.custom), CLI_AUTH, FormatBool(e.ppCliAuth),
                 ENVIRONMENT, e.ppEnvironment, ROLE, e.ppRole);
    }
  }

  lemma NamesKeyApart()
    ensures NAMES != CLI_AUTH && NAMES != ENVIRONMENT && NAMES != ROLE && !(CUSTOM <= NAMES)
  {
    assert NAMES[0] == 'd' && CUSTOM[0] == 'c';
    assert CLI_AUTH[0] == ENVIRONMENT[0] == ROLE[0] == 'p';
  }

  /** Laying the same further fields over two maps that differ at d keeps them so. */
  lemma LayersKeep(f: map<string, string>, g: map<string, string>, d: string, over: map<string, string>,
                   a: string, x: string, b: string, y: string, c: string, z: string)
    requires f.Keys == g.Keys && d in f && forall k :: k in f && k != d ==> f[k] == g[k]
    requires d !in over && d != a && d != b && d != c
    ensures var f', g' := Overlay(f + over, a, x, b, y, c, z), Overlay(g + over, a, x, b, y, c, z);
      && f'.Keys == g'.Keys && d in f' && f'[d] == f[d] && g'[d] == g[d]
      && (forall k :: k in f' && k != d ==> f'[k] == g'[k])
  {
  }

  lemma OneFieldShows(f: map<string, string>, g: map<string, string>, d: string)
    requires f.Keys == g.Keys && d in f && forall k :: k in f && k != d ==> f[k] == g[k]
    ensures Written(f) == Written(g) <==> f[d] == g[d]
  {
    var keys := SortedListing(f.Keys);
    assert forall k :: k in keys <==> k in Elements(keys);
    StrictIsDistinct(keys);
    OneKeyShows(keys, f, g, d);
  }

  lemma StrictIsDistinct(s: seq<string>)
    requires StrictlySorted(s)
    ensures Distinct(s)
  {
    forall i, j | 0 <= i < j < |s| ensures s[i] != s[j] {
      LessAsymmetric(s[i], s[j]);
    }
  }

  lemma SortedStays(s: seq<string>)
    requires StrictlySorted(s)
    ensures SortStrings(s) == s
  {
    SortUnique(SortStrings(s), s);
  }

  // ---------- what the hash does not see ----------

  /** Two values that follow each other are written with the second key in between, so
      exactly a change of that stretch shows. */
  lemma {:induction false} NeighboursShow(keys: seq<string>, f: map<string, string>, g: map<string, string>, i: nat)
    requires forall k :: k in keys ==> k in f && k in g
    requires i + 1 < |keys| && Distinct(keys)
    requires forall k :: k in keys && k != keys[i] && k != keys[i + 1] ==> f[k] == g[k]
    ensures Concatenated(keys, f) == Concatenated(keys, g)
       <==> Stretch(f, keys[i], keys[i + 1]) == Stretch(g, keys[i], keys[i + 1])
  {
    var rest := keys[1..];
    if i > 0 {
      assert rest[i - 1] == keys[i] && rest[i] == keys[i + 1];
      NeighboursShow(rest, f, g, i - 1);
      var head := keys[0] + f[keys[0]];
      CancelFront(head, Concatenated(rest, f), Concatenated(rest, g));
    } else {
      SameText(rest[1..], f, g);
      var tail := Concatenated(rest[1..], f);
      AsStretch(keys, f);
      AsStretch(keys, g);
      if Concatenated(keys, f) == Concatenated(keys, g) {
        Cancel(keys[0], Stretch(f, keys[0], keys[1]), Stretch(g, keys[0], keys[1]), tail);
      }
    }
  }

  /** The value of a, the key b and the value of b. */
  function Stretch(f: map<string, string>, a: string, b: string): string
    requires a in f && b in f
  {
    f[a] + b + f[b]
  }

  lemma AsStretch(keys: seq<string>, f: map<string, string>)
    requires |keys| >= 2 && forall k :: k in keys ==> k in f
    ensures keys[0] in keys && keys[1] in keys
    ensures Concatenated(keys, f) == keys[0] + Stretch(f, keys[0], keys[1]) + Concatenated(keys[2..], f)
  {
    var rest := keys[1..];
    assert rest[0] == keys[1] && rest[1..] == keys[2..];
    assert Concatenated(rest, f) == keys[1] + f[keys[1]] + Concatenated(keys[2..], f);
  }

  lemma Adjacent(keys: seq<string>, a: string, b: string) returns (i: nat)
    requires StrictlySorted(keys) && a in keys && b in keys && Less(a, b)
    requires forall k :: k in keys ==> !(Less(a, k) && Less(k, b))
    ensures i + 1 < |keys| && keys[i] == a && keys[i + 1] == b
  {
    i :| 0 <= i < |keys| && keys[i] == a;
    var j :| 0 <= j < |keys| && keys[j] == b;
    LessAsymmetric(a, b);
    assert i < j;
    assert keys[i + 1] in keys && Less(a, keys[i + 1]);
  }

  /** The same on whole maps, for any two keys with none between them. */
  lemma NeighbouringFieldsShow(f: map<string, string>, g: map<string, string>, a: string, b: string)
    requires f.Keys == g.Keys && a in f && b in f
    requires forall k :: k in f && k != a && k != b ==> f[k] == g[k]
    requires Less(a, b) && forall k :: k in f ==> !(Less(a, k) && Less(k, b))
    ensures Written(f) == Written(g) <==> Stretch(f, a, b) == Stretch(g, a, b)
  {
    var keys := SortedListing(f.Keys);
    assert forall k :: k in keys <==> k in Elements(keys);
    StrictIsDistinct(keys);
    var i := Adjacent(keys, a, b);
    NeighboursShow(keys, f, g, i);
  }

  lemma EnvironmentBeforeRole()
    ensures Less(ENVIRONMENT, ROLE)
  {
    LessAt(ENVIRONMENT, ROLE, 2);
  }

  lemma CliAuthFirst()
    ensures !Less(ENVIRONMENT, CLI_AUTH)
  {
    LessAt(CLI_AUTH, ENVIRONMENT, 2);
  }

  lemma LowerFirst(k: string, s: string)
    requires k != "" && s != "" && k[0] < s[0]
    ensures !Less(s, k)
  {
    LessAt(k, s, 0);
  }

  lemma NotAfterEnvironment(k: string)
    requires k == CLI_AUTH || (k != "" && k[0] < 'p')
    ensures !Less(ENVIRONMENT, k)
  {
    if k == CLI_AUTH {
      CliAuthFirst();
    } else {
      LowerFirst(k, ENVIRONMENT);
    }
  }

  lemma OtherKeys(spec: CertSpec, e: ExtensionsSpec, names: seq<string>, k: string)
    requires spec.extensions == Some(e) && k in Fields(spec, names)
    ensures k == ENVIRONMENT || k == ROLE || k == CLI_AUTH || (k != "" && k[0] < 'p')
  {
    assert k in CustomFields(e.custom) ==> k != "" && k[0] == 'c';
  }

  lemma UpdatedNeighboursShow(f: map<string, string>, a: string, b: string, x: string, y: string)
    requires a in f && b in f && Less(a, b) && forall k :: k in f ==> !(Less(a, k) && Less(k, b))
    ensures Written(f[a := x][b := y]) == Written(f) <==> x + b + y == f[a] + b + f[b]
  {
    LessAsymmetric(a, b);
    var g := f[a := x][b := y];
    assert g.Keys == f.Keys;
    NeighbouringFieldsShow(g, f, a, b);
  }

  /** The role follows the environment directly. */
  lemma RoleFollowsEnvironment(spec: CertSpec, e: ExtensionsSpec, names: seq<string>)
    requires spec.extensions == Some(e)
    ensures Less(ENVIRONMENT, ROLE)
    ensures forall k :: k in Fields(spec, names) ==> !(Less(ENVIRONMENT, k) && Less(k, ROLE))
  {
    EnvironmentBeforeRole();
    forall k | k in Fields(spec, names) ensures !(Less(ENVIRONMENT, k) && Less(k, ROLE)) {
      OtherKeys(spec, e, names, k);
      if k != ENVIRONMENT && k != ROLE { NotAfterEnvironment(k); } else { LessIrreflexive(k); }
    }
  }

  lemma OverlayHolds(m: map<string, string>, a: string, x: string, b: string, y: string, c: string, z: string)
    requires a != b && a != c && b != c
    ensures var o := Overlay(m, a, x, b, y, c, z);
      a in o && b in o && c in o && o[a] == x && o[b] == y && o[c] == z
    ensures forall x' :: Overlay(m, a, x', b, y, c, z) == Overlay(m, a, x, b, y, c, z)[a := x']
    ensures forall y' :: Overlay(m, a, x, b, y', c, z) == Overlay(m, a, x, b, y, c, z)[b := y']
    ensures forall z' :: Overlay(m, a, x, b, y, c, z') == Overlay(m, a, x, b, y, c, z)[c := z']
  {
  }

  lemma KeysApart()
    ensures CLI_AUTH != ENVIRONMENT && CLI_AUTH != ROLE && ENVIRONMENT != ROLE
  {
    assert CLI_AUTH[2] == 'C' && ENVIRONMENT[2] == 'E' && ROLE[2] == 'R';
  }

  /** The dedicated fields, and what changing one of them makes of the map. */
  lemma DedicatedFields(spec: CertSpec, e: ExtensionsSpec, names: seq<string>)
    requires spec.extensions == Some(e)
    ensures var f := Fields(spec, names);
      && CLI_AUTH in f && f[CLI_AUTH] == FormatBool(e.ppCliAuth)
      && ENVIRONMENT in f && f[ENVIRONMENT] == e.ppEnvironment
      && ROLE in f && f[ROLE] == e.ppRole
      && (forall v :: Fields(spec.(extensions := Some(e.(ppCliAuth := v))), names) == f[CLI_AUTH := FormatBool(v)])
      && (forall v :: Fields(spec.(extensions := Some(e.(ppEnvironment := v))), names) == f[ENVIRONMENT := v])
      && (forall v :: Fields(spec.(extensions := Some(e.(ppRole := v))), names) == f[ROLE := v])
  {
    KeysApart();
    var m := map[CERTNAME := spec.certname, NAMES := Join(SortStrings(names), ',')] + CustomFields(e.custom);
    OverlayHolds(m, CLI_AUTH, FormatBool(e.ppCliAuth), ENVIRONMENT, e.ppEnvironment, ROLE, e.ppRole);
  }

  /** A change of environment and role is seen exactly when the text they make with the
      role's key between them changes. */
  lemma EnvironmentAndRoleSeenIff(
    spec: CertSpec, e: ExtensionsSpec, names: seq<string>, environment: string, role: string)
    requires spec.extensions == Some(e)
    ensures Digest(spec.(extensions := Some(e.(ppEnvironment := environment, ppRole := role))), names)
         == Digest(spec, names)
       <==> environment + ROLE + role == e.ppEnvironment + ROLE + e.ppRole
  {
    RoleFollowsEnvironment(spec, e, names);
    DedicatedFields(spec, e, names);
    UpdatedNeighboursShow(Fields(spec, names), ENVIRONMENT, ROLE, environment, role);
    WithValues(spec, e, names, environment, role);
  }

  lemma MovedStretch(x: string, b: string, y: string, z: string)
    ensures (x + b + y) + b + z == x + b + (y + b + z)
  {
  }

  /** So text moved from the role to the environment is no change. */
  lemma ExtensionChangeMissed(spec: CertSpec, e: ExtensionsSpec, names: seq<string>, y: string, z: string)
    requires spec.extensions == Some(e) && e.ppRole == y + ROLE + z
    ensures Digest(spec.(extensions := Some(e.(ppEnvironment := e.ppEnvironment + ROLE + y, ppRole := z))), names)
         == Digest(spec, names)
  {
    EnvironmentAndRoleSeenIff(spec, e, names, e.ppEnvironment + ROLE + y, z);
    MovedStretch(e.ppEnvironment, ROLE, y, z);
  }

  lemma WithValues(spec: CertSpec, e: ExtensionsSpec, names: seq<string>, environment: string, role: string)
    requires spec.extensions == Some(e)
    ensures Fields(spec.(extensions := Some(e.(ppEnvironment := environment, ppRole := role))), names)
         == Fields(spec, names)[ENVIRONMENT := environment][ROLE := role]
  {
  }

  // ---------- what the hash does see ----------

  lemma UpdateShows(f: map<string, string>, d: string, v: string)
    requires d in f
    ensures Written(f[d := v]) == Written(f) <==> v == f[d]
  {
    assert f[d := v].Keys == f.Keys;
    OneFieldShows(f[d := v], f, d);
  }

  lemma BoolShows(a: bool, b: bool)
    ensures FormatBool(a) == FormatBool(b) <==> a == b
  {
    assert |FormatBool(true)| == 4 && |FormatBool(false)| == 5;
  }

  /** The role alone, the environment alone or the CLI flag alone always shows. */
  lemma OneDedicatedChangeShows(spec: CertSpec, e: ExtensionsSpec, names: seq<string>, cliAuth: bool, v: string)
    requires spec.extensions == Some(e)
    ensures Digest(spec.(extensions := Some(e.(ppRole := v))), names) == Digest(spec, names) <==> v == e.ppRole
    ensures Digest(spec.(extensions := Some(e.(ppEnvironment := v))), names) == Digest(spec, names)
       <==> v == e.ppEnvironment
    ensures Digest(spec.(extensions := Some(e.(ppCliAuth := cliAuth))), names) == Digest(spec, names)
       <==> cliAuth == e.ppCliAuth
  {
    var f := Fields(spec, names);
    DedicatedFields(spec, e, names);
    UpdateShows(f, ROLE, v);
    UpdateShows(f, ENVIRONMENT, v);
    UpdateShows(f, CLI_AUTH, FormatBool(cliAuth));
    BoolShows(cliAuth, e.ppCliAuth);
  }

  lemma CustomKeysApart(k: string)
    ensures CUSTOM <= CUSTOM + k && (CUSTOM + k)[|CUSTOM|..] == k
    ensures CUSTOM + k != CERTNAME && CUSTOM + k != NAMES
    ensures CUSTOM + k != CLI_AUTH && CUSTOM + k != ENVIRONMENT && CUSTOM + k != ROLE
  {
    assert (CUSTOM + k)[0] == 'c' && (CUSTOM + k)[1] == 'u';
    assert CERTNAME[1] == 'e' && NAMES[0] == 'd' && CLI_AUTH[0] == ENVIRONMENT[0] == ROLE[0] == 'p';
  }

  lemma CustomUpdated(custom: map<string, string>, k: string, v: string)
    requires k in custom
    ensures CUSTOM + k in CustomFields(custom) && CustomFields(custom)[CUSTOM + k] == custom[k]
    ensures CustomFields(custom[k := v]) == CustomFields(custom)[CUSTOM + k := v]
  {
    CustomKeysApart(k);
    forall key | CUSTOM <= key && key[|CUSTOM|..] == k ensures key == CUSTOM + k {}
  }

  lemma OverlayUpdated(base: map<string, string>, over: map<string, string>, d: string, v: string,
                       a: string, x: string, b: string, y: string, c: string, z: string)
    requires d in over && d != a && d != b && d != c
    ensures d in Overlay(base + over, a, x, b, y, c, z) && Overlay(base + over, a, x, b, y, c, z)[d] == over[d]
    ensures Overlay(base + over[d := v], a, x, b, y, c, z) == Overlay(base + over, a, x, b, y, c, z)[d := v]
  {
    assert base + over[d := v] == (base + over)[d := v];
    UpdatesCommute(base + over, d, v, a, x);
    UpdatesCommute((base + over)[a := x], d, v, b, y);
    UpdatesCommute((base + over)[a := x][b := y], d, v, c, z);
  }

  lemma UpdatesCommute(m: map<string, string>, d: string, v: string, a: string, x: string)
    requires d != a
    ensures m[d := v][a := x] == m[a := x][d := v]
  {
  }

  /** The value of one custom extension alone always shows. */
  lemma OneCustomChangeShows(spec: CertSpec, e: ExtensionsSpec, names: seq<string>, k: string, v: string)
    requires spec.extensions == Some(e) && k in e.custom
    ensures Digest(spec.(extensions := Some(e.(custom := e.custom[k := v]))), names) == Digest(spec, names)
       <==> v == e.custom[k]
  {
    CustomUpdated(e.custom, k, v);
    CustomKeysApart(k);
    OverlayUpdated(map[CERTNAME := spec.certname, NAMES := Join(SortStrings(names), ',')], CustomFields(e.custom),
                   CUSTOM + k, v, CLI_AUTH, FormatBool(e.ppCliAuth), ENVIRONMENT, e.ppEnvironment, ROLE, e.ppRole);
    UpdateShows(Fields(spec, names), CUSTOM + k, v);
  }

  /** The certname is part of the text, the renewal window is not. */
  lemma CertnameShows(spec: CertSpec, names: seq<string>, certname: string, renewBefore: string)
    ensures Digest(spec.(certname := certname), names) == Digest(spec, names) <==> certname == spec.certname
    ensures Digest(spec.(renewBefore := renewBefore), names) == Digest(spec, names)
  {
    var f, g := Fields(spec, names), Fields(spec.(certname := certname), names);
    CertnameField(spec, names, certname);
    UpdateShows(f, CERTNAME, certname);
  }

  lemma CertnameField(spec: CertSpec, names: seq<string>, certname: string)
    ensures CERTNAME in Fields(spec, names) && Fields(spec, names)[CERTNAME] == spec.certname
    ensures Fields(spec.(certname := certname), names) == Fields(spec, names)[CERTNAME := certname]
  {
    BaseKeysApart();
    assert CERTNAME != NAMES by { assert CERTNAME[0] == 'c' && NAMES[0] == 'd'; }
    var base := map[CERTNAME := spec.certname, NAMES := Join(SortStrings(names), ',')];
    assert map[CERTNAME := certname, NAMES := Join(SortStrings(names), ',')] == base[CERTNAME := certname];
    if spec.extensions.Some? {
      var e := spec.extensions.value;
      BaseUpdated(base, CustomFields(e.custom), CERTNAME, certname,
                  CLI_AUTH, FormatBool(e.ppCliAuth), ENVIRONMENT, e.ppEnvironment, ROLE, e.ppRole);
    }
  }

  lemma BaseUpdated(base: map<string, string>, more: map<string, string>, k: string, v: string,
                    a: string, x: string, b: string, y: string, c: string, z: string)
    requires k in base && k !in more && k != a && k != b && k != c
    ensures Overlay(base + more, a, x, b, y, c, z).Keys >= {k} && Overlay(base + more, a, x, b, y, c, z)[k] == base[k]
    ensures Overlay(base[k := v] + more, a, x, b, y, c, z) == Overlay(base + more, a, x, b, y, c, z)[k := v]
  {
    assert base[k := v] + more == (base + more)[k := v];
  }

  // ---------- extensions that come or go ----------

  lemma {:induction false} LengthWithout(keys: seq<string>, i: nat, data: map<string, string>)
    requires i < |keys| && forall k :: k in keys ==> k in data
    ensures keys[i] in keys && forall k :: k in keys[..i] + keys[i + 1..] ==> k in data
    ensures |Concatenated(keys, data)|
         == |keys[i]| + |data[keys[i]]| + |Concatenated(keys[..i] + keys[i + 1..], data)|
  {
    var others := keys[..i] + keys[i + 1..];
    forall k | k in others ensures k in data { assert k in keys; }
    if i == 0 {
      assert others == keys[1..];
    } else {
      LengthWithout(keys[1..], i - 1, data);
      assert others[0] == keys[0] && others[1..] == keys[1..][..i - 1] + keys[1..][i..];
    }
  }

  /** A strictly sorted listing without one name is the listing of the others. */
  lemma ListingWithout(names: set<string>, i: nat)
    requires i < |SortedListing(names)|
    ensures var s := SortedListing(names); s[..i] + s[i + 1..] == SortedListing(names - {s[i]})
  {
    var s := SortedListing(names);
    var others := s[..i] + s[i + 1..];
    StrictIsDistinct(s);
    forall x ensures x in Elements(others) <==> x in Elements(s) && x != s[i] {
      OthersIn(s, i, x);
    }
    assert Elements(others) == names - {s[i]};
    ListingIsSorted(others, names - {s[i]});
  }

  lemma OthersIn(s: seq<string>, i: nat, x: string)
    requires i < |s| && Distinct(s)
    ensures x in s[..i] + s[i + 1..] <==> x in s && x != s[i]
  {
    assert s == s[..i] + [s[i]] + s[i + 1..];
    assert s[i] !in s[..i] && s[i] !in s[i + 1..];
  }

  lemma OneKeyLonger(g: map<string, string>, k: string)
    requires k in g && k != ""
    ensures |Written(g)| > |Written(g - {k})|
  {
    var keys := SortedListing(g.Keys);
    assert k in Elements(keys) && forall x :: x in keys <==> x in Elements(keys);
    var i :| 0 <= i < |keys| && keys[i] == k;
    ListingWithout(g.Keys, i);
    LengthWithout(keys, i, g);
    var others := keys[..i] + keys[i + 1..];
    assert (g - {k}).Keys == g.Keys - {k};
    assert forall x :: x in others <==> x in Elements(others);
    SameText(others, g, g - {k});
  }

  /** More fields make a longer text. */
  lemma {:induction false} MoreFieldsShow(f: map<string, string>, g: map<string, string>)
    requires f.Keys <= g.Keys && "" !in g && forall k :: k in f ==> g[k] == f[k]
    ensures |Written(f)| <= |Written(g)| && (f.Keys != g.Keys ==> |Written(f)| < |Written(g)|)
    decreases g.Keys
  {
    if k :| k in g && k !in f {
      OneKeyLonger(g, k);
      MoreFieldsShow(f, g - {k});
    } else {
      assert f == g;
    }
  }

  lemma NoEmptyKey(spec: CertSpec, names: seq<string>)
    ensures "" !in Fields(spec, names)
  {
    if spec.extensions.Some? && "" in Fields(spec, names) {
      OtherKeys(spec, spec.extensions.value, names, "");
    }
  }

  lemma BaseKeysApart()
    ensures !(CUSTOM <= CERTNAME) && !(CUSTOM <= NAMES)
    ensures CERTNAME != CLI_AUTH && CERTNAME != ENVIRONMENT && CERTNAME != ROLE
    ensures NAMES != CLI_AUTH && NAMES != ENVIRONMENT && NAMES != ROLE
  {
    assert CERTNAME[0] == CUSTOM[0] == 'c' && CERTNAME[1] == 'e' && CUSTOM[1] == 'u' && NAMES[0] == 'd';
    assert CLI_AUTH[0] == ENVIRONMENT[0] == ROLE[0] == 'p';
  }

  lemma OverlayGrows(base: map<string, string>, over: map<string, string>, more: map<string, string>,
                     a: string, x: string, b: string, y: string, c: string, z: string)
    requires over.Keys <= more.Keys && forall k :: k in over ==> more[k] == over[k]
    requires forall k :: k in base ==> k !in more && k != a && k != b && k != c
    ensures var f, g := Overlay(base + over, a, x, b, y, c, z), Overlay(base + more, a, x, b, y, c, z);
      f.Keys <= g.Keys && forall k :: k in f ==> g[k] == f[k]
    ensures var g := Overlay(base + more, a, x, b, y, c, z);
      base.Keys <= g.Keys && c in g && c !in base && forall k :: k in base ==> g[k] == base[k]
  {
  }

  /** Giving a Certificate extensions, or taking them away, always shows. */
  lemma ExtensionsComeAndGo(spec: CertSpec, e: ExtensionsSpec, names: seq<string>)
    requires spec.extensions == Some(e)
    ensures Digest(spec.(extensions := None), names) != Digest(spec, names)
  {
    NoEmptyKey(spec, names);
    BaseKeysApart();
    OverlayGrows(map[CERTNAME := spec.certname, NAMES := Join(SortStrings(names), ',')],
                 CustomFields(e.custom), CustomFields(e.custom),
                 CLI_AUTH, FormatBool(e.ppCliAuth), ENVIRONMENT, e.ppEnvironment, ROLE, e.ppRole);
    MoreFieldsShow(Fields(spec.(extensions := None), names), Fields(spec, names));
  }

  lemma CustomGrows(custom: map<string, string>, more: map<string, string>)
    requires custom.Keys <= more.Keys && forall k :: k in custom ==> more[k] == custom[k]
    ensures CustomFields(custom).Keys <= CustomFields(more).Keys
    ensures forall k :: k in CustomFields(custom) ==> CustomFields(more)[k] == CustomFields(custom)[k]
  {
  }

  /** So does a custom extension that is added or removed, the others left as they are. */
  lemma CustomExtensionsComeAndGo(
    spec: CertSpec, e: ExtensionsSpec, names: seq<string>, more: map<string, string>, k: string)
    requires spec.extensions == Some(e)
    requires e.custom.Keys <= more.Keys && forall k :: k in e.custom ==> more[k] == e.custom[k]
    requires k in more && k !in e.custom
    ensures Digest(spec.(extensions := Some(e.(custom := more))), names) != Digest(spec, names)
  {
    var after := spec.(extensions := Some(e.(custom := more)));
    NoEmptyKey(after, names);
    BaseKeysApart();
    CustomGrows(e.custom, more);
    OverlayGrows(map[CERTNAME := spec.certname, NAMES := Join(SortStrings(names), ',')],
                 CustomFields(e.custom), CustomFields(more),
                 CLI_AUTH, FormatBool(e.ppCliAuth), ENVIRONMENT, e.ppEnvironment, ROLE, e.ppRole);
    OnlyInMore(spec, e, names, more, k);
    MoreFieldsShow(Fields(spec, names), Fields(after, names));
  }

  lemma OnlyInMore(spec: CertSpec, e: ExtensionsSpec, names: seq<string>, more: map<string, string>, k: string)
    requires spec.extensions == Some(e) && k in more && k !in e.custom
    ensures CUSTOM + k in Fields(spec.(extensions := Some(e.(custom := more))), names)
    ensures CUSTOM + k !in Fields(spec, names)
  {
    CustomKeysApart(k);
  }

  // ---------- a stretch of keys ----------

  /** Every key of f comes before every key of g. */
  ghost predicate Ahead(f: map<string, string>, g: map<string, string>) {
    forall a, b :: a in f && b in g ==> Less(a, b)
  }

  lemma {:induction false} ConcatenatedSplits(keys: seq<string>, more: seq<string>, data: map<string, string>)
    requires forall k :: k in keys + more ==> k in data
    ensures forall k :: (k in keys ==> k in data) && (k in more ==> k in data)
    ensures Concatenated(keys + more, data) == Concatenated(keys, data) + Concatenated(more, data)
  {
    assert forall k :: k in keys || k in more ==> k in keys + more;
    if keys == [] {
      assert keys + more == more;
    } else {
      assert (keys + more)[1..] == keys[1..] + more;
      ConcatenatedSplits(keys[1..], more, data);
    }
  }

  lemma JoinedStrict(a: seq<string>, b: seq<string>)
    requires StrictlySorted(a) && StrictlySorted(b) && forall x, y :: x in a && y in b ==> Less(x, y)
    ensures StrictlySorted(a + b)
  {
    forall i, j | 0 <= i < j < |a + b| ensures Less((a + b)[i], (a + b)[j]) {
      if i < |a| <= j { assert a[i] in a && b[j - |a|] in b; }
    }
  }

  lemma ElementsJoin(a: seq<string>, b: seq<string>)
    ensures Elements(a + b) == Elements(a) + Elements(b)
  {
  }

  lemma ListingsJoin(names: set<string>, more: set<string>)
    requires forall x, y :: x in names && y in more ==> Less(x, y)
    ensures SortedListing(names + more) == SortedListing(names) + SortedListing(more)
  {
    var a, b := SortedListing(names), SortedListing(more);
    forall x, y | x in a && y in b ensures Less(x, y) { assert x in Elements(a) && y in Elements(b); }
    JoinedStrict(a, b);
    ElementsJoin(a, b);
    ListingIsSorted(a + b, names + more);
  }

  lemma ListingSplits(f: map<string, string>, g: map<string, string>)
    requires Ahead(f, g)
    ensures SortedListing((f + g).Keys) == SortedListing(f.Keys) + SortedListing(g.Keys)
  {
    ListingsJoin(f.Keys, g.Keys);
    assert (f + g).Keys == f.Keys + g.Keys;
  }

  lemma WrittenSplits(f: map<string, string>, g: map<string, string>)
    requires Ahead(f, g)
    ensures Written(f + g) == Written(f) + Written(g)
  {
    ListingSplits(f, g);
    var a, b := SortedListing(f.Keys), SortedListing(g.Keys);
    forall k | k in a ensures k in f && k !in g {
      assert k in Elements(a);
      if k in g { LessIrreflexive(k); }
    }
    forall k | k in b ensures k in g { assert k in Elements(b); }
    ConcatenatedSplits(a, b, f + g);
    SameText(a, f + g, f);
    SameText(b, f + g, g);
  }

  /** Whatever is changed, added and removed within one stretch of keys shows exactly when
      it changes the text of the stretch. */
  lemma StretchShows(
    before: map<string, string>, f: map<string, string>, g: map<string, string>, after: map<string, string>)
    requires Ahead(before, f) && Ahead(before, g) && Ahead(f, after) && Ahead(g, after) && Ahead(before, after)
    ensures Written(before + f + after) == Written(before + g + after) <==> Written(f) == Written(g)
  {
    WrittenSplits(before + f, after);
    WrittenSplits(before + g, after);
    WrittenSplits(before, f);
    WrittenSplits(before, g);
    if Written(before + f + after) == Written(before + g + after) {
      Cancel(Written(before), Written(f), Written(g), Written(after));
    }
  }

  lemma WrittenOne(a: string, v: string)
    ensures Written(map[a := v]) == a + v
  {
    var m := map[a := v];
    assert m.Keys == {a} && StrictlySorted([a]) && Elements([a]) == {a};
    ListingIsSorted([a], m.Keys);
    assert [a][1..] == [];
    assert Concatenated([a], m) == a + v + Concatenated([], m);
  }

  lemma OneAhead(a: string, x: string, b: string, y: string)
    requires Less(a, b)
    ensures Ahead(map[a := x], map[b := y])
  {
  }

  lemma Regrouped(a: string, x: string, b: string, y: string)
    ensures (a + x) + (b + y) == a + (x + b + y)
  {
  }

  lemma WrittenPair(a: string, x: string, b: string, y: string)
    requires Less(a, b)
    ensures Written(map[a := x] + map[b := y]) == a + (x + b + y)
  {
    OneAhead(a, x, b, y);
    WrittenSplits(map[a := x], map[b := y]);
    WrittenOne(a, x);
    WrittenOne(b, y);
    Regrouped(a, x, b, y);
  }

  /** The keys of a map on both sides of two neighbours. */
  lemma Around(f: map<string, string>, a: string, b: string)
    returns (before: map<string, string>, after: map<string, string>)
    requires a in f && b in f && Less(a, b) && forall k :: k in f ==> !(Less(a, k) && Less(k, b))
    ensures f == before + (map[a := f[a]] + map[b := f[b]]) + after
    ensures forall k :: k in before ==> Less(k, a) && Less(k, b)
    ensures forall k :: k in after ==> Less(a, k) && Less(b, k)
  {
    before := map k | k in f && Less(k, a) :: f[k];
    after := map k | k in f && Less(b, k) :: f[k];
    forall k | k in f ensures k in before || k == a || k == b || k in after {
      LessTotal(k, a);
      LessTotal(k, b);
    }
    forall k | k in before ensures Less(k, a) && Less(k, b) { LessTransitive(k, a, b); }
    forall k | k in after ensures Less(a, k) && Less(b, k) { LessTransitive(a, b, k); }
    LessAsymmetric(a, b);
    forall k | k in before ensures k != a && k != b && k !in after {
      LessAsymmetric(k, a);
      LessAsymmetric(k, b);
    }
    forall k | k in after ensures k != a && k != b { LessAsymmetric(b, k); LessAsymmetric(a, k); }
  }

  /** f between its neighbours, where f is the pair of a and b. */
  lemma SwallowShowsBetween(before: map<string, string>, f: map<string, string>, after: map<string, string>,
                            a: string, x: string, b: string, y: string, v: string)
    requires Less(a, b) && f == map[a := x] + map[b := y]
    requires Ahead(before, f) && Ahead(f, after) && Ahead(before, after)
    requires Ahead(before, map[a := v]) && Ahead(map[a := v], after)
    ensures Written(before + map[a := v] + after) == Written(before + f + after) <==> v == x + b + y
  {
    StretchShows(before, f, map[a := v], after);
    WrittenPair(a, x, b, y);
    WrittenOne(a, v);
    CancelFront(a, x + b + y, v);
  }

  lemma PairAhead(before: map<string, string>, a: string, b: string, after: map<string, string>)
    requires forall k :: k in before ==> Less(k, a) && Less(k, b)
    requires forall k :: k in after ==> Less(a, k) && Less(b, k)
    ensures forall x, y :: Ahead(before, map[a := x] + map[b := y]) && Ahead(map[a := x] + map[b := y], after)
    ensures forall v :: Ahead(before, map[a := v]) && Ahead(map[a := v], after)
    ensures Ahead(before, after)
  {
    forall x, y | x in before && y in after ensures Less(x, y) { LessTransitive(x, a, y); }
  }

  lemma PairReplaced(before: map<string, string>, a: string, x: string, b: string, y: string, v: string,
                     after: map<string, string>)
    requires a != b && a !in before && b !in before && a !in after && b !in after
    ensures (before + (map[a := x] + map[b := y]) + after - {b})[a := v] == before + map[a := v] + after
  {
  }

  /** A field that goes while the one before it changes is missed exactly when that one
      takes up its text. */
  lemma SwallowedFieldShowsIff(f: map<string, string>, a: string, b: string, v: string)
    requires a in f && b in f && Less(a, b) && forall k :: k in f ==> !(Less(a, k) && Less(k, b))
    ensures Written((f - {b})[a := v]) == Written(f) <==> v == Stretch(f, a, b)
  {
    var before, after := Around(f, a, b);
    PairAhead(before, a, b, after);
    LessIrreflexive(a);
    LessIrreflexive(b);
    PairReplaced(before, a, f[a], b, f[b], v, after);
    SwallowShowsBetween(before, map[a := f[a]] + map[b := f[b]], after, a, f[a], b, f[b], v);
  }

  lemma {:induction false} LessBehind(prefix: string, a: string, b: string)
    ensures Less(prefix + a, prefix + b) <==> Less(a, b)
  {
    if prefix == "" {
      assert prefix + a == a && prefix + b == b;
    } else {
      LessBehind(prefix[1..], a, b);
      assert (prefix + a)[1..] == prefix[1..] + a && (prefix + b)[1..] == prefix[1..] + b;
    }
  }

  predicate Neighbours(custom: map<string, string>, a: string, b: string) {
    a in custom && b in custom && Less(a, b) && forall k :: k in custom ==> !(Less(a, k) && Less(k, b))
  }

  /** Between two custom keys there are only custom keys. */
  lemma CustomNeighbours(spec: CertSpec, e: ExtensionsSpec, names: seq<string>, a: string, b: string)
    requires spec.extensions == Some(e) && Neighbours(e.custom, a, b)
    ensures var f := Fields(spec, names);
      && CUSTOM + a in f && f[CUSTOM + a] == e.custom[a] && CUSTOM + b in f && f[CUSTOM + b] == e.custom[b]
      && Less(CUSTOM + a, CUSTOM + b)
      && forall k :: k in f ==> !(Less(CUSTOM + a, k) && Less(k, CUSTOM + b))
  {
    CustomKeysApart(a);
    CustomKeysApart(b);
    LessBehind(CUSTOM, a, b);
    forall k | k in Fields(spec, names) ensures !(Less(CUSTOM + a, k) && Less(k, CUSTOM + b)) {
      if CUSTOM <= k {
        CustomBetween(spec, e, names, k);
        assert k == CUSTOM + k[|CUSTOM|..];
        LessBehind(CUSTOM, a, k[|CUSTOM|..]);
        LessBehind(CUSTOM, k[|CUSTOM|..], b);
      } else {
        NotBetweenCustom(spec, e, names, k, a, b);
      }
    }
  }

  lemma CustomBetween(spec: CertSpec, e: ExtensionsSpec, names: seq<string>, k: string)
    requires spec.extensions == Some(e) && k in Fields(spec, names) && CUSTOM <= k
    ensures k[|CUSTOM|..] in e.custom
  {
    BaseKeysApart();
    assert CLI_AUTH[0] == ENVIRONMENT[0] == ROLE[0] == 'p' && CUSTOM[0] == 'c';
  }

  lemma CertnameBeforeCustom(a: string)
    ensures !Less(CUSTOM + a, CERTNAME)
  {
    assert (CUSTOM + a)[0] == 'c' && (CUSTOM + a)[1] == 'u';
    LessAt(CERTNAME, CUSTOM + a, 1);
  }

  lemma NotBetweenCustom(spec: CertSpec, e: ExtensionsSpec, names: seq<string>, k: string, a: string, b: string)
    requires spec.extensions == Some(e) && k in Fields(spec, names) && !(CUSTOM <= k)
    ensures !(Less(CUSTOM + a, k) && Less(k, CUSTOM + b))
  {
    if k == CERTNAME {
      CertnameBeforeCustom(a);
    } else {
      BaseKeysApart();
      assert k == NAMES || k == CLI_AUTH || k == ENVIRONMENT || k == ROLE;
      assert (CUSTOM + b)[0] == 'c';
      LowerFirst(CUSTOM + b, k);
    }
  }

  /** The fields of the spec in which the custom extension a has the value v and b is gone. */
  lemma WithoutCustom(spec: CertSpec, e: ExtensionsSpec, names: seq<string>, a: string, b: string, v: string)
    requires spec.extensions == Some(e) && a in e.custom && b in e.custom && a != b
    ensures Fields(spec.(extensions := Some(e.(custom := (e.custom - {b})[a := v]))), names)
         == (Fields(spec, names) - {CUSTOM + b})[CUSTOM + a := v]
  {
    CustomKeysApart(a);
    CustomKeysApart(b);
    var left := (e.custom - {b})[a := v];
    forall key ensures key in CustomFields(left) <==> key in CustomFields(e.custom) && key != CUSTOM + b {
      if CUSTOM <= key { assert key == CUSTOM + key[|CUSTOM|..]; }
    }
    forall key | key in CustomFields(left)
      ensures CustomFields(left)[key] == if key == CUSTOM + a then v else CustomFields(e.custom)[key]
    {
      assert key == CUSTOM + key[|CUSTOM|..];
    }
    assert CustomFields(left) == (CustomFields(e.custom) - {CUSTOM + b})[CUSTOM + a := v];
    OverlayWithout(map[CERTNAME := spec.certname, NAMES := Join(SortStrings(names), ',')], CustomFields(e.custom),
                   CUSTOM + a, v, CUSTOM + b,
                   CLI_AUTH, FormatBool(e.ppCliAuth), ENVIRONMENT, e.ppEnvironment, ROLE, e.ppRole);
  }

  lemma OverlayWithout(base: map<string, string>, over: map<string, string>, d: string, v: string, gone: string,
                       a: string, x: string, b: string, y: string, c: string, z: string)
    requires d in over && d != a && d != b && d != c && d != gone
    requires gone !in base && gone != a && gone != b && gone != c
    ensures Overlay(base + (over - {gone})[d := v], a, x, b, y, c, z)
         == (Overlay(base + over, a, x, b, y, c, z) - {gone})[d := v]
  {
  }

  /** On specs: a custom extension that goes is missed exactly when the one before it in
      key order takes up its text. */
  lemma SwallowedExtensionShowsIff(
    spec: CertSpec, e: ExtensionsSpec, names: seq<string>, a: string, b: string, v: string)
    requires spec.extensions == Some(e) && Neighbours(e.custom, a, b)
    ensures Digest(spec.(extensions := Some(e.(custom := (e.custom - {b})[a := v]))), names) == Digest(spec, names)
       <==> v == e.custom[a] + (CUSTOM + b) + e.custom[b]
  {
    LessAsymmetric(a, b);
    CustomNeighbours(spec, e, names, a, b);
    WithoutCustom(spec, e, names, a, b, v);
    SwallowedFieldShowsIff(Fields(spec, names), CUSTOM + a, CUSTOM + b, v);
  }

  lemma JectBeforeVisioner()
    ensures Less("ject", "visioner")
  {
    assert "ject"[0] < "visioner"[0];
  }

  lemma ProjectBeforeProvisioner()
    ensures Less("pp_project", "pp_provisioner")
  {
    JectBeforeVisioner();
    LessBehind("pp_pro", "ject", "visioner");
    assert "pp_pro" + "ject" == "pp_project" && "pp_pro" + "visioner" == "pp_provisioner";
  }

  lemma PairIsNeighbours(a: string, x: string, b: string, y: string, v: string)
    requires Less(a, b)
    ensures a != b && Neighbours(map[a := x, b := y], a, b)
    ensures (map[a := x, b := y] - {b})[a := v] == map[a := v] != map[a := x, b := y]
  {
    LessIrreflexive(a);
    LessIrreflexive(b);
    assert b in map[a := x, b := y] && b !in map[a := v];
  }

  lemma SecondExtensionMissed(spec: CertSpec, e: ExtensionsSpec, names: seq<string>,
                              a: string, x: string, b: string, y: string, v: string)
    requires spec.extensions == Some(e) && Less(a, b) && e.custom == map[a := x, b := y]
    requires v == x + (CUSTOM + b) + y
    ensures map[a := v] != e.custom
    ensures Digest(spec.(extensions := Some(e.(custom := map[a := v]))), names) == Digest(spec, names)
  {
    PairIsNeighbours(a, x, b, y, v);
    SwallowedExtensionShowsIff(spec, e, names, a, b, v);
  }

  /** Two extensions the operator knows by name, and the one that hides the other. */
  lemma SwallowedExtensionMissed(spec: CertSpec, e: ExtensionsSpec, names: seq<string>, x: string, y: string)
    requires spec.extensions == Some(e) && e.custom == map["pp_project" := x, "pp_provisioner" := y]
    ensures var one := map["pp_project" := x + "custom/pp_provisioner" + y];
      one != e.custom && Digest(spec.(extensions := Some(e.(custom := one))), names) == Digest(spec, names)
  {
    ProjectBeforeProvisioner();
    KeyOfProvisioner();
    SecondExtensionMissed(spec, e, names, "pp_project", x, "pp_provisioner", y, x + "custom/pp_provisioner" + y);
  }

  lemma KeyOfProvisioner()
    ensures CUSTOM + "pp_provisioner" == "custom/pp_provisioner"
  {
  }
}
