/** Whether a NodeClassifier is in effect, from the Configs that refer to it and the ENC
    Secrets rendered for them: internal/controller/nodeclassifier_controller.go. */
module NodeClassifiers {
  import opened Text
  import opened RenderedSource

  type Name = string

  datatype Config = Config(name: Name, classifierRef: Name, externalNodesCommand: string)

  type Secrets = map<Name, Annotations>

  datatype Phase = Error | Disabled | Active

  datatype Reason =
    | NoConfig | OverriddenByExternalNodesCommand | RenderedConfigStale | NotRendered
    | RenderedConfigSourceUnknown | Rendered

  /** The verdict with the Secrets its message lists, joined. */
  datatype Verdict = Verdict(phase: Phase, reason: Reason, listed: string)

  /** What the Secret of one Config says about the classifier. */
  datatype Standing = Bypassed | Missing | Unrecorded | Foreign | Stale | Current

  const SUFFIX: string := "-enc"

  function SecretName(c: Config): Name {
    c.name + SUFFIX
  }

  function StandingOf(c: Config, secrets: Secrets, n: Name, generation: int): Standing {
    if c.externalNodesCommand != "" then Bypassed
    else if SecretName(c) !in secrets then Missing
    else
      var a := secrets[SecretName(c)];
      if !RenderedSourceRecorded(a) then Unrecorded
      else match RenderedGeneration(a, n)
        case None => Foreign
        case Some(g) => if g == generation then Current else Stale
  }

  // ---------- the verdict over the set of Configs ----------

  ghost function Referring(configs: set<Config>, n: Name): set<Config> {
    set c | c in configs && c.classifierRef == n
  }

  /** The Secrets of the Configs with this standing. */
  ghost function Having(configs: set<Config>, secrets: Secrets, n: Name, generation: int, st: Standing): set<Name> {
    set c | c in Referring(configs, n) && StandingOf(c, secrets, n, generation) == st :: SecretName(c)
  }

  function JoinComma(names: seq<Name>): string {
    if names == [] then ""
    else if |names| == 1 then names[0]
    else names[0] + ", " + JoinComma(names[1..])
  }

  /** A comma and a blank between any two names. */
  lemma {:induction false} JoinCommaAppend(names: seq<Name>, n: Name)
    ensures JoinComma(names + [n]) == if names == [] then n else JoinComma(names) + [',', ' '] + n
  {
    if |names| == 1 {
      assert JoinComma(names + [n]) == names[0] + ", " + JoinComma([n]) by { assert (names + [n])[1..] == [n]; }
    } else if |names| > 1 {
      JoinCommaAppend(names[1..], n);
      assert (names + [n])[1..] == names[1..] + [n];
    }
  }

  ghost predicate AllBypassed(configs: set<Config>, n: Name) {
    forall c :: c in Referring(configs, n) ==> c.externalNodesCommand != ""
  }

  /** The order in which the findings outrank each other. */
  function Outranking(stale: seq<Name>, foreign: seq<Name>, unrecorded: seq<Name>, rendered: seq<Name>): Verdict {
    if |stale| > 0 then Verdict(Error, RenderedConfigStale, JoinComma(stale))
    else if |foreign| > 0 then Verdict(Error, NotRendered, JoinComma(foreign))
    else if |unrecorded| > 0 then Verdict(Error, RenderedConfigSourceUnknown, JoinComma(unrecorded))
    else if |rendered| > 0 then Verdict(Active, Rendered, JoinComma(rendered))
    else Verdict(Error, NotRendered, "")
  }

  /** The names observe would list for one standing, sorted. */
  ghost function Listing(configs: set<Config>, secrets: Secrets, n: Name, generation: int, st: Standing): seq<Name> {
    SortedListing(Having(configs, secrets, n, generation, st))
  }

  ghost function VerdictOn(configs: set<Config>, secrets: Secrets, n: Name, generation: int): Verdict {
    if Referring(configs, n) == {} then Verdict(Error, NoConfig, "")
    else if AllBypassed(configs, n) then Verdict(Disabled, OverriddenByExternalNodesCommand, "")
    else Outranking(
      Listing(configs, secrets, n, generation, Stale), Listing(configs, secrets, n, generation, Foreign),
      Listing(configs, secrets, n, generation, Unrecorded), Listing(configs, secrets, n, generation, Current))
  }

  ghost predicate SomeHas(configs: set<Config>, secrets: Secrets, n: Name, generation: int, st: Standing) {
    exists c :: c in Referring(configs, n) && StandingOf(c, secrets, n, generation) == st
  }

  lemma ListingIsEmptyIff(configs: set<Config>, secrets: Secrets, n: Name, generation: int, st: Standing)
    ensures Listing(configs, secrets, n, generation, st) == [] <==> !SomeHas(configs, secrets, n, generation, st)
  {
    var having := Having(configs, secrets, n, generation, st);
    EmptyElements(SortedListing(having));
    if c :| c in Referring(configs, n) && StandingOf(c, secrets, n, generation) == st {
      assert SecretName(c) in having;
    }
    if having != {} {
      var x :| x in having;
    }
  }

  lemma OutrankingActive(stale: seq<Name>, foreign: seq<Name>, unrecorded: seq<Name>, rendered: seq<Name>)
    ensures Outranking(stale, foreign, unrecorded, rendered).phase == Active <==>
      stale == [] && foreign == [] && unrecorded == [] && rendered != []
    ensures Outranking(stale, foreign, unrecorded, rendered).phase in {Active, Error}
  {
  }

  lemma VerdictActive(configs: set<Config>, secrets: Secrets, n: Name, generation: int)
    ensures VerdictOn(configs, secrets, n, generation).phase == Active <==>
      && !AllBypassed(configs, n)
      && !SomeHas(configs, secrets, n, generation, Stale) && !SomeHas(configs, secrets, n, generation, Foreign)
      && !SomeHas(configs, secrets, n, generation, Unrecorded) && SomeHas(configs, secrets, n, generation, Current)
  {
    ListingIsEmptyIff(configs, secrets, n, generation, Stale);
    ListingIsEmptyIff(configs, secrets, n, generation, Foreign);
    ListingIsEmptyIff(configs, secrets, n, generation, Unrecorded);
    ListingIsEmptyIff(configs, secrets, n, generation, Current);
    OutrankingActive(
      Listing(configs, secrets, n, generation, Stale), Listing(configs, secrets, n, generation, Foreign),
      Listing(configs, secrets, n, generation, Unrecorded), Listing(configs, secrets, n, generation, Current));
  }

  /** Active exactly when some Config that consults the ENC has a Secret of the current
      generation, and every such Config that has a Secret has one of it. */
  lemma ActiveIff(configs: set<Config>, secrets: Secrets, n: Name, generation: int)
    ensures VerdictOn(configs, secrets, n, generation).phase == Active <==>
      && SomeHas(configs, secrets, n, generation, Current)
      && (forall c :: c in Referring(configs, n) && c.externalNodesCommand == "" && SecretName(c) in secrets ==>
           StandingOf(c, secrets, n, generation) == Current)
  {
    VerdictActive(configs, secrets, n, generation);
    OneOfFour(configs, secrets, n, generation);
    if c :| c in Referring(configs, n) && StandingOf(c, secrets, n, generation) == Current {
      assert c.externalNodesCommand == "";
    }
  }

  /** A Config that consults the ENC and has a Secret. */
  ghost predicate Consulting(configs: set<Config>, secrets: Secrets, n: Name, c: Config) {
    c in configs && c.classifierRef == n && c.externalNodesCommand == "" && c.name + "-enc" in secrets
  }

  ghost predicate SomeStale(configs: set<Config>, secrets: Secrets, n: Name, generation: int) {
    exists c :: Consulting(configs, secrets, n, c)
      && RenderedGeneration(secrets[c.name + "-enc"], n).Some?
      && RenderedGeneration(secrets[c.name + "-enc"], n) != Some(generation)
  }

  ghost predicate SomeForeign(configs: set<Config>, secrets: Secrets, n: Name) {
    exists c :: Consulting(configs, secrets, n, c)
      && KEY in secrets[c.name + "-enc"] && RenderedGeneration(secrets[c.name + "-enc"], n).None?
  }

  ghost predicate SomeUnrecorded(configs: set<Config>, secrets: Secrets, n: Name) {
    exists c :: Consulting(configs, secrets, n, c) && KEY !in secrets[c.name + "-enc"]
  }

  ghost predicate SomeRendered(configs: set<Config>, secrets: Secrets, n: Name, generation: int) {
    exists c :: Consulting(configs, secrets, n, c)
      && RenderedGeneration(secrets[c.name + "-enc"], n) == Some(generation)
  }

  /** What the standings are in terms of the Secrets. */
  lemma StandingsMean(configs: set<Config>, secrets: Secrets, n: Name, generation: int)
    ensures SomeHas(configs, secrets, n, generation, Stale) <==> SomeStale(configs, secrets, n, generation)
    ensures SomeHas(configs, secrets, n, generation, Foreign) <==> SomeForeign(configs, secrets, n)
    ensures SomeHas(configs, secrets, n, generation, Unrecorded) <==> SomeUnrecorded(configs, secrets, n)
    ensures SomeHas(configs, secrets, n, generation, Current) <==> SomeRendered(configs, secrets, n, generation)
  {
    forall c | c in configs
      ensures c in Referring(configs, n) <==> c.classifierRef == n
      ensures Consulting(configs, secrets, n, c) <==>
        c in Referring(configs, n) && StandingOf(c, secrets, n, generation) in {Stale, Foreign, Unrecorded, Current}
    {
    }
  }

  /** Which finding outranks which: a stale Secret, a foreign one, one without a record, a
      current one, none; and above all of them no Config, or none that consults the ENC. */
  lemma ReasonIff(configs: set<Config>, secrets: Secrets, n: Name, generation: int)
    requires exists c :: c in configs && c.classifierRef == n && c.externalNodesCommand == ""
    ensures var reason := VerdictOn(configs, secrets, n, generation).reason;
      && (reason == RenderedConfigStale <==> SomeStale(configs, secrets, n, generation))
      && (reason == RenderedConfigSourceUnknown <==>
           !SomeStale(configs, secrets, n, generation) && !SomeForeign(configs, secrets, n)
           && SomeUnrecorded(configs, secrets, n))
      && (reason == Rendered <==>
           !SomeStale(configs, secrets, n, generation) && !SomeForeign(configs, secrets, n)
           && !SomeUnrecorded(configs, secrets, n) && SomeRendered(configs, secrets, n, generation))
      && (reason == NotRendered <==>
           !SomeStale(configs, secrets, n, generation)
           && (SomeForeign(configs, secrets, n)
               || (!SomeUnrecorded(configs, secrets, n) && !SomeRendered(configs, secrets, n, generation))))
  {
    var c :| c in configs && c.classifierRef == n && c.externalNodesCommand == "";
    assert c in Referring(configs, n);
    StandingsMean(configs, secrets, n, generation);
    ListingIsEmptyIff(configs, secrets, n, generation, Stale);
    ListingIsEmptyIff(configs, secrets, n, generation, Foreign);
    ListingIsEmptyIff(configs, secrets, n, generation, Unrecorded);
    ListingIsEmptyIff(configs, secrets, n, generation, Current);
  }

  /** The two verdicts that need no Secret. */
  lemma ReasonWithoutSecrets(configs: set<Config>, secrets: Secrets, n: Name, generation: int)
    ensures (forall c :: c in configs ==> c.classifierRef != n) <==>
      VerdictOn(configs, secrets, n, generation).reason == NoConfig
    ensures VerdictOn(configs, secrets, n, generation).reason == OverriddenByExternalNodesCommand <==>
      && (exists c :: c in configs && c.classifierRef == n)
      && (forall c :: c in configs && c.classifierRef == n ==> c.externalNodesCommand != "")
    ensures VerdictOn(configs, secrets, n, generation).phase
         == match VerdictOn(configs, secrets, n, generation).reason
            case OverriddenByExternalNodesCommand => Disabled
            case Rendered => Active
            case _ => Error
  {
    ReferringIff(configs, n);
  }

  lemma ReferringIff(configs: set<Config>, n: Name)
    ensures Referring(configs, n) == {} <==> forall c :: c in configs ==> c.classifierRef != n
  {
    if Referring(configs, n) != {} {
      var c :| c in Referring(configs, n);
      assert c in configs;
    }
    forall c | c in configs && c.classifierRef == n ensures c in Referring(configs, n) {
    }
  }

  lemma OneOfFour(configs: set<Config>, secrets: Secrets, n: Name, generation: int)
    ensures (forall c :: c in Referring(configs, n) && c.externalNodesCommand == "" && SecretName(c) in secrets ==>
              StandingOf(c, secrets, n, generation) == Current) <==>
      !SomeHas(configs, secrets, n, generation, Stale) && !SomeHas(configs, secrets, n, generation, Foreign)
      && !SomeHas(configs, secrets, n, generation, Unrecorded)
  {
  }

  ghost predicate ConfigNamesDiffer(listing: seq<Config>) {
    forall i, j :: 0 <= i < j < |listing| ==> listing[i].name != listing[j].name
  }

  lemma SecretNamesDiffer(a: Config, b: Config)
    requires a.name != b.name
    ensures SecretName(a) != SecretName(b)
  {
    assert SecretName(a)[..|a.name|] == a.name && SecretName(b)[..|b.name|] == b.name;
  }

  ghost predicate InSlice(x: Name, listing: seq<Config>, secrets: Secrets, n: Name, generation: int, st: Standing) {
    exists c :: c in listing && StandingOf(c, secrets, n, generation) == st && x == SecretName(c)
  }

  /** One of the four slices observe fills. */
  ghost predicate Collects(
    names: seq<Name>, listing: seq<Config>, secrets: Secrets, n: Name, generation: int, st: Standing)
  {
    Distinct(names) && forall x :: x in names <==> InSlice(x, listing, secrets, n, generation, st)
  }

  /** Sorted, it is the listing of its set. */
  lemma SortedSlice(
    names: seq<Name>, listing: seq<Config>, configs: set<Config>, secrets: Secrets,
    n: Name, generation: int, st: Standing)
    requires Collects(names, listing, secrets, n, generation, st)
    requires forall c :: c in listing <==> c in Referring(configs, n)
    ensures SortStrings(names) == Listing(configs, secrets, n, generation, st)
  {
    SortDistinct(names);
    forall x ensures x in Elements(names) <==> x in Having(configs, secrets, n, generation, st) {
      assert x in names <==> InSlice(x, listing, secrets, n, generation, st);
      if c :| c in Referring(configs, n) && StandingOf(c, secrets, n, generation) == st && x == SecretName(c) {
        assert c in listing;
      }
    }
    assert Elements(names) == Having(configs, secrets, n, generation, st);
    ListingIsSorted(SortStrings(names), Having(configs, secrets, n, generation, st));
  }

  lemma SliceOfMore(x: Name, listing: seq<Config>, i: nat, secrets: Secrets, n: Name, generation: int, st: Standing)
    requires i < |listing|
    ensures InSlice(x, listing[..i + 1], secrets, n, generation, st) <==>
      InSlice(x, listing[..i], secrets, n, generation, st)
      || (StandingOf(listing[i], secrets, n, generation) == st && x == SecretName(listing[i]))
  {
    assert listing[..i + 1] == listing[..i] + [listing[i]];
  }

  /** The slice grows by the Secret of the next Config, or stays. */
  lemma CollectsMore(
    names: seq<Name>, names': seq<Name>, listing: seq<Config>, i: nat, secrets: Secrets,
    n: Name, generation: int, st: Standing)
    requires i < |listing| && ConfigNamesDiffer(listing)
    requires Collects(names, listing[..i], secrets, n, generation, st)
    requires names' == names
      + if StandingOf(listing[i], secrets, n, generation) == st then [SecretName(listing[i])] else []
    ensures Collects(names', listing[..i + 1], secrets, n, generation, st)
  {
    var c := listing[i];
    forall x | x in names ensures x != SecretName(c) {
      assert InSlice(x, listing[..i], secrets, n, generation, st);
      var d :| d in listing[..i] && StandingOf(d, secrets, n, generation) == st && x == SecretName(d);
      var j :| 0 <= j < i && listing[j] == d;
      SecretNamesDiffer(d, c);
    }
    forall j, k | 0 <= j < k < |names'| ensures names'[j] != names'[k] {
      assert names'[j] in names;
    }
    forall x ensures x in names' <==> InSlice(x, listing[..i + 1], secrets, n, generation, st) {
      SliceOfMore(x, listing, i, secrets, n, generation, st);
      assert x in names <==> InSlice(x, listing[..i], secrets, n, generation, st);
    }
  }

  /** Some Secret the verdict needs cannot be read. */
  ghost predicate LookupFails(configs: set<Config>, unreadable: set<Name>, n: Name) {
    exists c :: c in Referring(configs, n) && c.externalNodesCommand == "" && SecretName(c) in unreadable
  }

  /** observe over the index entry of the classifier, in whatever order it comes: the
      verdict is a function of the set of Configs. None, when the listing or a Secret that
      is needed cannot be read, leaves the status as it is. */
  method Observe(
    configs: set<Config>, listed: Option<seq<Config>>, secrets: Secrets, unreadable: set<Name>, n: Name, generation: int)
    returns (v: Option<Verdict>)
    requires listed.Some? ==>
      ConfigNamesDiffer(listed.value) && forall c :: c in listed.value <==> c in Referring(configs, n)
    ensures listed.None? || LookupFails(configs, unreadable, n) ==> v == None
    ensures listed.Some? && !LookupFails(configs, unreadable, n) ==> v == Some(VerdictOn(configs, secrets, n, generation))
  {
    if listed.None? { return None; }
    var listing := listed.value;
    if |listing| == 0 {
      assert Referring(configs, n) == {};
      return Some(Verdict(Error, NoConfig, ""));
    }
    assert listing[0] in Referring(configs, n);
    var bypassed := AllOverride(listing, (c: Config) => c.externalNodesCommand);
    if bypassed { return Some(Verdict(Disabled, OverriddenByExternalNodesCommand, "")); }
    v := Weigh(configs, listing, secrets, unreadable, n, generation);
  }

  /** observe from the loop on. */
  method Weigh(
    configs: set<Config>, listing: seq<Config>, secrets: Secrets, unreadable: set<Name>, n: Name, generation: int)
    returns (v: Option<Verdict>)
    requires ConfigNamesDiffer(listing) && forall c :: c in listing <==> c in Referring(configs, n)
    ensures LookupFails(configs, unreadable, n) ==> v == None
    ensures !LookupFails(configs, unreadable, n) ==> v == Some(Outranking(
      Listing(configs, secrets, n, generation, Stale), Listing(configs, secrets, n, generation, Foreign),
      Listing(configs, secrets, n, generation, Unrecorded), Listing(configs, secrets, n, generation, Current)))
  {
    var failed, rendered, stale, unrecorded, foreign := Classify(listing, secrets, unreadable, n, generation);
    assert failed <==> LookupFails(configs, unreadable, n);
    if failed { return None; }
    SortedSlice(rendered, listing, configs, secrets, n, generation, Current);
    SortedSlice(stale, listing, configs, secrets, n, generation, Stale);
    SortedSlice(unrecorded, listing, configs, secrets, n, generation, Unrecorded);
    SortedSlice(foreign, listing, configs, secrets, n, generation, Foreign);
    rendered := SortStrings(rendered);
    stale := SortStrings(stale);
    unrecorded := SortStrings(unrecorded);
    foreign := SortStrings(foreign);
    if |stale| > 0 { return Some(Verdict(Error, RenderedConfigStale, JoinComma(stale))); }
    if |foreign| > 0 { return Some(Verdict(Error, NotRendered, JoinComma(foreign))); }
    if |unrecorded| > 0 { return Some(Verdict(Error, RenderedConfigSourceUnknown, JoinComma(unrecorded))); }
    if |rendered| > 0 { return Some(Verdict(Active, Rendered, JoinComma(rendered))); }
    return Some(Verdict(Error, NotRendered, ""));
  }

  /** The loop of observe, left at the first lookup that fails. */
  method Classify(listing: seq<Config>, secrets: Secrets, unreadable: set<Name>, n: Name, generation: int)
    returns (failed: bool, rendered: seq<Name>, stale: seq<Name>, unrecorded: seq<Name>, foreign: seq<Name>)
    requires ConfigNamesDiffer(listing)
    ensures failed <==> exists c :: c in listing && c.externalNodesCommand == "" && SecretName(c) in unreadable
    ensures !failed ==>
      && Collects(rendered, listing, secrets, n, generation, Current)
      && Collects(stale, listing, secrets, n, generation, Stale)
      && Collects(unrecorded, listing, secrets, n, generation, Unrecorded)
      && Collects(foreign, listing, secrets, n, generation, Foreign)
  {
    failed := false;
    rendered, stale, unrecorded, foreign := [], [], [], [];
    for i := 0 to |listing|
      invariant forall c :: c in listing[..i] && c.externalNodesCommand == "" ==> SecretName(c) !in unreadable
      invariant Collects(rendered, listing[..i], secrets, n, generation, Current)
      invariant Collects(stale, listing[..i], secrets, n, generation, Stale)
      invariant Collects(unrecorded, listing[..i], secrets, n, generation, Unrecorded)
      invariant Collects(foreign, listing[..i], secrets, n, generation, Foreign)
    {
      var cfg := listing[i];
      if cfg.externalNodesCommand == "" && SecretName(cfg) in unreadable {
        failed := true;
        return;
      }
      ghost var r, s, u, f := rendered, stale, unrecorded, foreign;
      if cfg.externalNodesCommand == "" && SecretName(cfg) in secrets {
        var annotations := secrets[SecretName(cfg)];
        if !RenderedSourceRecorded(annotations) {
          unrecorded := unrecorded + [SecretName(cfg)];
        } else {
          var found := RenderedGeneration(annotations, n);
          if found.None? {
            foreign := foreign + [SecretName(cfg)];
          } else if found.value != generation {
            stale := stale + [SecretName(cfg)];
          } else {
            rendered := rendered + [SecretName(cfg)];
          }
        }
      }
      CollectsMore(r, rendered, listing, i, secrets, n, generation, Current);
      CollectsMore(s, stale, listing, i, secrets, n, generation, Stale);
      CollectsMore(u, unrecorded, listing, i, secrets, n, generation, Unrecorded);
      CollectsMore(f, foreign, listing, i, secrets, n, generation, Foreign);
    }
    assert listing[..|listing|] == listing;
  }

  // ---------- what the Secret watch reaches ----------

  /** nodeClassifiersForSecret on the old and the new object. */
  predicate Reaches(before: Option<Annotations>, after: Option<Annotations>, n: Name) {
    n in Requested(before) || n in Requested(after)
  }

  function At(secrets: Secrets, x: Name): Option<Annotations> {
    if x in secrets then Some(secrets[x]) else None
  }

  /** A Secret change the watch does not bring to the classifier leaves the Configs whose
      Secret is current, and those whose Secret is stale, as they were. */
  lemma UnreachedKeepsOwnRenders(secrets: Secrets, secrets': Secrets, x: Name, c: Config, n: Name, generation: int)
    requires n != "" && forall y :: y != x ==> At(secrets', y) == At(secrets, y)
    requires !Reaches(At(secrets, x), At(secrets', x), n)
    ensures StandingOf(c, secrets', n, generation) == Current <==> StandingOf(c, secrets, n, generation) == Current
    ensures StandingOf(c, secrets', n, generation) == Stale <==> StandingOf(c, secrets, n, generation) == Stale
  {
    if SecretName(c) == x {
      if x in secrets && RenderedGeneration(secrets[x], n).Some? { RecordedIsRequested(secrets[x], n); }
      if x in secrets' && RenderedGeneration(secrets'[x], n).Some? { RecordedIsRequested(secrets'[x], n); }
    } else {
      assert At(secrets', SecretName(c)) == At(secrets, SecretName(c));
    }
  }

  lemma NotActive(configs: set<Config>, secrets: Secrets, n: Name, generation: int)
    requires VerdictOn(configs, secrets, n, generation).phase != Active
    ensures VerdictOn(configs, secrets, n, generation).phase
         == if Referring(configs, n) != {} && AllBypassed(configs, n) then Disabled else Error
  {
    OutrankingActive(
      Listing(configs, secrets, n, generation, Stale), Listing(configs, secrets, n, generation, Foreign),
      Listing(configs, secrets, n, generation, Unrecorded), Listing(configs, secrets, n, generation, Current));
  }

  /** So a rewrite of a Secret that does not reach the classifier keeps its phase; only
      a Secret that comes or goes can change it. */
  lemma UnreachedRewriteKeepsPhase(
    configs: set<Config>, secrets: Secrets, secrets': Secrets, x: Name, n: Name, generation: int)
    requires n != "" && forall y :: y != x ==> At(secrets', y) == At(secrets, y)
    requires !Reaches(At(secrets, x), At(secrets', x), n)
    requires x in secrets <==> x in secrets'
    ensures VerdictOn(configs, secrets', n, generation).phase == VerdictOn(configs, secrets, n, generation).phase
  {
    SameCurrent(configs, secrets, secrets', x, n, generation);
    forall c | c in Referring(configs, n) ensures SecretName(c) in secrets' <==> SecretName(c) in secrets {
      assert At(secrets', SecretName(c)) == At(secrets, SecretName(c)) || SecretName(c) == x;
    }
    ActiveIff(configs, secrets, n, generation);
    ActiveIff(configs, secrets', n, generation);
    if VerdictOn(configs, secrets, n, generation).phase != Active {
      NotActive(configs, secrets, n, generation);
      NotActive(configs, secrets', n, generation);
    }
  }

  /** A Config that consults the ENC through the Secret x. */
  predicate ConsultsThrough(c: Config, x: Name) {
    c.externalNodesCommand == "" && SecretName(c) == x
  }

  /** The Secret x alone decides between Active and Error: some Config has a current
      Secret, a consulting Config would use x, and all others are current or bare. */
  ghost predicate TipsOver(configs: set<Config>, secrets: Secrets, x: Name, n: Name, generation: int) {
    && SomeHas(configs, secrets, n, generation, Current)
    && (exists c :: c in Referring(configs, n) && ConsultsThrough(c, x))
    && OthersCurrent(configs, secrets, x, n, generation)
  }

  ghost predicate OthersCurrent(configs: set<Config>, secrets: Secrets, x: Name, n: Name, generation: int) {
    forall c :: c in Referring(configs, n) && c.externalNodesCommand == "" && SecretName(c) in secrets - {x} ==>
      StandingOf(c, secrets, n, generation) == Current
  }

  lemma PresentForeignHoldsBack(configs: set<Config>, secrets: Secrets, x: Name, c: Config, n: Name, generation: int)
    requires n != "" && x in secrets && n !in Requested(Some(secrets[x]))
    requires c in Referring(configs, n) && ConsultsThrough(c, x)
    ensures VerdictOn(configs, secrets, n, generation).phase == Error
  {
    if RenderedGeneration(secrets[x], n).Some? { RecordedIsRequested(secrets[x], n); }
    assert StandingOf(c, secrets, n, generation) != Current;
    ActiveIff(configs, secrets, n, generation);
    NotActive(configs, secrets, n, generation);
  }

  lemma WithoutIt(configs: set<Config>, secrets: Secrets, x: Name, n: Name, generation: int)
    requires n != "" && x in secrets && n !in Requested(Some(secrets[x]))
    requires exists c :: c in Referring(configs, n) && ConsultsThrough(c, x)
    ensures VerdictOn(configs, secrets - {x}, n, generation).phase == Active
       <==> TipsOver(configs, secrets, x, n, generation)
  {
    var after := secrets - {x};
    assert forall y :: y != x ==> At(after, y) == At(secrets, y);
    SameCurrent(configs, secrets, after, x, n, generation);
    ActiveIff(configs, after, n, generation);
  }

  /** An unreached change leaves the set of Configs whose Secret is current. */
  lemma SameCurrent(configs: set<Config>, secrets: Secrets, secrets': Secrets, x: Name, n: Name, generation: int)
    requires n != "" && forall y :: y != x ==> At(secrets', y) == At(secrets, y)
    requires !Reaches(At(secrets, x), At(secrets', x), n)
    ensures forall c :: c in Referring(configs, n) ==>
      (StandingOf(c, secrets', n, generation) == Current <==> StandingOf(c, secrets, n, generation) == Current)
    ensures SomeHas(configs, secrets', n, generation, Current) <==> SomeHas(configs, secrets, n, generation, Current)
  {
    forall c | c in Referring(configs, n)
      ensures StandingOf(c, secrets', n, generation) == Current <==> StandingOf(c, secrets, n, generation) == Current
    {
      UnreachedKeepsOwnRenders(secrets, secrets', x, c, n, generation);
    }
  }

  lemma UnusedSecretKeepsPhase(configs: set<Config>, secrets: Secrets, x: Name, n: Name, generation: int)
    requires forall c :: c in Referring(configs, n) ==> !ConsultsThrough(c, x)
    ensures VerdictOn(configs, secrets - {x}, n, generation).phase == VerdictOn(configs, secrets, n, generation).phase
  {
    var after := secrets - {x};
    forall c | c in Referring(configs, n)
      ensures StandingOf(c, after, n, generation) == StandingOf(c, secrets, n, generation)
    {
    }
    SameStandings(configs, secrets, after, n, generation);
  }

  lemma SameStandings(configs: set<Config>, secrets: Secrets, secrets': Secrets, n: Name, generation: int)
    requires forall c :: c in Referring(configs, n) ==>
      StandingOf(c, secrets', n, generation) == StandingOf(c, secrets, n, generation)
    ensures VerdictOn(configs, secrets', n, generation).phase == VerdictOn(configs, secrets, n, generation).phase
  {
    forall st ensures SomeHas(configs, secrets', n, generation, st) <==> SomeHas(configs, secrets, n, generation, st) {
    }
    VerdictActive(configs, secrets, n, generation);
    VerdictActive(configs, secrets', n, generation);
    if VerdictOn(configs, secrets, n, generation).phase != Active {
      NotActive(configs, secrets, n, generation);
      NotActive(configs, secrets', n, generation);
    }
  }

  /** A Secret that is removed without the watch telling the classifier changes the phase
      exactly when it alone held Active back. */
  lemma UnreachedRemovalChangesPhaseIff(configs: set<Config>, secrets: Secrets, x: Name, n: Name, generation: int)
    requires n != "" && x in secrets && !Reaches(Some(secrets[x]), None, n)
    ensures VerdictOn(configs, secrets - {x}, n, generation).phase != VerdictOn(configs, secrets, n, generation).phase
       <==> TipsOver(configs, secrets, x, n, generation)
  {
    if c :| c in Referring(configs, n) && ConsultsThrough(c, x) {
      PresentForeignHoldsBack(configs, secrets, x, c, n, generation);
      WithoutIt(configs, secrets, x, n, generation);
      if VerdictOn(configs, secrets - {x}, n, generation).phase != Active {
        NotActive(configs, secrets - {x}, n, generation);
      }
    } else {
      UnusedSecretKeepsPhase(configs, secrets, x, n, generation);
    }
  }

  /** One that arrives unnoticed changes the phase exactly when the classifier was Active
      and a consulting Config uses it. */
  lemma UnreachedArrivalChangesPhaseIff(
    configs: set<Config>, secrets: Secrets, x: Name, a: Annotations, n: Name, generation: int)
    requires n != "" && x !in secrets && !Reaches(None, Some(a), n)
    ensures VerdictOn(configs, secrets[x := a], n, generation).phase != VerdictOn(configs, secrets, n, generation).phase
       <==> VerdictOn(configs, secrets, n, generation).phase == Active
              && exists c :: c in Referring(configs, n) && ConsultsThrough(c, x)
  {
    var after := secrets[x := a];
    assert after - {x} == secrets;
    UnreachedRemovalChangesPhaseIff(configs, after, x, n, generation);
    if exists c :: c in Referring(configs, n) && ConsultsThrough(c, x) {
      WithoutIt(configs, after, x, n, generation);
    }
  }

  /** The annotation of one source speaks of that source only. */
  lemma TellsApart(n: Name, other: Name, a: Annotations, b: Annotations)
    requires n != "" && WellFormedSource(Source(n, 1)) && WellFormedSource(Source(other, 1)) && n != other
    requires a == map[KEY := AnnotationValue([Source(n, 1)])]
    requires b == map[KEY := AnnotationValue([Source(other, 1)])]
    ensures KEY in a && RenderedGeneration(a, n) == Some(1)
    ensures KEY in b && RenderedGeneration(b, n) == None && n !in Requested(Some(b))
  {
    GenerationReadsBack([Source(n, 1)], a, n);
    GenerationReadsBack([Source(other, 1)], b, n);
    RequestsReadBack([Source(other, 1)]);
    assert Source(n, 1) in [Source(n, 1)];
    assert forall g :: Source(n, g) !in [Source(other, 1)];
    assert forall g :: RenderedGeneration(b, n) != Some(g);
  }

  /** Such a Secret: beside a Config on the current generation, one left over from another
      classifier. Its removal turns Error into Active, and only the other one is told. */
  lemma UnreachedMayChangeVerdict(p: Config, q: Config, n: Name, other: Name, a: Annotations, b: Annotations)
    requires p.name != q.name && p.classifierRef == q.classifierRef == n
    requires p.externalNodesCommand == q.externalNodesCommand == ""
    requires n != "" && WellFormedSource(Source(n, 1)) && WellFormedSource(Source(other, 1)) && n != other
    requires a == map[KEY := AnnotationValue([Source(n, 1)])]
    requires b == map[KEY := AnnotationValue([Source(other, 1)])]
    ensures var before := map[SecretName(p) := a, SecretName(q) := b];
      && !Reaches(Some(b), None, n)
      && TipsOver({p, q}, before, SecretName(q), n, 1)
      && VerdictOn({p, q}, before, n, 1).phase != VerdictOn({p, q}, before - {SecretName(q)}, n, 1).phase
  {
    SecretNamesDiffer(p, q);
    TellsApart(n, other, a, b);
    var before := map[SecretName(p) := a, SecretName(q) := b];
    assert before[SecretName(q)] == b && StandingOf(p, before, n, 1) == Current;
    TwoTipOver(p, q, before, n);
    UnreachedRemovalChangesPhaseIff({p, q}, before, SecretName(q), n, 1);
  }

  lemma TwoTipOver(p: Config, q: Config, secrets: Secrets, n: Name)
    requires p.classifierRef == q.classifierRef == n && p.externalNodesCommand == q.externalNodesCommand == ""
    requires StandingOf(p, secrets, n, 1) == Current
    ensures TipsOver({p, q}, secrets, SecretName(q), n, 1)
  {
    assert p in Referring({p, q}, n) && q in Referring({p, q}, n);
    assert ConsultsThrough(q, SecretName(q));
  }
}
