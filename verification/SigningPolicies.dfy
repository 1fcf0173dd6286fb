/** SigningPolicies, the autosign policy Secret rendered from them, and the verdict on
    whether a policy is in effect: internal/controller/signingpolicy_controller.go,
    config_autosign.go and config_controller.go.

    A pass of the Config controller reads the Config in one step, lists the policies in
    another and writes the Secret in a third; an observation reads the policy in one step
    and writes its verdict in a later one. Each controller has its own watches and its own
    queue. A name that was used for a policy is not used for another. */
module SigningPolicies {
  import opened Text
  import opened RenderedSource
  import Autosign

  type Name = string

  datatype ValueSource = Inline(value: string) | FromSecret(secret: Name, key: string)

  datatype AttributeSpec = AttributeSpec(name: string, source: ValueSource)

  /** `block` is what the spec says outright; its attributes are given apart, since their
      values may have to be read from Secrets. */
  datatype Spec = Spec(authority: Name, block: Autosign.Policy, csrAttributes: seq<AttributeSpec>)

  /** The pause annotation is no part of the spec and leaves the generation alone. */
  datatype SigningPolicy = SigningPolicy(generation: int, paused: bool, spec: Spec)

  datatype Config = Config(authority: Name, autosignCommand: string, paused: bool)

  datatype PolicySecret = PolicySecret(config: Autosign.PolicyConfig, annotations: Annotations, owner: Name)

  /** A render that has listed its policies and not yet written the Secret. */
  datatype Render = Render(authority: Name, sources: seq<Source>, blocks: seq<Autosign.Policy>)

  datatype Phase = Error | Disabled | Active

  datatype Status = Status(observed: int, phase: Phase)

  /** What an observation holds of the policy it is about. */
  datatype Looked = Looked(generation: int, authority: Name)

  datatype Change =
    | PolicyChange(name: Name)
    | SecretChange(recordedBefore: Option<Annotations>, recordedAfter: Option<Annotations>)
    | ConfigChange(before: Option<Config>, after: Option<Config>)
    | CaChange(authority: Name)

  /** What the watches of the Config controller are told: a policy or CA that concerns the
      Configs of a CA, or a Config or Secret that concerns one Config. */
  datatype Trigger = AuthorityTrigger(authority: Name) | ConfigTrigger(config: Name)

  /** `history` is the spec every generation of every policy had. */
  datatype State = State(
    policies: map<Name, SigningPolicy>,
    history: map<Source, Spec>,
    configs: map<Name, Config>,
    authorities: set<Name>,
    secrets: map<Name, PolicySecret>,
    reading: map<Name, Config>,
    renders: map<Name, Render>,
    looking: map<Name, Looked>,
    statuses: map<Name, Status>,
    changes: multiset<Change>,
    triggers: multiset<Trigger>,
    queue: set<Name>,
    configQueue: set<Name>)

  // ---------- rendering ----------

  type Values = map<(Name, string), string>

  /** resolveSecretKey for an attribute that refers to a Secret. */
  function ResolveAttribute(values: Values, a: AttributeSpec): Option<Autosign.AttributeMatch> {
    match a.source
    case Inline(value) => Some(Autosign.AttributeMatch(a.name, value))
    case FromSecret(secret, key) =>
      if (secret, key) in values then Some(Autosign.AttributeMatch(a.name, values[(secret, key)])) else None
  }

  predicate Resolvable(values: Values, spec: Spec) {
    forall a :: a in spec.csrAttributes ==> ResolveAttribute(values, a).Some?
  }

  /** The policy block of one policy. */
  function Block(values: Values, n: Name, spec: Spec): Autosign.Policy
    requires Resolvable(values, spec)
  {
    spec.block.(
      name := n,
      csrAttributes := seq(|spec.csrAttributes|, i requires 0 <= i < |spec.csrAttributes| =>
        assert spec.csrAttributes[i] in spec.csrAttributes;
        ResolveAttribute(values, spec.csrAttributes[i]).value))
  }

  /** The block was made from this spec, with what the Secrets held at some moment. */
  ghost predicate MadeFrom(b: Autosign.Policy, n: Name, spec: Spec) {
    exists values :: Resolvable(values, spec) && b == Block(values, n, spec)
  }

  /** The attribute demands the text given, or what the Secret holds under the key. */
  predicate Demands(values: Values, a: AttributeSpec, m: Autosign.AttributeMatch) {
    && m.name == a.name
    && match a.source
       case Inline(value) => m.value == value
       case FromSecret(secret, key) => (secret, key) in values && m.value == values[(secret, key)]
  }

  /** Every Secret the policies of the CA refer to has the key they ask for. */
  ghost predicate ValuesAreThere(policies: map<Name, SigningPolicy>, values: Values, authority: Name) {
    forall n, a ::
      (n in policies && policies[n].spec.authority == authority && a in policies[n].spec.csrAttributes
       && a.source.FromSecret?) ==> (a.source.secret, a.source.key) in values
  }

  /** Block by block what the binary is to read: name, guards and conditions of the spec, and
      each attribute with its value. */
  ghost predicate RendersValues(policies: map<Name, SigningPolicy>, values: Values, r: Render) {
    && |r.blocks| == |r.sources|
    && forall i :: 0 <= i < |r.sources| ==> Filled(policies, values, r.sources[i].name, r.blocks[i])
  }

  ghost predicate Filled(policies: map<Name, SigningPolicy>, values: Values, n: Name, b: Autosign.Policy) {
    && n in policies && b.name == n
    && b == policies[n].spec.block.(name := n, csrAttributes := b.csrAttributes)
    && |b.csrAttributes| == |policies[n].spec.csrAttributes|
    && forall k :: 0 <= k < |b.csrAttributes| ==>
         Demands(values, policies[n].spec.csrAttributes[k], b.csrAttributes[k])
  }

  function OperatorCertname(authority: Name): string {
    authority + "-operator"
  }

  function PoliciesFor(policies: map<Name, SigningPolicy>, authority: Name): set<Name> {
    set n | n in policies && policies[n].spec.authority == authority
  }

  /** Sources and blocks of the policies bound to the CA, in the order of their names. */
  ghost predicate RendersFrom(policies: map<Name, SigningPolicy>, r: Render) {
    var names := SortedListing(PoliciesFor(policies, r.authority));
    && |r.sources| == |names| && |r.blocks| == |names|
    && forall i :: 0 <= i < |names| ==>
         && names[i] in policies
         && r.sources[i] == Source(names[i], policies[names[i]].generation)
         && MadeFrom(r.blocks[i], names[i], policies[names[i]].spec)
  }

  // ---------- the verdict ----------

  predicate Referenced(configs: map<Name, Config>, authority: Name) {
    exists c :: c in configs && configs[c].authority == authority
  }

  predicate AllBypass(configs: map<Name, Config>, authority: Name) {
    forall c :: c in configs && configs[c].authority == authority ==> configs[c].autosignCommand != ""
  }

  predicate RenderedAt(secrets: map<Name, PolicySecret>, authority: Name, n: Name, generation: int) {
    authority in secrets && RenderedGeneration(secrets[authority].annotations, n) == Some(generation)
  }

  ghost function Verdict(s: State, n: Name, l: Looked): Phase {
    if l.authority == "" || l.authority !in s.authorities || !Referenced(s.configs, l.authority) then Error
    else if AllBypass(s.configs, l.authority) then Disabled
    else if RenderedAt(s.secrets, l.authority, n, l.generation) then Active
    else Error
  }

  function LookNow(p: SigningPolicy): Looked {
    Looked(p.generation, p.spec.authority)
  }

  // ---------- the watches ----------

  /** signingPoliciesForConfig. */
  function BoundTo(policies: map<Name, SigningPolicy>, c: Option<Config>): set<Name> {
    if c.None? || c.value.authority == "" then {} else PoliciesFor(policies, c.value.authority)
  }

  /** Everything one change enqueues; updates are mapped on the old and the new object. */
  function Reached(policies: map<Name, SigningPolicy>, c: Change): set<Name> {
    match c
    case PolicyChange(n) => {n}
    case SecretChange(before, after) => Requested(before) + Requested(after)
    case ConfigChange(before, after) => BoundTo(policies, before) + BoundTo(policies, after)
    case CaChange(authority) => PoliciesFor(policies, authority)
  }

  /** enqueueConfigsForSigningPolicy and enqueueConfigsForCertificateAuthority, or the
      Config itself. */
  function Triggered(configs: map<Name, Config>, t: Trigger): set<Name> {
    match t
    case AuthorityTrigger(a) => if a == "" then {} else set c | c in configs && configs[c].authority == a
    case ConfigTrigger(c) => {c}
  }

  function PolicyTriggers(policies: map<Name, SigningPolicy>, n: Name): multiset<Trigger> {
    if n in policies then multiset{AuthorityTrigger(policies[n].spec.authority)} else multiset{}
  }

  function OwnerTriggers(secrets: map<Name, PolicySecret>, authority: Name): multiset<Trigger> {
    if authority in secrets then multiset{ConfigTrigger(secrets[authority].owner)} else multiset{}
  }

  ghost predicate Covered(s: State, n: Name) {
    n in s.queue || exists c :: c in s.changes && n in Reached(s.policies, c)
  }

  // ---------- the steps ----------

  predicate ValidName(n: Name) {
    n != "" && ',' !in n && '=' !in n
  }

  /** A policy is created at generation 1 or edited, which counts the generation up. */
  predicate PolicyWritten(s: State, s': State, n: Name, p: SigningPolicy) {
    && ValidName(n) && IsInt64(p.generation)
    && (if n in s.policies then p.generation == s.policies[n].generation + 1
        else p.generation == 1 && forall k :: k in s.history ==> k.name != n)
    && s' == s.(
      policies := s.policies[n := p],
      history := s.history[Source(n, p.generation) := p.spec],
      changes := s.changes + multiset{PolicyChange(n)},
      triggers := s.triggers + PolicyTriggers(s.policies, n) + multiset{AuthorityTrigger(p.spec.authority)})
  }

  predicate PolicyPaused(s: State, s': State, n: Name, paused: bool) {
    n in s.policies
    && s' == s.(
      policies := s.policies[n := s.policies[n].(paused := paused)],
      changes := s.changes + multiset{PolicyChange(n)},
      triggers := s.triggers + PolicyTriggers(s.policies, n))
  }

  predicate PolicyDeleted(s: State, s': State, n: Name) {
    s' == s.(
      policies := s.policies - {n},
      statuses := s.statuses - {n},
      changes := s.changes + multiset{PolicyChange(n)},
      triggers := s.triggers + PolicyTriggers(s.policies, n))
  }

  predicate ConfigWritten(s: State, s': State, c: Name, after: Option<Config>) {
    s' == s.(
      configs := if after.Some? then s.configs[c := after.value] else s.configs - {c},
      changes := s.changes + multiset{ConfigChange(if c in s.configs then Some(s.configs[c]) else None, after)},
      triggers := s.triggers + multiset{ConfigTrigger(c)})
  }

  predicate CaWritten(s: State, s': State, authority: Name, present: bool) {
    s' == s.(
      authorities := if present then s.authorities + {authority} else s.authorities - {authority},
      changes := s.changes + multiset{CaChange(authority)},
      triggers := s.triggers + multiset{AuthorityTrigger(authority)})
  }

  function AnnotationsAt(secrets: map<Name, PolicySecret>, authority: Name): Option<Annotations> {
    if authority in secrets then Some(secrets[authority].annotations) else None
  }

  predicate SecretDeleted(s: State, s': State, authority: Name) {
    s' == s.(
      secrets := s.secrets - {authority},
      changes := s.changes + multiset{SecretChange(AnnotationsAt(s.secrets, authority), None)},
      triggers := s.triggers + OwnerTriggers(s.secrets, authority))
  }

  predicate Busy(s: State, c: Name) {
    c in s.reading || c in s.renders
  }

  predicate RenderBegan(s: State, s': State, c: Name) {
    && c in s.configQueue && !Busy(s, c) && c in s.configs && !s.configs[c].paused
    && s' == s.(configQueue := s.configQueue - {c}, reading := s.reading[c := s.configs[c]])
  }

  /** The Config is gone or paused. */
  predicate RenderSkipped(s: State, s': State, c: Name) {
    && c in s.configQueue && !Busy(s, c) && (c in s.configs ==> s.configs[c].paused)
    && s' == s.(configQueue := s.configQueue - {c})
  }

  predicate MayRender(authorities: set<Name>, c: Config) {
    c.authority != "" && c.authority in authorities && c.autosignCommand == ""
  }

  /** There is nothing to render for this Config. */
  predicate RenderNotNeeded(s: State, s': State, c: Name) {
    && c in s.reading && !MayRender(s.authorities, s.reading[c])
    && s' == s.(reading := s.reading - {c})
  }

  ghost predicate RenderListed(s: State, s': State, c: Name, r: Render) {
    && c in s.reading && MayRender(s.authorities, s.reading[c])
    && r.authority == s.reading[c].authority && RendersFrom(s.policies, r)
    && s' == s.(reading := s.reading - {c}, renders := s.renders[c := r])
  }

  function Refreshed(secrets: map<Name, PolicySecret>, c: Name, r: Render): PolicySecret {
    var before := AnnotationsAt(secrets, r.authority);
    PolicySecret(Autosign.PolicyConfig([OperatorCertname(r.authority)], r.blocks),
                 (if before.Some? then before.value else map[])[KEY := AnnotationValue(r.sources)], c)
  }

  /** Data and annotation go in one update, unless another Config owns the Secret. An
      update that changes nothing is no event. */
  predicate RenderWritten(s: State, s': State, c: Name) {
    && c in s.renders
    && var r := s.renders[c];
      (r.authority in s.secrets ==> s.secrets[r.authority].owner == c)
      && var after := Refreshed(s.secrets, c, r);
        var same := r.authority in s.secrets && s.secrets[r.authority] == after;
        s' == s.(
          secrets := s.secrets[r.authority := after],
          renders := s.renders - {c},
          changes := s.changes
            + (if same then multiset{}
               else multiset{SecretChange(AnnotationsAt(s.secrets, r.authority), Some(after.annotations))}),
          triggers := s.triggers + if same then multiset{} else multiset{ConfigTrigger(c)})
  }

  /** An attribute that does not resolve, a foreign Secret, a failing call or a restart:
      the Config is looked at again. */
  predicate RenderDropped(s: State, s': State, c: Name) {
    s' == s.(reading := s.reading - {c}, renders := s.renders - {c}, configQueue := s.configQueue + {c})
  }

  predicate ConfigsEnqueued(s: State, s': State, t: Trigger) {
    t in s.triggers
    && s' == s.(triggers := s.triggers - multiset{t}, configQueue := s.configQueue + Triggered(s.configs, t))
  }

  /** A resync, a timer, or an event that concerns neither Secret nor status. */
  predicate Resynced(s: State, s': State, policies: set<Name>, configs: set<Name>) {
    s' == s.(queue := s.queue + policies, configQueue := s.configQueue + configs)
  }

  predicate ObserveBegan(s: State, s': State, n: Name) {
    n in s.queue && n in s.policies && !s.policies[n].paused
    && s' == s.(queue := s.queue - {n}, looking := s.looking[n := LookNow(s.policies[n])])
  }

  /** The verdict of the policy as it was read goes under the generation it had. */
  ghost predicate ObserveEnded(s: State, s': State, n: Name) {
    && n in s.looking && n in s.policies
    && var l := s.looking[n];
      s' == s.(
        looking := s.looking - {n},
        statuses := s.statuses[n := Status(l.generation, Verdict(s, n, l))],
        changes := s'.changes)
      && (s'.changes == s.changes + multiset{PolicyChange(n)}
          || (s'.changes == s.changes && s'.statuses == s.statuses))
  }

  /** A lookup failed: the status stays and the policy is looked at again. */
  predicate ObserveFailed(s: State, s': State, n: Name) {
    s' == s.(looking := s.looking - {n}, queue := s.queue + {n})
  }

  /** The policy is gone or paused. */
  predicate ObserveNothing(s: State, s': State, n: Name) {
    (n in s.policies ==> s.policies[n].paused) && s' == s.(looking := s.looking - {n}, queue := s.queue - {n})
  }

  ghost predicate Delivered(s: State, s': State, c: Change) {
    c in s.changes
    && s' == s.(changes := s.changes - multiset{c}, queue := s.queue + Reached(s.policies, c))
  }

  datatype Event =
    | WritePolicy(name: Name, policy: SigningPolicy)
    | PausePolicy(name: Name, paused: bool)
    | DeletePolicy(name: Name)
    | WriteConfig(name: Name, after: Option<Config>)
    | WriteCa(authority: Name, present: bool)
    | DeleteSecret(authority: Name)
    | BeginRender(config: Name)
    | SkipRender(config: Name)
    | NoRender(config: Name)
    | ListRender(config: Name, render: Render)
    | WriteRender(config: Name)
    | DropRender(config: Name)
    | BeginObserve(name: Name)
    | EndObserve(name: Name)
    | FailObserve(name: Name)
    | SkipObserve(name: Name)
    | Deliver(change: Change)
    | EnqueueConfigs(trigger: Trigger)
    | Resync(policies: set<Name>, configs: set<Name>)

  ghost predicate Step(s: State, e: Event, s': State) {
    match e
    case WritePolicy(n, p) => PolicyWritten(s, s', n, p)
    case PausePolicy(n, paused) => PolicyPaused(s, s', n, paused)
    case DeletePolicy(n) => PolicyDeleted(s, s', n)
    case WriteConfig(c, after) => ConfigWritten(s, s', c, after)
    case WriteCa(a, present) => CaWritten(s, s', a, present)
    case DeleteSecret(a) => SecretDeleted(s, s', a)
    case BeginRender(c) => RenderBegan(s, s', c)
    case SkipRender(c) => RenderSkipped(s, s', c)
    case NoRender(c) => RenderNotNeeded(s, s', c)
    case ListRender(c, r) => RenderListed(s, s', c, r)
    case WriteRender(c) => RenderWritten(s, s', c)
    case DropRender(c) => RenderDropped(s, s', c)
    case BeginObserve(n) => ObserveBegan(s, s', n)
    case EndObserve(n) => ObserveEnded(s, s', n)
    case FailObserve(n) => ObserveFailed(s, s', n)
    case SkipObserve(n) => ObserveNothing(s, s', n)
    case Deliver(c) => Delivered(s, s', c)
    case EnqueueConfigs(t) => ConfigsEnqueued(s, s', t)
    case Resync(policies, configs) => Resynced(s, s', policies, configs)
  }

  /** No policy yet; a Secret that is there was rendered by an operator that did not
      record its sources. At start every Config is enqueued. */
  predicate Init(s: State) {
    && s.policies == map[] && s.history == map[] && s.renders == map[] && s.looking == map[] && s.statuses == map[]
    && s.reading == map[] && s.configQueue == s.configs.Keys
    && forall a :: a in s.secrets ==> KEY !in s.secrets[a].annotations
  }

  /** The state is a first one, or comes from the one before. */
  ghost predicate Follows(run: seq<State>, events: seq<Event>, i: nat)
    requires i < |run| == |events| + 1
  {
    if i == 0 then Init(run[0]) else Step(run[i - 1], events[i - 1], run[i])
  }

  ghost predicate IsRun(run: seq<State>, events: seq<Event>) {
    |run| == |events| + 1 && forall i :: 0 <= i < |run| ==> Follows(run, events, i)
  }

  // ---------- the annotation tells the truth ----------

  ghost predicate HistoryKept(s: State) {
    && (forall n :: n in s.policies ==>
         ValidName(n) && IsInt64(s.policies[n].generation)
         && Source(n, s.policies[n].generation) in s.history
         && s.history[Source(n, s.policies[n].generation)] == s.policies[n].spec)
    && (forall k :: k in s.history && k.name in s.policies ==> k.generation <= s.policies[k.name].generation)
  }

  /** Block by block, the content was made from the recorded generations. */
  ghost predicate FromSources(
    history: map<Source, Spec>, authority: Name, sources: seq<Source>, blocks: seq<Autosign.Policy>)
  {
    && WellFormed(sources) && |blocks| == |sources|
    && forall i :: 0 <= i < |sources| ==>
         && sources[i] in history && history[sources[i]].authority == authority
         && MadeFrom(blocks[i], sources[i].name, history[sources[i]])
  }

  ghost predicate TruthfulSecret(history: map<Source, Spec>, authority: Name, secret: PolicySecret) {
    KEY in secret.annotations ==>
      && secret.config.reservedCertnames == [OperatorCertname(authority)]
      && exists sources ::
           && secret.annotations[KEY] == AnnotationValue(sources)
           && FromSources(history, authority, sources, secret.config.policies)
  }

  ghost predicate TruthfulRenders(history: map<Source, Spec>, renders: map<Name, Render>) {
    forall c :: c in renders ==> FromSources(history, renders[c].authority, renders[c].sources, renders[c].blocks)
  }

  ghost predicate TruthfulSecrets(history: map<Source, Spec>, secrets: map<Name, PolicySecret>) {
    forall a :: a in secrets ==> TruthfulSecret(history, a, secrets[a])
  }

  ghost predicate Truthful(s: State) {
    HistoryKept(s) && TruthfulRenders(s.history, s.renders) && TruthfulSecrets(s.history, s.secrets)
  }

  lemma HistoryGrows(
    h: map<Source, Spec>, h': map<Source, Spec>, a: Name, sources: seq<Source>, blocks: seq<Autosign.Policy>)
    requires FromSources(h, a, sources, blocks)
    requires forall k :: k in h ==> k in h' && h'[k] == h[k]
    ensures FromSources(h', a, sources, blocks)
  {
  }

  lemma SecretStaysTruthful(h: map<Source, Spec>, h': map<Source, Spec>, a: Name, secret: PolicySecret)
    requires TruthfulSecret(h, a, secret)
    requires forall k :: k in h ==> k in h' && h'[k] == h[k]
    ensures TruthfulSecret(h', a, secret)
  {
  }

  lemma PolicyWriteKeepsHistory(s: State, s': State, n: Name, p: SigningPolicy)
    requires HistoryKept(s) && PolicyWritten(s, s', n, p)
    ensures HistoryKept(s') && Source(n, p.generation) !in s.history
  {
  }

  lemma PolicyWriteKeepsTruth(s: State, s': State, n: Name, p: SigningPolicy)
    requires Truthful(s) && PolicyWritten(s, s', n, p)
    ensures Truthful(s')
  {
    PolicyWriteKeepsHistory(s, s', n, p);
    forall c | c in s'.renders
      ensures FromSources(s'.history, s'.renders[c].authority, s'.renders[c].sources, s'.renders[c].blocks)
    {
      HistoryGrows(s.history, s'.history, s.renders[c].authority, s.renders[c].sources, s.renders[c].blocks);
    }
    forall a | a in s'.secrets ensures TruthfulSecret(s'.history, a, s'.secrets[a]) {
      SecretStaysTruthful(s.history, s'.history, a, s.secrets[a]);
    }
  }

  /** No step but a policy write makes anything new for the annotation to tell. */
  ghost predicate OnlyLess(s: State, s': State) {
    && s'.history == s.history
    && (forall c :: c in s'.renders ==> c in s.renders && s'.renders[c] == s.renders[c])
    && (forall n :: n in s'.policies ==> n in s.policies && s'.policies[n] == s.policies[n])
    && (forall a :: a in s'.secrets ==> a in s.secrets && s'.secrets[a] == s.secrets[a])
  }

  /** Dropping policies, renders or Secrets takes no truth away. */
  lemma LessKeepsTruth(s: State, s': State)
    requires Truthful(s) && OnlyLess(s, s')
    ensures Truthful(s')
  {
  }

  lemma OtherStepFrame(s: State, e: Event, s': State)
    requires Step(s, e, s') && !e.WritePolicy? && !e.PausePolicy? && !e.ListRender? && !e.WriteRender?
    ensures OnlyLess(s, s')
  {
  }

  lemma ListedNames(policies: map<Name, SigningPolicy>, authority: Name, i: nat)
    requires i < |SortedListing(PoliciesFor(policies, authority))|
    ensures SortedListing(PoliciesFor(policies, authority))[i] in PoliciesFor(policies, authority)
  {
  }

  lemma ListingIsWellFormed(s: State, r: Render)
    requires HistoryKept(s) && RendersFrom(s.policies, r)
    ensures WellFormed(r.sources)
  {
    RendersListed(s.policies, r);
    SourcesAreWellFormed(s, r.authority, r.sources);
  }

  /** What a render lists is well formed and of the present generations. */
  lemma ListingIsTruthful(s: State, r: Render)
    requires HistoryKept(s) && RendersFrom(s.policies, r)
    ensures FromSources(s.history, r.authority, r.sources, r.blocks)
  {
    ListingIsWellFormed(s, r);
    forall i | 0 <= i < |r.sources|
      ensures r.sources[i] in s.history && s.history[r.sources[i]].authority == r.authority
        && MadeFrom(r.blocks[i], r.sources[i].name, s.history[r.sources[i]])
    {
      ListedNames(s.policies, r.authority, i);
    }
  }

  lemma ListingKeepsTruth(s: State, s': State, c: Name, r: Render)
    requires Truthful(s) && RenderListed(s, s', c, r)
    ensures Truthful(s')
  {
    ListingIsTruthful(s, r);
  }

  lemma RenderWriteKeepsTruth(s: State, s': State, c: Name)
    requires Truthful(s) && RenderWritten(s, s', c)
    ensures Truthful(s')
  {
    var r := s.renders[c];
    var secret := s'.secrets[r.authority];
    assert secret.annotations[KEY] == AnnotationValue(r.sources);
    assert TruthfulSecret(s'.history, r.authority, secret);
  }

  lemma PauseKeepsTruth(s: State, s': State, n: Name, paused: bool)
    requires Truthful(s) && PolicyPaused(s, s', n, paused)
    ensures Truthful(s')
  {
  }

  lemma StepKeepsTruth(s: State, e: Event, s': State)
    requires Truthful(s) && Step(s, e, s')
    ensures Truthful(s')
  {
    if e.WritePolicy? {
      PolicyWriteKeepsTruth(s, s', e.name, e.policy);
    } else if e.PausePolicy? {
      PauseKeepsTruth(s, s', e.name, e.paused);
    } else if e.ListRender? {
      ListingKeepsTruth(s, s', e.config, e.render);
    } else if e.WriteRender? {
      RenderWriteKeepsTruth(s, s', e.config);
    } else {
      OtherStepFrame(s, e, s');
      LessKeepsTruth(s, s');
    }
  }

  lemma {:induction false} RunsAreTruthful(run: seq<State>, events: seq<Event>, i: nat)
    requires IsRun(run, events) && i < |run|
    ensures Truthful(run[i])
  {
    assert Follows(run, events, i);
    if i > 0 {
      RunsAreTruthful(run, events, i - 1);
      StepKeepsTruth(run[i - 1], events[i - 1], run[i]);
    }
  }

  /** The Secret holds a block made from this generation of the policy. */
  ghost predicate InEffect(s: State, authority: Name, n: Name, generation: int) {
    && authority in s.secrets && Source(n, generation) in s.history
    && exists b :: b in s.secrets[authority].config.policies && MadeFrom(b, n, s.history[Source(n, generation)])
  }

  lemma RenderedAtMeansInEffect(s: State, authority: Name, n: Name, generation: int)
    requires Truthful(s) && RenderedAt(s.secrets, authority, n, generation)
    ensures InEffect(s, authority, n, generation)
  {
    var secret := s.secrets[authority];
    assert TruthfulSecret(s.history, authority, secret);
    var sources :| secret.annotations[KEY] == AnnotationValue(sources)
      && FromSources(s.history, authority, sources, secret.config.policies);
    GenerationReadsBack(sources, secret.annotations, n);
    var i :| 0 <= i < |sources| && sources[i] == Source(n, generation);
    assert secret.config.policies[i] in secret.config.policies;
  }

  /** An observation that says Active says so of the policy generation it read, whose
      block is in the Secret then; unless the policy was edited meanwhile that is the
      current spec. */
  lemma ActiveMeansInEffect(run: seq<State>, events: seq<Event>, i: nat, n: Name)
    requires IsRun(run, events) && i < |events| && events[i] == EndObserve(n)
    requires n in run[i + 1].statuses && run[i + 1].statuses[n].phase == Active
    ensures n in run[i].looking && n in run[i].policies
    ensures var s, g := run[i], run[i + 1].statuses[n].observed;
      && InEffect(s, s.looking[n].authority, n, g)
      && (g == s.policies[n].generation ==>
           exists b :: b in s.secrets[s.looking[n].authority].config.policies && MadeFrom(b, n, s.policies[n].spec))
  {
    RunsAreTruthful(run, events, i);
    assert Follows(run, events, i + 1);
    var s := run[i];
    RenderedAtMeansInEffect(s, s.looking[n].authority, n, s.looking[n].generation);
  }

  /** Every Active there is goes back to a moment when that generation was in effect. */
  lemma {:induction false} ActiveWasInEffect(run: seq<State>, events: seq<Event>, i: nat, n: Name)
    returns (k: nat, authority: Name)
    requires IsRun(run, events) && i < |run|
    requires n in run[i].statuses && run[i].statuses[n].phase == Active
    ensures k <= i && InEffect(run[k], authority, n, run[i].statuses[n].observed)
  {
    assert Follows(run, events, i);
    if i > 0 && events[i - 1] == EndObserve(n) {
      ActiveMeansInEffect(run, events, i - 1, n);
      k, authority := i - 1, run[i - 1].looking[n].authority;
    } else if i > 0 {
      StatusStays(run[i - 1], events[i - 1], run[i], n);
      k, authority := ActiveWasInEffect(run, events, i - 1, n);
    }
  }

  lemma StatusStays(s: State, e: Event, s': State, n: Name)
    requires Step(s, e, s') && e != EndObserve(n) && n in s'.statuses
    ensures n in s.statuses && s.statuses[n] == s'.statuses[n]
  {
  }

  /** Whatever the policies say, no rendered configuration signs the operator's own name. */
  lemma OperatorNameIsNeverSigned(
    run: seq<State>, events: seq<Event>, i: nat, authority: Name, lib: Autosign.Library, csr: Autosign.Csr)
    requires IsRun(run, events) && i < |run|
    requires authority in run[i].secrets && KEY in run[i].secrets[authority].annotations
    requires lib.equalFold(OperatorCertname(authority), OperatorCertname(authority))
    ensures !Autosign.Signs(lib, run[i].secrets[authority].config, OperatorCertname(authority), csr)
  {
    RunsAreTruthful(run, events, i);
    var secret := run[i].secrets[authority];
    assert TruthfulSecret(run[i].history, authority, secret);
    assert OperatorCertname(authority) in secret.config.reservedCertnames;
  }

  // ---------- the watches miss nothing ----------

  ghost predicate Settled(s: State, n: Name)
    requires n in s.policies
  {
    n in s.statuses
    && s.statuses[n] == Status(s.policies[n].generation, Verdict(s, n, LookNow(s.policies[n])))
  }

  /** On its way to be looked at, being looked at, paused, or with the right status; and
      what is looked at is current or will be looked at again. */
  ghost predicate Attended(s: State, n: Name)
    requires n in s.policies
  {
    && (Covered(s, n) || n in s.looking || s.policies[n].paused || Settled(s, n))
    && (n in s.looking ==> s.looking[n] == LookNow(s.policies[n]) || Covered(s, n))
  }

  ghost predicate Coherent(s: State) {
    forall n :: n in s.policies ==> ValidName(n) && Attended(s, n)
  }

  lemma StillCovered(s: State, s': State, n: Name)
    requires Covered(s, n) && n in s.policies && n in s'.policies && s'.policies[n] == s.policies[n]
    requires s.changes <= s'.changes && s.queue <= s'.queue
    ensures Covered(s', n)
  {
  }

  lemma StaysAttended(s: State, s': State, n: Name)
    requires n in s.policies && n in s'.policies && s'.policies[n] == s.policies[n] && Attended(s, n)
    requires s.changes <= s'.changes && s.queue <= s'.queue
    requires s'.looking == s.looking
    requires n in s.statuses ==> n in s'.statuses && s'.statuses[n] == s.statuses[n]
    requires Covered(s', n) || Verdict(s', n, LookNow(s.policies[n])) == Verdict(s, n, LookNow(s.policies[n]))
    ensures Attended(s', n)
  {
    if Covered(s, n) { StillCovered(s, s', n); }
  }

  lemma PolicyChangeKeepsOther(s: State, e: Event, s': State, n: Name)
    requires Step(s, e, s') && (e.WritePolicy? || e.PausePolicy? || e.DeletePolicy?) && e.name != n
    requires n in s.policies && Attended(s, n)
    ensures n in s'.policies && Attended(s', n)
  {
    StaysAttended(s, s', n);
  }

  lemma PolicyWriteCovers(s: State, s': State, n: Name)
    requires n in s'.policies && PolicyChange(n) in s'.changes
    ensures Covered(s', n) && n in s'.policies && Attended(s', n)
  {
    assert n in Reached(s'.policies, PolicyChange(n));
  }

  lemma ConfigWriteKeeps(s: State, s': State, c: Name, after: Option<Config>, n: Name)
    requires ConfigWritten(s, s', c, after) && n in s.policies && Attended(s, n)
    ensures Attended(s', n)
  {
    var change := ConfigChange(if c in s.configs then Some(s.configs[c]) else None, after);
    assert change in s'.changes;
    var a := s.policies[n].spec.authority;
    if n in Reached(s'.policies, change) {
      assert Covered(s', n);
    } else if a != "" {
      assert forall k ::
        (k in s.configs && s.configs[k].authority == a) <==> (k in s'.configs && s'.configs[k].authority == a);
      assert Referenced(s.configs, a) <==> Referenced(s'.configs, a);
      assert AllBypass(s.configs, a) <==> AllBypass(s'.configs, a);
    }
    StaysAttended(s, s', n);
  }

  lemma CaWriteKeeps(s: State, s': State, authority: Name, present: bool, n: Name)
    requires CaWritten(s, s', authority, present) && n in s.policies && Attended(s, n)
    ensures Attended(s', n)
  {
    assert CaChange(authority) in s'.changes;
    if s.policies[n].spec.authority == authority {
      assert n in Reached(s'.policies, CaChange(authority));
    }
    StaysAttended(s, s', n);
  }

  /** A Secret that requests no n records no generation of n. */
  lemma NotRequested(secrets: map<Name, PolicySecret>, authority: Name, n: Name)
    requires n != "" && n !in Requested(AnnotationsAt(secrets, authority))
    ensures forall g :: !RenderedAt(secrets, authority, n, g)
  {
    if authority in secrets && RenderedGeneration(secrets[authority].annotations, n).Some? {
      RecordedIsRequested(secrets[authority].annotations, n);
    }
  }

  /** One Secret is written or removed, and the change carries what it recorded. */
  lemma SecretChangeKeeps(s: State, s': State, authority: Name, n: Name)
    requires n in s.policies && n != "" && Attended(s, n)
    requires s' == s.(secrets := s'.secrets, renders := s'.renders, changes := s'.changes, triggers := s'.triggers)
    requires forall a :: a != authority ==> AnnotationsAt(s'.secrets, a) == AnnotationsAt(s.secrets, a)
    requires s'.changes == s.changes
      + multiset{SecretChange(AnnotationsAt(s.secrets, authority), AnnotationsAt(s'.secrets, authority))}
    ensures Attended(s', n)
  {
    var change := SecretChange(AnnotationsAt(s.secrets, authority), AnnotationsAt(s'.secrets, authority));
    assert change in s'.changes;
    var l := LookNow(s.policies[n]);
    if n in Reached(s'.policies, change) {
      assert Covered(s', n);
    } else {
      NotRequested(s.secrets, authority, n);
      NotRequested(s'.secrets, authority, n);
      assert AnnotationsAt(s'.secrets, l.authority) == AnnotationsAt(s.secrets, l.authority) || l.authority == authority;
      assert RenderedAt(s'.secrets, l.authority, n, l.generation)
        <==> RenderedAt(s.secrets, l.authority, n, l.generation);
    }
    StaysAttended(s, s', n);
  }

  lemma RenderWriteKeeps(s: State, s': State, c: Name, n: Name)
    requires RenderWritten(s, s', c) && n in s.policies && n != "" && Attended(s, n)
    ensures Attended(s', n)
  {
    var r := s.renders[c];
    assert forall a :: a != r.authority ==> AnnotationsAt(s'.secrets, a) == AnnotationsAt(s.secrets, a);
    if s'.secrets == s.secrets {
      StaysAttended(s, s', n);
    } else {
      SecretChangeKeeps(s, s', r.authority, n);
    }
  }

  lemma SecretDeleteKeeps(s: State, s': State, authority: Name, n: Name)
    requires SecretDeleted(s, s', authority) && n in s.policies && n != "" && Attended(s, n)
    ensures Attended(s', n)
  {
    assert forall a :: a != authority ==> AnnotationsAt(s'.secrets, a) == AnnotationsAt(s.secrets, a);
    SecretChangeKeeps(s, s', authority, n);
  }

  lemma ObserveKeeps(s: State, e: Event, s': State, n: Name)
    requires Step(s, e, s') && IsObserving(e)
    requires n in s.policies && Attended(s, n)
    ensures Attended(s', n)
  {
    if e.name == n { OwnObserveKeeps(s, e, s', n); } else { OtherObserveKeeps(s, e, s', n); }
  }

  lemma OwnObserveKeeps(s: State, e: Event, s': State, n: Name)
    requires Step(s, e, s') && IsObserving(e) && e.name == n
    requires n in s.policies && Attended(s, n)
    ensures Attended(s', n)
  {
    if Covered(s, n) && !e.BeginObserve? && n !in s.queue {
      var c :| c in s.changes && n in Reached(s.policies, c);
      assert c in s'.changes && n in Reached(s'.policies, c);
    }
  }

  lemma OtherObserveKeeps(s: State, e: Event, s': State, n: Name)
    requires Step(s, e, s') && IsObserving(e) && e.name != n
    requires n in s.policies && Attended(s, n)
    ensures Attended(s', n)
  {
    ObserveFrame(s, e, s', n);
    if Covered(s, n) && n !in s.queue {
      var c :| c in s.changes && n in Reached(s.policies, c);
      assert c in s'.changes && n in Reached(s'.policies, c);
    }
  }

  lemma ObserveFrame(s: State, e: Event, s': State, n: Name)
    requires Step(s, e, s') && IsObserving(e) && e.name != n
    ensures s' == s.(looking := s'.looking, statuses := s'.statuses, changes := s'.changes, queue := s'.queue)
    ensures s.changes <= s'.changes && (n in s.queue ==> n in s'.queue)
    ensures n in s.looking <==> n in s'.looking
    ensures n in s.looking ==> s'.looking[n] == s.looking[n]
    ensures n in s.statuses <==> n in s'.statuses
    ensures n in s.statuses ==> s'.statuses[n] == s.statuses[n]
  {
  }

  lemma DeliveryKeeps(s: State, s': State, c: Change, n: Name)
    requires Delivered(s, s', c) && n in s.policies && Attended(s, n)
    ensures Attended(s', n)
  {
  }

  predicate IsObserving(e: Event) {
    e.BeginObserve? || e.EndObserve? || e.FailObserve? || e.SkipObserve?
  }

  /** A render under way is no policy's input. */
  lemma RenderUnderWayKeeps(s: State, s': State, n: Name)
    requires s' == s.(reading := s'.reading, renders := s'.renders, triggers := s'.triggers,
                      configQueue := s'.configQueue, queue := s'.queue)
    requires s.queue <= s'.queue && n in s.policies && Attended(s, n)
    ensures Attended(s', n)
  {
    StaysAttended(s, s', n);
  }

  predicate IsRendering(e: Event) {
    || e.BeginRender? || e.SkipRender? || e.NoRender? || e.ListRender? || e.DropRender? || e.EnqueueConfigs?
    || e.Resync?
  }

  lemma ControllerKeepsAttended(s: State, e: Event, s': State, n: Name)
    requires Step(s, e, s') && (IsObserving(e) || IsRendering(e) || e.WriteRender? || e.Deliver?)
    requires n in s.policies && n != "" && Attended(s, n)
    ensures Attended(s', n)
  {
    if IsObserving(e) {
      ObserveKeeps(s, e, s', n);
    } else if e.WriteRender? {
      RenderWriteKeeps(s, s', e.config, n);
    } else if e.Deliver? {
      DeliveryKeeps(s, s', e.change, n);
    } else {
      RenderUnderWayKeeps(s, s', n);
    }
  }

  lemma StepKeepsAttended(s: State, e: Event, s': State, n: Name)
    requires Step(s, e, s') && n in s'.policies && n != ""
    requires n in s.policies ==> Attended(s, n)
    ensures Attended(s', n)
  {
    if e.WritePolicy? || e.PausePolicy? || e.DeletePolicy? {
      PolicyStepKeepsAttended(s, e, s', n);
    } else if e.WriteConfig? {
      ConfigWriteKeeps(s, s', e.name, e.after, n);
    } else if e.WriteCa? {
      CaWriteKeeps(s, s', e.authority, e.present, n);
    } else if e.DeleteSecret? {
      SecretDeleteKeeps(s, s', e.authority, n);
    } else {
      ControllerKeepsAttended(s, e, s', n);
    }
  }

  lemma PolicyStepKeepsAttended(s: State, e: Event, s': State, n: Name)
    requires Step(s, e, s') && (e.WritePolicy? || e.PausePolicy? || e.DeletePolicy?) && n in s'.policies
    requires n in s.policies ==> Attended(s, n)
    ensures Attended(s', n)
  {
    if e.name == n { PolicyWriteCovers(s, s', n); } else { PolicyChangeKeepsOther(s, e, s', n); }
  }

  /** At every moment of every run each policy is queued, being looked at, or has the
      status the store calls for. */
  lemma {:induction false} RunsAreCoherent(run: seq<State>, events: seq<Event>, i: nat)
    requires IsRun(run, events) && i < |run|
    ensures Coherent(run[i])
  {
    assert Follows(run, events, i);
    if i > 0 {
      RunsAreCoherent(run, events, i - 1);
      RunsAreTruthful(run, events, i);
      forall n | n in run[i].policies ensures Attended(run[i], n) {
        StepKeepsAttended(run[i - 1], events[i - 1], run[i], n);
      }
    }
  }

  // ---------- the Config controller's watches miss nothing ----------

  /** The sources a render of now would record. */
  ghost predicate ListsSources(policies: map<Name, SigningPolicy>, authority: Name, sources: seq<Source>) {
    var names := SortedListing(PoliciesFor(policies, authority));
    && |sources| == |names|
    && forall i :: 0 <= i < |names| ==>
         names[i] in policies && sources[i] == Source(names[i], policies[names[i]].generation)
  }

  lemma RendersListed(policies: map<Name, SigningPolicy>, r: Render)
    requires RendersFrom(policies, r)
    ensures ListsSources(policies, r.authority, r.sources)
  {
  }

  /** Which policies a CA has, and their generations. */
  ghost predicate SameFor(a: map<Name, SigningPolicy>, b: map<Name, SigningPolicy>, authority: Name) {
    && PoliciesFor(a, authority) == PoliciesFor(b, authority)
    && forall n :: n in PoliciesFor(a, authority) ==> a[n].generation == b[n].generation
  }

  lemma SameSources(a: map<Name, SigningPolicy>, b: map<Name, SigningPolicy>, authority: Name, sources: seq<Source>)
    requires SameFor(a, b, authority) && ListsSources(a, authority, sources)
    ensures ListsSources(b, authority, sources)
  {
    var names := SortedListing(PoliciesFor(a, authority));
    forall i | 0 <= i < |names|
      ensures names[i] in b && sources[i] == Source(names[i], b[names[i]].generation)
    {
      ListedNames(a, authority, i);
    }
  }

  /** The Secret of the CA is the Config's and records the generations there are now. */
  ghost predicate RecordsNow(
    policies: map<Name, SigningPolicy>, secrets: map<Name, PolicySecret>, c: Name, authority: Name)
  {
    && authority in secrets && secrets[authority].owner == c && KEY in secrets[authority].annotations
    && exists sources ::
         ListsSources(policies, authority, sources) && secrets[authority].annotations[KEY] == AnnotationValue(sources)
  }

  predicate ConfigCovered(s: State, c: Name) {
    c in s.configQueue || exists t :: t in s.triggers && c in Triggered(s.configs, t)
  }

  /** The Config is one that is to render. */
  predicate WantsRender(s: State, c: Name)
    requires c in s.configs
  {
    !s.configs[c].paused && MayRender(s.authorities, s.configs[c])
  }

  /** The pass of c goes by what the store says now. */
  ghost predicate OnTrack(s: State, c: Name)
    requires c in s.configs
  {
    || (c in s.reading && s.reading[c] == s.configs[c])
    || (c !in s.reading && c in s.renders && s.configs[c].authority != ""
        && s.renders[c].authority == s.configs[c].authority
        && ListsSources(s.policies, s.configs[c].authority, s.renders[c].sources))
  }

  /** On its way to be looked at, being rendered from what there is, or with nothing to
      render, or with its Secret right. */
  ghost predicate ConfigAttended(s: State, c: Name)
    requires c in s.configs
  {
    || ConfigCovered(s, c)
    || (Busy(s, c) && OnTrack(s, c))
    || (!Busy(s, c) && (WantsRender(s, c) ==> RecordsNow(s.policies, s.secrets, c, s.configs[c].authority)))
  }

  /** A Config that is at one of two stages at most. */
  ghost predicate OneStage(s: State) {
    forall c :: c in s.reading ==> c !in s.renders
  }

  /** What stays of a Config and its inputs over a step that is not about it. */
  ghost predicate ConfigUndisturbed(s: State, s': State, c: Name) {
    && c in s.configs && c in s'.configs && s'.configs[c] == s.configs[c]
    && s.triggers <= s'.triggers && (c in s.configQueue ==> c in s'.configQueue)
    && (c in s.reading <==> c in s'.reading) && (c in s.reading ==> s'.reading[c] == s.reading[c])
    && (c in s.renders <==> c in s'.renders) && (c in s.renders ==> s'.renders[c] == s.renders[c])
  }

  lemma StillConfigCovered(s: State, s': State, c: Name)
    requires ConfigUndisturbed(s, s', c) && ConfigCovered(s, c)
    ensures ConfigCovered(s', c)
  {
    if c !in s.configQueue {
      var t :| t in s.triggers && c in Triggered(s.configs, t);
      assert t in s'.triggers && c in Triggered(s'.configs, t);
    }
  }

  lemma ConfigStaysAttended(s: State, s': State, c: Name)
    requires ConfigUndisturbed(s, s', c) && ConfigAttended(s, c)
    requires var a := s.configs[c].authority;
      ConfigCovered(s', c)
      || (SameFor(s.policies, s'.policies, a) && (a in s'.authorities ==> a in s.authorities)
          && (RecordsNow(s.policies, s.secrets, c, a) ==> a in s'.secrets && s'.secrets[a] == s.secrets[a]))
    ensures ConfigAttended(s', c)
  {
    var a := s.configs[c].authority;
    if ConfigCovered(s, c) {
      StillConfigCovered(s, s', c);
    } else if !ConfigCovered(s', c) {
      if c in s.renders && OnTrack(s, c) && c !in s.reading {
        SameSources(s.policies, s'.policies, a, s.renders[c].sources);
      }
      if RecordsNow(s.policies, s.secrets, c, a) {
        var sources :| ListsSources(s.policies, a, sources) && s.secrets[a].annotations[KEY] == AnnotationValue(sources);
        SameSources(s.policies, s'.policies, a, sources);
      }
    }
  }

  predicate OfPolicy(e: Event) {
    e.WritePolicy? || e.PausePolicy? || e.DeletePolicy?
  }

  lemma PolicyFrame(s: State, e: Event, s': State)
    requires Step(s, e, s') && OfPolicy(e)
    ensures s' == s.(policies := s'.policies, history := s'.history, statuses := s'.statuses, changes := s'.changes,
                     triggers := s'.triggers)
    ensures s.triggers <= s'.triggers
  {
  }

  /** Both the CA the policy was bound to and the one it is bound to are told. */
  lemma PolicyTells(s: State, e: Event, s': State)
    requires Step(s, e, s') && OfPolicy(e)
    ensures e.name in s.policies ==> AuthorityTrigger(s.policies[e.name].spec.authority) in s'.triggers
    ensures e.name in s'.policies ==> AuthorityTrigger(s'.policies[e.name].spec.authority) in s'.triggers
    ensures forall n :: n != e.name ==> (n in s.policies <==> n in s'.policies)
    ensures forall n :: n != e.name && n in s.policies ==> s'.policies[n] == s.policies[n]
  {
  }

  lemma PolicyStepReaches(s: State, e: Event, s': State, c: Name)
    requires Step(s, e, s') && OfPolicy(e) && c in s.configs && s.configs[c].authority != ""
    ensures c in s'.configs
    ensures ConfigCovered(s', c) || SameFor(s.policies, s'.policies, s.configs[c].authority)
  {
    PolicyFrame(s, e, s');
    PolicyTells(s, e, s');
    var a := s.configs[c].authority;
    if AuthorityTrigger(a) in s'.triggers {
      assert c in Triggered(s'.configs, AuthorityTrigger(a));
    } else {
      OthersSameFor(s.policies, s'.policies, e.name, a);
    }
  }

  lemma OthersSameFor(a: map<Name, SigningPolicy>, b: map<Name, SigningPolicy>, n: Name, authority: Name)
    requires forall k :: k != n ==> (k in a <==> k in b)
    requires forall k :: k != n && k in a ==> b[k] == a[k]
    requires (n in a ==> a[n].spec.authority != authority) && (n in b ==> b[n].spec.authority != authority)
    ensures SameFor(a, b, authority)
  {
    assert forall k :: k in PoliciesFor(a, authority) <==> k in PoliciesFor(b, authority);
  }

  /** A Config that names no CA has nothing to render. */
  lemma NamelessStaysAttended(s: State, s': State, c: Name)
    requires ConfigUndisturbed(s, s', c) && s.configs[c].authority == "" && ConfigAttended(s, c)
    ensures ConfigAttended(s', c)
  {
    if ConfigCovered(s, c) { StillConfigCovered(s, s', c); }
  }

  lemma PolicyStepKeepsConfig(s: State, e: Event, s': State, c: Name)
    requires Step(s, e, s') && OfPolicy(e) && c in s.configs && ConfigAttended(s, c)
    ensures c in s'.configs && ConfigAttended(s', c)
  {
    PolicyFrame(s, e, s');
    if s.configs[c].authority == "" {
      NamelessStaysAttended(s, s', c);
    } else {
      PolicyStepReaches(s, e, s', c);
      ConfigStaysAttended(s, s', c);
    }
  }

  lemma ConfigWriteKeepsConfig(s: State, s': State, k: Name, after: Option<Config>, c: Name)
    requires ConfigWritten(s, s', k, after) && c in s'.configs
    requires c in s.configs ==> ConfigAttended(s, c)
    ensures ConfigAttended(s', c)
  {
    if c == k {
      assert ConfigTrigger(k) in s'.triggers && c in Triggered(s'.configs, ConfigTrigger(k));
    } else {
      ConfigStaysAttended(s, s', c);
    }
  }

  lemma CaWriteKeepsConfig(s: State, s': State, a: Name, present: bool, c: Name)
    requires CaWritten(s, s', a, present) && c in s.configs && ConfigAttended(s, c)
    ensures ConfigAttended(s', c)
  {
    if s.configs[c].authority == "" {
      NamelessStaysAttended(s, s', c);
    } else {
      if s.configs[c].authority == a {
        assert AuthorityTrigger(a) in s'.triggers && c in Triggered(s'.configs, AuthorityTrigger(a));
      }
      ConfigStaysAttended(s, s', c);
    }
  }

  lemma SecretDeleteKeepsConfig(s: State, s': State, a: Name, c: Name)
    requires SecretDeleted(s, s', a) && c in s.configs && ConfigAttended(s, c)
    ensures ConfigAttended(s', c)
  {
    if a in s.secrets && s.secrets[a].owner == c {
      assert ConfigTrigger(c) in s'.triggers && c in Triggered(s'.configs, ConfigTrigger(c));
    }
    ConfigStaysAttended(s, s', c);
  }

  lemma OtherRenderKeepsConfig(s: State, e: Event, s': State, c: Name)
    requires Step(s, e, s') && (e.BeginRender? || e.SkipRender? || e.NoRender? || e.ListRender? || e.DropRender?)
    requires e.config != c && c in s.configs && ConfigAttended(s, c)
    ensures c in s'.configs && ConfigAttended(s', c)
  {
    ConfigStaysAttended(s, s', c);
  }

  lemma OwnRenderKeepsConfig(s: State, e: Event, s': State, c: Name)
    requires Step(s, e, s') && (e.BeginRender? || e.SkipRender? || e.NoRender? || e.DropRender?)
    requires e.config == c && c in s.configs && OneStage(s) && ConfigAttended(s, c)
    ensures c in s'.configs && ConfigAttended(s', c)
  {
    if ConfigCovered(s, c) && e.NoRender? { StillCoveredAfter(s, s', c); }
  }

  lemma StillCoveredAfter(s: State, s': State, c: Name)
    requires ConfigCovered(s, c) && s'.configs == s.configs && s.triggers <= s'.triggers
    requires c in s.configQueue ==> c in s'.configQueue
    ensures ConfigCovered(s', c)
  {
    if c !in s.configQueue {
      var t :| t in s.triggers && c in Triggered(s.configs, t);
      assert t in s'.triggers && c in Triggered(s'.configs, t);
    }
  }

  lemma OwnListingKeepsConfig(s: State, s': State, c: Name, r: Render)
    requires RenderListed(s, s', c, r) && c in s.configs && ConfigAttended(s, c)
    ensures ConfigAttended(s', c)
  {
    if ConfigCovered(s, c) {
      StillCoveredAfter(s, s', c);
    } else {
      RendersListed(s.policies, r);
    }
  }

  lemma OtherWriteKeepsConfig(s: State, s': State, k: Name, c: Name)
    requires RenderWritten(s, s', k) && k != c && c in s.configs && ConfigAttended(s, c)
    ensures ConfigAttended(s', c)
  {
    ConfigStaysAttended(s, s', c);
  }

  lemma OwnWriteKeepsConfig(s: State, s': State, c: Name)
    requires RenderWritten(s, s', c) && c in s.configs && OneStage(s) && ConfigAttended(s, c)
    ensures ConfigAttended(s', c)
  {
    if ConfigCovered(s, c) {
      StillCoveredAfter(s, s', c);
    } else {
      var a := s.configs[c].authority;
      assert ListsSources(s'.policies, a, s.renders[c].sources);
      assert s'.secrets[a].annotations[KEY] == AnnotationValue(s.renders[c].sources);
    }
  }

  lemma EnqueueKeepsConfig(s: State, s': State, t: Trigger, c: Name)
    requires ConfigsEnqueued(s, s', t) && c in s.configs && ConfigAttended(s, c)
    ensures ConfigAttended(s', c)
  {
    if ConfigCovered(s, c) && c !in s'.configQueue {
      var u :| u in s.triggers && c in Triggered(s.configs, u);
      assert u != t && u in s'.triggers && c in Triggered(s'.configs, u);
    }
  }

  lemma ObserverKeepsConfig(s: State, e: Event, s': State, c: Name)
    requires Step(s, e, s') && (IsObserving(e) || e.Deliver? || e.Resync?) && c in s.configs && ConfigAttended(s, c)
    ensures c in s'.configs && ConfigAttended(s', c)
  {
    ObserverFrame(s, e, s');
    ConfigStaysAttended(s, s', c);
  }

  lemma ObserverFrame(s: State, e: Event, s': State)
    requires Step(s, e, s') && (IsObserving(e) || e.Deliver? || e.Resync?)
    ensures s' == s.(looking := s'.looking, statuses := s'.statuses, changes := s'.changes, queue := s'.queue,
                     configQueue := s'.configQueue)
    ensures s.configQueue <= s'.configQueue
  {
  }

  lemma RenderKeepsConfig(s: State, e: Event, s': State, c: Name)
    requires Step(s, e, s') && IsRendering(e) && !e.EnqueueConfigs? && !e.Resync?
    requires c in s.configs && OneStage(s) && ConfigAttended(s, c)
    ensures c in s'.configs && ConfigAttended(s', c)
  {
    if e.config != c {
      OtherRenderKeepsConfig(s, e, s', c);
    } else if e.ListRender? {
      OwnListingKeepsConfig(s, s', c, e.render);
    } else {
      OwnRenderKeepsConfig(s, e, s', c);
    }
  }

  lemma StepKeepsConfig(s: State, e: Event, s': State, c: Name)
    requires Step(s, e, s') && OneStage(s) && c in s'.configs
    requires c in s.configs ==> ConfigAttended(s, c)
    ensures ConfigAttended(s', c)
  {
    if e.WriteConfig? {
      ConfigWriteKeepsConfig(s, s', e.name, e.after, c);
    } else {
      NoNewConfig(s, e, s');
      if OfPolicy(e) {
        PolicyStepKeepsConfig(s, e, s', c);
      } else if e.WriteCa? {
        CaWriteKeepsConfig(s, s', e.authority, e.present, c);
      } else if e.DeleteSecret? {
        SecretDeleteKeepsConfig(s, s', e.authority, c);
      } else if e.WriteRender? {
        if e.config == c { OwnWriteKeepsConfig(s, s', c); } else { OtherWriteKeepsConfig(s, s', e.config, c); }
      } else if e.EnqueueConfigs? {
        EnqueueKeepsConfig(s, s', e.trigger, c);
      } else if IsRendering(e) && !e.Resync? {
        RenderKeepsConfig(s, e, s', c);
      } else {
        ObserverKeepsConfig(s, e, s', c);
      }
    }
  }

  lemma NoNewConfig(s: State, e: Event, s': State)
    requires Step(s, e, s') && !e.WriteConfig?
    ensures s'.configs == s.configs
  {
  }

  lemma StepKeepsOneStage(s: State, e: Event, s': State)
    requires Step(s, e, s') && OneStage(s)
    ensures OneStage(s')
  {
  }

  /** At every moment of every run each Config is queued, being rendered from what there
      is, has nothing to render, or has its Secret right. */
  lemma {:induction false} RunsRenderAll(run: seq<State>, events: seq<Event>, i: nat)
    requires IsRun(run, events) && i < |run|
    ensures OneStage(run[i]) && forall c :: c in run[i].configs ==> ConfigAttended(run[i], c)
  {
    assert Follows(run, events, i);
    if i > 0 {
      RunsRenderAll(run, events, i - 1);
      StepKeepsOneStage(run[i - 1], events[i - 1], run[i]);
      forall c | c in run[i].configs ensures ConfigAttended(run[i], c) {
        StepKeepsConfig(run[i - 1], events[i - 1], run[i], c);
      }
    }
  }

  ghost predicate AtRest(s: State) {
    s.queue == {} && s.changes == multiset{} && s.looking == map[]
  }

  ghost predicate ConfigsAtRest(s: State) {
    s.configQueue == {} && s.triggers == multiset{} && s.reading == map[] && s.renders == map[]
  }

  /** With the Config controller at rest the Secret of a Config that is to render records
      exactly the generations of the policies bound to its CA. */
  lemma SecretIsCurrentAtRest(run: seq<State>, events: seq<Event>, i: nat, c: Name)
    requires IsRun(run, events) && i < |run| && ConfigsAtRest(run[i])
    requires c in run[i].configs && WantsRender(run[i], c)
    ensures var s, a := run[i], run[i].configs[c].authority;
      && a in s.secrets && s.secrets[a].owner == c
      && forall n, g :: n in s.policies ==>
           (RenderedAt(s.secrets, a, n, g) <==> s.policies[n].spec.authority == a && s.policies[n].generation == g)
  {
    RunsRenderAll(run, events, i);
    RunsAreTruthful(run, events, i);
    var s, a := run[i], run[i].configs[c].authority;
    assert !ConfigCovered(s, c);
    assert RecordsNow(s.policies, s.secrets, c, a);
    var sources :| ListsSources(s.policies, a, sources) && s.secrets[a].annotations[KEY] == AnnotationValue(sources);
    SourcesAreWellFormed(s, a, sources);
    forall n | n in s.policies
      ensures forall g ::
        RenderedAt(s.secrets, a, n, g) <==> s.policies[n].spec.authority == a && s.policies[n].generation == g
    {
      GenerationReadsBack(sources, s.secrets[a].annotations, n);
      SourcesHold(s.policies, a, sources, n);
    }
  }

  lemma SourcesHold(policies: map<Name, SigningPolicy>, a: Name, sources: seq<Source>, n: Name)
    requires ListsSources(policies, a, sources) && n in policies
    ensures forall g :: Source(n, g) in sources <==> policies[n].spec.authority == a && policies[n].generation == g
  {
    var names := SortedListing(PoliciesFor(policies, a));
    assert n in names <==> n in Elements(names);
    forall g ensures Source(n, g) in sources <==> policies[n].spec.authority == a && policies[n].generation == g {
      if Source(n, g) in sources {
        var i :| 0 <= i < |sources| && sources[i] == Source(n, g);
        assert names[i] == n;
      }
      if n in names {
        var i :| 0 <= i < |names| && names[i] == n;
        assert sources[i] in sources;
      }
    }
  }

  lemma SourcesAreWellFormed(s: State, a: Name, sources: seq<Source>)
    requires HistoryKept(s) && ListsSources(s.policies, a, sources)
    ensures WellFormed(sources)
  {
    var names := SortedListing(PoliciesFor(s.policies, a));
    forall i, j | 0 <= i < j < |names| ensures sources[i].name != sources[j].name {
      assert Less(names[i], names[j]);
      LessIrreflexive(names[i]);
    }
    forall x | x in sources ensures WellFormedSource(x) {
      var i :| 0 <= i < |sources| && sources[i] == x;
    }
  }

  /** So two Configs that are to render for one CA never come to rest: one of them is
      refused the Secret again and again. */
  lemma OneRendererAtRest(run: seq<State>, events: seq<Event>, i: nat, c: Name, d: Name)
    requires IsRun(run, events) && i < |run| && ConfigsAtRest(run[i])
    requires c in run[i].configs && WantsRender(run[i], c) && d in run[i].configs && WantsRender(run[i], d)
    requires run[i].configs[c].authority == run[i].configs[d].authority
    ensures c == d
  {
    SecretIsCurrentAtRest(run, events, i, c);
    SecretIsCurrentAtRest(run, events, i, d);
  }

  /** The controllers together: at rest every policy whose CA has a Config that is to render
      is Active, and its block in the Secret is that of the spec as it is now. */
  lemma PoliciesTakeEffect(run: seq<State>, events: seq<Event>, i: nat, n: Name, c: Name)
    requires IsRun(run, events) && i < |run| && AtRest(run[i]) && ConfigsAtRest(run[i])
    requires n in run[i].policies && !run[i].policies[n].paused
    requires c in run[i].configs && WantsRender(run[i], c)
    requires run[i].configs[c].authority == run[i].policies[n].spec.authority
    ensures var s, p := run[i], run[i].policies[n];
      && n in s.statuses && s.statuses[n] == Status(p.generation, Active) && p.spec.authority in s.secrets
      && exists b :: b in s.secrets[p.spec.authority].config.policies && MadeFrom(b, n, p.spec)
  {
    SecretIsCurrentAtRest(run, events, i, c);
    ActiveAtRest(run, events, i, n);
    assert RenderedAt(run[i].secrets, run[i].policies[n].spec.authority, n, run[i].policies[n].generation);
  }

  /** At rest Active means in effect, for the spec as it is now. */
  lemma ActiveAtRest(run: seq<State>, events: seq<Event>, i: nat, n: Name)
    requires IsRun(run, events) && i < |run| && AtRest(run[i]) && n in run[i].policies && !run[i].policies[n].paused
    ensures var s, p := run[i], run[i].policies[n];
      && n in s.statuses && s.statuses[n].observed == p.generation
      && (s.statuses[n].phase == Active <==>
           && p.spec.authority != "" && p.spec.authority in s.authorities
           && Referenced(s.configs, p.spec.authority) && !AllBypass(s.configs, p.spec.authority)
           && RenderedAt(s.secrets, p.spec.authority, n, p.generation))
      && (s.statuses[n].phase == Disabled <==>
           && p.spec.authority != "" && p.spec.authority in s.authorities
           && (exists c :: c in s.configs && s.configs[c].authority == p.spec.authority)
           && forall c :: c in s.configs && s.configs[c].authority == p.spec.authority ==>
                s.configs[c].autosignCommand != "")
      && (s.statuses[n].phase == Active ==>
           exists b :: b in s.secrets[p.spec.authority].config.policies && MadeFrom(b, n, p.spec))
  {
    RunsAreCoherent(run, events, i);
    RunsAreTruthful(run, events, i);
    var s, p := run[i], run[i].policies[n];
    assert !Covered(s, n);
    assert Settled(s, n);
    if s.statuses[n].phase == Active {
      RenderedAtMeansInEffect(s, p.spec.authority, n, p.generation);
    }
  }

  // ---------- a run that comes to rest ----------

  lemma ExtendRun(run: seq<State>, events: seq<Event>, e: Event, s: State)
    requires IsRun(run, events) && Step(run[|events|], e, s)
    ensures IsRun(run + [s], events + [e])
  {
    var longer, more := run + [s], events + [e];
    forall i | 0 <= i < |longer| ensures Follows(longer, more, i) {
      if i < |run| {
        assert Follows(run, events, i);
        assert longer[i] == run[i] && (i > 0 ==> longer[i - 1] == run[i - 1] && more[i - 1] == events[i - 1]);
      }
    }
  }

  /** One Config and its CA, found by an operator that starts. */
  function Ready(c: Name, authority: Name): State {
    State(map[], map[], map[c := Config(authority, "", false)], {authority}, map[], map[], map[], map[], map[],
          multiset{}, multiset{}, {}, {c})
  }

  /** A render of the Config's CA may start, and the Secret is not another's. */
  ghost predicate CanRender(s: State, c: Name, r: Render) {
    && c in s.configQueue && !Busy(s, c) && c in s.configs && WantsRender(s, c)
    && r.authority == s.configs[c].authority && RendersFrom(s.policies, r)
    && (r.authority in s.secrets ==> s.secrets[r.authority].owner == c)
  }

  lemma ListsOnce(run: seq<State>, events: seq<Event>, c: Name, r: Render)
    returns (longer: seq<State>, more: seq<Event>)
    requires IsRun(run, events) && CanRender(run[|events|], c, r)
    ensures IsRun(longer, more)
    ensures var s := run[|events|];
      longer[|more|] == s.(configQueue := s.configQueue - {c}, renders := s.renders[c := r])
  {
    var s := run[|events|];
    var s1 := s.(configQueue := s.configQueue - {c}, reading := s.reading[c := s.configs[c]]);
    assert RenderBegan(s, s1, c);
    ExtendRun(run, events, BeginRender(c), s1);
    var s2 := s1.(reading := s.reading, renders := s.renders[c := r]);
    assert s1.reading - {c} == s.reading;
    assert RenderListed(s1, s2, c, r);
    ExtendRun(run + [s1], events + [BeginRender(c)], ListRender(c, r), s2);
    longer, more := run + [s1] + [s2], events + [BeginRender(c)] + [ListRender(c, r)];
  }

  /** The state after the write of a whole pass. */
  function Rendered(s: State, c: Name, r: Render): State {
    var after := Refreshed(s.secrets, c, r);
    var same := r.authority in s.secrets && s.secrets[r.authority] == after;
    s.(configQueue := s.configQueue - {c},
       secrets := s.secrets[r.authority := after],
       changes := s.changes
         + (if same then multiset{}
            else multiset{SecretChange(AnnotationsAt(s.secrets, r.authority), Some(after.annotations))}),
       triggers := s.triggers + if same then multiset{} else multiset{ConfigTrigger(c)})
  }

  /** One pass of the Config controller, from the queue to the write. */
  lemma RendersOnce(run: seq<State>, events: seq<Event>, c: Name, r: Render)
    returns (longer: seq<State>, more: seq<Event>)
    requires IsRun(run, events) && CanRender(run[|events|], c, r)
    ensures IsRun(longer, more) && longer[|more|] == Rendered(run[|events|], c, r)
  {
    longer, more := ListsOnce(run, events, c, r);
    var s := longer[|more|];
    longer, more := WritesOnce(longer, more, c);
    WriteAfterListing(run[|events|], s, longer[|more|], c, r);
  }

  lemma WriteAfterListing(s0: State, s1: State, s2: State, c: Name, r: Render)
    requires c !in s0.renders && s1 == s0.(configQueue := s0.configQueue - {c}, renders := s0.renders[c := r])
    requires RenderWritten(s1, s2, c)
    ensures s2 == Rendered(s0, c, r)
  {
    assert s1.renders - {c} == s0.renders;
  }

  lemma WritesOnce(run: seq<State>, events: seq<Event>, c: Name) returns (longer: seq<State>, more: seq<Event>)
    requires IsRun(run, events)
    requires var s := run[|events|];
      c in s.renders && (s.renders[c].authority in s.secrets ==> s.secrets[s.renders[c].authority].owner == c)
    ensures IsRun(longer, more) && RenderWritten(run[|events|], longer[|more|], c)
  {
    var s := run[|events|];
    var r := s.renders[c];
    var after := Refreshed(s.secrets, c, r);
    var same := r.authority in s.secrets && s.secrets[r.authority] == after;
    var s' := s.(
      secrets := s.secrets[r.authority := after],
      renders := s.renders - {c},
      changes := s.changes
        + (if same then multiset{}
           else multiset{SecretChange(AnnotationsAt(s.secrets, r.authority), Some(after.annotations))}),
      triggers := s.triggers + if same then multiset{} else multiset{ConfigTrigger(c)});
    assert RenderWritten(s, s', c);
    ExtendRun(run, events, WriteRender(c), s');
    longer, more := run + [s'], events + [WriteRender(c)];
  }

  lemma Enqueues(run: seq<State>, events: seq<Event>, t: Trigger) returns (longer: seq<State>, more: seq<Event>)
    requires IsRun(run, events) && t in run[|events|].triggers
    ensures IsRun(longer, more) && ConfigsEnqueued(run[|events|], longer[|more|], t)
  {
    var s := run[|events|];
    var s' := s.(triggers := s.triggers - multiset{t}, configQueue := s.configQueue + Triggered(s.configs, t));
    ExtendRun(run, events, EnqueueConfigs(t), s');
    longer, more := run + [s'], events + [EnqueueConfigs(t)];
  }

  lemma Delivers(run: seq<State>, events: seq<Event>, c: Change) returns (longer: seq<State>, more: seq<Event>)
    requires IsRun(run, events) && c in run[|events|].changes
    ensures IsRun(longer, more) && Delivered(run[|events|], longer[|more|], c)
  {
    var s := run[|events|];
    var s' := s.(changes := s.changes - multiset{c}, queue := s.queue + Reached(s.policies, c));
    ExtendRun(run, events, Deliver(c), s');
    longer, more := run + [s'], events + [Deliver(c)];
  }

  /** The status the store calls for, whatever is queued or under way. */
  ghost function StatusNow(s: State, n: Name): Status
    requires n in s.policies
  {
    Status(s.policies[n].generation, Verdict(s, n, LookNow(s.policies[n])))
  }

  /** One observation; the write is an event unless the status was right already. */
  lemma Observes(run: seq<State>, events: seq<Event>, n: Name, event: bool)
    returns (longer: seq<State>, more: seq<Event>)
    requires IsRun(run, events)
    requires var s := run[|events|];
      n in s.queue && n in s.policies && !s.policies[n].paused && n !in s.looking
    requires !event ==> n in run[|events|].statuses && run[|events|].statuses[n] == StatusNow(run[|events|], n)
    ensures IsRun(longer, more)
    ensures var s, s' := run[|events|], longer[|more|];
      && s' == s.(queue := s.queue - {n}, statuses := s.statuses[n := StatusNow(s, n)], changes := s'.changes)
      && s'.changes == s.changes + if event then multiset{PolicyChange(n)} else multiset{}
  {
    var s := run[|events|];
    var l := LookNow(s.policies[n]);
    var s1 := s.(queue := s.queue - {n}, looking := s.looking[n := l]);
    assert ObserveBegan(s, s1, n);
    ExtendRun(run, events, BeginObserve(n), s1);
    longer, more := run + [s1], events + [BeginObserve(n)];
    var s2 := s1.(looking := s.looking, statuses := s.statuses[n := StatusNow(s, n)],
                  changes := s.changes + if event then multiset{PolicyChange(n)} else multiset{});
    assert s1.looking - {n} == s.looking;
    assert ObserveEnded(s1, s2, n);
    ExtendRun(longer, more, EndObserve(n), s2);
    longer, more := longer + [s2], more + [EndObserve(n)];
  }

  /** The render of a single policy without attributes. */
  lemma SingleRender(n: Name, p: SigningPolicy) returns (r: Render)
    requires p.spec.csrAttributes == []
    ensures r.authority == p.spec.authority && r.sources == [Source(n, p.generation)]
    ensures RendersFrom(map[n := p], r)
  {
    var b := Block(map[], n, p.spec);
    r := Render(p.spec.authority, [Source(n, p.generation)], [b]);
    assert PoliciesFor(map[n := p], p.spec.authority) == {n};
    assert StrictlySorted([n]) && Elements([n]) == {n};
    ListingIsSorted([n], {n});
    assert MadeFrom(b, n, p.spec);
  }

  /** The Ready state with one policy written. */
  lemma WritesFirst(n: Name, p: SigningPolicy, c: Name) returns (run: seq<State>, events: seq<Event>)
    requires ValidName(n) && p.generation == 1
    ensures IsRun(run, events)
    ensures var s := Ready(c, p.spec.authority);
      run[|events|] == s.(policies := map[n := p], history := map[Source(n, 1) := p.spec],
                          changes := multiset{PolicyChange(n)}, triggers := multiset{AuthorityTrigger(p.spec.authority)})
  {
    var s := Ready(c, p.spec.authority);
    assert Follows([s], [], 0);
    var s' := s.(policies := map[n := p], history := map[Source(n, 1) := p.spec],
                 changes := multiset{PolicyChange(n)}, triggers := multiset{AuthorityTrigger(p.spec.authority)});
    assert PolicyWritten(s, s', n, p);
    ExtendRun([s], [], WritePolicy(n, p), s');
    run, events := [s] + [s'], [] + [WritePolicy(n, p)];
  }

  lemma RefreshedTwice(secrets: map<Name, PolicySecret>, c: Name, r: Render)
    ensures var once := secrets[r.authority := Refreshed(secrets, c, r)];
      Refreshed(once, c, r) == once[r.authority]
  {
  }

  lemma SecondPass(run: seq<State>, events: seq<Event>, c: Name, r: Render)
    returns (longer: seq<State>, more: seq<Event>)
    requires IsRun(run, events) && CanRender(run[|events|], c, r)
    requires var s := run[|events|];
      s.configQueue == {c} && r.authority in s.secrets && Refreshed(s.secrets, c, r) == s.secrets[r.authority]
    ensures IsRun(longer, more) && longer[|more|] == run[|events|].(configQueue := {})
  {
    longer, more := RendersOnce(run, events, c, r);
    var s := run[|events|];
    assert s.secrets[r.authority := s.secrets[r.authority]] == s.secrets;
  }

  lemma FirstPass(run: seq<State>, events: seq<Event>, c: Name, r: Render)
    returns (longer: seq<State>, more: seq<Event>)
    requires IsRun(run, events) && CanRender(run[|events|], c, r) && r.authority !in run[|events|].secrets
    requires var s := run[|events|]; s.triggers == multiset{} && s.configQueue == {c}
    ensures IsRun(longer, more)
    ensures var s := run[|events|]; var after := Refreshed(s.secrets, c, r);
      longer[|more|] == s.(secrets := s.secrets[r.authority := after],
                           changes := s.changes + multiset{SecretChange(None, Some(after.annotations))})
  {
    longer, more := RendersOnce(run, events, c, r);
    longer, more := Enqueues(longer, more, ConfigTrigger(c));
    assert longer[|more|].configQueue == {c} && longer[|more|].triggers == multiset{};
  }

  /** The Config side comes to rest: a second pass finds nothing to write. */
  lemma ConfigSettles(run: seq<State>, events: seq<Event>, c: Name, r: Render)
    returns (longer: seq<State>, more: seq<Event>)
    requires IsRun(run, events) && CanRender(run[|events|], c, r) && r.authority !in run[|events|].secrets
    requires var s := run[|events|]; s.triggers == multiset{} && s.configQueue == {c}
    ensures IsRun(longer, more)
    ensures var s := run[|events|]; var after := Refreshed(s.secrets, c, r);
      longer[|more|] == s.(configQueue := {}, secrets := s.secrets[r.authority := after],
                           changes := s.changes + multiset{SecretChange(None, Some(after.annotations))})
  {
    longer, more := FirstPass(run, events, c, r);
    RefreshedTwice(run[|events|].secrets, c, r);
    longer, more := SecondPass(longer, more, c, r);
  }

  /** The policy side comes to rest. */
  lemma PolicySettles(run: seq<State>, events: seq<Event>, n: Name, annotations: Annotations)
    returns (longer: seq<State>, more: seq<Event>)
    requires IsRun(run, events) && Requested(Some(annotations)) == {n}
    requires var s := run[|events|];
      && s.queue == {} && s.looking == map[] && n in s.policies && !s.policies[n].paused
      && s.changes == multiset{PolicyChange(n), SecretChange(None, Some(annotations))}
    ensures IsRun(longer, more)
    ensures var s, s' := run[|events|], longer[|more|];
      s' == s.(changes := multiset{}, statuses := s'.statuses)
  {
    longer, more := Delivers(run, events, PolicyChange(n));
    assert longer[|more|].changes == multiset{SecretChange(None, Some(annotations))};
    longer, more := Delivers(longer, more, SecretChange(None, Some(annotations)));
    assert longer[|more|].changes == multiset{} && longer[|more|].queue == {n};
    longer, more := Observes(longer, more, n, true);
    longer, more := ObservesAgain(longer, more, n);
  }

  /** The event of the controller's own write brings a second look, which changes nothing. */
  lemma ObservesAgain(run: seq<State>, events: seq<Event>, n: Name) returns (longer: seq<State>, more: seq<Event>)
    requires IsRun(run, events)
    requires var s := run[|events|];
      && s.queue == {} && s.changes == multiset{PolicyChange(n)} && s.looking == map[]
      && n in s.policies && !s.policies[n].paused && n in s.statuses && s.statuses[n] == StatusNow(s, n)
    ensures IsRun(longer, more) && longer[|more|] == run[|events|].(changes := multiset{})
  {
    longer, more := Delivers(run, events, PolicyChange(n));
    assert longer[|more|].changes == multiset{} && longer[|more|].queue == {n};
    longer, more := Observes(longer, more, n, false);
    assert longer[|more|].statuses == run[|events|].statuses;
  }

  /** Rest is no fiction: a policy is written for a CA with one Config, and a run later
      nothing is in flight, the Secret is there and the policy is Active. */
  lemma PolicyComesIntoEffect(n: Name, p: SigningPolicy, c: Name) returns (run: seq<State>, events: seq<Event>)
    requires ValidName(n) && p.generation == 1 && !p.paused && p.spec.authority != "" && p.spec.csrAttributes == []
    ensures IsRun(run, events) && AtRest(run[|events|]) && ConfigsAtRest(run[|events|])
    ensures n in run[|events|].statuses && run[|events|].statuses[n] == Status(1, Active)
  {
    run, events := PolicyIsRendered(n, p, c);
    var annotations := map[KEY := AnnotationValue([Source(n, 1)])];
    OneRequest(n, annotations);
    run, events := PolicySettles(run, events, n, annotations);
    PoliciesTakeEffect(run, events, |events|, n, c);
  }

  lemma PolicyIsRendered(n: Name, p: SigningPolicy, c: Name) returns (run: seq<State>, events: seq<Event>)
    requires ValidName(n) && p.generation == 1 && p.spec.authority != "" && p.spec.csrAttributes == []
    ensures IsRun(run, events)
    ensures var s := run[|events|];
      s == Ready(c, p.spec.authority).(
        policies := map[n := p], history := map[Source(n, 1) := p.spec], secrets := s.secrets, configQueue := {},
        changes := multiset{PolicyChange(n), SecretChange(None, Some(map[KEY := AnnotationValue([Source(n, 1)])]))})
  {
    run, events := WritesFirst(n, p, c);
    var r := SingleRender(n, p);
    run, events := Enqueues(run, events, AuthorityTrigger(p.spec.authority));
    assert run[|events|].triggers == multiset{} && run[|events|].configQueue == {c};
    assert CanRender(run[|events|], c, r);
    run, events := ConfigSettles(run, events, c, r);
  }

  lemma OneRequest(n: Name, annotations: Annotations)
    requires ValidName(n) && annotations == map[KEY := AnnotationValue([Source(n, 1)])]
    ensures Requested(Some(annotations)) == {n}
  {
    var sources := [Source(n, 1)];
    assert WellFormed(sources);
    GenerationReadsBack(sources, annotations, n);
    assert RenderedGeneration(annotations, n) == Some(1);
    RecordedIsRequested(annotations, n);
    RequestsReadBack(sources);
  }

  // ---------- the code ----------

  class PolicyControllers {
    var policies: map<Name, SigningPolicy>
    var configs: map<Name, Config>
    var authorities: set<Name>
    var secrets: map<Name, PolicySecret>
    var reading: map<Name, Config>
    var renders: map<Name, Render>
    var looking: map<Name, Looked>
    var statuses: map<Name, Status>
    var changes: multiset<Change>
    var triggers: multiset<Trigger>
    var queue: set<Name>
    var configQueue: set<Name>
    ghost var history: map<Source, Spec>

    ghost function Snapshot(): State
      reads this
    {
      State(policies, history, configs, authorities, secrets, reading, renders, looking, statuses, changes, triggers,
            queue, configQueue)
    }

    /** configsReferencingAuthority, off the field index. */
    method ConfigsReferencingAuthority(authority: Name) returns (found: seq<Config>)
      ensures forall c :: c in found <==> exists k :: k in configs && configs[k] == c && c.authority == authority
    {
      var listing := AnyOrder(configs.Keys);
      found := [];
      for i := 0 to |listing|
        invariant forall c :: c in found <==>
          exists k :: k in listing[..i] && k in configs && configs[k] == c && c.authority == authority
      {
        assert listing[i] in listing;
        assert listing[..i + 1] == listing[..i] + [listing[i]];
        if configs[listing[i]].authority == authority {
          found := found + [configs[listing[i]]];
        }
      }
      assert listing[..|listing|] == listing;
    }

    /** observe, for a policy as it was read. */
    method Observe(n: Name, l: Looked) returns (phase: Phase)
      ensures phase == Verdict(Snapshot(), n, l)
    {
      if l.authority == "" { return Error; }
      if l.authority !in authorities { return Error; }
      var found := ConfigsReferencingAuthority(l.authority);
      ListsReferencing(configs, l.authority, found);
      if |found| == 0 { return Error; }
      var bypassed := AllOverride(found, (c: Config) => c.autosignCommand);
      if bypassed { return Disabled; }
      if l.authority !in secrets { return Error; }
      var annotations := secrets[l.authority].annotations;
      if !RenderedSourceRecorded(annotations) { return Error; }
      var generation := RenderedGeneration(annotations, n);
      if generation != Some(l.generation) { return Error; }
      return Active;
    }

    /** Reconcile up to the observation: generation and spec are read together. */
    method BeginReconcile(n: Name)
      requires n in queue && n !in looking
      modifies this`queue, this`looking
      ensures if n in policies && !policies[n].paused then ObserveBegan(old(Snapshot()), Snapshot(), n)
              else ObserveNothing(old(Snapshot()), Snapshot(), n)
    {
      queue := queue - {n};
      if n !in policies || policies[n].paused { return; }
      looking := looking[n := LookNow(policies[n])];
    }

    /** Reconcile from the observation on. */
    method EndReconcile(n: Name, lookupFails: bool)
      requires n in looking && n in policies
      modifies this`queue, this`looking, this`statuses, this`changes
      ensures if lookupFails then ObserveFailed(old(Snapshot()), Snapshot(), n)
              else ObserveEnded(old(Snapshot()), Snapshot(), n)
      ensures changes == old(changes) + if statuses == old(statuses) then multiset{} else multiset{PolicyChange(n)}
    {
      var l := looking[n];
      if lookupFails {
        looking := looking - {n};
        queue := queue + {n};
        return;
      }
      var phase := Observe(n, l);
      var status := Status(l.generation, phase);
      if n !in statuses || statuses[n] != status {
        changes := changes + multiset{PolicyChange(n)};
      }
      statuses := statuses[n := status];
      looking := looking - {n};
    }

    /** signingPoliciesForAuthority, then sorted by name. */
    method SigningPoliciesForAuthority(authority: Name) returns (names: seq<Name>)
      ensures names == SortedListing(PoliciesFor(policies, authority))
    {
      var listing := AnyOrder(policies.Keys);
      var found: seq<Name> := [];
      for i := 0 to |listing|
        invariant Distinct(found)
        invariant forall n :: n in found <==> n in listing[..i] && n in PoliciesFor(policies, authority)
      {
        var n := listing[i];
        assert n in listing && n !in listing[..i];
        if policies[n].spec.authority == authority { found := found + [n]; }
      }
      assert listing[..|listing|] == listing;
      SortDistinct(found);
      names := SortStrings(found);
      assert Elements(found) == PoliciesFor(policies, authority);
      ListingIsSorted(names, PoliciesFor(policies, authority));
    }

    /** renderAutosignPolicyConfig and the sources beside it; one value that does not
        resolve fails the whole render. */
    method RenderAutosignPolicyConfig(authority: Name, values: Values) returns (r: Option<Render>)
      ensures r.Some? <==> forall n :: n in PoliciesFor(policies, authority) ==> Resolvable(values, policies[n].spec)
      ensures r.Some? ==> r.value.authority == authority && RendersFrom(policies, r.value)
      ensures r.Some? ==> RendersValues(policies, values, r.value)
    {
      var names := SigningPoliciesForAuthority(authority);
      assert forall n :: n in PoliciesFor(policies, authority) <==> n in Elements(names);
      var blocks: seq<Autosign.Policy> := [];
      var sources: seq<Source> := [];
      for i := 0 to |names|
        invariant |blocks| == |sources| == i
        invariant forall j :: 0 <= j < i ==> Listed(values, names[j], sources[j], blocks[j])
      {
        assert names[i] in Elements(names);
        var p := policies[names[i]];
        var attributes := ResolveAll(values, p.spec.csrAttributes);
        if attributes.None? { return None; }
        BlockOf(values, names[i], p.spec, attributes.value);
        blocks := blocks + [p.spec.block.(name := names[i], csrAttributes := attributes.value)];
        sources := sources + [Source(names[i], p.generation)];
      }
      AllListed(values, authority, names, sources, blocks);
      return Some(Render(authority, sources, blocks));
    }

    lemma AllListed(values: Values, authority: Name, names: seq<Name>, sources: seq<Source>, blocks: seq<Autosign.Policy>)
      requires names == SortedListing(PoliciesFor(policies, authority)) && |names| == |sources| == |blocks|
      requires forall j :: 0 <= j < |names| ==> Listed(values, names[j], sources[j], blocks[j])
      ensures RendersFrom(policies, Render(authority, sources, blocks))
      ensures RendersValues(policies, values, Render(authority, sources, blocks))
      ensures forall n :: n in PoliciesFor(policies, authority) ==> Resolvable(values, policies[n].spec)
    {
      forall j | 0 <= j < |names|
        ensures MadeFrom(blocks[j], names[j], policies[names[j]].spec) && Filled(policies, values, names[j], blocks[j])
      {
        BlockIsFilled(policies, values, names[j], blocks[j]);
      }
      ListedCovers(values, authority, names, sources, blocks);
    }

    lemma ListedCovers(values: Values, authority: Name, names: seq<Name>, sources: seq<Source>,
                       blocks: seq<Autosign.Policy>)
      requires names == SortedListing(PoliciesFor(policies, authority)) && |names| == |sources| == |blocks|
      requires forall j :: 0 <= j < |names| ==> Listed(values, names[j], sources[j], blocks[j])
      ensures forall n :: n in PoliciesFor(policies, authority) ==> Resolvable(values, policies[n].spec)
    {
      forall n | n in PoliciesFor(policies, authority) ensures Resolvable(values, policies[n].spec) {
        assert n in Elements(names);
        var j :| 0 <= j < |names| && names[j] == n;
        assert Listed(values, names[j], sources[j], blocks[j]);
      }
    }

    /** The Config controller's Reconcile up to the pause check. */
    method BeginReconcileConfig(c: Name)
      requires c in configQueue && !Busy(Snapshot(), c)
      modifies this`configQueue, this`reading
      ensures if c in configs && !configs[c].paused then RenderBegan(old(Snapshot()), Snapshot(), c)
              else RenderSkipped(old(Snapshot()), Snapshot(), c)
    {
      configQueue := configQueue - {c};
      if c !in configs || configs[c].paused { return; }
      reading := reading[c := configs[c]];
    }

    /** The opening of reconcileAutosignSecrets. */
    method ShouldRender(c: Name) returns (ok: bool)
      requires c in reading
      ensures ok <==> MayRender(authorities, reading[c])
    {
      if reading[c].authority == "" { return false; }
      if reading[c].autosignCommand != "" { return false; }
      if reading[c].authority !in authorities { return false; }
      return true;
    }

    method EndWithoutRender(c: Name)
      requires c in reading && !MayRender(authorities, reading[c])
      modifies this`reading
      ensures RenderNotNeeded(old(Snapshot()), Snapshot(), c)
    {
      reading := reading - {c};
    }

    method RetryRender(c: Name)
      modifies this`reading, this`renders, this`configQueue
      ensures RenderDropped(old(Snapshot()), Snapshot(), c)
    {
      reading, renders, configQueue := reading - {c}, renders - {c}, configQueue + {c};
    }

    method ListPolicies(c: Name, values: Values) returns (ok: bool)
      requires c in reading && MayRender(authorities, reading[c])
      modifies this`reading, this`renders, this`configQueue
      ensures ok <==>
        forall n :: n in PoliciesFor(policies, old(reading)[c].authority) ==> Resolvable(values, policies[n].spec)
      ensures ok ==> c in renders && RenderListed(old(Snapshot()), Snapshot(), c, renders[c])
      ensures ok ==> RendersValues(policies, values, renders[c])
      ensures !ok ==> RenderDropped(old(Snapshot()), Snapshot(), c)
    {
      var r := RenderAutosignPolicyConfig(reading[c].authority, values);
      if r.None? {
        RetryRender(c);
        return false;
      }
      reading, renders := reading - {c}, renders[c := r.value];
      return true;
    }

    /** reconcileAutosignSecrets up to the write. */
    method ReconcileAutosignSecrets(c: Name, values: Values) returns (listed: bool)
      requires c in reading
      modifies this`reading, this`renders, this`configQueue
      ensures listed ==> c in renders && RenderListed(old(Snapshot()), Snapshot(), c, renders[c])
      ensures listed ==> RendersValues(policies, values, renders[c])
      ensures listed <==>
        MayRender(authorities, old(reading)[c]) && ValuesAreThere(policies, values, old(reading)[c].authority)
      ensures !listed ==> if MayRender(authorities, old(reading)[c]) then RenderDropped(old(Snapshot()), Snapshot(), c)
                          else RenderNotNeeded(old(Snapshot()), Snapshot(), c)
    {
      var ok := ShouldRender(c);
      if ok {
        listed := ListPolicies(c, values);
      } else {
        EndWithoutRender(c);
        listed := false;
      }
    }

    /** enqueueConfigsForSigningPolicy and enqueueConfigsForCertificateAuthority. */
    method ConfigsForAuthority(authority: Name) returns (requests: seq<Name>)
      ensures (set c | c in requests) == Triggered(configs, AuthorityTrigger(authority))
    {
      requests := [];
      if authority == "" { return; }
      var listing := AnyOrder(configs.Keys);
      for i := 0 to |listing|
        invariant forall c :: c in requests <==> c in listing[..i] && configs[c].authority == authority
      {
        var c := listing[i];
        assert c in listing && listing[..i + 1] == listing[..i] + [c];
        if configs[c].authority == authority { requests := requests + [c]; }
      }
      assert listing[..|listing|] == listing;
    }

    /** A policy, CA, Config or Secret event reaches the Config controller. */
    method DeliverTrigger(t: Trigger)
      requires t in triggers
      modifies this`triggers, this`configQueue
      ensures ConfigsEnqueued(old(Snapshot()), Snapshot(), t)
    {
      triggers := triggers - multiset{t};
      match t
      case AuthorityTrigger(a) =>
        var requests := ConfigsForAuthority(a);
        configQueue := configQueue + set c | c in requests;
      case ConfigTrigger(c) =>
        configQueue := configQueue + {c};
    }

    ghost predicate Listed(values: Values, n: Name, source: Source, block: Autosign.Policy)
      reads this
    {
      && n in policies && source == Source(n, policies[n].generation)
      && Resolvable(values, policies[n].spec) && block == Block(values, n, policies[n].spec)
    }

    /** The attribute loop of renderAutosignPolicyConfig. */
    static method ResolveAll(values: Values, attributes: seq<AttributeSpec>)
      returns (r: Option<seq<Autosign.AttributeMatch>>)
      ensures r.Some? <==> forall a :: a in attributes ==> ResolveAttribute(values, a).Some?
      ensures r.Some? ==> |r.value| == |attributes|
      ensures r.Some? ==>
        forall i :: 0 <= i < |attributes| ==> ResolveAttribute(values, attributes[i]) == Some(r.value[i])
    {
      var matches: seq<Autosign.AttributeMatch> := [];
      for i := 0 to |attributes|
        invariant |matches| == i
        invariant forall j :: 0 <= j < i ==> ResolveAttribute(values, attributes[j]) == Some(matches[j])
      {
        var m := ResolveAttribute(values, attributes[i]);
        if m.None? { return None; }
        matches := matches + [m.value];
      }
      return Some(matches);
    }

    /** reconcileSecret: refused when another Config controls the Secret. */
    method ReconcileSecret(c: Name)
      requires c in renders && c !in reading
      modifies this`renders, this`secrets, this`changes, this`triggers, this`configQueue
      ensures var a := old(renders)[c].authority;
        if a in old(secrets) && old(secrets)[a].owner != c then RenderDropped(old(Snapshot()), Snapshot(), c)
        else RenderWritten(old(Snapshot()), Snapshot(), c)
    {
      var authority := renders[c].authority;
      if authority in secrets && secrets[authority].owner != c {
        assert reading - {c} == reading;
        renders, configQueue := renders - {c}, configQueue + {c};
      } else {
        WriteSecret(c);
      }
    }

    /** The one update of data, annotation and owner; nothing if nothing differs. */
    method WriteSecret(c: Name)
      requires c in renders
      requires renders[c].authority in secrets ==> secrets[renders[c].authority].owner == c
      modifies this`renders, this`secrets, this`changes, this`triggers
      ensures RenderWritten(old(Snapshot()), Snapshot(), c)
    {
      var r := renders[c];
      var after := ComposeSecret(c, r);
      renders := renders - {c};
      UpdateSecret(r.authority, after);
    }

    method ComposeSecret(c: Name, r: Render) returns (after: PolicySecret)
      ensures after == Refreshed(secrets, c, r)
    {
      var before := AnnotationsAt(secrets, r.authority);
      var written := RenderedFromAnnotation(r.sources);
      var annotations := (if before.Some? then before.value else map[]) + written;
      MergedAnnotation(if before.Some? then before.value else map[], AnnotationValue(r.sources));
      after := PolicySecret(Autosign.PolicyConfig([OperatorCertname(r.authority)], r.blocks), annotations, c);
    }

    /** CreateOrUpdate. */
    method UpdateSecret(authority: Name, after: PolicySecret)
      modifies this`secrets, this`changes, this`triggers
      ensures secrets == old(secrets)[authority := after]
      ensures authority in old(secrets) && old(secrets)[authority] == after ==>
        changes == old(changes) && triggers == old(triggers)
      ensures !(authority in old(secrets) && old(secrets)[authority] == after) ==>
        changes == old(changes) + multiset{SecretChange(AnnotationsAt(old(secrets), authority), Some(after.annotations))}
        && triggers == old(triggers) + multiset{ConfigTrigger(after.owner)}
    {
      if authority in secrets && secrets[authority] == after {
        assert secrets == secrets[authority := after];
        return;
      }
      changes := changes + multiset{SecretChange(AnnotationsAt(secrets, authority), Some(after.annotations))};
      triggers := triggers + multiset{ConfigTrigger(after.owner)};
      secrets := secrets[authority := after];
    }
  }

  lemma MergedAnnotation(a: Annotations, value: string)
    ensures a + map[KEY := value] == a[KEY := value]
  {
  }

  lemma BlockOf(values: Values, n: Name, spec: Spec, attributes: seq<Autosign.AttributeMatch>)
    requires |attributes| == |spec.csrAttributes|
    requires forall i :: 0 <= i < |attributes| ==> ResolveAttribute(values, spec.csrAttributes[i]) == Some(attributes[i])
    ensures Resolvable(values, spec)
    ensures Block(values, n, spec) == spec.block.(name := n, csrAttributes := attributes)
  {
    assert Block(values, n, spec).csrAttributes == attributes;
  }

  lemma BlockIsFilled(policies: map<Name, SigningPolicy>, values: Values, n: Name, b: Autosign.Policy)
    requires n in policies && Resolvable(values, policies[n].spec) && b == Block(values, n, policies[n].spec)
    ensures MadeFrom(b, n, policies[n].spec) && Filled(policies, values, n, b)
  {
  }

  lemma ListsReferencing(configs: map<Name, Config>, authority: Name, found: seq<Config>)
    requires forall c :: c in found <==> exists k :: k in configs && configs[k] == c && c.authority == authority
    ensures Referenced(configs, authority) <==> found != []
    ensures AllBypass(configs, authority) <==> forall c :: c in found ==> c.autosignCommand != ""
  {
    if found != [] { assert found[0] in found; }
    if k :| k in configs && configs[k].authority == authority { assert configs[k] in found; }
    forall k | k in configs && configs[k].authority == authority ensures configs[k] in found {}
  }
}
