/** The alt names a Certificate is issued for are derived from Servers and Pools,
    internal/controller/certificate_derived.go. The watches have to bring every
    Certificate back whose derived list changed.

    As in Pools, each write is a change delivered later; the map functions list the
    store as it is at delivery. A pass reads the Certificate, lists the Servers and lists
    the Pools in steps of their own, and may do so twice before it writes a status. */
module AltNames {
  import opened Text
  import opened SigningHash
  import Certnames
  import Pools

  type Name = string

  datatype Server = Server(certificateRef: Name, poolRefs: seq<Name>)

  /** What the status remembers of the last signing: SignedSpecHash, EffectiveDNSAltNames. */
  datatype Baseline = Baseline(hash: string, names: seq<string>)

  datatype Certificate = Certificate(
    spec: CertSpec, authority: Name, deleting: bool, paused: bool, signed: bool, recorded: Option<Baseline>)

  datatype Change =
    | CertChange(name: Name)
    | ServerChange(before: Option<Server>, after: Option<Server>)
    | PoolChange(pool: Name)
    | AuthoritySecretChange(authority: Name)

  /** How far a pass has come: the object as it was read, the Pools its Servers join, the
      baseline derived from both. */
  datatype Look =
    | Read(cert: Certificate)
    | Joined(cert: Certificate, wanted: set<Name>)
    | Derived(cert: Certificate, spec: CertSpec, want: Baseline)

  /** Why a pass ended without a retry and without a verdict. */
  datatype Drop = NoAuthority | NameTaken

  /** `issued` is the spec the recorded baseline was derived from. `dropped` holds the
      Certificates whose last pass was given up, as long as no Secret labelled with their
      CA has been written since. */
  datatype State = State(
    certs: map<Name, Certificate>,
    servers: map<Name, Server>,
    pools: map<Name, Pools.Pool>,
    authorities: set<Name>,
    issued: map<Name, CertSpec>,
    dropped: map<Name, Drop>,
    looking: map<Name, Look>,
    changes: multiset<Change>,
    queue: set<Name>)

  // ---------- the derived view ----------

  predicate Injects(p: Pools.Pool) {
    && !p.deleting
    && p.route.Some? && p.route.value.enabled && p.route.value.injectDnsAltName
    && p.route.value.hostname != ""
  }

  /** The Pools joined by the Servers that use the Certificate. */
  function JoinedPools(servers: map<Name, Server>, n: Name): set<Name> {
    set k, p | k in servers && servers[k].certificateRef == n && p in servers[k].poolRefs :: p
  }

  /** The hostnames of one listing that are wanted and injected. */
  function HostnamesAmong(pools: map<Name, Pools.Pool>, wanted: set<Name>, listing: seq<Name>): set<string> {
    set p | p in listing && p in pools && p in wanted && Injects(pools[p]) :: pools[p].route.value.hostname
  }

  function Hostnames(pools: map<Name, Pools.Pool>, wanted: set<Name>): set<string> {
    set p | p in pools && p in wanted && Injects(pools[p]) :: pools[p].route.value.hostname
  }

  /** effectiveDNSAltNames: the strictly sorted list of the derived set. */
  ghost function NamesFor(pools: map<Name, Pools.Pool>, spec: CertSpec, wanted: set<Name>): seq<string> {
    SortedListing(Elements(spec.dnsAltNames) + Hostnames(pools, wanted))
  }

  ghost function BaselineOf(spec: CertSpec, names: seq<string>): Baseline {
    Baseline(Digest(spec, names), names)
  }

  ghost function WantFor(pools: map<Name, Pools.Pool>, spec: CertSpec, wanted: set<Name>): Baseline {
    BaselineOf(spec, NamesFor(pools, spec, wanted))
  }

  ghost function WantNow(s: State, n: Name): Baseline
    requires n in s.certs
  {
    WantFor(s.pools, s.certs[n].spec, JoinedPools(s.servers, n))
  }

  predicate Matches(c: Certificate, want: Baseline) {
    c.signed && c.recorded.Some? && c.recorded.value.hash == want.hash
  }

  /** Signed, and the recorded hash is that of its spec and the names derived now. */
  ghost predicate Current(s: State, n: Name)
    requires n in s.certs
  {
    Matches(s.certs[n], WantNow(s, n))
  }

  /** A live Certificate with the same certname against the same CA. */
  predicate Rival(certs: map<Name, Certificate>, n: Name, c: Certificate, m: Name) {
    && m in certs && m != n && !certs[m].deleting && certs[m].authority == c.authority
    && Certnames.EffectiveCertname(certs[m].spec.certname) == Certnames.EffectiveCertname(c.spec.certname)
  }

  // ---------- the watches ----------

  function NonEmptyRef(server: Option<Server>): set<Name> {
    if server.None? || server.value.certificateRef == "" then {} else {server.value.certificateRef}
  }

  /** certificatesForPool: the Certificates of the Servers that join the Pool. */
  function ForPool(servers: map<Name, Server>, p: Name): set<Name> {
    set k | k in servers && servers[k].certificateRef != "" && p in servers[k].poolRefs
      :: servers[k].certificateRef
  }

  /** enqueueCertificatesForSecret on a Secret labelled with the CA. */
  function ForAuthority(certs: map<Name, Certificate>, authority: Name): set<Name> {
    set n | n in certs && certs[n].authority == authority
  }

  /** Everything one change enqueues; a Server's old and new object are both mapped. */
  function Reached(s: State, c: Change): set<Name> {
    match c
    case CertChange(n) => {n}
    case ServerChange(before, after) => NonEmptyRef(before) + NonEmptyRef(after)
    case PoolChange(p) => ForPool(s.servers, p)
    case AuthoritySecretChange(a) => ForAuthority(s.certs, a)
  }

  ghost predicate Covered(s: State, n: Name) {
    n in s.queue || exists c :: c in s.changes && n in Reached(s, c)
  }

  // ---------- the steps of others ----------

  predicate ServerWritten(s: State, s': State, k: Name, after: Option<Server>) {
    s' == s.(servers := Pools.Put(s.servers, k, after),
             changes := s.changes + multiset{ServerChange(Pools.Lookup(s.servers, k), after)})
  }

  predicate PoolWritten(s: State, s': State, p: Name, after: Option<Pools.Pool>) {
    s' == s.(pools := Pools.Put(s.pools, p, after), changes := s.changes + multiset{PoolChange(p)})
  }

  /** A Certificate is created, edited, paused, marked for deletion or removed; its status
      is the controller's. Object names are not empty. */
  predicate CertWritten(s: State, s': State, n: Name, after: Option<Certificate>) {
    && n != ""
    && (after.Some? ==>
         if n in s.certs then after.value.signed == s.certs[n].signed && after.value.recorded == s.certs[n].recorded
         else !after.value.signed && after.value.recorded.None?)
    && s' == s.(certs := Pools.Put(s.certs, n, after), changes := s.changes + multiset{CertChange(n)})
  }

  /** A CertificateAuthority appears or goes. No watch of this controller sees it. */
  predicate AuthorityWritten(s: State, s': State, a: Name, present: bool) {
    s' == s.(authorities := if present then s.authorities + {a} else s.authorities - {a})
  }

  /** A Secret labelled with the CA is written or removed: by the setup Job, by a CRL
      refresh, by the garbage collector. */
  predicate AuthoritySecretWritten(s: State, s': State, a: Name) {
    s' == s.(dropped := s.dropped - ForAuthority(s.certs, a),
             changes := s.changes + multiset{AuthoritySecretChange(a)})
  }

  predicate Delivered(s: State, s': State, c: Change) {
    c in s.changes
    && s' == s.(changes := s.changes - multiset{c}, queue := s.queue + Reached(s, c))
  }

  /** A resync, a timer, or an event of the Certificate's own Secrets. */
  predicate Resynced(s: State, s': State, n: Name) {
    s' == s.(queue := s.queue + {n})
  }

  // ---------- the steps of a pass ----------

  predicate Began(s: State, s': State, n: Name) {
    && n in s.queue && n !in s.looking && n in s.certs && !s.certs[n].deleting && !s.certs[n].paused
    && s' == s.(queue := s.queue - {n}, dropped := s.dropped - {n}, looking := s.looking[n := Read(s.certs[n])])
  }

  /** The Certificate is gone, paused, or on its way out, which ends in its deletion branch. */
  predicate Skipped(s: State, s': State, n: Name) {
    && n in s.queue && n !in s.looking && (n in s.certs ==> s.certs[n].deleting || s.certs[n].paused)
    && s' == s.(queue := s.queue - {n}, dropped := s.dropped - {n})
  }

  predicate ServersListed(s: State, s': State, n: Name) {
    && n in s.looking && s.looking[n].Read?
    && s' == s.(looking := s.looking[n := Joined(s.looking[n].cert, JoinedPools(s.servers, n))])
  }

  ghost predicate PoolsListed(s: State, s': State, n: Name) {
    && n in s.looking && s.looking[n].Joined?
    && var l := s.looking[n];
      s' == s.(looking := s.looking[n := Derived(l.cert, l.cert.spec, WantFor(s.pools, l.cert.spec, l.wanted))])
  }

  /** The names are derived once more, as for the request and then for the mark. */
  predicate Restarted(s: State, s': State, n: Name) {
    n in s.looking && s' == s.(looking := s.looking[n := Read(s.looking[n].cert)])
  }

  /** A status write is an event of the Certificate if it changes anything, be it what is
      modelled or another part of the status. */
  predicate StatusEvent(s: State, s': State, n: Name) {
    s'.changes == s.changes + multiset{CertChange(n)} || (s'.changes == s.changes && s'.certs == s.certs)
  }

  /** A status write reads the object again and works on from what it read. */
  predicate Requested(s: State, s': State, n: Name) {
    && n in s.looking && n in s.certs && StatusEvent(s, s', n)
    && var c := s.certs[n].(signed := false);
      s' == s.(certs := s.certs[n := c], looking := s.looking[n := Read(c)], changes := s'.changes)
  }

  predicate Adopted(s: State, s': State, n: Name) {
    && n in s.looking && s.looking[n].Derived? && n in s.certs && StatusEvent(s, s', n)
    && var l := s.looking[n];
      var c := s.certs[n].(recorded := Some(l.want));
      s' == s.(certs := s.certs[n := c], issued := s.issued[n := l.spec],
               looking := s.looking[n := Derived(c, l.spec, l.want)], changes := s'.changes)
  }

  /** Every way to Signed records what was derived last. */
  predicate Marked(s: State, s': State, n: Name) {
    && n in s.looking && s.looking[n].Derived? && n in s.certs && StatusEvent(s, s', n)
    && var l := s.looking[n];
      s' == s.(certs := s.certs[n := s.certs[n].(signed := true, recorded := Some(l.want))],
               issued := s.issued[n := l.spec], looking := s.looking - {n}, changes := s'.changes)
  }

  /** Signed, hash unchanged, renewal not due. */
  predicate Settled(s: State, s': State, n: Name) {
    && n in s.looking && s.looking[n].Derived? && Matches(s.looking[n].cert, s.looking[n].want)
    && s' == s.(looking := s.looking - {n})
  }

  /** A requeue or an error, with or without a phase other than Signed. */
  predicate Requeued(s: State, s': State, n: Name) {
    && n in s.looking && StatusEvent(s, s', n)
    && (s'.certs == s.certs || (n in s.certs && s'.certs == s.certs[n := s.certs[n].(signed := false)]))
    && s' == s.(certs := s'.certs, looking := s.looking - {n}, queue := s.queue + {n}, changes := s'.changes)
  }

  /** The CA does not exist: no status, no retry. */
  predicate Stranded(s: State, s': State, n: Name) {
    n in s.looking && s.looking[n].cert.authority !in s.authorities
    && s' == s.(looking := s.looking - {n}, dropped := s.dropped[n := NoAuthority])
  }

  /** reportCertnameConflict: an error status, no retry. */
  ghost predicate Refused(s: State, s': State, n: Name) {
    && n in s.looking && (exists m :: Rival(s.certs, n, s.looking[n].cert, m)) && StatusEvent(s, s', n)
    && s' == s.(certs := if n in s.certs then s.certs[n := s.certs[n].(signed := false)] else s.certs,
                looking := s.looking - {n}, dropped := s.dropped[n := NameTaken], changes := s'.changes)
  }

  // ---------- what a pass finds on its way ----------

  predicate CaFound(s: State, s': State, n: Name) {
    n in s.looking && s.looking[n].cert.authority in s.authorities && s' == s
  }

  /** The Certificate was read as signed, and the recorded hash is not the derived one. */
  predicate DriftSeen(s: State, s': State, n: Name) {
    && n in s.looking && s.looking[n].Derived? && s' == s
    && var l := s.looking[n];
      l.cert.signed && l.cert.recorded.Some? && l.cert.recorded.value.hash != l.want.hash
  }

  /** It was read as signed, and the recorded hash is the derived one. */
  predicate NoDriftSeen(s: State, s': State, n: Name) {
    n in s.looking && s.looking[n].Derived? && Matches(s.looking[n].cert, s.looking[n].want) && s' == s
  }

  ghost predicate NameFree(s: State, s': State, n: Name) {
    n in s.looking && (forall m :: !Rival(s.certs, n, s.looking[n].cert, m)) && s' == s
  }

  /** The request goes to the CA, for the names derived last. */
  predicate RequestSent(s: State, s': State, n: Name) {
    n in s.looking && s.looking[n].Derived? && s' == s
  }

  datatype Event =
    | WriteServer(server: Name, newServer: Option<Server>)
    | WritePool(pool: Name, newPool: Option<Pools.Pool>)
    | WriteCert(name: Name, cert: Option<Certificate>)
    | WriteAuthority(authority: Name, present: bool)
    | WriteAuthoritySecret(authority: Name)
    | Deliver(change: Change)
    | Resync(name: Name)
    | Begin(name: Name)
    | Skip(name: Name)
    | ListServers(name: Name)
    | ListPools(name: Name)
    | Restart(name: Name)
    | Request(name: Name)
    | Adopt(name: Name)
    | Mark(name: Name)
    | Settle(name: Name)
    | Requeue(name: Name)
    | Strand(name: Name)
    | Refuse(name: Name)
    | FindCa(name: Name)
    | Drift(name: Name)
    | Steady(name: Name)
    | Clear(name: Name)
    | Submit(name: Name)

  ghost predicate Step(s: State, e: Event, s': State) {
    match e
    case WriteServer(k, after) => ServerWritten(s, s', k, after)
    case WritePool(p, after) => PoolWritten(s, s', p, after)
    case WriteCert(n, after) => CertWritten(s, s', n, after)
    case WriteAuthority(a, present) => AuthorityWritten(s, s', a, present)
    case WriteAuthoritySecret(a) => AuthoritySecretWritten(s, s', a)
    case Deliver(c) => Delivered(s, s', c)
    case Resync(n) => Resynced(s, s', n)
    case Begin(n) => Began(s, s', n)
    case Skip(n) => Skipped(s, s', n)
    case ListServers(n) => ServersListed(s, s', n)
    case ListPools(n) => PoolsListed(s, s', n)
    case Restart(n) => Restarted(s, s', n)
    case Request(n) => Requested(s, s', n)
    case Adopt(n) => Adopted(s, s', n)
    case Mark(n) => Marked(s, s', n)
    case Settle(n) => Settled(s, s', n)
    case Requeue(n) => Requeued(s, s', n)
    case Strand(n) => Stranded(s, s', n)
    case Refuse(n) => Refused(s, s', n)
    case FindCa(n) => CaFound(s, s', n)
    case Drift(n) => DriftSeen(s, s', n)
    case Steady(n) => NoDriftSeen(s, s', n)
    case Clear(n) => NameFree(s, s', n)
    case Submit(n) => RequestSent(s, s', n)
  }

  // ---------- the invariant ----------

  /** What the pass of n goes by is what the store says now. */
  ghost predicate Fresh(s: State, n: Name)
    requires n in s.certs && n in s.looking
  {
    var l := s.looking[n];
    l.cert == s.certs[n]
    && match l
      case Read(_) => true
      case Joined(_, wanted) => wanted == JoinedPools(s.servers, n)
      case Derived(_, spec, want) => spec == s.certs[n].spec && want == WantNow(s, n)
  }

  predicate Excused(s: State, n: Name)
    requires n in s.certs
  {
    s.certs[n].paused || s.certs[n].deleting || n in s.dropped
  }

  /** On its way to be looked at, being looked at on current data, excused, or signed for
      what the store derives now. */
  ghost predicate Attended(s: State, n: Name)
    requires n in s.certs
  {
    || Covered(s, n)
    || (n in s.looking && Fresh(s, n))
    || (n !in s.looking && (Excused(s, n) || Current(s, n)))
  }

  ghost predicate Coherent(s: State) {
    "" !in s.certs && forall n :: n in s.certs ==> Attended(s, n)
  }

  /** What is recorded, and what a pass is about to record, is one baseline. */
  ghost predicate Recorded(s: State) {
    && (forall n :: n in s.certs && s.certs[n].recorded.Some? ==>
         n in s.issued && IsBaseline(s.issued[n], s.certs[n].recorded.value))
    && (forall n :: n in s.looking && s.looking[n].Derived? ==> IsBaseline(s.looking[n].spec, s.looking[n].want))
  }

  ghost predicate IsBaseline(spec: CertSpec, b: Baseline) {
    b == BaselineOf(spec, b.names) && StrictlySorted(b.names)
  }

  /** At start every Certificate is enqueued, whatever its status says it was signed for. */
  ghost predicate Init(s: State) {
    "" !in s.certs && s.queue == s.certs.Keys && s.dropped == map[] && s.looking == map[] && Recorded(s)
  }

  /** The state is a first one, or comes from the one before. */
  ghost predicate Follows(run: seq<State>, events: seq<Event>, i: nat)
    requires i < |run| == |events| + 1
  {
    if i == 0 then Init(run[0]) else Step(run[i - 1], events[i - 1], run[i])
  }

  ghost predicate IsRun(run: seq<State>, events: seq<Event>) {
    |run| == |events| + 1 && forall i :: 0 <= i < |run| ==> Follows(run, events, i)
  }

  lemma StillCovered(s: State, s': State, n: Name)
    requires Covered(s, n) && n in s.certs && n in s'.certs && s'.certs[n].authority == s.certs[n].authority
    requires s'.servers == s.servers && s.changes <= s'.changes && (n in s.queue ==> n in s'.queue)
    ensures Covered(s', n)
  {
    if n !in s'.queue {
      var c :| c in s.changes && n in Reached(s, c);
      assert c in s'.changes && n in Reached(s', c);
    }
  }

  // ----- writes of Servers -----

  predicate ElsewhereOnly(a: map<Name, Server>, b: map<Name, Server>, k: Name, n: Name) {
    (k in a ==> a[k].certificateRef != n) && forall j :: j in a && j != k ==> j in b && b[j] == a[j]
  }

  lemma ReachSurvives(s: State, s': State, k: Name, n: Name, c: Change)
    requires ElsewhereOnly(s.servers, s'.servers, k, n) && s'.certs == s.certs
    requires n in Reached(s, c)
    ensures n in Reached(s', c)
  {
  }

  lemma JoinedSurvive(a: map<Name, Server>, b: map<Name, Server>, k: Name, n: Name)
    requires ElsewhereOnly(a, b, k, n)
    ensures JoinedPools(a, n) <= JoinedPools(b, n)
  {
  }

  lemma ServerWriteKeeps(s: State, s': State, k: Name, after: Option<Server>, n: Name)
    requires ServerWritten(s, s', k, after) && n in s.certs && n != "" && Attended(s, n)
    ensures Attended(s', n)
  {
    var before := Pools.Lookup(s.servers, k);
    var c := ServerChange(before, after);
    assert c in s'.changes;
    if n in NonEmptyRef(before) + NonEmptyRef(after) {
      assert n in Reached(s', c);
    } else {
      ServerElsewhereKeeps(s, s', k, n);
    }
  }

  lemma ServerElsewhereKeeps(s: State, s': State, k: Name, n: Name)
    requires s' == s.(servers := s'.servers, changes := s'.changes) && s.changes <= s'.changes
    requires ElsewhereOnly(s.servers, s'.servers, k, n) && ElsewhereOnly(s'.servers, s.servers, k, n)
    requires n in s.certs && Attended(s, n)
    ensures Attended(s', n)
  {
    if Covered(s, n) {
      CoveredElsewhere(s, s', k, n);
    } else {
      JoinedSurvive(s.servers, s'.servers, k, n);
      JoinedSurvive(s'.servers, s.servers, k, n);
      SameJoinedKeeps(s, s', n);
    }
  }

  lemma CoveredElsewhere(s: State, s': State, k: Name, n: Name)
    requires s' == s.(servers := s'.servers, changes := s'.changes) && s.changes <= s'.changes
    requires ElsewhereOnly(s.servers, s'.servers, k, n) && Covered(s, n)
    ensures Covered(s', n)
  {
    if n !in s.queue {
      var d :| d in s.changes && n in Reached(s, d);
      ReachSurvives(s, s', k, n, d);
      assert d in s'.changes;
    }
  }

  lemma SameJoinedKeeps(s: State, s': State, n: Name)
    requires s' == s.(servers := s'.servers, changes := s'.changes)
    requires JoinedPools(s'.servers, n) == JoinedPools(s.servers, n)
    requires n in s.certs && Attended(s, n) && !Covered(s, n)
    ensures Attended(s', n)
  {
    assert WantNow(s', n) == WantNow(s, n);
  }

  // ----- writes of Pools -----

  lemma PoolElsewhere(a: map<Name, Pools.Pool>, b: map<Name, Pools.Pool>, p: Name, wanted: set<Name>)
    requires p !in wanted && forall q :: q != p ==> Pools.Lookup(a, q) == Pools.Lookup(b, q)
    ensures Hostnames(a, wanted) == Hostnames(b, wanted)
  {
    forall h ensures h in Hostnames(a, wanted) <==> h in Hostnames(b, wanted) {
      if h in Hostnames(a, wanted) {
        var q :| q in a && q in wanted && Injects(a[q]) && a[q].route.value.hostname == h;
        assert Pools.Lookup(a, q) == Pools.Lookup(b, q);
      }
      if h in Hostnames(b, wanted) {
        var q :| q in b && q in wanted && Injects(b[q]) && b[q].route.value.hostname == h;
        assert Pools.Lookup(a, q) == Pools.Lookup(b, q);
      }
    }
  }

  lemma PoolWriteKeeps(s: State, s': State, p: Name, after: Option<Pools.Pool>, n: Name)
    requires PoolWritten(s, s', p, after) && n in s.certs && n != "" && Attended(s, n)
    ensures Attended(s', n)
  {
    assert PoolChange(p) in s'.changes;
    if p in JoinedPools(s.servers, n) {
      assert n in Reached(s', PoolChange(p));
    } else {
      PoolElsewhere(s.pools, s'.pools, p, JoinedPools(s.servers, n));
      if Covered(s, n) { StillCovered(s, s', n); }
    }
  }

  // ----- writes of Certificates, CAs and their Secrets -----

  lemma CertWriteKeeps(s: State, s': State, k: Name, after: Option<Certificate>, n: Name)
    requires CertWritten(s, s', k, after) && n in s'.certs
    requires n in s.certs ==> Attended(s, n)
    ensures Attended(s', n)
  {
    if n == k {
      assert CertChange(k) in s'.changes && k in Reached(s', CertChange(k));
    } else if Covered(s, n) {
      StillCovered(s, s', n);
    }
  }

  lemma AuthorityWriteKeeps(s: State, s': State, n: Name)
    requires s' == s.(authorities := s'.authorities) && n in s.certs && Attended(s, n)
    ensures Attended(s', n)
  {
    if Covered(s, n) { StillCovered(s, s', n); }
  }

  /** Whoever was given up for the CA, or beside a rival on it, is on its way again. */
  lemma AuthoritySecretBringsBack(s: State, s': State, a: Name, n: Name)
    requires AuthoritySecretWritten(s, s', a) && n in s.certs && s.certs[n].authority == a
    ensures Covered(s', n) && n !in s'.dropped
  {
    assert AuthoritySecretChange(a) in s'.changes && n in Reached(s', AuthoritySecretChange(a));
  }

  lemma AuthoritySecretKeeps(s: State, s': State, a: Name, n: Name)
    requires AuthoritySecretWritten(s, s', a) && n in s.certs && Attended(s, n)
    ensures Attended(s', n)
  {
    if s.certs[n].authority == a {
      AuthoritySecretBringsBack(s, s', a, n);
    } else if Covered(s, n) {
      StillCovered(s, s', n);
    }
  }

  lemma DeliveryKeeps(s: State, s': State, c: Change, n: Name)
    requires Delivered(s, s', c) && n in s.certs && Attended(s, n)
    ensures Attended(s', n)
  {
    if Covered(s, n) && n !in s'.queue {
      var d :| d in s.changes && n in Reached(s, d);
      assert d != c && d in s'.changes && n in Reached(s', d);
    }
  }

  // ----- passes -----

  predicate OfPass(e: Event) {
    || e.Resync? || e.Begin? || e.Skip? || e.ListServers? || e.ListPools? || e.Restart? || e.Request? || e.Adopt?
    || e.Mark? || e.Settle? || e.Requeue? || e.Strand? || e.Refuse? || Finds(e)
  }

  predicate Finds(e: Event) {
    e.FindCa? || e.Drift? || e.Steady? || e.Clear? || e.Submit?
  }

  lemma FindingChangesNothing(s: State, e: Event, s': State)
    requires Step(s, e, s') && Finds(e)
    ensures s' == s
  {
  }

  /** What a pass of one Certificate leaves of all others. */
  ghost predicate LeavesOther(s: State, s': State, n: Name) {
    && s'.servers == s.servers && s'.pools == s.pools
    && s.changes <= s'.changes && (n in s.queue ==> n in s'.queue)
    && Pools.Lookup(s'.certs, n) == Pools.Lookup(s.certs, n)
    && Pools.Lookup(s'.looking, n) == Pools.Lookup(s.looking, n)
    && (n in s.dropped <==> n in s'.dropped)
  }

  predicate Moves(e: Event) {
    e.Resync? || e.Begin? || e.Skip? || e.ListServers? || e.ListPools? || e.Restart? || e.Settle? || e.Strand?
  }

  lemma MoveLeavesOther(s: State, e: Event, s': State, n: Name)
    requires Step(s, e, s') && Moves(e) && e.name != n
    ensures LeavesOther(s, s', n)
  {
  }

  lemma RecordLeavesOther(s: State, e: Event, s': State, n: Name)
    requires Step(s, e, s') && (e.Request? || e.Adopt? || e.Mark?) && e.name != n
    ensures LeavesOther(s, s', n)
  {
  }

  lemma RequeueLeavesOther(s: State, s': State, k: Name, n: Name)
    requires Requeued(s, s', k) && k != n
    ensures LeavesOther(s, s', n)
  {
  }

  lemma RefusalLeavesOther(s: State, s': State, k: Name, n: Name)
    requires Refused(s, s', k) && k != n
    ensures LeavesOther(s, s', n)
  {
  }

  lemma PassLeavesOther(s: State, e: Event, s': State, n: Name)
    requires Step(s, e, s') && OfPass(e) && !Finds(e) && e.name != n
    ensures LeavesOther(s, s', n)
  {
    if Moves(e) {
      MoveLeavesOther(s, e, s', n);
    } else if e.Requeue? {
      RequeueLeavesOther(s, s', e.name, n);
    } else if e.Refuse? {
      RefusalLeavesOther(s, s', e.name, n);
    } else {
      RecordLeavesOther(s, e, s', n);
    }
  }

  lemma OtherPassKeeps(s: State, s': State, n: Name)
    requires LeavesOther(s, s', n) && n in s.certs && Attended(s, n)
    ensures n in s'.certs && Attended(s', n)
  {
    assert n in s'.certs <==> n in s.certs;
    assert n in s'.looking <==> n in s.looking;
    if Covered(s, n) { StillCovered(s, s', n); }
  }

  /** The steps that only move the pass on. */
  lemma OwnLookKeeps(s: State, e: Event, s': State, n: Name)
    requires Step(s, e, s') && (e.ListServers? || e.ListPools? || e.Restart?) && e.name == n
    requires n in s.certs && Attended(s, n)
    ensures Attended(s', n)
  {
    if Covered(s, n) { StillCovered(s, s', n); }
  }

  lemma OwnQueueKeeps(s: State, e: Event, s': State, n: Name)
    requires Step(s, e, s') && (e.Resync? || e.Begin? || e.Skip? || e.Requeue? || e.Strand? || e.Refuse?) && e.name == n
    requires n in s.certs && Attended(s, n)
    ensures n in s'.certs && Attended(s', n)
  {
    if Covered(s, n) && !e.Begin? && !e.Skip? { StillCovered(s, s', n); }
  }

  lemma OwnStatusKeeps(s: State, e: Event, s': State, n: Name)
    requires Step(s, e, s') && (e.Request? || e.Adopt? || e.Mark? || e.Settle?) && e.name == n
    requires n in s.certs && Attended(s, n)
    ensures n in s'.certs && Attended(s', n)
  {
    if Covered(s, n) { StillCovered(s, s', n); }
  }

  lemma PassKeeps(s: State, e: Event, s': State, n: Name)
    requires Step(s, e, s') && OfPass(e) && !Finds(e) && n in s.certs && Attended(s, n)
    ensures n in s'.certs && Attended(s', n)
  {
    if e.name != n {
      PassLeavesOther(s, e, s', n);
      OtherPassKeeps(s, s', n);
    } else if e.ListServers? || e.ListPools? || e.Restart? {
      OwnLookKeeps(s, e, s', n);
    } else if e.Request? || e.Adopt? || e.Mark? || e.Settle? {
      OwnStatusKeeps(s, e, s', n);
    } else {
      OwnQueueKeeps(s, e, s', n);
    }
  }

  lemma PassAddsNone(s: State, e: Event, s': State)
    requires Step(s, e, s') && !e.WriteCert?
    ensures s'.certs.Keys == s.certs.Keys
  {
  }

  lemma StepKeepsAttended(s: State, e: Event, s': State, n: Name)
    requires Step(s, e, s') && n in s'.certs && n != ""
    requires n in s.certs ==> Attended(s, n)
    ensures Attended(s', n)
  {
    if !e.WriteCert? { PassAddsNone(s, e, s'); }
    if Finds(e) {
      FindingChangesNothing(s, e, s');
    } else if OfPass(e) {
      PassKeeps(s, e, s', n);
    } else {
      match e
      case WriteServer(k, after) => ServerWriteKeeps(s, s', k, after, n);
      case WritePool(p, after) => PoolWriteKeeps(s, s', p, after, n);
      case WriteCert(k, after) => CertWriteKeeps(s, s', k, after, n);
      case WriteAuthority(_, _) => AuthorityWriteKeeps(s, s', n);
      case WriteAuthoritySecret(a) => AuthoritySecretKeeps(s, s', a, n);
      case Deliver(c) => DeliveryKeeps(s, s', c, n);
    }
  }

  lemma StepKeepsNames(s: State, e: Event, s': State)
    requires Step(s, e, s') && "" !in s.certs
    ensures "" !in s'.certs
  {
    if !e.WriteCert? { PassAddsNone(s, e, s'); }
  }

  /** In every run, at every moment, each Certificate is about to be looked at, is being
      looked at on current data, is excused, or is signed for the names derived now. */
  lemma {:induction false} RunsAreCoherent(run: seq<State>, events: seq<Event>, i: nat)
    requires IsRun(run, events) && i < |run|
    ensures Coherent(run[i])
    ensures forall n :: n in run[i].certs ==> Attended(run[i], n)
  {
    assert Follows(run, events, i);
    if i > 0 {
      RunsAreCoherent(run, events, i - 1);
      StepKeepsNames(run[i - 1], events[i - 1], run[i]);
      forall n | n in run[i].certs ensures Attended(run[i], n) {
        StepKeepsAttended(run[i - 1], events[i - 1], run[i], n);
      }
    }
  }

  // ---------- what is recorded ----------

  lemma NamesAreStrict(pools: map<Name, Pools.Pool>, spec: CertSpec, wanted: set<Name>)
    ensures IsBaseline(spec, WantFor(pools, spec, wanted))
  {
  }

  /** Nothing is recorded or about to be recorded that was not before. */
  ghost predicate NoNewBaseline(s: State, s': State) {
    && s'.issued == s.issued
    && (forall n :: n in s'.certs && s'.certs[n].recorded.Some? ==>
         n in s.certs && s.certs[n].recorded == s'.certs[n].recorded)
    && (forall n :: n in s'.looking && s'.looking[n].Derived? ==> n in s.looking && s.looking[n] == s'.looking[n])
  }

  lemma MovesAddNoBaseline(s: State, e: Event, s': State)
    requires Step(s, e, s') && Moves(e) && !e.ListPools?
    ensures NoNewBaseline(s, s')
  {
  }

  lemma OthersAddNoBaseline(s: State, e: Event, s': State)
    requires Step(s, e, s') && !OfPass(e)
    ensures NoNewBaseline(s, s')
  {
  }

  lemma UnsigningAddsNoBaseline(s: State, e: Event, s': State)
    requires Step(s, e, s') && (e.Request? || e.Requeue? || e.Refuse?)
    ensures NoNewBaseline(s, s')
  {
  }

  lemma ListingKeepsRecorded(s: State, s': State, n: Name)
    requires PoolsListed(s, s', n) && Recorded(s)
    ensures Recorded(s')
  {
    var l := s.looking[n];
    NamesAreStrict(s.pools, l.cert.spec, l.wanted);
  }

  /** One baseline is recorded for n, and nothing else changes in that respect. */
  ghost predicate Records(s: State, s': State, n: Name, spec: CertSpec, want: Baseline) {
    && s'.issued == s.issued[n := spec]
    && (forall m :: m in s'.certs && s'.certs[m].recorded.Some? ==>
         s'.certs[m].recorded == if m == n then Some(want) else Recording(s, m))
    && (forall m :: m in s'.looking && s'.looking[m].Derived? ==>
         m in s.looking && s.looking[m].Derived?
         && s.looking[m].spec == s'.looking[m].spec && s.looking[m].want == s'.looking[m].want)
  }

  function Recording(s: State, n: Name): Option<Baseline> {
    if n in s.certs then s.certs[n].recorded else None
  }

  lemma AdoptionRecords(s: State, s': State, n: Name)
    requires Adopted(s, s', n)
    ensures Records(s, s', n, s.looking[n].spec, s.looking[n].want)
  {
  }

  lemma MarkRecords(s: State, s': State, n: Name)
    requires Marked(s, s', n)
    ensures Records(s, s', n, s.looking[n].spec, s.looking[n].want)
  {
  }

  lemma RecordsKeepRecorded(s: State, s': State, n: Name, spec: CertSpec, want: Baseline)
    requires Records(s, s', n, spec, want) && IsBaseline(spec, want) && Recorded(s)
    ensures Recorded(s')
  {
    forall m | m in s'.certs && s'.certs[m].recorded.Some?
      ensures m in s'.issued && IsBaseline(s'.issued[m], s'.certs[m].recorded.value)
    {
      if m != n { assert s.certs[m].recorded == s'.certs[m].recorded; }
    }
  }

  lemma StepKeepsRecorded(s: State, e: Event, s': State)
    requires Step(s, e, s') && Recorded(s)
    ensures Recorded(s')
  {
    if Finds(e) {
      FindingChangesNothing(s, e, s');
    } else if e.ListPools? {
      ListingKeepsRecorded(s, s', e.name);
    } else if e.Adopt? || e.Mark? {
      if e.Adopt? { AdoptionRecords(s, s', e.name); } else { MarkRecords(s, s', e.name); }
      RecordsKeepRecorded(s, s', e.name, s.looking[e.name].spec, s.looking[e.name].want);
    } else {
      if !OfPass(e) {
        OthersAddNoBaseline(s, e, s');
      } else if Moves(e) {
        MovesAddNoBaseline(s, e, s');
      } else {
        UnsigningAddsNoBaseline(s, e, s');
      }
      NoNewKeepsRecorded(s, s');
    }
  }

  lemma NoNewKeepsRecorded(s: State, s': State)
    requires NoNewBaseline(s, s') && Recorded(s)
    ensures Recorded(s')
  {
  }

  lemma {:induction false} RunsRecordBaselines(run: seq<State>, events: seq<Event>, i: nat)
    requires IsRun(run, events) && i < |run|
    ensures Recorded(run[i])
  {
    assert Follows(run, events, i);
    if i > 0 {
      RunsRecordBaselines(run, events, i - 1);
      StepKeepsRecorded(run[i - 1], events[i - 1], run[i]);
    }
  }

  predicate AtRest(s: State) {
    s.queue == {} && s.changes == multiset{} && s.looking == map[]
  }

  /** At rest every Certificate that is not excused is signed, and if certname and
      extensions are those it was signed for, the recorded names are the derived ones. */
  lemma RecordedNamesAreCurrent(run: seq<State>, events: seq<Event>, i: nat, n: Name)
    requires IsRun(run, events) && i < |run| && AtRest(run[i])
    requires n in run[i].certs && !Excused(run[i], n)
    ensures var c := run[i].certs[n]; c.signed && c.recorded.Some? && n in run[i].issued
    ensures var s, c := run[i], run[i].certs[n];
      s.issued[n].certname == c.spec.certname && s.issued[n].extensions == c.spec.extensions
      && (forall x :: x in c.recorded.value.names ==> ValidName(x))
      && (forall x :: x in WantNow(s, n).names ==> ValidName(x)) ==>
        c.recorded.value == WantNow(s, n)
  {
    RunsAreCoherent(run, events, i);
    RunsRecordBaselines(run, events, i);
    var s := run[i];
    assert !Covered(s, n);
    assert Attended(s, n) && Current(s, n);
    var c, spec := s.certs[n], s.issued[n];
    NamesAreStrict(s.pools, c.spec, JoinedPools(s.servers, n));
    if spec.certname == c.spec.certname && spec.extensions == c.spec.extensions
      && (forall x :: x in c.recorded.value.names ==> ValidName(x))
      && (forall x :: x in WantNow(s, n).names ==> ValidName(x))
    {
      SameHashSameNames(spec, c.spec, c.recorded.value, WantNow(s, n));
    }
  }

  lemma SameHashSameNames(a: CertSpec, b: CertSpec, x: Baseline, y: Baseline)
    requires IsBaseline(a, x) && IsBaseline(b, y) && x.hash == y.hash
    requires a.certname == b.certname && a.extensions == b.extensions
    requires forall n :: n in x.names ==> ValidName(n)
    requires forall n :: n in y.names ==> ValidName(n)
    ensures x == y
  {
    HashTracksNames(a, b, x.names, y.names);
    StrictlySortedUnique(x.names, y.names);
  }

  // ---------- Certificates that were given up ----------

  predicate WritesSecretOf(s: State, e: Event, n: Name) {
    e.WriteAuthoritySecret? && n in ForAuthority(s.certs, e.authority)
  }

  predicate OpensPass(e: Event, n: Name) {
    e == Begin(n) || e == Skip(n)
  }

  /** The guard of the branch that gives up. */
  ghost predicate GivesUp(s: State, e: Event, n: Name) {
    && n in s.looking
    && ((e == Strand(n) && s.looking[n].cert.authority !in s.authorities)
        || (e == Refuse(n) && exists m :: Rival(s.certs, n, s.looking[n].cert, m)))
  }

  /** Given up at this step, or before and not brought back by it. */
  ghost predicate KeepsOrGivesUp(s: State, e: Event, s': State, n: Name) {
    n in s'.dropped ==>
      GivesUp(s, e, n) || (n in s.dropped && !WritesSecretOf(s, e, n) && !OpensPass(e, n))
  }

  lemma OthersKeepOrGiveUp(s: State, e: Event, s': State, n: Name)
    requires Step(s, e, s') && !OfPass(e)
    ensures KeepsOrGivesUp(s, e, s', n)
  {
  }

  lemma MovesKeepOrGiveUp(s: State, e: Event, s': State, n: Name)
    requires Step(s, e, s') && Moves(e)
    ensures KeepsOrGivesUp(s, e, s', n)
  {
  }

  lemma WritesKeepOrGiveUp(s: State, e: Event, s': State, n: Name)
    requires Step(s, e, s') && OfPass(e) && !Moves(e) && !Finds(e)
    ensures KeepsOrGivesUp(s, e, s', n)
  {
  }

  lemma StepKeepsOrGivesUp(s: State, e: Event, s': State, n: Name)
    requires Step(s, e, s')
    ensures KeepsOrGivesUp(s, e, s', n)
  {
    if Finds(e) {
      FindingChangesNothing(s, e, s');
    } else if !OfPass(e) {
      OthersKeepOrGiveUp(s, e, s', n);
    } else if Moves(e) {
      MovesKeepOrGiveUp(s, e, s', n);
    } else {
      WritesKeepOrGiveUp(s, e, s', n);
    }
  }

  lemma {:induction false} LastGivenUp(run: seq<State>, events: seq<Event>, i: nat, n: Name) returns (j: nat)
    requires |run| == |events| + 1 && i < |run| && run[0].dropped == map[] && n in run[i].dropped
    requires forall k :: 0 <= k < i ==> KeepsOrGivesUp(run[k], events[k], run[k + 1], n)
    ensures j < i && GivesUp(run[j], events[j], n)
    ensures forall k :: j < k < i ==> !WritesSecretOf(run[k], events[k], n) && !OpensPass(events[k], n)
  {
    assert KeepsOrGivesUp(run[i - 1], events[i - 1], run[i - 1 + 1], n);
    if GivesUp(run[i - 1], events[i - 1], n) {
      j := i - 1;
    } else {
      j := LastGivenUp(run, events, i - 1, n);
    }
  }

  /** The excuse is narrow: the last pass met a missing CA or a live rival, and since then
      no labelled Secret of the CA was written. */
  lemma DroppedSince(run: seq<State>, events: seq<Event>, i: nat, n: Name) returns (j: nat)
    requires IsRun(run, events) && i < |run| && n in run[i].dropped
    ensures j < i && GivesUp(run[j], events[j], n)
    ensures forall k :: j < k < i ==> !WritesSecretOf(run[k], events[k], n) && !OpensPass(events[k], n)
  {
    forall k | 0 <= k < i ensures KeepsOrGivesUp(run[k], events[k], run[k + 1], n) {
      assert Follows(run, events, k + 1);
      StepKeepsOrGivesUp(run[k], events[k], run[k + 1], n);
    }
    assert Follows(run, events, 0);
    j := LastGivenUp(run, events, i, n);
  }

  /** A Certificate with a status, before its first pass, and after one without its CA. */
  function Alone(n: Name, c: Certificate, was: CertSpec): State {
    State(map[n := c], map[], map[], {}, map[n := was], map[], map[], multiset{}, {n})
  }

  lemma ExtendRun(run: seq<State>, events: seq<Event>, e: Event, s: State)
    requires IsRun(run, events) && Step(run[|events|], e, s)
    ensures IsRun(run + [s], events + [e])
  {
    var longer, more := run + [s], events + [e];
    forall i | 0 <= i < |longer| ensures Follows(longer, more, i) {
      if i < |run| {
        assert Follows(run, events, i);
        assert longer[i] == run[i] && (i > 0 ==> longer[i - 1] == run[i - 1] && more[i - 1] == events[i - 1]);
      }
    }
  }

  lemma StartRun(s: State)
    requires Init(s)
    ensures IsRun([s], [])
  {
    assert Follows([s], [], 0);
  }

  lemma AloneIsFirst(n: Name, c: Certificate, was: CertSpec)
    requires n != "" && c.recorded.Some? && IsBaseline(was, c.recorded.value)
    ensures Init(Alone(n, c, was))
  {
  }

  lemma BegunAlone(n: Name, c: Certificate, was: CertSpec) returns (run: seq<State>, events: seq<Event>)
    requires !c.paused && !c.deleting && Init(Alone(n, c, was))
    ensures IsRun(run, events) && |events| == 1
    ensures run[1] == Alone(n, c, was).(queue := {}, looking := map[n := Read(c)])
  {
    var s0 := Alone(n, c, was);
    StartRun(s0);
    var s1 := s0.(queue := {}, looking := map[n := Read(c)]);
    assert Began(s0, s1, n);
    ExtendRun([s0], [], Begin(n), s1);
    run, events := [s0] + [s1], [] + [Begin(n)];
  }

  lemma StrandedAlone(n: Name, c: Certificate, was: CertSpec) returns (run: seq<State>, events: seq<Event>)
    requires n != "" && !c.paused && !c.deleting && c.recorded.Some? && IsBaseline(was, c.recorded.value)
    ensures IsRun(run, events) && |events| == 2
    ensures run[2] == Alone(n, c, was).(queue := {}, dropped := map[n := NoAuthority])
  {
    AloneIsFirst(n, c, was);
    run, events := BegunAlone(n, c, was);
    var s2 := Alone(n, c, was).(queue := {}, dropped := map[n := NoAuthority]);
    assert Stranded(run[1], s2, n);
    ExtendRun(run, events, Strand(n), s2);
    run, events := run + [s2], events + [Strand(n)];
  }

  predicate AllValid(names: seq<string>) {
    forall x :: x in names ==> ValidName(x)
  }

  /** Recorded for other names than the spec now derives alone, without Servers. */
  ghost predicate RecordedForOthers(c: Certificate, was: CertSpec) {
    && c.recorded.Some? && IsBaseline(was, c.recorded.value)
    && was.certname == c.spec.certname && was.extensions == c.spec.extensions
    && AllValid(c.recorded.value.names) && AllValid(NamesFor(map[], c.spec, {}))
    && c.recorded.value.names != NamesFor(map[], c.spec, {})
  }

  /** Its CA is there, it is signed and recorded with other names than are derived, and
      nothing is on its way to it. */
  ghost predicate LeftBehind(s: State, n: Name) {
    && n in s.certs && s.certs[n].authority in s.authorities
    && s.certs[n].signed && !Current(s, n)
    && s.certs[n].recorded.Some? && s.certs[n].recorded.value.names != WantNow(s, n).names
    && !Covered(s, n) && n !in s.looking
  }

  lemma OutdatedAlone(n: Name, c: Certificate, was: CertSpec, s: State)
    requires RecordedForOthers(c, was) && c.signed
    requires s == Alone(n, c, was).(queue := {}, dropped := s.dropped, authorities := {c.authority})
    ensures LeftBehind(s, n)
  {
    assert JoinedPools(s.servers, n) == {};
    NamesAreStrict(map[], c.spec, {});
    if Current(s, n) { SameHashSameNames(was, c.spec, c.recorded.value, WantNow(s, n)); }
  }

  lemma AuthorityAppears(run: seq<State>, events: seq<Event>, a: Name) returns (longer: seq<State>, more: seq<Event>)
    requires IsRun(run, events)
    ensures IsRun(longer, more) && |more| == |events| + 1
    ensures var s := run[|events|]; longer[|more|] == s.(authorities := s.authorities + {a})
  {
    var s := run[|events|];
    var s' := s.(authorities := s.authorities + {a});
    assert AuthorityWritten(s, s', a, true);
    ExtendRun(run, events, WriteAuthority(a, true), s');
    longer, more := run + [s'], events + [WriteAuthority(a, true)];
  }

  lemma AuthoritySecretAppears(run: seq<State>, events: seq<Event>, a: Name, n: Name)
    returns (longer: seq<State>, more: seq<Event>)
    requires IsRun(run, events) && n in ForAuthority(run[|events|].certs, a)
    ensures IsRun(longer, more) && |more| == |events| + 1 && longer[|events|] == run[|events|]
    ensures more[|events|] == WriteAuthoritySecret(a) && Covered(longer[|more|], n)
  {
    var s := run[|events|];
    var s' := s.(dropped := s.dropped - ForAuthority(s.certs, a),
                 changes := s.changes + multiset{AuthoritySecretChange(a)});
    assert AuthoritySecretWritten(s, s', a);
    AuthoritySecretBringsBack(s, s', a, n);
    ExtendRun(run, events, WriteAuthoritySecret(a), s');
    longer, more := run + [s'], events + [WriteAuthoritySecret(a)];
  }

  /** Without such a write a Certificate does stay behind when its CA appears: signed, in
      nobody's queue, and recorded with other names than are derived. The first labelled
      Secret of the CA ends that. */
  lemma MissingAuthorityStrands(n: Name, c: Certificate, was: CertSpec)
    returns (run: seq<State>, events: seq<Event>)
    requires n != "" && c.signed && !c.paused && !c.deleting && RecordedForOthers(c, was)
    ensures IsRun(run, events) && |events| == 4
    ensures LeftBehind(run[3], n)
    ensures events[3] == WriteAuthoritySecret(c.authority) && Covered(run[4], n)
  {
    run, events := LateAuthority(n, c, was);
    OutdatedAlone(n, c, was, run[3]);
    run, events := AuthoritySecretAppears(run, events, c.authority, n);
  }

  lemma LateAuthority(n: Name, c: Certificate, was: CertSpec) returns (run: seq<State>, events: seq<Event>)
    requires n != "" && !c.paused && !c.deleting && c.recorded.Some? && IsBaseline(was, c.recorded.value)
    ensures IsRun(run, events) && |events| == 3
    ensures run[3] == Alone(n, c, was).(queue := {}, dropped := map[n := NoAuthority], authorities := {c.authority})
  {
    run, events := StrandedAlone(n, c, was);
    run, events := AuthorityAppears(run, events, c.authority);
  }

  /** A Certificate refused beside a rival is not told when the rival goes. */
  lemma RivalLeavesUnnoticed(n: Name, m: Name, c: Certificate, d: Certificate)
    returns (run: seq<State>, events: seq<Event>)
    requires n != "" && m != "" && n != m && !c.signed && c.recorded.None? && d.recorded.None?
    requires !c.paused && !c.deleting && Rival(map[n := c, m := d], n, c, m)
    ensures IsRun(run, events)
    ensures var s := run[|run| - 1];
      n in s.certs && !Covered(s, n) && n !in s.looking && forall k :: !Rival(s.certs, n, s.certs[n], k)
  {
    var both := map[n := c, m := d];
    var s0 := State(both, map[], map[], {}, map[], map[], map[], multiset{}, {n, m});
    var s1 := s0.(queue := {m}, looking := map[n := Read(c)]);
    assert Began(s0, s1, n);
    var s2 := s1.(looking := map[], dropped := map[n := NameTaken]);
    assert both[n := c.(signed := false)] == both;
    assert Refused(s1, s2, n);
    var s3 := s2.(certs := map[n := c], changes := multiset{CertChange(m)});
    assert both - {m} == map[n := c];
    assert CertWritten(s2, s3, m, None);
    run, events := [s0, s1, s2, s3], [Begin(n), Refuse(n), WriteCert(m, None)];
  }

  // ---------- coming to rest ----------

  ghost function Outdated(s: State): set<Name> {
    set n | n in s.certs && !Current(s, n)
  }

  /** Passes that go by something the store no longer says. */
  ghost function Stale(s: State): set<Name> {
    set n | n in s.looking && !(n in s.certs && Fresh(s, n))
  }

  ghost function Load(s: State): nat {
    |s.changes| + 2 * |Outdated(s)| + 6 * |Stale(s)|
  }

  function NotDerived(looking: map<Name, Look>): set<Name> {
    set n | n in looking && !looking[n].Derived?
  }

  function JustRead(looking: map<Name, Look>): set<Name> {
    set n | n in looking && looking[n].Read?
  }

  function LookStage(looking: map<Name, Look>): nat {
    |looking.Keys| + |NotDerived(looking)| + |JustRead(looking)|
  }

  /** How far the queued and running passes are from their end. */
  function Stage(s: State): nat {
    4 * |s.queue| + LookStage(s.looking)
  }

  lemma LookBegins(looking: map<Name, Look>, n: Name, l: Look)
    ensures LookStage(looking[n := l]) <= LookStage(looking) + 3
  {
    var after := looking[n := l];
    OneIn(looking.Keys, after.Keys, n);
    AtMostOneIn(NotDerived(looking), NotDerived(after), n);
    AtMostOneIn(JustRead(looking), JustRead(after), n);
  }

  lemma LookMovesOn(looking: map<Name, Look>, n: Name, l: Look)
    requires n in looking && ((looking[n].Read? && l.Joined?) || (looking[n].Joined? && l.Derived?))
    ensures LookStage(looking[n := l]) < LookStage(looking)
  {
    var after := looking[n := l];
    assert after.Keys == looking.Keys;
    if l.Joined? {
      assert NotDerived(after) == NotDerived(looking);
      OneOut(JustRead(looking), JustRead(after), n);
    } else {
      assert JustRead(after) == JustRead(looking);
      OneOut(NotDerived(looking), NotDerived(after), n);
    }
  }

  lemma LookEnds(looking: map<Name, Look>, n: Name)
    requires n in looking
    ensures LookStage(looking - {n}) < LookStage(looking)
  {
    var after := looking - {n};
    OneOut(looking.Keys, after.Keys, n);
    Pools.SubsetIsSmaller(NotDerived(after), NotDerived(looking));
    Pools.SubsetIsSmaller(JustRead(after), JustRead(looking));
  }

  lemma OneOut(a: set<Name>, b: set<Name>, n: Name)
    requires n in a && b == a - {n}
    ensures |b| == |a| - 1
  {
  }

  lemma OneIn(a: set<Name>, b: set<Name>, n: Name)
    requires b == a + {n}
    ensures |b| <= |a| + 1
  {
    if n in a { assert b == a; }
  }

  lemma AtMostOneIn(a: set<Name>, b: set<Name>, n: Name)
    requires forall m :: m in b ==> m in a || m == n
    ensures |b| <= |a| + 1
  {
    OneIn(a, a + {n}, n);
    Pools.SubsetIsSmaller(b, a + {n});
  }

  lemma WithoutOne(a: set<Name>, b: set<Name>, n: Name)
    requires n !in b && forall m :: m != n ==> (m in b <==> m in a)
    ensures b == a - {n}
  {
  }

  ghost predicate Nearer(s: State, s': State) {
    Load(s') < Load(s) || (Load(s') == Load(s) && Stage(s') < Stage(s))
  }

  /** The steps of the controller and of the watches. */
  predicate IsQuiet(e: Event) {
    e.Deliver? || (OfPass(e) && !e.Resync?)
  }

  lemma SameLoad(s: State, s': State)
    requires s'.certs == s.certs && s'.servers == s.servers && s'.pools == s.pools
    ensures Outdated(s') == Outdated(s)
  {
    assert forall n :: n in s.certs ==> WantNow(s', n) == WantNow(s, n);
  }

  lemma DeliveryComesNearer(s: State, s': State, c: Change)
    requires Delivered(s, s', c)
    ensures Nearer(s, s')
  {
    SameLoad(s, s');
    assert Stale(s') == Stale(s);
    assert |s'.changes| == |s.changes| - 1;
  }

  /** Only the pass of n changes, and what it goes by stays as current as it was. */
  lemma OnlyStageChanges(s: State, s': State, n: Name)
    requires s'.certs == s.certs && s'.servers == s.servers && s'.pools == s.pools && s'.changes == s.changes
    requires forall m :: m != n ==> Pools.Lookup(s'.looking, m) == Pools.Lookup(s.looking, m)
    requires n !in Stale(s) && n !in Stale(s')
    ensures Load(s') == Load(s)
  {
    SameLoad(s, s');
    forall m | m != n ensures m in Stale(s') <==> m in Stale(s) { SameStale(s, s', m); }
    assert Stale(s') == Stale(s);
  }

  lemma SameStale(s: State, s': State, m: Name)
    requires s'.servers == s.servers && s'.pools == s.pools
    requires Pools.Lookup(s'.certs, m) == Pools.Lookup(s.certs, m)
    requires Pools.Lookup(s'.looking, m) == Pools.Lookup(s.looking, m)
    ensures m in Stale(s') <==> m in Stale(s)
    ensures m in Outdated(s') <==> m in Outdated(s)
  {
    assert (m in s'.certs <==> m in s.certs) && (m in s'.looking <==> m in s.looking);
  }

  lemma BeginComesNearer(s: State, s': State, n: Name)
    requires Began(s, s', n)
    ensures Nearer(s, s')
  {
    OnlyStageChanges(s, s', n);
    OneOut(s.queue, s'.queue, n);
    LookBegins(s.looking, n, Read(s.certs[n]));
  }

  lemma SkipComesNearer(s: State, s': State, n: Name)
    requires Skipped(s, s', n)
    ensures Nearer(s, s')
  {
    OnlyStageChanges(s, s', n);
    OneOut(s.queue, s'.queue, n);
  }

  /** A pass on old data is ended and repeated. */
  lemma RetryComesNearer(s: State, s': State, n: Name)
    requires Requeued(s, s', n) && s'.certs == s.certs && s'.changes == s.changes && n in Stale(s)
    ensures Nearer(s, s')
  {
    SameLoad(s, s');
    assert forall m :: m != n ==> (m in Stale(s') <==> m in Stale(s));
    OneOut(Stale(s), Stale(s'), n);
  }

  lemma ServersComeNearer(s: State, s': State, n: Name)
    requires ServersListed(s, s', n) && n !in Stale(s)
    ensures Nearer(s, s')
  {
    OnlyStageChanges(s, s', n);
    LookMovesOn(s.looking, n, s'.looking[n]);
  }

  lemma PoolsComeNearer(s: State, s': State, n: Name)
    requires PoolsListed(s, s', n) && n !in Stale(s)
    ensures Nearer(s, s')
  {
    PoolsStayFresh(s, s', n);
    OnlyStageChanges(s, s', n);
    LookMovesOn(s.looking, n, s'.looking[n]);
  }

  lemma PoolsStayFresh(s: State, s': State, n: Name)
    requires PoolsListed(s, s', n) && n !in Stale(s)
    ensures n !in Stale(s')
  {
    assert WantNow(s', n) == WantNow(s, n);
  }

  lemma EndComesNearer(s: State, s': State, n: Name)
    requires n in s.looking && n !in Stale(s)
    requires s' == s.(looking := s.looking - {n}, dropped := s'.dropped)
    ensures Nearer(s, s')
  {
    OnlyStageChanges(s, s', n);
    LookEnds(s.looking, n);
  }

  /** A mark on current data makes the Certificate current, at the cost of one event. */
  lemma MarkComesNearer(s: State, s': State, n: Name)
    requires Marked(s, s', n) && n !in Stale(s) && n in Outdated(s)
    ensures Nearer(s, s')
  {
    MarkElsewhere(s, s', n);
    OneOut(Outdated(s), Outdated(s'), n);
    assert |s'.changes| <= |s.changes| + 1;
  }

  lemma MarkElsewhere(s: State, s': State, n: Name)
    requires Marked(s, s', n) && n !in Stale(s)
    ensures Outdated(s') == Outdated(s) - {n} && Stale(s') == Stale(s)
  {
    MarkedIsCurrent(s, s', n);
    MarkTouchesOne(s, s', n);
    forall m | m != n ensures (m in Outdated(s') <==> m in Outdated(s)) && (m in Stale(s') <==> m in Stale(s)) {
      SameStale(s, s', m);
    }
    WithoutOne(Outdated(s), Outdated(s'), n);
    WithoutOne(Stale(s), Stale(s'), n);
  }

  lemma MarkedIsCurrent(s: State, s': State, n: Name)
    requires Marked(s, s', n) && n !in Stale(s)
    ensures n !in Outdated(s') && n !in Stale(s')
  {
    assert WantNow(s', n) == WantNow(s, n);
  }

  lemma MarkTouchesOne(s: State, s': State, n: Name)
    requires Marked(s, s', n)
    ensures s'.servers == s.servers && s'.pools == s.pools
    ensures forall m :: m != n ==> Pools.Lookup(s'.certs, m) == Pools.Lookup(s.certs, m)
    ensures forall m :: m != n ==> Pools.Lookup(s'.looking, m) == Pools.Lookup(s.looking, m)
  {
  }

  lemma PassComesNearer(s: State, n: Name) returns (e: Event, s': State)
    requires n in s.looking
    ensures Step(s, e, s') && IsQuiet(e) && Nearer(s, s')
  {
    if n in Stale(s) {
      e, s' := Requeue(n), s.(looking := s.looking - {n}, queue := s.queue + {n});
      RetryComesNearer(s, s', n);
    } else if s.looking[n].cert.authority !in s.authorities {
      e, s' := Strand(n), s.(looking := s.looking - {n}, dropped := s.dropped[n := NoAuthority]);
      EndComesNearer(s, s', n);
    } else {
      e, s' := FreshComesNearer(s, n);
    }
  }

  lemma FreshComesNearer(s: State, n: Name) returns (e: Event, s': State)
    requires n in s.looking && n !in Stale(s)
    ensures Step(s, e, s') && IsQuiet(e) && Nearer(s, s')
  {
    match s.looking[n]
    case Read(c) =>
      e, s' := ListServers(n), s.(looking := s.looking[n := Joined(c, JoinedPools(s.servers, n))]);
      ServersComeNearer(s, s', n);
    case Joined(c, wanted) =>
      e, s' := ListPools(n), s.(looking := s.looking[n := Derived(c, c.spec, WantFor(s.pools, c.spec, wanted))]);
      PoolsComeNearer(s, s', n);
    case Derived(c, spec, want) =>
      e, s' := DerivedComesNearer(s, n);
  }

  lemma DerivedComesNearer(s: State, n: Name) returns (e: Event, s': State)
    requires n in s.looking && n !in Stale(s) && s.looking[n].Derived?
    ensures Step(s, e, s') && IsQuiet(e) && Nearer(s, s')
  {
    var l := s.looking[n];
    if Matches(l.cert, l.want) {
      e, s' := Settle(n), s.(looking := s.looking - {n});
      EndComesNearer(s, s', n);
    } else {
      e := Mark(n);
      s' := s.(certs := s.certs[n := s.certs[n].(signed := true, recorded := Some(l.want))],
               issued := s.issued[n := l.spec], looking := s.looking - {n},
               changes := s.changes + multiset{CertChange(n)});
      assert Marked(s, s', n);
      MarkComesNearer(s, s', n);
    }
  }

  lemma QuietComesNearer(s: State) returns (e: Event, s': State)
    requires !AtRest(s)
    ensures Step(s, e, s') && IsQuiet(e) && Nearer(s, s')
  {
    if s.changes != multiset{} {
      var c :| c in s.changes;
      e, s' := Deliver(c), s.(changes := s.changes - multiset{c}, queue := s.queue + Reached(s, c));
      DeliveryComesNearer(s, s', c);
    } else if s.looking != map[] {
      var n :| n in s.looking;
      e, s' := PassComesNearer(s, n);
    } else {
      var n :| n in s.queue;
      e, s' := QueuedComesNearer(s, n);
    }
  }

  lemma QueuedComesNearer(s: State, n: Name) returns (e: Event, s': State)
    requires n in s.queue && n !in s.looking
    ensures Step(s, e, s') && IsQuiet(e) && Nearer(s, s')
  {
    if n in s.certs && !s.certs[n].deleting && !s.certs[n].paused {
      e := Begin(n);
      s' := s.(queue := s.queue - {n}, dropped := s.dropped - {n}, looking := s.looking[n := Read(s.certs[n])]);
      BeginComesNearer(s, s', n);
    } else {
      e, s' := Skip(n), s.(queue := s.queue - {n}, dropped := s.dropped - {n});
      SkipComesNearer(s, s', n);
    }
  }

  lemma GoesOn(run: seq<State>, events: seq<Event>) returns (e: Event, s': State)
    requires IsRun(run, events) && !AtRest(run[|events|])
    ensures IsRun(run + [s'], events + [e]) && IsQuiet(e) && Nearer(run[|events|], s')
  {
    e, s' := QuietComesNearer(run[|events|]);
    ExtendRun(run, events, e, s');
  }

  ghost predicate QuietFrom(events: seq<Event>, i: nat) {
    forall k :: i <= k < |events| ==> IsQuiet(events[k])
  }

  /** Every run can come to rest without an edit, if what the CAs are asked for is signed. */
  lemma {:induction false} RestIsReached(run: seq<State>, events: seq<Event>)
    returns (longer: seq<State>, more: seq<Event>)
    requires IsRun(run, events)
    ensures IsRun(longer, more) && run <= longer && events <= more
    ensures AtRest(longer[|more|]) && QuietFrom(more, |events|)
    decreases Load(run[|events|]), Stage(run[|events|])
  {
    longer, more := run, events;
    if !AtRest(run[|events|]) {
      var e, s' := GoesOn(run, events);
      longer, more := RestIsReached(run + [s'], events + [e]);
      assert more[|events|] == (events + [e])[|events|];
    }
  }

  // ---------- the controller ----------

  lemma MoreHostnames(pools: map<Name, Pools.Pool>, wanted: set<Name>, listing: seq<Name>, i: nat)
    requires i < |listing|
    ensures HostnamesAmong(pools, wanted, listing[..i + 1]) == HostnamesAmong(pools, wanted, listing[..i])
      + var p := listing[i];
        if p in pools && p in wanted && Injects(pools[p]) then {pools[p].route.value.hostname} else {}
  {
    assert listing[..i + 1] == listing[..i] + [listing[i]];
  }

  /** What the CA answers to a request: nothing yet, or a zero Result, after a Secret was
      stored or the attempt was given up, in one of the ways Signing tells apart. */
  datatype Answer = Pending | Stored | GivenUp

  datatype Renewal = ExpiryUnknown | NotDue | Renewed | NotRenewed | NotStored

  /** What a pass of one Certificate meets outside the store of this machine, and whether
      its write of the phase Requesting fails. */
  datatype Env = Env(caReady: bool, tlsReady: bool, reportFails: bool, answer: Answer, renewal: Renewal)

  /** The ways to Signed: an answer of the CA, a renewal, or a Secret that is there. */
  predicate MayMark(c: Certificate, env: Env) {
    env.answer != Pending || if c.signed then env.renewal == Renewed else env.tlsReady
  }

  // ----- the row of steps of one pass -----

  predicate IsPass(e: Event) {
    OfPass(e) && !e.Resync?
  }

  /** The steps that passes took, in their order. */
  function PassSteps(events: seq<Event>): seq<Event> {
    if events == [] then []
    else
      var last := events[|events| - 1];
      PassSteps(events[..|events| - 1]) + if IsPass(last) then [last] else []
  }

  /** A run that has come to a state, with the steps that passes took in it. */
  ghost predicate ComesTo(run: seq<State>, events: seq<Event>, steps: seq<Event>, s: State) {
    IsRun(run, events) && run[|events|] == s && steps == PassSteps(events)
  }

  lemma OneMoreStep(run: seq<State>, events: seq<Event>, steps: seq<Event>, e: Event, s: State)
    requires IsRun(run, events) && Step(run[|events|], e, s) && steps == PassSteps(events)
    ensures ComesTo(run + [s], events + [e], if IsPass(e) then steps + [e] else steps, s)
  {
    ExtendRun(run, events, e, s);
    assert (events + [e])[..|events|] == events;
  }

  lemma Regroup(a: seq<Event>, b: seq<Event>, c: seq<Event>)
    ensures (a + b) + c == a + (b + c)
  {
  }

  function Derives(n: Name): seq<Event> {
    [Restart(n), ListServers(n), ListPools(n)]
  }

  /** Derived once more and marked, unless the Certificate is gone. */
  predicate MarkRow(row: seq<Event>, n: Name, last: Event, gone: bool) {
    row == Derives(n) + [last] && (last == Mark(n) || (last == Requeue(n) && gone))
  }

  /** Names for the request, the request, and what the CA's answer makes of it. */
  predicate AskRow(row: seq<Event>, n: Name, answer: Answer, last: Event, gone: bool) {
    && |row| >= 5 && row[..4] == Derives(n) + [Submit(n)]
    && match answer
       case Pending => row[4..] == [Requeue(n)] && last == Requeue(n)
       case Stored => MarkRow(row[4..], n, last, gone)
       case GivenUp =>
         MarkRow(row[4..], n, last, gone) || (row[4] == Request(n) && MarkRow(row[5..], n, last, gone))
  }

  predicate RequestRow(row: seq<Event>, n: Name, answer: Answer, last: Event, gone: bool) {
    || AskRow(row, n, answer, last, gone)
    || (row != [] && row[0] == Request(n) && AskRow(row[1..], n, answer, last, gone))
  }

  /** Refused beside a rival, else requested. */
  predicate SignRow(row: seq<Event>, n: Name, answer: Answer, last: Event, gone: bool) {
    || (row == [last] && (last == Refuse(n) || (last == Requeue(n) && gone)))
    || (row != [] && row[0] == Clear(n) && RequestRow(row[1..], n, answer, last, gone))
  }

  predicate RenewalRow(row: seq<Event>, n: Name, renewal: Renewal, last: Event, gone: bool) {
    match renewal
    case NotDue => row == [last] && last == Settle(n)
    case Renewed => MarkRow(row, n, last, gone)
    case ExpiryUnknown => row == [last] && last == Requeue(n)
    case NotRenewed => row == [last] && last == Requeue(n)
    case NotStored =>
      last == Requeue(n) && (row == Derives(n) + [last] || row == Derives(n) + [Adopt(n), last])
  }

  predicate SteadyRow(row: seq<Event>, n: Name, renewal: Renewal, last: Event, gone: bool) {
    row != [] && row[0] == Steady(n) && RenewalRow(row[1..], n, renewal, last, gone)
  }

  /** No baseline yet: it is adopted and the renewal checked, unless the Certificate is gone
      or is another one, without a status. */
  predicate BaselineRow(row: seq<Event>, n: Name, renewal: Renewal, last: Event, gone: bool) {
    || (row == [last] && last == Requeue(n) && gone)
    || (row != [] && row[0] == Adopt(n)
        && ((row[1..] == [last] && last == Requeue(n)) || SteadyRow(row[1..], n, renewal, last, gone)))
  }

  /** A Certificate read as signed: re-signed exactly if the hash has drifted. */
  predicate SignedRow(row: seq<Event>, n: Name, recorded: bool, env: Env, last: Event, gone: bool) {
    && |row| >= 4 && row[..3] == Derives(n)
    && if !recorded then BaselineRow(row[3..], n, env.renewal, last, gone)
       else SteadyRow(row[3..], n, env.renewal, last, gone)
            || (row[3] == Drift(n) && SignRow(row[4..], n, env.answer, last, gone))
  }

  predicate UnderCaRow(row: seq<Event>, n: Name, c: Certificate, env: Env, last: Event, gone: bool) {
    if !env.caReady then row == [last] && last == Requeue(n)
    else if c.signed then SignedRow(row, n, c.recorded.Some?, env, last, gone)
    else if env.tlsReady then MarkRow(row, n, last, gone)
    else SignRow(row, n, env.answer, last, gone)
  }

  predicate LiveRow(row: seq<Event>, n: Name, c: Certificate, env: Env, last: Event, gone: bool) {
    || (row == [last] && last == Strand(n))
    || (row != [] && row[0] == FindCa(n) && UnderCaRow(row[1..], n, c, env, last, gone))
  }

  /** A pass over a Certificate that is to be looked at, from its begin to its last step. */
  predicate PassRow(row: seq<Event>, n: Name, c: Certificate, env: Env, last: Event, gone: bool) {
    row != [] && row[0] == Begin(n) && LiveRow(row[1..], n, c, env, last, gone)
  }

  /** The steps that ask the CA for a certificate, or report that its name is taken. */
  predicate Asks(e: Event) {
    e.Request? || e.Submit? || e.Refuse?
  }

  /** The two outcomes of the comparison. */
  predicate Compares(e: Event) {
    e.Drift? || e.Steady?
  }

  lemma SteadyAsksNothing(row: seq<Event>, n: Name, renewal: Renewal, last: Event, gone: bool)
    requires SteadyRow(row, n, renewal, last, gone)
    ensures Steady(n) in row && Drift(n) !in row
    ensures forall e :: e in row ==> !Asks(e)
    ensures renewal == NotDue ==> last == Settle(n)
  {
    RenewalSteps(row[1..], n, renewal, last, gone);
    FirstAndRest(row);
  }

  lemma FirstAndRest(row: seq<Event>)
    requires row != []
    ensures forall e :: e in row <==> e == row[0] || e in row[1..]
  {
    assert row == [row[0]] + row[1..];
  }

  lemma RenewalSteps(row: seq<Event>, n: Name, renewal: Renewal, last: Event, gone: bool)
    requires RenewalRow(row, n, renewal, last, gone)
    ensures forall e :: e in row ==> !Asks(e) && !Compares(e)
    ensures renewal == NotDue ==> last == Settle(n)
  {
  }

  lemma DriftIsSigned(row: seq<Event>, n: Name, answer: Answer, last: Event, gone: bool)
    requires row != [] && row[0] == Drift(n) && SignRow(row[1..], n, answer, last, gone)
    ensures Steady(n) !in row && Drift(n) in row
    ensures answer != Pending ==> last in {Mark(n), Refuse(n)} || gone
  {
    SigningSteps(row[1..], n, answer, last, gone);
    FirstAndRest(row);
  }

  lemma SigningSteps(row: seq<Event>, n: Name, answer: Answer, last: Event, gone: bool)
    requires SignRow(row, n, answer, last, gone)
    ensures forall e :: e in row ==> !Compares(e)
  {
    if row != [last] {
      assert row == [Clear(n)] + row[1..];
      var r := row[1..];
      if AskRow(r, n, answer, last, gone) {
        AskSteps(r, n, answer, last, gone);
      } else {
        assert r == [Request(n)] + r[1..];
        AskSteps(r[1..], n, answer, last, gone);
      }
    }
  }

  lemma AskSteps(row: seq<Event>, n: Name, answer: Answer, last: Event, gone: bool)
    requires AskRow(row, n, answer, last, gone)
    ensures forall e :: e in row ==> !Compares(e)
  {
    assert row == row[..4] + row[4..];
    if answer == GivenUp && row[4] == Request(n) { FirstAndRest(row[4..]); }
    forall e | e in row[..4] ensures !Compares(e) { assert e in Derives(n) + [Submit(n)]; }
    forall e | e in row[4..] ensures !Compares(e) {
      assert answer == GivenUp && row[4] == Request(n) ==> row[4..][1..] == row[5..];
    }
  }

  lemma ComparisonDecides(row: seq<Event>, n: Name, env: Env, last: Event, gone: bool)
    requires SignedRow(row, n, true, env, last, gone)
    ensures (Steady(n) in row) != (Drift(n) in row)
    ensures Steady(n) in row ==> forall e :: e in row ==> !Asks(e)
    ensures Steady(n) in row && env.renewal == NotDue ==> last == Settle(n)
    ensures Drift(n) in row && env.answer != Pending ==> last in {Mark(n), Refuse(n)} || gone
  {
    var rest := row[3..];
    assert rest[1..] == row[4..];
    if SteadyRow(rest, n, env.renewal, last, gone) {
      SteadyAsksNothing(rest, n, env.renewal, last, gone);
    } else {
      DriftIsSigned(rest, n, env.answer, last, gone);
    }
    forall x ensures x in row <==> x in Derives(n) || x in rest { assert row == row[..3] + rest; }
  }

  /** A Certificate that was signed, with a baseline, at the begin of a pass, and whose CA is
      there and ready: with the hash it recorded the pass neither requests, submits nor
      refuses anything, and ends unchanged when no renewal is due; with another hash it ends
      in the mark or the refusal, unless the CA has not answered or the Certificate is gone. */
  lemma ResignedExactlyOnDrift(row: seq<Event>, n: Name, c: Certificate, env: Env, last: Event, gone: bool)
    requires PassRow(row, n, c, env, last, gone) && c.signed && c.recorded.Some?
    requires env.caReady && last != Strand(n)
    ensures (Steady(n) in row) != (Drift(n) in row)
    ensures Steady(n) in row ==> forall e :: e in row ==> !Asks(e)
    ensures Steady(n) in row && env.renewal == NotDue ==> last == Settle(n)
    ensures Drift(n) in row && env.answer != Pending ==> last in {Mark(n), Refuse(n)} || gone
  {
    assert SignedRow(row[1..][1..], n, true, env, last, gone);
    FirstTwoAndRest(row);
    ComparisonDecides(row[1..][1..], n, env, last, gone);
  }

  lemma FirstTwoAndRest(row: seq<Event>)
    requires row != [] && row[1..] != []
    ensures forall e :: e in row <==> e == row[0] || e == row[1..][0] || e in row[1..][1..]
  {
    FirstAndRest(row[1..]);
    FirstAndRest(row);
  }

  /** What the two findings stand for. */
  lemma FindingsAreReal(run: seq<State>, events: seq<Event>, i: nat, n: Name)
    requires IsRun(run, events) && i < |events|
    ensures events[i] in {Drift(n), Steady(n)} ==>
      && n in run[i].looking && run[i].looking[n].Derived?
      && run[i].looking[n].cert.signed && run[i].looking[n].cert.recorded.Some?
      && (events[i] == Steady(n) <==>
           run[i].looking[n].cert.recorded.value.hash == run[i].looking[n].want.hash)
  {
    assert Follows(run, events, i + 1);
  }

  /** Refused beside another live Certificate that goes by the same certname for the same CA,
      an empty certname going by `puppet`; cleared when there is none. */
  lemma ConflictsAreReal(run: seq<State>, events: seq<Event>, i: nat, n: Name)
    requires IsRun(run, events) && i < |events| && events[i] in {Refuse(n), Clear(n)}
    ensures n in run[i].looking
    ensures events[i] == Refuse(n) <==>
      exists m ::
        && m in run[i].certs && m != n && !run[i].certs[m].deleting
        && SameClaim(run[i].certs[m], run[i].looking[n].cert)
  {
    assert Follows(run, events, i + 1);
    var s, c := run[i], run[i].looking[n].cert;
    forall m ensures Rival(s.certs, n, c, m) <==>
      m in s.certs && m != n && !s.certs[m].deleting && SameClaim(s.certs[m], c)
    {
    }
  }

  predicate SameClaim(a: Certificate, b: Certificate) {
    && a.authority == b.authority
    && (a.spec.certname == b.spec.certname || (a.spec.certname in {"", "puppet"} && b.spec.certname in {"", "puppet"}))
  }

  class CertificateController {
    var certs: map<Name, Certificate>
    var servers: map<Name, Server>
    var pools: map<Name, Pools.Pool>
    var authorities: set<Name>
    var changes: multiset<Change>
    var queue: set<Name>
    var looking: map<Name, Look>
    ghost var issued: map<Name, CertSpec>
    ghost var dropped: map<Name, Drop>
    ghost var history: seq<State>
    ghost var trace: seq<Event>
    ghost var steps: seq<Event>

    ghost function Snapshot(): State
      reads this
    {
      State(certs, servers, pools, authorities, issued, dropped, looking, changes, queue)
    }

    /** The states so far form a run of the machine above that has come to here, and the
        steps are those of it that passes took. */
    ghost predicate Valid()
      reads this
    {
      ComesTo(history, trace, steps, Snapshot())
    }

    /** And it is a continuation of the run given. */
    ghost predicate Continues(earlier: seq<State>, events: seq<Event>)
      reads this
    {
      Valid() && earlier <= history && events <= trace
    }

    /** One more step of the machine, of a pass or of others. */
    ghost method LogOther(e: Event)
      requires IsRun(history, trace) && Step(history[|trace|], e, Snapshot())
      requires steps == PassSteps(trace) && !IsPass(e)
      modifies this`history, this`trace
      ensures Continues(old(history), old(trace)) && trace == old(trace) + [e]
    {
      var now := Snapshot();
      OneMoreStep(history, trace, steps, e, now);
      history, trace := history + [now], trace + [e];
      assert Snapshot() == now && Valid();
    }

    ghost method Log(e: Event)
      requires IsRun(history, trace) && Step(history[|trace|], e, Snapshot())
      requires steps == PassSteps(trace) && IsPass(e)
      modifies this`history, this`trace, this`steps
      ensures Continues(old(history), old(trace)) && trace == old(trace) + [e]
      ensures steps == old(steps) + [e]
    {
      var now := Snapshot();
      OneMoreStep(history, trace, steps, e, now);
      history, trace, steps := history + [now], trace + [e], steps + [e];
      assert Snapshot() == now && Valid();
    }

    // ----- the map functions -----

    /** certificatesForPool, with the map that keeps a Certificate from repeating. */
    method CertificatesForPool(pool: Name) returns (requests: seq<Name>)
      ensures (set n | n in requests) == ForPool(servers, pool)
      ensures Distinct(requests)
    {
      var serverList := AnyOrder(servers.Keys);
      var seen: set<Name> := {};
      requests := [];
      for i := 0 to |serverList|
        invariant Distinct(requests) && seen == set n | n in requests
        invariant seen <= ForPool(servers, pool)
        invariant forall j ::
          (0 <= j < i && servers[serverList[j]].certificateRef != "" && pool in servers[serverList[j]].poolRefs) ==>
            servers[serverList[j]].certificateRef in seen
      {
        assert serverList[i] in serverList;
        var server := servers[serverList[i]];
        if server.certificateRef == "" || server.certificateRef in seen { continue; }
        if pool !in server.poolRefs { continue; }
        seen := seen + {server.certificateRef};
        requests := requests + [server.certificateRef];
      }
      forall n | n in ForPool(servers, pool) ensures n in seen {
        var k :| k in servers && servers[k].certificateRef == n && n != "" && pool in servers[k].poolRefs;
        assert k in serverList;
        var j :| 0 <= j < |serverList| && serverList[j] == k;
      }
    }

    /** The last part of enqueueCertificatesForSecret, for a Secret labelled with the CA. */
    method CertificatesForAuthority(authority: Name) returns (requests: seq<Name>)
      ensures (set n | n in requests) == ForAuthority(certs, authority)
      ensures Distinct(requests)
    {
      var certList := AnyOrder(certs.Keys);
      requests := [];
      for i := 0 to |certList|
        invariant Distinct(requests)
        invariant forall n :: n in requests <==> n in certList[..i] && n in ForAuthority(certs, authority)
      {
        var n := certList[i];
        assert n in certList && n !in certList[..i];
        if certs[n].authority == authority { requests := requests + [n]; }
      }
      assert certList[..|certList|] == certList;
    }

    /** certificatesForServerPools, run on the old or the new Server. */
    method CertificatesForServer(server: Option<Server>)
      modifies this`queue
      ensures queue == old(queue) + NonEmptyRef(server)
    {
      if server.Some? && server.value.certificateRef != "" {
        queue := queue + {server.value.certificateRef};
      }
    }

    /** A change reaches the watches. */
    method DeliverChange(c: Change)
      requires c in changes
      modifies this`changes, this`queue
      ensures Delivered(old(Snapshot()), Snapshot(), c)
    {
      changes := changes - multiset{c};
      match c
      case CertChange(n) => queue := queue + {n};
      case ServerChange(before, after) =>
        CertificatesForServer(before);
        CertificatesForServer(after);
      case PoolChange(p) =>
        var requests := CertificatesForPool(p);
        queue := queue + set n | n in requests;
      case AuthoritySecretChange(a) =>
        var requests := CertificatesForAuthority(a);
        queue := queue + set n | n in requests;
    }

    // ----- the derived view -----

    /** The first listing of effectiveDNSAltNames: the Pools joined by the Servers that use
        the Certificate. */
    method WantedPools(n: Name) returns (wanted: set<Name>)
      ensures wanted == JoinedPools(servers, n)
    {
      var listing := AnyOrder(servers.Keys);
      wanted := {};
      for i := 0 to |listing|
        invariant wanted <= JoinedPools(servers, n)
        invariant forall j, p ::
          0 <= j < i && servers[listing[j]].certificateRef == n && p in servers[listing[j]].poolRefs ==> p in wanted
      {
        assert listing[i] in listing;
        var server := servers[listing[i]];
        if server.certificateRef == n {
          wanted := wanted + set p | p in server.poolRefs;
        }
      }
      forall p | p in JoinedPools(servers, n) ensures p in wanted {
        var k :| k in servers && servers[k].certificateRef == n && p in servers[k].poolRefs;
        assert k in listing;
        var j :| 0 <= j < |listing| && listing[j] == k;
      }
    }

    /** The names so far, and the hostname of every contributing Pool. */
    method AppendHostnames(wanted: set<Name>, own: seq<string>) returns (names: seq<string>)
      ensures Elements(names) == Elements(own) + Hostnames(pools, wanted)
    {
      names := own;
      var listing := AnyOrder(pools.Keys);
      for i := 0 to |listing|
        invariant Elements(names) == Elements(own) + HostnamesAmong(pools, wanted, listing[..i])
      {
        var p := listing[i];
        assert p in listing;
        MoreHostnames(pools, wanted, listing, i);
        if p !in wanted || pools[p].deleting { continue; }
        var route := pools[p].route;
        if route.None? || !route.value.enabled || !route.value.injectDnsAltName || route.value.hostname == "" {
          continue;
        }
        ElementsAppend(names, route.value.hostname);
        names := names + [route.value.hostname];
      }
      assert listing[..|listing|] == listing;
    }

    /** The second listing of effectiveDNSAltNames, in whatever order the Pools come. */
    method EffectiveDnsAltNames(spec: CertSpec, wanted: set<Name>) returns (names: seq<string>)
      ensures names == NamesFor(pools, spec, wanted)
    {
      names := spec.dnsAltNames;
      if wanted == {} {
        assert Hostnames(pools, wanted) == {};
      } else {
        names := AppendHostnames(wanted, names);
      }
      assert Elements(names) == Elements(spec.dnsAltNames) + Hostnames(pools, wanted);
      names := DedupeSorted(names);
    }

    // ----- the steps of a pass -----

    /** Reconcile up to the pause check. */
    method TakeFromQueue(n: Name) returns (begun: bool)
      requires n in queue && n !in looking
      modifies this`queue, this`dropped, this`looking
      ensures begun <==> n in certs && !certs[n].deleting && !certs[n].paused
      ensures if begun then Began(old(Snapshot()), Snapshot(), n) else Skipped(old(Snapshot()), Snapshot(), n)
    {
      queue, dropped := queue - {n}, dropped - {n};
      begun := n in certs && !certs[n].deleting && !certs[n].paused;
      if begun { looking := looking[n := Read(certs[n])]; }
    }

    method BeginReconcile(n: Name) returns (begun: bool)
      requires Valid() && n in queue && n !in looking
      modifies this`queue, this`dropped, this`looking, this`history, this`trace, this`steps
      ensures Continues(old(history), old(trace))
      ensures trace == old(trace) + [if begun then Begin(n) else Skip(n)]
      ensures steps == old(steps) + [if begun then Begin(n) else Skip(n)]
      ensures begun <==> n in certs && !certs[n].deleting && !certs[n].paused
      ensures looking == if begun then old(looking)[n := Read(certs[n])] else old(looking)
    {
      begun := TakeFromQueue(n);
      Log(if begun then Begin(n) else Skip(n));
    }

    /** The CA is not found: nothing is reported and nothing retried. */
    method DropWithoutAuthority(n: Name)
      requires Valid() && n in looking && looking[n].cert.authority !in authorities
      modifies this`looking, this`dropped, this`history, this`trace, this`steps
      ensures Continues(old(history), old(trace))
      ensures trace == old(trace) + [Strand(n)] && looking == old(looking) - {n}
      ensures steps == old(steps) + [Strand(n)]
    {
      ghost var before := Snapshot();
      looking, dropped := looking - {n}, dropped[n := NoAuthority];
      assert Stranded(before, Snapshot(), n);
      Log(Strand(n));
    }

    method ListServersOf(n: Name)
      requires Valid() && n in looking && looking[n].Read?
      modifies this`looking, this`history, this`trace, this`steps
      ensures Continues(old(history), old(trace)) && trace == old(trace) + [ListServers(n)]
      ensures steps == old(steps) + [ListServers(n)]
      ensures looking == old(looking)[n := Joined(old(looking)[n].cert, JoinedPools(servers, n))]
    {
      ghost var before := Snapshot();
      var wanted := WantedPools(n);
      looking := looking[n := Joined(looking[n].cert, wanted)];
      assert ServersListed(before, Snapshot(), n);
      Log(ListServers(n));
    }

    /** The names and their hash, signingSpecHashFor. */
    method ListPoolsOf(n: Name)
      requires Valid() && n in looking && looking[n].Joined?
      modifies this`looking, this`history, this`trace, this`steps
      ensures Continues(old(history), old(trace)) && trace == old(trace) + [ListPools(n)]
      ensures steps == old(steps) + [ListPools(n)]
      ensures var l := old(looking)[n];
        looking == old(looking)[n := Derived(l.cert, l.cert.spec, WantFor(pools, l.cert.spec, l.wanted))]
    {
      ghost var before := Snapshot();
      var l := looking[n];
      var effective := EffectiveDnsAltNames(l.cert.spec, l.wanted);
      var hash := SigningSpecHash(l.cert.spec, effective);
      looking := looking[n := Derived(l.cert, l.cert.spec, Baseline(hash, effective))];
      assert PoolsListed(before, Snapshot(), n);
      Log(ListPools(n));
    }

    method DeriveAgain(n: Name)
      requires Valid() && n in looking
      modifies this`looking, this`history, this`trace, this`steps
      ensures Continues(old(history), old(trace)) && trace == old(trace) + [Restart(n)]
      ensures steps == old(steps) + [Restart(n)]
      ensures looking == old(looking)[n := Read(old(looking)[n].cert)]
    {
      ghost var before := Snapshot();
      looking := looking[n := Read(looking[n].cert)];
      assert Restarted(before, Snapshot(), n);
      Log(Restart(n));
    }

    /** A status write: an event for the controller's own watch if it changes anything. */
    method SetStatus(n: Name, signed: bool, recorded: Option<Baseline>)
      requires n in certs
      modifies this`certs, this`changes
      ensures certs == old(certs)[n := old(certs)[n].(signed := signed, recorded := recorded)]
      ensures changes == old(changes) + if certs == old(certs) then multiset{} else multiset{CertChange(n)}
      ensures certs.Keys == old(certs).Keys
      ensures StatusEvent(old(Snapshot()), Snapshot(), n)
    {
      var c := certs[n].(signed := signed, recorded := recorded);
      if c != certs[n] { changes := changes + multiset{CertChange(n)}; }
      certs := certs[n := c];
    }

    /** A phase other than Signed in the middle of a pass, which goes on with the object
        read for it. */
    method SetUnsigned(n: Name)
      requires Valid() && n in looking && n in certs
      modifies this`certs, this`changes, this`looking, this`history, this`trace, this`steps
      ensures Continues(old(history), old(trace)) && trace == old(trace) + [Request(n)]
      ensures steps == old(steps) + [Request(n)]
      ensures n in certs && !certs[n].signed && looking == old(looking)[n := Read(certs[n])]
    {
      ghost var before := Snapshot();
      SetStatus(n, false, certs[n].recorded);
      looking := looking[n := Read(certs[n])];
      assert Requested(before, Snapshot(), n);
      Log(Request(n));
    }

    /** The derived baseline is recorded where none was, or ahead of the renewed Secret. */
    method AdoptBaseline(n: Name)
      requires Valid() && n in looking && looking[n].Derived? && n in certs
      modifies this`certs, this`changes, this`issued, this`looking, this`history, this`trace, this`steps
      ensures Continues(old(history), old(trace)) && trace == old(trace) + [Adopt(n)]
      ensures steps == old(steps) + [Adopt(n)]
      ensures n in certs && certs[n].recorded == Some(old(looking)[n].want)
      ensures var l := old(looking)[n]; looking == old(looking)[n := Derived(certs[n], l.spec, l.want)]
    {
      RecordBaseline(n);
      Log(Adopt(n));
    }

    method RecordBaseline(n: Name)
      requires n in looking && looking[n].Derived? && n in certs
      modifies this`certs, this`changes, this`issued, this`looking
      ensures Adopted(old(Snapshot()), Snapshot(), n)
    {
      var l := looking[n];
      SetStatus(n, certs[n].signed, Some(l.want));
      issued, looking := issued[n := l.spec], looking[n := Derived(certs[n], l.spec, l.want)];
    }

    method RecordAndSign(n: Name)
      requires n in looking && looking[n].Derived? && n in certs
      modifies this`certs, this`changes, this`issued, this`looking
      ensures Marked(old(Snapshot()), Snapshot(), n)
    {
      var l := looking[n];
      SetStatus(n, true, Some(l.want));
      issued, looking := issued[n := l.spec], looking - {n};
    }

    /** The end of every path to Signed. A Certificate that is gone makes the write fail. */
    method MarkSigned(n: Name) returns (last: Event)
      requires Valid() && n in looking && looking[n].Derived?
      modifies this`certs, this`changes, this`issued, this`looking, this`queue, this`history, this`trace, this`steps
      ensures Continues(old(history), old(trace))
      ensures trace == old(trace) + [last] && looking == old(looking) - {n}
      ensures steps == old(steps) + [last]
      ensures last == if n in old(certs) then Mark(n) else Requeue(n)
      ensures certs.Keys == old(certs).Keys
      ensures n in old(certs) ==> n in certs && certs[n].signed && certs[n].recorded == Some(old(looking)[n].want)
    {
      if n in certs {
        RecordAndSign(n);
        Log(Mark(n));
        last := Mark(n);
      } else {
        last := EndWithRetry(n, false);
      }
    }

    /** Signed for what is derived, and renewal not due. */
    method EndUnchanged(n: Name) returns (last: Event)
      requires Valid() && n in looking && looking[n].Derived? && Matches(looking[n].cert, looking[n].want)
      modifies this`looking, this`history, this`trace, this`steps
      ensures Continues(old(history), old(trace))
      ensures trace == old(trace) + [last] && last == Settle(n) && looking == old(looking) - {n}
      ensures steps == old(steps) + [last]
    {
      ghost var before := Snapshot();
      looking := looking - {n};
      assert Settled(before, Snapshot(), n);
      Log(Settle(n));
      last := Settle(n);
    }

    method PutBack(n: Name, unsigned: bool)
      requires n in looking
      modifies this`certs, this`changes, this`looking, this`queue
      ensures Requeued(old(Snapshot()), Snapshot(), n) && certs.Keys == old(certs).Keys
      ensures !unsigned ==> certs == old(certs)
      ensures unsigned && n in certs ==> !certs[n].signed
    {
      if unsigned && n in certs { SetStatus(n, false, certs[n].recorded); }
      looking, queue := looking - {n}, queue + {n};
    }

    /** A pass that will be repeated, with or without a phase that says so. */
    method EndWithRetry(n: Name, unsigned: bool) returns (last: Event)
      requires Valid() && n in looking
      modifies this`certs, this`changes, this`looking, this`queue, this`history, this`trace, this`steps
      ensures Continues(old(history), old(trace))
      ensures trace == old(trace) + [last] && last == Requeue(n) && looking == old(looking) - {n}
      ensures steps == old(steps) + [last]
      ensures n in queue && (unsigned && n in certs ==> !certs[n].signed) && certs.Keys == old(certs).Keys
      ensures !unsigned ==> certs == old(certs)
    {
      PutBack(n, unsigned);
      Log(Requeue(n));
      last := Requeue(n);
    }

    /** reportCertnameConflict. */
    method ReportCertnameConflict(n: Name) returns (last: Event)
      requires Valid() && n in looking && n in certs && exists m :: Rival(certs, n, looking[n].cert, m)
      modifies this`certs, this`changes, this`looking, this`dropped, this`history, this`trace, this`steps
      ensures Continues(old(history), old(trace))
      ensures trace == old(trace) + [last] && last == Refuse(n) && looking == old(looking) - {n}
      ensures steps == old(steps) + [last]
      ensures n in certs && !certs[n].signed
    {
      GiveUpName(n);
      Log(Refuse(n));
      last := Refuse(n);
    }

    method GiveUpName(n: Name)
      requires n in looking && n in certs && exists m :: Rival(certs, n, looking[n].cert, m)
      modifies this`certs, this`changes, this`looking, this`dropped
      ensures Refused(old(Snapshot()), Snapshot(), n)
    {
      SetStatus(n, false, certs[n].recorded);
      looking, dropped := looking - {n}, dropped[n := NameTaken];
    }

    // ----- everyone else, between two calls -----

    method OtherServer(k: Name, after: Option<Server>)
      requires Valid()
      modifies this`servers, this`changes, this`history, this`trace
      ensures Continues(old(history), old(trace))
    {
      ghost var before := Snapshot();
      changes := changes + multiset{ServerChange(Pools.Lookup(servers, k), after)};
      servers := Pools.Put(servers, k, after);
      assert ServerWritten(before, Snapshot(), k, after);
      LogOther(WriteServer(k, after));
    }

    method OtherPool(p: Name, after: Option<Pools.Pool>)
      requires Valid()
      modifies this`pools, this`changes, this`history, this`trace
      ensures Continues(old(history), old(trace))
    {
      ghost var before := Snapshot();
      pools, changes := Pools.Put(pools, p, after), changes + multiset{PoolChange(p)};
      assert PoolWritten(before, Snapshot(), p, after);
      LogOther(WritePool(p, after));
    }

    method OtherCert(n: Name, after: Option<Certificate>)
      requires Valid() && n != ""
      modifies this`certs, this`changes, this`history, this`trace
      ensures Continues(old(history), old(trace))
    {
      ghost var before := Snapshot();
      var signed := n in certs && certs[n].signed;
      var recorded := if n in certs then certs[n].recorded else None;
      var written := if after.Some? then Some(after.value.(signed := signed, recorded := recorded)) else None;
      certs, changes := Pools.Put(certs, n, written), changes + multiset{CertChange(n)};
      assert CertWritten(before, Snapshot(), n, written);
      LogOther(WriteCert(n, written));
    }

    method OtherAuthority(a: Name, present: bool)
      requires Valid()
      modifies this`authorities, this`history, this`trace
      ensures Continues(old(history), old(trace))
    {
      ghost var before := Snapshot();
      authorities := if present then authorities + {a} else authorities - {a};
      assert AuthorityWritten(before, Snapshot(), a, present);
      LogOther(WriteAuthority(a, present));
    }

    method OtherAuthoritySecret(a: Name)
      requires Valid()
      modifies this`dropped, this`changes, this`history, this`trace
      ensures Continues(old(history), old(trace))
    {
      ghost var before := Snapshot();
      dropped, changes := dropped - ForAuthority(certs, a), changes + multiset{AuthoritySecretChange(a)};
      assert AuthoritySecretWritten(before, Snapshot(), a);
      LogOther(WriteAuthoritySecret(a));
    }

    method OtherDelivery(c: Change)
      requires Valid() && c in changes
      modifies this`changes, this`queue, this`history, this`trace
      ensures Continues(old(history), old(trace))
    {
      DeliverChange(c);
      LogOther(Deliver(c));
    }

    method OtherResync(n: Name)
      requires Valid()
      modifies this`queue, this`history, this`trace
      ensures Continues(old(history), old(trace))
    {
      ghost var before := Snapshot();
      queue := queue + {n};
      assert Resynced(before, Snapshot(), n);
      LogOther(Resync(n));
    }

    method OtherStep()
      requires Valid()
      modifies this`certs, this`servers, this`pools, this`authorities, this`changes, this`queue, this`dropped,
        this`history, this`trace
      ensures Continues(old(history), old(trace))
    {
      var name: Name := *;
      var gone: bool := *;
      if {
        case true =>
          var server: Server := *;
          OtherServer(name, if gone then None else Some(server));
        case true =>
          var pool: Pools.Pool := *;
          OtherPool(name, if gone then None else Some(pool));
        case name != "" =>
          var cert: Certificate := *;
          OtherCert(name, if gone then None else Some(cert));
        case true => OtherAuthority(name, gone);
        case true => OtherAuthoritySecret(name);
        case true => OtherResync(name);
        case changes != multiset{} =>
          var c :| c in changes;
          OtherDelivery(c);
      }
    }

    /** Any number of steps of others. */
    method Interfere()
      requires Valid()
      modifies this`certs, this`servers, this`pools, this`authorities, this`changes, this`queue, this`dropped,
        this`history, this`trace
      ensures Continues(old(history), old(trace))
    {
      var turns: int := *;
      while turns > 0
        invariant Continues(old(history), old(trace))
      {
        OtherStep();
        turns := turns - 1;
      }
    }

    // ----- what a pass finds -----

    method NoteCa(n: Name)
      requires Valid() && n in looking && looking[n].cert.authority in authorities
      modifies this`history, this`trace, this`steps
      ensures Continues(old(history), old(trace)) && steps == old(steps) + [FindCa(n)]
    {
      Log(FindCa(n));
    }

    method NoteDrift(n: Name)
      requires Valid() && DriftSeen(Snapshot(), Snapshot(), n)
      modifies this`history, this`trace, this`steps
      ensures Continues(old(history), old(trace)) && steps == old(steps) + [Drift(n)]
    {
      Log(Drift(n));
    }

    method NoteSteady(n: Name)
      requires Valid() && NoDriftSeen(Snapshot(), Snapshot(), n)
      modifies this`history, this`trace, this`steps
      ensures Continues(old(history), old(trace)) && steps == old(steps) + [Steady(n)]
    {
      Log(Steady(n));
    }

    method NoteFree(n: Name)
      requires Valid() && NameFree(Snapshot(), Snapshot(), n)
      modifies this`history, this`trace, this`steps
      ensures Continues(old(history), old(trace)) && steps == old(steps) + [Clear(n)]
    {
      Log(Clear(n));
    }

    /** The request goes out; what the CA makes of it is not part of this machine. */
    method SubmitCsr(n: Name)
      requires Valid() && n in looking && looking[n].Derived?
      modifies this`history, this`trace, this`steps
      ensures Continues(old(history), old(trace)) && steps == old(steps) + [Submit(n)]
    {
      Log(Submit(n));
    }

    // ----- the pass -----

    /** signingSpecHashFor: two listings, with others in between. */
    method SigningSpecHashFor(n: Name)
      requires Valid() && n in looking
      modifies this`certs, this`servers, this`pools, this`authorities, this`changes, this`queue, this`dropped,
        this`looking, this`history, this`trace, this`steps
      ensures Continues(old(history), old(trace)) && steps == old(steps) + Derives(n)
      ensures n in looking && looking[n].Derived? && looking[n].cert == old(looking)[n].cert
    {
      DeriveAgain(n);
      ListServersThenPools(n);
    }

    method ListServersThenPools(n: Name)
      requires Valid() && n in looking && looking[n].Read?
      modifies this`certs, this`servers, this`pools, this`authorities, this`changes, this`queue, this`dropped,
        this`looking, this`history, this`trace, this`steps
      ensures Continues(old(history), old(trace))
      ensures steps == old(steps) + [ListServers(n), ListPools(n)]
      ensures n in looking && looking[n].Derived? && looking[n].cert == old(looking)[n].cert
    {
      ServersAfterOthers(n);
      PoolsAfterOthers(n);
    }

    method ServersAfterOthers(n: Name)
      requires Valid() && n in looking && looking[n].Read?
      modifies this`certs, this`servers, this`pools, this`authorities, this`changes, this`queue, this`dropped,
        this`looking, this`history, this`trace, this`steps
      ensures Continues(old(history), old(trace)) && steps == old(steps) + [ListServers(n)]
      ensures n in looking && looking[n].Joined? && looking[n].cert == old(looking)[n].cert
    {
      Interfere();
      ListServersOf(n);
    }

    method PoolsAfterOthers(n: Name)
      requires Valid() && n in looking && looking[n].Joined?
      modifies this`certs, this`servers, this`pools, this`authorities, this`changes, this`queue, this`dropped,
        this`looking, this`history, this`trace, this`steps
      ensures Continues(old(history), old(trace)) && steps == old(steps) + [ListPools(n)]
      ensures n in looking && looking[n].Derived? && looking[n].cert == old(looking)[n].cert
    {
      Interfere();
      ListPoolsOf(n);
    }

    method DeriveThenWait(n: Name)
      requires Valid() && n in looking
      modifies this`certs, this`servers, this`pools, this`authorities, this`changes, this`queue, this`dropped,
        this`looking, this`history, this`trace, this`steps
      ensures Continues(old(history), old(trace)) && steps == old(steps) + Derives(n)
      ensures n in looking && looking[n].Derived?
    {
      SigningSpecHashFor(n);
      Interfere();
    }

    /** The names are derived and, others having had their turn, recorded under Signed. */
    method DeriveAndMark(n: Name) returns (last: Event, ghost row: seq<Event>)
      requires Valid() && n in looking
      modifies this
      ensures Continues(old(history), old(trace)) && steps == old(steps) + row
      ensures MarkRow(row, n, last, n !in certs)
      ensures n !in looking && trace != [] && trace[|trace| - 1] == last
      ensures last == Mark(n) ==> n in certs && certs[n].signed
    {
      DeriveThenWait(n);
      last := MarkSigned(n);
      row := Derives(n) + [last];
      Regroup(old(steps), Derives(n), [last]);
    }

    /** signCertificate up to the CA's answer, as far as names go. Signing has the rest. */
    method DeriveAndSubmit(n: Name)
      requires Valid() && n in looking
      modifies this`certs, this`servers, this`pools, this`authorities, this`changes, this`queue, this`dropped,
        this`looking, this`history, this`trace, this`steps
      ensures Continues(old(history), old(trace)) && n in looking
      ensures steps == old(steps) + (Derives(n) + [Submit(n)])
    {
      DeriveThenWait(n);
      SubmitCsr(n);
      Regroup(old(steps), Derives(n), [Submit(n)]);
      Interfere();
    }

    /** From the request to the end: retried without an answer, and marked after every zero
        Result, for which a given up attempt is reported first. */
    method AskAndMark(n: Name, env: Env) returns (last: Event, ghost row: seq<Event>)
      requires Valid() && n in looking
      modifies this
      ensures Continues(old(history), old(trace)) && steps == old(steps) + row
      ensures AskRow(row, n, env.answer, last, n !in certs)
      ensures n !in looking && trace != [] && trace[|trace| - 1] == last
    {
      DeriveAndSubmit(n);
      ghost var rest;
      last, rest := TakeAnswer(n, env);
      row := Derives(n) + [Submit(n)] + rest;
      Regroup(old(steps), Derives(n) + [Submit(n)], rest);
      assert row[..4] == Derives(n) + [Submit(n)] && row[4..] == rest;
      assert rest != [] ==> row[5..] == rest[1..];
    }

    method TakeAnswer(n: Name, env: Env) returns (last: Event, ghost row: seq<Event>)
      requires Valid() && n in looking
      modifies this
      ensures Continues(old(history), old(trace)) && steps == old(steps) + row
      ensures row != [] && match env.answer
        case Pending => row == [Requeue(n)] && last == Requeue(n)
        case Stored => MarkRow(row, n, last, n !in certs)
        case GivenUp =>
          if n in old(certs) then row[0] == Request(n) && MarkRow(row[1..], n, last, n !in certs)
          else MarkRow(row, n, last, n !in certs)
      ensures n !in looking && trace != [] && trace[|trace| - 1] == last
    {
      match env.answer
      case Pending =>
        var reports: bool := *;
        last := EndWithRetry(n, reports);
        row := [last];
      case Stored =>
        last, row := DeriveAndMark(n);
      case GivenUp =>
        last, row := ReportAndMark(n);
    }

    /** The timeout and the mismatch put an error into the status before the mark. */
    method ReportAndMark(n: Name) returns (last: Event, ghost row: seq<Event>)
      requires Valid() && n in looking
      modifies this
      ensures Continues(old(history), old(trace)) && steps == old(steps) + row
      ensures row != []
      ensures if n in old(certs) then row[0] == Request(n) && MarkRow(row[1..], n, last, n !in certs)
              else MarkRow(row, n, last, n !in certs)
      ensures n !in looking && trace != [] && trace[|trace| - 1] == last
    {
      if n in certs {
        last, row := ReportThenMark(n);
      } else {
        last, row := DeriveAndMark(n);
      }
    }

    method ReportThenMark(n: Name) returns (last: Event, ghost row: seq<Event>)
      requires Valid() && n in looking && n in certs
      modifies this
      ensures Continues(old(history), old(trace)) && steps == old(steps) + row
      ensures row != [] && row[0] == Request(n) && MarkRow(row[1..], n, last, n !in certs)
      ensures n !in looking && trace != [] && trace[|trace| - 1] == last
    {
      SetUnsigned(n);
      ghost var rest;
      last, rest := DeriveAndMark(n);
      row := [Request(n)] + rest;
      Regroup(old(steps), [Request(n)], rest);
      assert row[1..] == rest;
    }

    /** reconcileCertSigning behind the certname check. A failing status write is only logged. */
    method RequestAndMark(n: Name, env: Env) returns (last: Event, ghost row: seq<Event>)
      requires Valid() && n in looking
      modifies this
      ensures Continues(old(history), old(trace)) && steps == old(steps) + row
      ensures row != []
      ensures if n in old(certs) && !env.reportFails
              then row[0] == Request(n) && AskRow(row[1..], n, env.answer, last, n !in certs)
              else AskRow(row, n, env.answer, last, n !in certs)
      ensures n !in looking && trace != [] && trace[|trace| - 1] == last
    {
      if n in certs && !env.reportFails {
        SetUnsigned(n);
        ghost var rest;
        last, rest := AskAndMark(n, env);
        row := [Request(n)] + rest;
        Regroup(old(steps), [Request(n)], rest);
        assert row[1..] == rest;
      } else {
        last, row := AskAndMark(n, env);
      }
    }

    /** reconcileCertSigning: refused beside a rival, else requested and, after every zero
        Result, marked. */
    method ReconcileCertSigning(n: Name, env: Env) returns (last: Event, ghost row: seq<Event>)
      requires Valid() && n in looking
      modifies this
      ensures Continues(old(history), old(trace)) && steps == old(steps) + row
      ensures SignRow(row, n, env.answer, last, n !in certs)
      ensures n !in looking && trace != [] && trace[|trace| - 1] == last
    {
      Interfere();
      if exists m :: m in certs && Rival(certs, n, looking[n].cert, m) {
        last := Refusal(n);
        row := [last];
      } else {
        last, row := SignAlone(n, env);
      }
    }

    method Refusal(n: Name) returns (last: Event)
      requires Valid() && n in looking && exists m :: Rival(certs, n, looking[n].cert, m)
      modifies this
      ensures Continues(old(history), old(trace)) && steps == old(steps) + [last]
      ensures last == Refuse(n) || (last == Requeue(n) && n !in certs)
      ensures n !in looking && trace != [] && trace[|trace| - 1] == last
    {
      if n in certs {
        last := ReportCertnameConflict(n);
      } else {
        last := EndWithRetry(n, false);
      }
    }

    method SignAlone(n: Name, env: Env) returns (last: Event, ghost row: seq<Event>)
      requires Valid() && n in looking && forall m :: !Rival(certs, n, looking[n].cert, m)
      modifies this
      ensures Continues(old(history), old(trace)) && steps == old(steps) + row
      ensures SignRow(row, n, env.answer, last, n !in certs)
      ensures n !in looking && trace != [] && trace[|trace| - 1] == last
    {
      NoteFree(n);
      Interfere();
      ghost var rest;
      last, rest := RequestAndMark(n, env);
      row := [Clear(n)] + rest;
      Regroup(old(steps), [Clear(n)], rest);
      assert row[1..] == rest;
    }

    /** What follows the drift check of a Certificate in phase Signed. */
    method CheckRenewal(n: Name, env: Env) returns (last: Event, ghost row: seq<Event>)
      requires Valid() && n in looking && looking[n].Derived? && Matches(looking[n].cert, looking[n].want)
      modifies this
      ensures Continues(old(history), old(trace)) && steps == old(steps) + row
      ensures SteadyRow(row, n, env.renewal, last, n !in certs)
      ensures n !in looking && trace != [] && trace[|trace| - 1] == last
      ensures env.renewal in {ExpiryUnknown, NotDue} ==> certs == old(certs)
    {
      NoteSteady(n);
      ghost var rest;
      last, rest := RenewOrWait(n, env);
      row := [Steady(n)] + rest;
      Regroup(old(steps), [Steady(n)], rest);
      assert row[1..] == rest;
    }

    method RenewOrWait(n: Name, env: Env) returns (last: Event, ghost row: seq<Event>)
      requires Valid() && n in looking && looking[n].Derived? && Matches(looking[n].cert, looking[n].want)
      modifies this
      ensures Continues(old(history), old(trace)) && steps == old(steps) + row
      ensures RenewalRow(row, n, env.renewal, last, n !in certs)
      ensures n !in looking && trace != [] && trace[|trace| - 1] == last
      ensures env.renewal == NotRenewed && n in certs ==> !certs[n].signed
      ensures env.renewal in {ExpiryUnknown, NotDue} ==> certs == old(certs)
    {
      match env.renewal
      case ExpiryUnknown =>
        last := EndWithRetry(n, false);
        row := [last];
      case NotDue =>
        last := EndUnchanged(n);
        row := [last];
      case Renewed =>
        last, row := DeriveAndMark(n);
      case NotRenewed =>
        last := FailRenewal(n);
        row := [last];
      case NotStored =>
        last, row := RecordWithoutSecret(n);
    }

    /** A renewal whose status is written while its Secret is not. */
    method RecordWithoutSecret(n: Name) returns (last: Event, ghost row: seq<Event>)
      requires Valid() && n in looking
      modifies this
      ensures Continues(old(history), old(trace)) && steps == old(steps) + row
      ensures last == Requeue(n) && (row == Derives(n) + [last] || row == Derives(n) + [Adopt(n), last])
      ensures n !in looking && trace != [] && trace[|trace| - 1] == last
    {
      DeriveThenWait(n);
      ghost var rest;
      last, rest := RecordThenFail(n);
      row := Derives(n) + rest;
      Regroup(old(steps), Derives(n), rest);
    }

    method RecordThenFail(n: Name) returns (last: Event, ghost row: seq<Event>)
      requires Valid() && n in looking && looking[n].Derived?
      modifies this
      ensures Continues(old(history), old(trace)) && steps == old(steps) + row
      ensures last == Requeue(n) && row in {[last], [Adopt(n), last]}
      ensures n !in looking && trace != [] && trace[|trace| - 1] == last
    {
      var known := n in certs;
      if known { AdoptBaseline(n); }
      last := FailRenewal(n);
      row := if known then [Adopt(n), last] else [last];
    }

    /** The error branch of reconcileCertRenewal. */
    method FailRenewal(n: Name) returns (last: Event)
      requires Valid() && n in looking
      modifies this
      ensures Continues(old(history), old(trace)) && steps == old(steps) + [last]
      ensures n !in looking && last == Requeue(n) && trace != [] && trace[|trace| - 1] == last
      ensures n in certs ==> !certs[n].signed
    {
      Interfere();
      last := EndWithRetry(n, true);
    }

    /** The first drift check of a Certificate signed before the hash existed. */
    method ReconcileWithoutBaseline(n: Name, env: Env) returns (last: Event, ghost row: seq<Event>)
      requires Valid() && n in looking && looking[n].Derived?
      modifies this
      ensures Continues(old(history), old(trace)) && steps == old(steps) + row
      ensures BaselineRow(row, n, env.renewal, last, n !in certs)
      ensures n !in looking && trace != [] && trace[|trace| - 1] == last
    {
      Interfere();
      if n in certs {
        last, row := AdoptAndCheck(n, env);
      } else {
        last := EndWithRetry(n, false);
        row := [last];
      }
    }

    method AdoptAndCheck(n: Name, env: Env) returns (last: Event, ghost row: seq<Event>)
      requires Valid() && n in looking && looking[n].Derived? && n in certs
      modifies this
      ensures Continues(old(history), old(trace)) && steps == old(steps) + row
      ensures BaselineRow(row, n, env.renewal, last, n !in certs)
      ensures n !in looking && trace != [] && trace[|trace| - 1] == last
    {
      AdoptBaseline(n);
      ghost var rest;
      last, rest := CheckAdopted(n, env);
      row := [Adopt(n)] + rest;
      Regroup(old(steps), [Adopt(n)], rest);
      assert row[1..] == rest;
    }

    /** A Certificate created anew meanwhile has no expiry in its status. */
    method CheckAdopted(n: Name, env: Env) returns (last: Event, ghost row: seq<Event>)
      requires Valid() && n in looking && looking[n].Derived?
      requires looking[n].cert.recorded == Some(looking[n].want)
      modifies this
      ensures Continues(old(history), old(trace)) && steps == old(steps) + row
      ensures if old(looking)[n].cert.signed then SteadyRow(row, n, env.renewal, last, n !in certs)
              else row == [last] && last == Requeue(n) && certs == old(certs)
      ensures n !in looking && trace != [] && trace[|trace| - 1] == last
      ensures env.renewal in {ExpiryUnknown, NotDue} ==> certs == old(certs)
    {
      if looking[n].cert.signed {
        last, row := CheckRenewal(n, env);
      } else {
        last := EndWithRetry(n, false);
        row := [last];
      }
    }

    /** The drift and renewal checks of a Certificate in phase Signed. */
    method ReconcileSigned(n: Name, env: Env) returns (last: Event, ghost row: seq<Event>)
      requires Valid() && n in looking && looking[n].cert.signed
      modifies this
      ensures Continues(old(history), old(trace)) && steps == old(steps) + row
      ensures SignedRow(row, n, old(looking)[n].cert.recorded.Some?, env, last, n !in certs)
      ensures n !in looking && trace != [] && trace[|trace| - 1] == last
    {
      SigningSpecHashFor(n);
      ghost var rest;
      last, rest := CompareHash(n, env);
      row := Derives(n) + rest;
      Regroup(old(steps), Derives(n), rest);
      assert row[..3] == Derives(n) && row[3..] == rest;
      assert rest != [] ==> row[4..] == rest[1..];
    }

    method CompareHash(n: Name, env: Env) returns (last: Event, ghost row: seq<Event>)
      requires Valid() && n in looking && looking[n].Derived? && looking[n].cert.signed
      modifies this
      ensures Continues(old(history), old(trace)) && steps == old(steps) + row
      ensures row != []
      ensures if old(looking)[n].cert.recorded.None? then BaselineRow(row, n, env.renewal, last, n !in certs)
              else if old(looking)[n].cert.recorded.value.hash == old(looking)[n].want.hash
                then SteadyRow(row, n, env.renewal, last, n !in certs)
              else row[0] == Drift(n) && SignRow(row[1..], n, env.answer, last, n !in certs)
      ensures n !in looking && trace != [] && trace[|trace| - 1] == last
    {
      var l := looking[n];
      if l.cert.recorded.None? {
        last, row := ReconcileWithoutBaseline(n, env);
      } else if l.cert.recorded.value.hash != l.want.hash {
        last, row := SignAgain(n, env);
      } else {
        last, row := CheckRenewal(n, env);
      }
    }

    /** A changed hash starts the signing over. */
    method SignAgain(n: Name, env: Env) returns (last: Event, ghost row: seq<Event>)
      requires Valid() && DriftSeen(Snapshot(), Snapshot(), n)
      modifies this
      ensures Continues(old(history), old(trace)) && steps == old(steps) + row
      ensures row != [] && row[0] == Drift(n) && SignRow(row[1..], n, env.answer, last, n !in certs)
      ensures n !in looking && trace != [] && trace[|trace| - 1] == last
    {
      NoteDrift(n);
      ghost var rest;
      last, rest := ReconcileCertSigning(n, env);
      row := [Drift(n)] + rest;
      Regroup(old(steps), [Drift(n)], rest);
      assert row[1..] == rest;
    }

    /** Reconcile behind the CA checks. */
    method ReconcileUnderCa(n: Name, env: Env) returns (last: Event, ghost row: seq<Event>)
      requires Valid() && n in looking
      modifies this
      ensures Continues(old(history), old(trace)) && steps == old(steps) + row
      ensures UnderCaRow(row, n, old(looking)[n].cert, env, last, n !in certs)
      ensures n !in looking && trace != [] && trace[|trace| - 1] == last
      ensures !env.caReady && n in certs ==> !certs[n].signed
    {
      if !env.caReady {
        last := FailRenewal(n);
        row := [last];
      } else if looking[n].cert.signed {
        last, row := ReconcileSigned(n, env);
      } else {
        last, row := ReconcileUnsigned(n, env);
      }
    }

    /** A Secret that is there is adopted, else the Certificate is signed. */
    method ReconcileUnsigned(n: Name, env: Env) returns (last: Event, ghost row: seq<Event>)
      requires Valid() && n in looking
      modifies this
      ensures Continues(old(history), old(trace)) && steps == old(steps) + row
      ensures if env.tlsReady then MarkRow(row, n, last, n !in certs)
              else SignRow(row, n, env.answer, last, n !in certs)
      ensures n !in looking && trace != [] && trace[|trace| - 1] == last
    {
      if env.tlsReady {
        last, row := DeriveAndMark(n);
      } else {
        last, row := ReconcileCertSigning(n, env);
      }
    }

    /** Reconcile behind the pause check. */
    method ReconcileLive(n: Name, env: Env) returns (last: Event, ghost row: seq<Event>)
      requires Valid() && n in looking
      modifies this
      ensures Continues(old(history), old(trace)) && steps == old(steps) + row
      ensures LiveRow(row, n, old(looking)[n].cert, env, last, n !in certs)
      ensures n !in looking && trace != [] && trace[|trace| - 1] == last
    {
      Interfere();
      last, row := ReconcileReading(n, env);
    }

    method ReconcileReading(n: Name, env: Env) returns (last: Event, ghost row: seq<Event>)
      requires Valid() && n in looking
      modifies this
      ensures Continues(old(history), old(trace)) && steps == old(steps) + row
      ensures LiveRow(row, n, old(looking)[n].cert, env, last, n !in certs)
      ensures n !in looking && trace != [] && trace[|trace| - 1] == last
    {
      if looking[n].cert.authority !in authorities {
        DropWithoutAuthority(n);
        last := Strand(n);
        row := [last];
      } else {
        last, row := ReconcileFound(n, env);
      }
    }

    method ReconcileFound(n: Name, env: Env) returns (last: Event, ghost row: seq<Event>)
      requires Valid() && n in looking && looking[n].cert.authority in authorities
      modifies this
      ensures Continues(old(history), old(trace)) && steps == old(steps) + row
      ensures row != [] && row[0] == FindCa(n)
      ensures UnderCaRow(row[1..], n, old(looking)[n].cert, env, last, n !in certs)
      ensures n !in looking && trace != [] && trace[|trace| - 1] == last
    {
      NoteCa(n);
      ghost var rest;
      last, rest := ReconcileUnderCa(n, env);
      row := [FindCa(n)] + rest;
      Regroup(old(steps), [FindCa(n)], rest);
      assert row[1..] == rest;
    }

    /** Reconcile: one pass, with others at work between any two calls. The steps it adds
        are a row of the form above. */
    method Reconcile(n: Name, env: Env) returns (last: Event, ghost row: seq<Event>)
      requires Valid() && n in queue && n !in looking
      modifies this
      ensures Continues(old(history), old(trace)) && steps == old(steps) + row
      ensures n !in looking && trace != [] && trace[|trace| - 1] == last
      ensures if n in old(certs) && !old(certs)[n].deleting && !old(certs)[n].paused
              then PassRow(row, n, old(certs)[n], env, last, n !in certs)
              else row == [last] && last == Skip(n)
      ensures last in {Skip(n), Strand(n), Refuse(n), Requeue(n), Settle(n), Mark(n)}
      ensures last == Skip(n) <==> n !in old(certs) || old(certs)[n].deleting || old(certs)[n].paused
      ensures |trace| > |old(trace)| && trace[|old(trace)|] == if last == Skip(n) then last else Begin(n)
      ensures last in {Refuse(n), Settle(n), Mark(n)} ==> env.caReady
      ensures last == Settle(n) ==> n in old(certs) && old(certs)[n].signed
      ensures last == Mark(n) ==> n in old(certs) && MayMark(old(certs)[n], env)
    {
      var begun := BeginReconcile(n);
      if begun {
        ghost var rest;
        last, rest := ReconcileLive(n, env);
        row := [Begin(n)] + rest;
        Regroup(old(steps), [Begin(n)], rest);
        assert row[1..] == rest;
        RowAllows(rest, n, old(certs)[n], env, last, n !in certs);
      } else {
        last := Skip(n);
        row := [last];
      }
    }
  }

  /** What the form of the row says of its end. */
  lemma RowAllows(row: seq<Event>, n: Name, c: Certificate, env: Env, last: Event, gone: bool)
    requires LiveRow(row, n, c, env, last, gone)
    ensures last in {Strand(n), Refuse(n), Requeue(n), Settle(n), Mark(n)}
    ensures last in {Refuse(n), Settle(n), Mark(n)} ==> env.caReady
    ensures last == Settle(n) ==> c.signed
    ensures last == Mark(n) ==> MayMark(c, env)
  {
    if last != Strand(n) && env.caReady {
      var r := row[1..];
      if !c.signed {
        if !env.tlsReady { SigningEnds(r, n, env.answer, last, gone); }
      } else if c.recorded.Some? && r[3] == Drift(n) {
        SigningEnds(r[4..], n, env.answer, last, gone);
      } else if c.recorded.Some? {
        RenewalEnds(r[3..][1..], n, env.renewal, last, gone);
      } else if SteadyRow(r[3..][1..], n, env.renewal, last, gone) {
        RenewalEnds(r[3..][1..][1..], n, env.renewal, last, gone);
      }
    }
  }

  lemma SigningEnds(row: seq<Event>, n: Name, answer: Answer, last: Event, gone: bool)
    requires SignRow(row, n, answer, last, gone)
    ensures last in {Refuse(n), Requeue(n), Mark(n)}
    ensures last == Mark(n) ==> answer != Pending
  {
  }

  lemma RenewalEnds(row: seq<Event>, n: Name, renewal: Renewal, last: Event, gone: bool)
    requires RenewalRow(row, n, renewal, last, gone)
    ensures last in {Requeue(n), Settle(n), Mark(n)}
    ensures last == Mark(n) ==> renewal == Renewed
  {
  }
}
