/** Pools competing for route hostnames, internal/controller/pool_controller.go.

    The store holds Pools, their reported conflicts and TLSRoutes. Every write of an object
    is a change that is delivered later, at any time and in any order, to the watch map
    functions, which list the store as it is then and enqueue the Pools to look at again.
    A pass reads its Pool, lists the others, writes the route and reports in four steps,
    between which everyone else goes on. */
module Pools {
  import opened Text

  type Name = string

  datatype RouteSpec = RouteSpec(
    enabled: bool, hostname: string, injectDnsAltName: bool, gateway: string, section: string)

  datatype Pool = Pool(
    uid: nat, created: int, deleting: bool, paused: bool, route: Option<RouteSpec>, servicePort: int)

  datatype Owner = Owner(name: Name, uid: nat)

  datatype TlsRoute = TlsRoute(
    controller: Option<Owner>, gateway: string, section: string, hostname: string, backend: Name, port: int)

  datatype Change =
    | PoolChange(name: Name, before: Option<Pool>, after: Option<Pool>)
    | RouteChange(owner: Name)

  /** What a pass makes of the Pool it read. */
  datatype Decision = NoRoute | Wins | Loses(owner: Name)

  /** How far a pass has come, with the Pool as it read it. */
  datatype Look =
    | Read(pool: Pool)
    | Decided(pool: Pool, decision: Decision)
    | Reporting(pool: Pool, decision: Decision)

  /** The HostnameConflict condition: the hostname and who has it. */
  datatype Conflict = Conflict(hostname: string, owner: Name)

  datatype State = State(
    pools: map<Name, Pool>,
    routes: map<Name, TlsRoute>,
    reports: map<Name, Option<Conflict>>,
    looking: map<Name, Look>,
    changes: multiset<Change>,
    queue: set<Name>)

  // ---------- claims ----------

  predicate Requests(p: Pool) {
    p.route.Some? && p.route.value.enabled
  }

  /** claimPrecedes: older first, the name breaking ties. */
  predicate Precedes(pools: map<Name, Pool>, a: Name, b: Name)
    requires a in pools && b in pools
  {
    if pools[a].created != pools[b].created then pools[a].created < pools[b].created else Less(a, b)
  }

  /** Another Pool that counts as a claim on the hostname n asks for. */
  predicate Rival(pools: map<Name, Pool>, n: Name, m: Name)
    requires n in pools && Requests(pools[n])
  {
    && m in pools && m != n
    && !pools[m].deleting
    && Requests(pools[m])
    && pools[m].route.value.hostname == pools[n].route.value.hostname
  }

  ghost predicate Entitled(pools: map<Name, Pool>, n: Name)
    requires n in pools && Requests(pools[n])
  {
    forall m :: Rival(pools, n, m) ==> !Precedes(pools, m, n)
  }

  /** The rival that no other rival precedes. */
  ghost predicate Foremost(pools: map<Name, Pool>, n: Name, w: Name)
    requires n in pools && Requests(pools[n])
  {
    Rival(pools, n, w) && forall m :: Rival(pools, n, m) ==> !Precedes(pools, m, w)
  }

  /** The order on the fields: created earlier, or in the same second and least by name. */
  predicate Earlier(x: int, a: Name, y: int, b: Name) {
    x < y || (x == y && Less(a, b))
  }

  lemma PrecedesTransitive(pools: map<Name, Pool>, a: Name, b: Name, c: Name)
    requires a in pools && b in pools && c in pools
    requires Precedes(pools, a, b) && Precedes(pools, b, c)
    ensures Precedes(pools, a, c)
  {
    if pools[a].created == pools[c].created { LessTransitive(a, b, c); }
  }

  lemma PrecedesTotal(pools: map<Name, Pool>, a: Name, b: Name)
    requires a in pools && b in pools
    ensures a == b || Precedes(pools, a, b) || Precedes(pools, b, a)
    ensures !(Precedes(pools, a, b) && Precedes(pools, b, a))
  {
    LessTotal(a, b);
    if Less(a, b) { LessAsymmetric(a, b); }
    LessIrreflexive(a);
  }

  /** Among any Pools there is one all others are younger than. */
  lemma {:induction false} OldestAmong(pools: map<Name, Pool>, names: set<Name>) returns (w: Name)
    requires names != {} && names <= pools.Keys
    ensures w in names && forall m :: m in names && m != w ==> Precedes(pools, w, m)
    decreases names
  {
    w :| w in names;
    if names != {w} {
      var v := OldestAmong(pools, names - {w});
      PrecedesTotal(pools, v, w);
      forall m | m in names && m != v && m != w && Precedes(pools, w, v) ensures Precedes(pools, w, m) {
        PrecedesTransitive(pools, w, v, m);
      }
      if Precedes(pools, v, w) { w := v; }
    }
  }

  lemma RivalsHaveForemost(pools: map<Name, Pool>, n: Name)
    requires n in pools && Requests(pools[n]) && !Entitled(pools, n)
    ensures exists w :: Foremost(pools, n, w)
  {
    var rivals := set m | m in pools && Rival(pools, n, m);
    var r :| Rival(pools, n, r) && Precedes(pools, r, n);
    assert r in rivals;
    var w := OldestAmong(pools, rivals);
    forall m | Rival(pools, n, m) ensures !Precedes(pools, m, w) {
      assert m in rivals;
      PrecedesTotal(pools, m, w);
    }
    assert Foremost(pools, n, w);
  }

  ghost predicate Decides(pools: map<Name, Pool>, n: Name, d: Decision)
    requires n in pools
  {
    match d
    case NoRoute => !Requests(pools[n])
    case Wins => Requests(pools[n]) && Entitled(pools, n)
    case Loses(w) => Requests(pools[n]) && !Entitled(pools, n) && Foremost(pools, n, w)
  }

  /** hostnameOwner's answer is one, whatever the listing order. */
  ghost function DecisionOn(pools: map<Name, Pool>, n: Name): (d: Decision)
    requires n in pools
    ensures Decides(pools, n, d)
  {
    if !Requests(pools[n]) then NoRoute
    else if Entitled(pools, n) then Wins
    else
      RivalsHaveForemost(pools, n);
      var w :| Foremost(pools, n, w);
      Loses(w)
  }

  lemma DecisionIsOne(pools: map<Name, Pool>, n: Name, d: Decision)
    requires n in pools && Decides(pools, n, d)
    ensures d == DecisionOn(pools, n)
  {
    if d.Loses? { PrecedesTotal(pools, d.owner, DecisionOn(pools, n).owner); }
  }

  // ---------- what route and report should be ----------

  function Rendered(n: Name, p: Pool): TlsRoute
    requires Requests(p)
  {
    var r := p.route.value;
    TlsRoute(Some(Owner(n, p.uid)), r.gateway, r.section, r.hostname, n,
             if p.servicePort > 0 then p.servicePort else 8140)
  }

  /** metav1.IsControlledBy on the route of the Pool's name. */
  predicate Controls(routes: map<Name, TlsRoute>, n: Name, uid: nat) {
    n in routes && routes[n].controller == Some(Owner(n, uid))
  }

  /** The route name is taken by an object the Pool does not control. */
  predicate Blocked(routes: map<Name, TlsRoute>, n: Name, p: Pool, d: Decision) {
    d == Wins && n in routes && !Controls(routes, n, p.uid)
  }

  /** The routes after a pass that is not blocked. */
  function Target(routes: map<Name, TlsRoute>, n: Name, p: Pool, d: Decision): map<Name, TlsRoute>
    requires d == Wins ==> Requests(p)
  {
    if d == Wins then routes[n := Rendered(n, p)]
    else if Controls(routes, n, p.uid) then routes - {n}
    else routes
  }

  function ReportOf(p: Pool, d: Decision): Option<Conflict>
    requires d.Loses? ==> Requests(p)
  {
    if d.Loses? then Some(Conflict(p.route.value.hostname, d.owner)) else None
  }

  ghost predicate RouteRight(s: State, n: Name)
    requires n in s.pools
  {
    if DecisionOn(s.pools, n) == Wins
    then n in s.routes && s.routes[n] == Rendered(n, s.pools[n])
    else !Controls(s.routes, n, s.pools[n].uid)
  }

  ghost predicate ReportRight(s: State, n: Name)
    requires n in s.pools
  {
    n in s.reports && s.reports[n] == ReportOf(s.pools[n], DecisionOn(s.pools, n))
  }

  // ---------- the watches ----------

  /** poolsSharingHostname: the other Pools naming the hostname of the changed object. */
  function Sharing(pools: map<Name, Pool>, n: Name, changed: Option<Pool>): set<Name> {
    if changed.None? || changed.value.route.None? || changed.value.route.value.hostname == "" then {}
    else set m | m in pools && m != n && pools[m].route.Some?
                 && pools[m].route.value.hostname == changed.value.route.value.hostname
  }

  /** Everything one change enqueues: its own object, and the map function on the old
      and on the new object. */
  function Reached(pools: map<Name, Pool>, c: Change): set<Name> {
    match c
    case PoolChange(n, before, after) => {n} + Sharing(pools, n, before) + Sharing(pools, n, after)
    case RouteChange(owner) => {owner}
  }

  ghost predicate Covered(s: State, n: Name) {
    n in s.queue || exists c :: c in s.changes && n in Reached(s.pools, c)
  }

  // ---------- the steps ----------

  /** The CRD rejects an enabled route without a hostname. */
  predicate Admitted(p: Pool) {
    Requests(p) ==> p.route.value.hostname != ""
  }

  function Lookup<T>(m: map<Name, T>, n: Name): Option<T> {
    if n in m then Some(m[n]) else None
  }

  function Put<T>(m: map<Name, T>, n: Name, v: Option<T>): map<Name, T> {
    if v.Some? then m[n := v.value] else m - {n}
  }

  /** A Pool is created, edited, marked for deletion or removed; its status goes with it. */
  predicate PoolWritten(s: State, s': State, n: Name, after: Option<Pool>) {
    && (n in s.pools && after.Some? ==>
         after.value.uid == s.pools[n].uid && after.value.created == s.pools[n].created)
    && (after.Some? ==> Admitted(after.value))
    && s' == s.(pools := Put(s.pools, n, after),
                reports := if after.Some? then s.reports else s.reports - {n},
                changes := s.changes + multiset{PoolChange(n, Lookup(s.pools, n), after)})
  }

  function OwnerChanges(route: Option<TlsRoute>): multiset<Change> {
    if route.Some? && route.value.controller.Some? then multiset{RouteChange(route.value.controller.value.name)}
    else multiset{}
  }

  /** A TLSRoute is written or removed by anyone, the garbage collector included. */
  predicate RouteWritten(s: State, s': State, n: Name, after: Option<TlsRoute>) {
    s' == s.(routes := Put(s.routes, n, after),
             changes := s.changes + OwnerChanges(Lookup(s.routes, n)) + OwnerChanges(after))
  }

  predicate Delivered(s: State, s': State, c: Change) {
    c in s.changes
    && s' == s.(changes := s.changes - multiset{c}, queue := s.queue + Reached(s.pools, c))
  }

  /** A resync, or a Server or Service event, enqueues a Pool. */
  predicate Resynced(s: State, s': State, n: Name) {
    s' == s.(queue := s.queue + {n})
  }

  predicate Began(s: State, s': State, n: Name) {
    && n in s.queue && n !in s.looking && n in s.pools && !s.pools[n].paused
    && s' == s.(queue := s.queue - {n}, looking := s.looking[n := Read(s.pools[n])])
  }

  /** The Pool is gone or paused. */
  predicate Skipped(s: State, s': State, n: Name) {
    && n in s.queue && n !in s.looking && (n in s.pools ==> s.pools[n].paused)
    && s' == s.(queue := s.queue - {n})
  }

  /** The others are listed; the own Pool is compared as it was read. */
  ghost predicate Listed(s: State, s': State, n: Name, d: Decision) {
    && n in s.looking && s.looking[n].Read?
    && Decides(s.pools[n := s.looking[n].pool], n, d)
    && s' == s.(looking := s.looking[n := Decided(s.looking[n].pool, d)])
  }

  function OwnRouteChange(n: Name, before: map<Name, TlsRoute>, after: map<Name, TlsRoute>): multiset<Change> {
    if before == after then multiset{} else multiset{RouteChange(n)}
  }

  /** What a pass holds fits together. */
  predicate Sound(l: Look) {
    l.Read? || (l.decision != NoRoute ==> Requests(l.pool))
  }

  predicate RouteSettled(s: State, s': State, n: Name) {
    && n in s.looking && s.looking[n].Decided? && Sound(s.looking[n])
    && var l := s.looking[n];
      !Blocked(s.routes, n, l.pool, l.decision)
      && var after := Target(s.routes, n, l.pool, l.decision);
        s' == s.(
          routes := after,
          changes := s.changes + OwnRouteChange(n, s.routes, after),
          looking := s.looking[n := Reporting(l.pool, l.decision)])
  }

  /** The status write is an event of the Pool only if it changes something. */
  predicate Reported(s: State, s': State, n: Name) {
    && n in s.looking && s.looking[n].Reporting? && Sound(s.looking[n]) && n in s.pools
    && var report := ReportOf(s.looking[n].pool, s.looking[n].decision);
      s' == s.(
        reports := s.reports[n := report],
        changes := s.changes
          + (if n in s.reports && s.reports[n] == report then multiset{}
             else multiset{PoolChange(n, Some(s.pools[n]), Some(s.pools[n]))}),
        looking := s.looking - {n})
  }

  /** An error, a blocked route, a Pool that went meanwhile or a restart: try again. */
  predicate Failed(s: State, s': State, n: Name) {
    n in s.looking && s' == s.(looking := s.looking - {n}, queue := s.queue + {n})
  }

  datatype Event =
    | WritePool(name: Name, pool: Option<Pool>)
    | WriteRoute(name: Name, route: Option<TlsRoute>)
    | Deliver(change: Change)
    | Resync(name: Name)
    | Begin(name: Name)
    | Skip(name: Name)
    | List(name: Name, decision: Decision)
    | Settle(name: Name)
    | Report(name: Name)
    | Fail(name: Name)

  ghost predicate Step(s: State, e: Event, s': State) {
    match e
    case WritePool(n, after) => PoolWritten(s, s', n, after)
    case WriteRoute(n, after) => RouteWritten(s, s', n, after)
    case Deliver(c) => Delivered(s, s', c)
    case Resync(n) => Resynced(s, s', n)
    case Begin(n) => Began(s, s', n)
    case Skip(n) => Skipped(s, s', n)
    case List(n, d) => Listed(s, s', n, d)
    case Settle(n) => RouteSettled(s, s', n)
    case Report(n) => Reported(s, s', n)
    case Fail(n) => Failed(s, s', n)
  }

  // ---------- the invariant ----------

  /** What the pass of n goes by is what the store says now. */
  ghost predicate Fresh(s: State, n: Name) {
    && n in s.looking && n in s.pools && s.looking[n].pool == s.pools[n]
    && (!s.looking[n].Read? ==> s.looking[n].decision == DecisionOn(s.pools, n))
  }

  /** On its way to be looked at, being looked at, paused, or with the right route and
      report; and a pass that goes by old data will be repeated. */
  ghost predicate Attended(s: State, n: Name)
    requires n in s.pools
  {
    || Covered(s, n)
    || (n in s.looking && Fresh(s, n) && (s.looking[n].Reporting? ==> RouteRight(s, n)))
    || (n !in s.looking && s.pools[n].paused)
    || (n !in s.looking && RouteRight(s, n) && ReportRight(s, n))
  }

  ghost predicate Coherent(s: State) {
    && (forall n :: n in s.pools ==> Admitted(s.pools[n]) && Attended(s, n))
    && (forall n :: n in s.looking ==> Sound(s.looking[n]))
  }

  /** At start every existing Pool is enqueued, whatever routes and reports are there. */
  predicate Init(s: State) {
    s.queue == s.pools.Keys && s.looking == map[] && forall n :: n in s.pools ==> Admitted(s.pools[n])
  }

  ghost predicate IsRun(run: seq<State>, events: seq<Event>) {
    && |run| == |events| + 1 && Init(run[0])
    && forall i :: 0 <= i < |events| ==> Step(run[i], events[i], run[i + 1])
  }

  lemma StillCovered(s: State, s': State, n: Name)
    requires Covered(s, n) && n in s.pools && n in s'.pools && s'.pools[n] == s.pools[n]
    requires s.changes <= s'.changes && (n in s.queue ==> n in s'.queue)
    ensures Covered(s', n)
  {
    if n !in s'.queue {
      var c :| c in s.changes && n in Reached(s.pools, c);
      assert c in s'.changes && n in Reached(s'.pools, c);
    }
  }

  /** Rivals that are the same make the same decision. */
  lemma SameDecision(a: map<Name, Pool>, b: map<Name, Pool>, n: Name)
    requires n in a && n in b && a[n] == b[n]
    requires Requests(a[n]) ==> forall m :: Rival(a, n, m) <==> Rival(b, n, m)
    requires Requests(a[n]) ==> forall m :: Rival(a, n, m) ==> m in b && a[m].created == b[m].created
    ensures DecisionOn(a, n) == DecisionOn(b, n)
  {
    var d := DecisionOn(a, n);
    if Requests(a[n]) {
      forall m | Rival(a, n, m) ensures Precedes(a, m, n) == Precedes(b, m, n) {}
      if d.Loses? {
        forall m | Rival(a, n, m) ensures Precedes(a, m, d.owner) == Precedes(b, m, d.owner) {}
      }
    }
    assert Decides(b, n, d);
    DecisionIsOne(b, n, d);
  }

  /** A write of one Pool leaves the decision on another, or its change reaches it. */
  lemma WriteReachesAffected(s: State, s': State, k: Name, after: Option<Pool>, n: Name)
    requires PoolWritten(s, s', k, after) && n != k && n in s.pools && Admitted(s.pools[n])
    ensures n in s'.pools && s'.pools[n] == s.pools[n]
    ensures DecisionOn(s'.pools, n) == DecisionOn(s.pools, n) || Covered(s', n)
  {
    var c := PoolChange(k, Lookup(s.pools, k), after);
    assert c in s'.changes;
    if n in Reached(s'.pools, c) {
      assert Covered(s', n);
    } else {
      if Requests(s.pools[n]) {
        assert !Rival(s.pools, n, k) && !Rival(s'.pools, n, k);
        assert forall m :: m != k ==> (Rival(s.pools, n, m) <==> Rival(s'.pools, n, m));
      }
      SameDecision(s.pools, s'.pools, n);
    }
  }

  lemma PoolWriteKeeps(s: State, s': State, k: Name, after: Option<Pool>, n: Name)
    requires PoolWritten(s, s', k, after) && n in s'.pools
    requires n in s.pools ==> Admitted(s.pools[n]) && Attended(s, n)
    ensures Attended(s', n)
  {
    if n == k {
      var c := PoolChange(k, Lookup(s.pools, k), after);
      assert c in s'.changes && k in Reached(s'.pools, c);
    } else {
      WriteReachesAffected(s, s', k, after, n);
      if Covered(s, n) { StillCovered(s, s', n); }
    }
  }

  lemma RouteWriteKeeps(s: State, s': State, k: Name, after: Option<TlsRoute>, n: Name)
    requires RouteWritten(s, s', k, after) && n in s.pools && Attended(s, n)
    ensures Attended(s', n)
  {
    if Covered(s, n) {
      StillCovered(s, s', n);
    } else if n == k && (RouteRight(s, n) != RouteRight(s', n)) {
      assert RouteChange(n) in s'.changes by {
        var uid := s.pools[n].uid;
        assert Controls(s.routes, n, uid) || Controls(s'.routes, n, uid);
      }
      assert n in Reached(s'.pools, RouteChange(n));
    }
  }

  lemma DeliveryKeeps(s: State, s': State, c: Change, n: Name)
    requires Delivered(s, s', c) && n in s.pools && Attended(s, n)
    ensures Attended(s', n)
  {
    if Covered(s, n) && n !in s'.queue {
      var d :| d in s.changes && n in Reached(s.pools, d);
      assert d != c && d in s'.changes && n in Reached(s'.pools, d);
    }
  }

  /** A step of one Pool's pass and what it touches: nothing of another Pool. */
  lemma OtherPassKeeps(s: State, s': State, k: Name, n: Name)
    requires n != k && n in s.pools && Attended(s, n)
    requires s'.pools == s.pools && s.changes <= s'.changes && (n in s.queue ==> n in s'.queue)
    requires Lookup(s'.looking, n) == Lookup(s.looking, n)
    requires Lookup(s'.routes, n) == Lookup(s.routes, n) && Lookup(s'.reports, n) == Lookup(s.reports, n)
    ensures Attended(s', n)
  {
    assert n in s'.looking <==> n in s.looking;
    if Covered(s, n) { StillCovered(s, s', n); }
  }

  lemma OwnPassKeeps(s: State, e: Event, s': State, n: Name)
    requires Step(s, e, s') && (e.Begin? || e.Skip? || e.List? || e.Fail? || e.Resync?) && e.name == n
    requires n in s.pools && Attended(s, n)
    ensures Attended(s', n)
  {
    if e.List? {
      assert n in s.looking;
      if s.looking[n].pool == s.pools[n] {
        assert s.pools[n := s.looking[n].pool] == s.pools;
        DecisionIsOne(s.pools, n, e.decision);
      }
    }
    if Covered(s, n) && !e.Begin? && !e.Skip? {
      StillCovered(s, s', n);
    }
  }

  lemma SettleKeeps(s: State, s': State, n: Name)
    requires RouteSettled(s, s', n) && n in s.pools && Attended(s, n)
    ensures Attended(s', n)
  {
    if Covered(s, n) { StillCovered(s, s', n); }
  }

  lemma ReportKeeps(s: State, s': State, n: Name)
    requires Reported(s, s', n) && n in s.pools && Attended(s, n)
    ensures Attended(s', n)
  {
    if Covered(s, n) { StillCovered(s, s', n); }
  }

  predicate OfPass(e: Event) {
    e.Resync? || e.Begin? || e.Skip? || e.List? || e.Settle? || e.Report? || e.Fail?
  }

  lemma PassFrame(s: State, e: Event, s': State, n: Name)
    requires Step(s, e, s') && OfPass(e) && e.name != n
    ensures s'.pools == s.pools && s.changes <= s'.changes && (n in s.queue ==> n in s'.queue)
    ensures Lookup(s'.looking, n) == Lookup(s.looking, n)
    ensures Lookup(s'.routes, n) == Lookup(s.routes, n) && Lookup(s'.reports, n) == Lookup(s.reports, n)
  {
  }

  lemma StepKeepsAttended(s: State, e: Event, s': State, n: Name)
    requires Step(s, e, s') && n in s'.pools
    requires n in s.pools ==> Admitted(s.pools[n]) && Attended(s, n)
    ensures Attended(s', n)
  {
    if OfPass(e) && e.name != n {
      PassFrame(s, e, s', n);
      OtherPassKeeps(s, s', e.name, n);
    } else {
      match e
      case WritePool(k, after) => PoolWriteKeeps(s, s', k, after, n);
      case WriteRoute(k, after) => RouteWriteKeeps(s, s', k, after, n);
      case Deliver(c) => DeliveryKeeps(s, s', c, n);
      case Settle(_) => SettleKeeps(s, s', n);
      case Report(_) => ReportKeeps(s, s', n);
      case _ => OwnPassKeeps(s, e, s', n);
    }
  }

  lemma StepKeepsSound(s: State, e: Event, s': State)
    requires Step(s, e, s') && forall n :: n in s.looking ==> Sound(s.looking[n])
    ensures forall n :: n in s'.looking ==> Sound(s'.looking[n])
  {
  }

  lemma StepKeepsAdmitted(s: State, e: Event, s': State)
    requires Step(s, e, s') && forall n :: n in s.pools ==> Admitted(s.pools[n])
    ensures forall n :: n in s'.pools ==> Admitted(s'.pools[n])
  {
  }

  lemma StepKeepsCoherent(s: State, e: Event, s': State)
    requires Coherent(s) && Step(s, e, s')
    ensures Coherent(s')
  {
    StepKeepsSound(s, e, s');
    StepKeepsAdmitted(s, e, s');
    forall n | n in s'.pools ensures Attended(s', n) {
      StepKeepsAttended(s, e, s', n);
    }
  }

  /** In every run, at every moment, each Pool is about to be looked at, is being looked
      at on current data, is paused, or is right. */
  lemma {:induction false} RunsAreCoherent(run: seq<State>, events: seq<Event>, i: nat)
    requires IsRun(run, events) && i < |run|
    ensures Coherent(run[i])
    ensures forall n :: n in run[i].pools ==> Attended(run[i], n)
  {
    if i > 0 {
      RunsAreCoherent(run, events, i - 1);
      StepKeepsCoherent(run[i - 1], events[i - 1], run[i]);
    }
  }

  // ---------- at rest ----------

  predicate AtRest(s: State) {
    s.queue == {} && s.changes == multiset{} && s.looking == map[]
  }

  predicate Claims(s: State, n: Name, hostname: string) {
    n in s.pools && Requests(s.pools[n]) && s.pools[n].route.value.hostname == hostname
  }

  predicate LiveClaim(s: State, n: Name, hostname: string) {
    Claims(s, n, hostname) && !s.pools[n].deleting
  }

  /** The live claimant every other one is younger than. */
  ghost predicate Oldest(s: State, w: Name, hostname: string) {
    LiveClaim(s, w, hostname)
    && forall m :: LiveClaim(s, m, hostname) && m != w ==> Precedes(s.pools, w, m)
  }

  /** The Pools whose own route carries the hostname. */
  function Holders(s: State, hostname: string): set<Name> {
    set n | n in s.pools && Controls(s.routes, n, s.pools[n].uid) && s.routes[n].hostname == hostname
  }

  /** No paused Pool claims the hostname or still holds it. */
  predicate NobodyPausedOn(s: State, hostname: string) {
    forall n :: n in s.pools && s.pools[n].paused ==> !Claims(s, n, hostname) && n !in Holders(s, hostname)
  }

  lemma HoldersAtRest(s: State, hostname: string, n: Name)
    requires Coherent(s) && AtRest(s) && NobodyPausedOn(s, hostname)
    ensures n in Holders(s, hostname) <==> Claims(s, n, hostname) && Entitled(s.pools, n)
  {
    if n in s.pools {
      assert !Covered(s, n);
      assert Attended(s, n);
    }
  }

  /** A hostname someone live asks for has one oldest claimant. */
  lemma OldestExists(s: State, hostname: string, n: Name) returns (w: Name)
    requires LiveClaim(s, n, hostname)
    ensures Oldest(s, w, hostname)
    ensures forall v :: Oldest(s, v, hostname) ==> v == w
  {
    var names := set m | m in s.pools && LiveClaim(s, m, hostname);
    assert n in names;
    w := OldestAmong(s.pools, names);
    forall v | Oldest(s, v, hostname) ensures v == w { PrecedesTotal(s.pools, v, w); }
  }

  /** At rest the oldest live claimant holds the hostname, and it is the only holder
      exactly when no terminating Pool that still claims the hostname is older still:
      such a Pool is skipped by the others but not by itself. */
  lemma HostnameHasOneRoute(s: State, hostname: string, w: Name)
    requires Coherent(s) && AtRest(s) && NobodyPausedOn(s, hostname) && Oldest(s, w, hostname)
    ensures w in Holders(s, hostname)
    ensures Holders(s, hostname) == {w} <==>
      forall m :: Claims(s, m, hostname) && s.pools[m].deleting ==> !Precedes(s.pools, m, w)
  {
    forall m ensures m in Holders(s, hostname) <==>
        (Claims(s, m, hostname) && (m == w || (s.pools[m].deleting && Precedes(s.pools, m, w)))) {
      HoldersAtRest(s, hostname, m);
      if Claims(s, m, hostname) { EntitledIff(s, hostname, w, m); }
    }
    if forall m :: Claims(s, m, hostname) && s.pools[m].deleting ==> !Precedes(s.pools, m, w) {
      assert Holders(s, hostname) == {w};
    }
  }

  /** Of the live claimants the one created first holds, and among those created in the
      same second the one with the least name; no other live one does. */
  lemma EarliestHolds(s: State, hostname: string, w: Name)
    requires Coherent(s) && AtRest(s) && NobodyPausedOn(s, hostname) && LiveClaim(s, w, hostname)
    requires forall m :: LiveClaim(s, m, hostname) && m != w ==>
      Earlier(s.pools[w].created, w, s.pools[m].created, m)
    ensures w in Holders(s, hostname)
    ensures forall m :: LiveClaim(s, m, hostname) && m != w ==> m !in Holders(s, hostname)
    ensures s.routes[w].backend == w && s.routes[w].hostname == hostname
    ensures s.routes[w].port == if s.pools[w].servicePort > 0 then s.pools[w].servicePort else 8140
  {
    assert Oldest(s, w, hostname);
    HostnameHasOneRoute(s, hostname, w);
    forall m | LiveClaim(s, m, hostname) && m != w ensures m !in Holders(s, hostname) {
      HoldersAtRest(s, hostname, m);
      EntitledIff(s, hostname, w, m);
    }
    HoldersAtRest(s, hostname, w);
    assert !Covered(s, w) && Attended(s, w);
  }

  /** Who is entitled, beside the oldest live claimant. */
  lemma EntitledIff(s: State, hostname: string, w: Name, m: Name)
    requires Oldest(s, w, hostname) && Claims(s, m, hostname)
    ensures Entitled(s.pools, m) <==> m == w || (s.pools[m].deleting && Precedes(s.pools, m, w))
  {
    PrecedesTotal(s.pools, m, w);
    if m == w || (s.pools[m].deleting && Precedes(s.pools, m, w)) {
      forall k | Rival(s.pools, m, k) ensures !Precedes(s.pools, k, m) {
        assert LiveClaim(s, k, hostname);
        PrecedesTotal(s.pools, k, m);
        if m != w && k != w { PrecedesTransitive(s.pools, m, w, k); }
      }
    } else {
      assert Rival(s.pools, m, w);
    }
  }

  /** And every claimant that lost reports the conflict with that oldest one. */
  lemma LosersNameTheHolder(s: State, hostname: string, w: Name, m: Name)
    requires Coherent(s) && AtRest(s) && Oldest(s, w, hostname)
    requires Claims(s, m, hostname) && !s.pools[m].paused && !Entitled(s.pools, m)
    ensures m in s.reports && s.reports[m] == Some(Conflict(hostname, w))
  {
    EntitledIff(s, hostname, w, m);
    assert Rival(s.pools, m, w);
    forall k | Rival(s.pools, m, k) ensures !Precedes(s.pools, k, w) {
      assert LiveClaim(s, k, hostname);
      PrecedesTotal(s.pools, k, w);
    }
    assert Foremost(s.pools, m, w);
    DecisionIsOne(s.pools, m, Loses(w));
    assert !Covered(s, m);
    assert Attended(s, m);
  }

  // ---------- coming to rest ----------

  /** Deliveries and passes that run into no error: nobody edits anything. A pass whose Pool
      went away meanwhile fails on its status. */
  predicate IsQuiet(s: State, e: Event) {
    || e.Deliver? || e.Begin? || e.Skip? || e.List? || e.Settle? || e.Report?
    || (e.Fail? && e.name !in s.pools)
  }

  /** Pools whose route a pass on current data would still change. */
  ghost function Unrouted(s: State): set<Name> {
    set n | n in s.pools && Target(s.routes, n, s.pools[n], DecisionOn(s.pools, n)) != s.routes
  }

  ghost function Unreported(s: State): set<Name> {
    set n | n in s.pools && !ReportRight(s, n)
  }

  /** Passes on old data, before and after their route write. */
  ghost function StaleBefore(s: State): set<Name> {
    set n | n in s.looking && !Fresh(s, n) && !s.looking[n].Reporting?
  }

  ghost function StaleAfter(s: State): set<Name> {
    set n | n in s.looking && !Fresh(s, n) && s.looking[n].Reporting?
  }

  /** What the changes still to come can cost: a stale pass may leave its Pool with a wrong
      route and a wrong report. */
  ghost function Load(s: State): nat {
    |s.changes| + 2 * |Unrouted(s)| + 2 * |Unreported(s)| + 8 * |StaleBefore(s)| + 4 * |StaleAfter(s)|
  }

  /** How far the queued and running passes are from their end. */
  function Stage(s: State): nat {
    4 * |s.queue| + |s.looking.Keys| + |Unsettled(s)| + |JustRead(s)|
  }

  function Unsettled(s: State): set<Name> {
    set n | n in s.looking && !s.looking[n].Reporting?
  }

  function JustRead(s: State): set<Name> {
    set n | n in s.looking && s.looking[n].Read?
  }

  /** The names in play: whatever is queued, looked at, changed or stored. */
  ghost predicate Within(s: State, names: set<Name>) {
    && s.pools.Keys <= names && s.queue <= names && s.looking.Keys <= names
    && (forall c :: c in s.changes ==> Named(c) in names)
  }

  function Named(c: Change): Name {
    match c
    case PoolChange(n, _, _) => n
    case RouteChange(owner) => owner
  }

  ghost function Work(s: State, names: set<Name>): nat {
    Stage(s) + Scaled(7 * |names| + 1, Load(s))
  }

  function Scaled(k: nat, w: nat): nat {
    k * w
  }

  lemma LessWork(k: nat, q: nat, w: nat, q': nat, w': nat)
    requires (w' < w && q' <= k) || (w' == w && q' < q)
    ensures q' + Scaled(k + 1, w') < q + Scaled(k + 1, w)
  {
    if w' < w {
      assert (k + 1) * w' <= (k + 1) * (w - 1) == (k + 1) * w - (k + 1);
    }
  }

  lemma SubsetIsSmaller(a: set<Name>, b: set<Name>)
    requires a <= b
    ensures |a| <= |b|
  {
    assert |b - a| + |a| == |b| by { assert (b - a) + a == b && (b - a) * a == {}; }
  }

  lemma OneLess(a: set<Name>, b: set<Name>, n: Name)
    requires b == a - {n} && n in a
    ensures |b| == |a| - 1
  {
  }

  lemma OneMore(a: set<Name>, b: set<Name>, n: Name)
    requires a <= b <= a + {n}
    ensures |a| <= |b| <= |a| + 1
  {
    SubsetIsSmaller(a, b);
    SubsetIsSmaller(b, a + {n});
  }

  lemma StageIsBounded(s: State, names: set<Name>)
    requires Within(s, names)
    ensures Stage(s) <= 7 * |names|
  {
    SubsetIsSmaller(s.queue, names);
    SubsetIsSmaller(s.looking.Keys, names);
    SubsetIsSmaller(Unsettled(s), names);
    SubsetIsSmaller(JustRead(s), names);
  }

  lemma DeliveryStaysWithin(s: State, s': State, c: Change, names: set<Name>)
    requires Delivered(s, s', c) && Within(s, names)
    ensures Within(s', names)
  {
    assert Named(c) in names;
  }

  lemma PassStaysWithin(s: State, e: Event, s': State, names: set<Name>)
    requires Step(s, e, s') && OfPass(e) && !e.Resync? && Within(s, names)
    ensures Within(s', names)
  {
  }

  lemma QuietStaysWithin(s: State, e: Event, s': State, names: set<Name>)
    requires Step(s, e, s') && IsQuiet(s, e) && Within(s, names)
    ensures Within(s', names)
  {
    if e.Deliver? {
      DeliveryStaysWithin(s, s', e.change, names);
    } else {
      PassStaysWithin(s, e, s', names);
    }
  }

  /** What the load counts depends on these parts of the state only. */
  lemma SameSets(s: State, s': State)
    requires s'.pools == s.pools && s'.routes == s.routes && s'.reports == s.reports
    ensures Unrouted(s') == Unrouted(s) && Unreported(s') == Unreported(s)
  {
  }

  lemma DeliveryLightens(s: State, s': State, c: Change)
    requires Delivered(s, s', c)
    ensures Load(s') < Load(s)
  {
    SameSets(s, s');
    assert StaleBefore(s') == StaleBefore(s) && StaleAfter(s') == StaleAfter(s);
    assert |s'.changes| == |s.changes| - 1;
  }

  lemma BeginKeepsLoad(s: State, s': State, n: Name)
    requires Began(s, s', n)
    ensures Load(s') == Load(s)
  {
    SameSets(s, s');
    assert StaleBefore(s') == StaleBefore(s) && StaleAfter(s') == StaleAfter(s);
  }

  lemma BeginMovesOn(s: State, s': State, n: Name)
    requires Began(s, s', n)
    ensures Stage(s') < Stage(s)
  {
    OneLess(s.queue, s'.queue, n);
    OneMore(s.looking.Keys, s'.looking.Keys, n);
    OneMore(Unsettled(s), Unsettled(s'), n);
    OneMore(JustRead(s), JustRead(s'), n);
  }

  lemma SkipMovesOn(s: State, s': State, n: Name)
    requires Skipped(s, s', n)
    ensures Load(s') == Load(s) && Stage(s') < Stage(s)
  {
    SameSets(s, s');
    assert StaleBefore(s') == StaleBefore(s) && StaleAfter(s') == StaleAfter(s);
    assert Unsettled(s') == Unsettled(s) && JustRead(s') == JustRead(s);
    OneLess(s.queue, s'.queue, n);
  }

  lemma ListKeepsLoad(s: State, s': State, n: Name, d: Decision)
    requires Listed(s, s', n, d)
    ensures Load(s') == Load(s)
  {
    SameSets(s, s');
    if n in s.pools && s.looking[n].pool == s.pools[n] {
      assert s.pools[n := s.looking[n].pool] == s.pools;
      DecisionIsOne(s.pools, n, d);
    }
    assert Fresh(s', n) <==> Fresh(s, n);
    assert StaleBefore(s') == StaleBefore(s) && StaleAfter(s') == StaleAfter(s);
  }

  lemma ListMovesOn(s: State, s': State, n: Name, d: Decision)
    requires Listed(s, s', n, d)
    ensures Stage(s') < Stage(s)
  {
    assert s'.looking.Keys == s.looking.Keys && Unsettled(s') == Unsettled(s);
    OneLess(JustRead(s), JustRead(s'), n);
  }

  lemma PutChanges(routes: map<Name, TlsRoute>, m: Name, r: TlsRoute)
    ensures routes[m := r] != routes <==> Lookup(routes, m) != Some(r)
  {
    if Lookup(routes, m) == Some(r) { assert routes[m := r] == routes; } else { assert routes[m := r][m] == r; }
  }

  lemma OthersUnrouted(s: State, s': State, n: Name, m: Name)
    requires s'.pools == s.pools && m in s.pools && m != n
    requires forall k :: k != n ==> Lookup(s'.routes, k) == Lookup(s.routes, k)
    ensures m in Unrouted(s') <==> m in Unrouted(s)
  {
    var p, d := s.pools[m], DecisionOn(s.pools, m);
    assert Lookup(s'.routes, m) == Lookup(s.routes, m);
    if d == Wins {
      PutChanges(s.routes, m, Rendered(m, p));
      PutChanges(s'.routes, m, Rendered(m, p));
    } else {
      assert Controls(s'.routes, m, p.uid) <==> Controls(s.routes, m, p.uid);
      assert Controls(s.routes, m, p.uid) ==> s.routes - {m} != s.routes;
      assert Controls(s'.routes, m, p.uid) ==> s'.routes - {m} != s'.routes;
    }
  }

  lemma TargetIsFinal(routes: map<Name, TlsRoute>, n: Name, p: Pool, d: Decision)
    requires d == Wins ==> Requests(p)
    ensures Target(Target(routes, n, p, d), n, p, d) == Target(routes, n, p, d)
  {
  }

  lemma SettledElsewhere(s: State, s': State, n: Name)
    requires RouteSettled(s, s', n)
    ensures Unrouted(s') - {n} == Unrouted(s) - {n} && Unreported(s') == Unreported(s)
    ensures Fresh(s', n) <==> Fresh(s, n)
    ensures StaleBefore(s') == StaleBefore(s) - {n} && StaleAfter(s') - {n} == StaleAfter(s)
    ensures n in StaleAfter(s') <==> n in StaleBefore(s)
  {
    forall m ensures m in Unrouted(s') - {n} <==> m in Unrouted(s) - {n} {
      if m in s.pools && m != n { OthersUnrouted(s, s', n, m); }
    }
    assert forall m :: m != n ==> (Fresh(s', m) <==> Fresh(s, m));
  }

  lemma FreshSettles(s: State, s': State, n: Name)
    requires RouteSettled(s, s', n) && Fresh(s, n)
    ensures n !in Unrouted(s') && (s'.routes != s.routes <==> n in Unrouted(s))
  {
    TargetIsFinal(s.routes, n, s.pools[n], s.looking[n].decision);
  }

  lemma FreshSettleLightens(s: State, s': State, n: Name)
    requires RouteSettled(s, s', n) && Fresh(s, n)
    ensures Load(s') <= Load(s)
  {
    SettledElsewhere(s, s', n);
    FreshSettles(s, s', n);
    assert Unrouted(s') == Unrouted(s) - {n};
    assert StaleBefore(s') == StaleBefore(s) && StaleAfter(s') == StaleAfter(s);
    if n in Unrouted(s) {
      OneLess(Unrouted(s), Unrouted(s'), n);
      assert |s'.changes| <= |s.changes| + 1;
    } else {
      assert Unrouted(s') == Unrouted(s) && s'.changes == s.changes;
    }
  }

  lemma StaleSettleLightens(s: State, s': State, n: Name)
    requires RouteSettled(s, s', n) && !Fresh(s, n)
    ensures Load(s') <= Load(s)
  {
    SettledElsewhere(s, s', n);
    assert |s'.changes| <= |s.changes| + 1;
    OneLess(StaleBefore(s), StaleBefore(s'), n);
    assert StaleAfter(s) == StaleAfter(s') - {n};
    OneLess(StaleAfter(s'), StaleAfter(s), n);
    AtMostOneMore(Unrouted(s), Unrouted(s'), n);
  }

  lemma AtMostOneMore(a: set<Name>, b: set<Name>, n: Name)
    requires b - {n} == a - {n}
    ensures |b| <= |a| + 1
  {
    forall x | x in b ensures x in a + {n} {
      assert x != n ==> x in b - {n};
    }
    SubsetIsSmaller(b, a + {n});
  }

  lemma SettleLightens(s: State, s': State, n: Name)
    requires RouteSettled(s, s', n)
    ensures Load(s') <= Load(s)
  {
    if Fresh(s, n) { FreshSettleLightens(s, s', n); } else { StaleSettleLightens(s, s', n); }
  }

  lemma SettleMovesOn(s: State, s': State, n: Name)
    requires RouteSettled(s, s', n)
    ensures Stage(s') < Stage(s)
  {
    assert s'.looking.Keys == s.looking.Keys && JustRead(s') == JustRead(s);
    OneLess(Unsettled(s), Unsettled(s'), n);
  }

  lemma ReportedElsewhere(s: State, s': State, n: Name)
    requires Reported(s, s', n)
    ensures Unreported(s') - {n} == Unreported(s) - {n} && Unrouted(s') == Unrouted(s)
    ensures StaleBefore(s') == StaleBefore(s) && StaleAfter(s') == StaleAfter(s) - {n}
    ensures Fresh(s, n) ==> n !in Unreported(s') && (n in Unreported(s) <==> s'.changes != s.changes)
    ensures |s'.changes| <= |s.changes| + 1
  {
    assert forall m :: m != n ==> (Fresh(s', m) <==> Fresh(s, m));
    assert forall m :: m in s.pools && m != n ==> (ReportRight(s', m) <==> ReportRight(s, m));
  }

  lemma FreshReportLightens(s: State, s': State, n: Name)
    requires Reported(s, s', n) && Fresh(s, n)
    ensures Load(s') <= Load(s)
  {
    ReportedElsewhere(s, s', n);
    assert Unreported(s') == Unreported(s) - {n} && StaleAfter(s') == StaleAfter(s);
    if n in Unreported(s) {
      OneLess(Unreported(s), Unreported(s'), n);
    } else {
      assert Unreported(s') == Unreported(s) && s'.changes == s.changes;
    }
  }

  lemma StaleReportLightens(s: State, s': State, n: Name)
    requires Reported(s, s', n) && !Fresh(s, n)
    ensures Load(s') <= Load(s)
  {
    ReportedElsewhere(s, s', n);
    OneLess(StaleAfter(s), StaleAfter(s'), n);
    AtMostOneMore(Unreported(s), Unreported(s'), n);
  }

  lemma ReportLightens(s: State, s': State, n: Name)
    requires Reported(s, s', n)
    ensures Load(s') <= Load(s)
  {
    if Fresh(s, n) { FreshReportLightens(s, s', n); } else { StaleReportLightens(s, s', n); }
  }

  lemma ReportMovesOn(s: State, s': State, n: Name)
    requires Reported(s, s', n)
    ensures Stage(s') < Stage(s)
  {
    assert Unsettled(s') == Unsettled(s) && JustRead(s') == JustRead(s);
    OneLess(s.looking.Keys, s'.looking.Keys, n);
  }

  lemma VanishLightens(s: State, s': State, n: Name)
    requires Failed(s, s', n) && n !in s.pools
    ensures Load(s') < Load(s)
  {
    SameSets(s, s');
    VanishedElsewhere(s, s', n);
    if s.looking[n].Reporting? {
      OneLess(StaleAfter(s), StaleAfter(s'), n);
    } else {
      OneLess(StaleBefore(s), StaleBefore(s'), n);
    }
  }

  lemma VanishedElsewhere(s: State, s': State, n: Name)
    requires Failed(s, s', n) && n !in s.pools
    ensures StaleBefore(s') == StaleBefore(s) - {n} && StaleAfter(s') == StaleAfter(s) - {n}
    ensures if s.looking[n].Reporting? then n in StaleAfter(s) && n !in StaleBefore(s)
            else n in StaleBefore(s) && n !in StaleAfter(s)
  {
    assert forall m :: m != n ==> (Fresh(s', m) <==> Fresh(s, m));
  }

  lemma QuietLightensOrMovesOn(s: State, e: Event, s': State)
    requires Step(s, e, s') && IsQuiet(s, e)
    ensures Load(s') < Load(s) || (Load(s') == Load(s) && Stage(s') < Stage(s))
  {
    match e
    case Deliver(c) => DeliveryLightens(s, s', c);
    case Begin(n) =>
      BeginKeepsLoad(s, s', n);
      BeginMovesOn(s, s', n);
    case Skip(n) => SkipMovesOn(s, s', n);
    case List(n, d) =>
      ListKeepsLoad(s, s', n, d);
      ListMovesOn(s, s', n, d);
    case Settle(n) =>
      SettleLightens(s, s', n);
      SettleMovesOn(s, s', n);
    case Report(n) =>
      ReportLightens(s, s', n);
      ReportMovesOn(s, s', n);
    case Fail(n) => VanishLightens(s, s', n);
  }

  lemma QuietWorksOff(s: State, e: Event, s': State, names: set<Name>)
    requires Step(s, e, s') && IsQuiet(s, e) && Within(s, names)
    ensures Within(s', names) && Work(s', names) < Work(s, names)
  {
    QuietStaysWithin(s, e, s', names);
    QuietLightensOrMovesOn(s, e, s');
    LessLeft(s, s', names);
  }

  lemma LessLeft(s: State, s': State, names: set<Name>)
    requires Within(s', names) && (Load(s') < Load(s) || (Load(s') == Load(s) && Stage(s') < Stage(s)))
    ensures Work(s', names) < Work(s, names)
  {
    StageIsBounded(s', names);
    LessWork(7 * |names|, Stage(s), Load(s), Stage(s'), Load(s'));
  }

  ghost predicate QuietRun(run: seq<State>, events: seq<Event>) {
    && |run| == |events| + 1
    && forall i :: 0 <= i < |events| ==> Step(run[i], events[i], run[i + 1]) && IsQuiet(run[i], events[i])
  }

  /** Once nobody edits, only so many steps are left, whatever their order; the events of
      the controller's own status and route writes are among them. */
  lemma {:induction false} QuietRunsAreShort(run: seq<State>, events: seq<Event>, names: set<Name>)
    requires QuietRun(run, events) && Within(run[0], names)
    ensures Within(run[|events|], names)
    ensures |events| + Work(run[|events|], names) <= Work(run[0], names)
  {
    var m := |events| - 1;
    if m >= 0 {
      assert run[..m + 1][m] == run[m];
      QuietRunsAreShort(run[..m + 1], events[..m], names);
      assert Step(run[m], events[m], run[m + 1]) && IsQuiet(run[m], events[m]);
      QuietWorksOff(run[m], events[m], run[m + 1], names);
    }
  }

  /** A pass that cannot go on: a foreign object has the route's name. */
  predicate StuckOnRoute(s: State, n: Name) {
    n in s.looking && s.looking[n].Decided? && n in s.pools
    && Blocked(s.routes, n, s.looking[n].pool, s.looking[n].decision)
  }

  /** As long as anything is in flight that no foreign route blocks, there is a next step. */
  lemma QuietGoesOn(s: State) returns (e: Event, s': State)
    requires forall n :: n in s.looking ==> Sound(s.looking[n])
    requires s.changes != multiset{}
      || (exists n :: n in s.queue && !StuckOnRoute(s, n))
      || (exists n :: n in s.looking && !StuckOnRoute(s, n))
    ensures Step(s, e, s') && IsQuiet(s, e)
  {
    if s.changes != multiset{} {
      var c :| c in s.changes;
      e, s' := Deliver(c), s.(changes := s.changes - multiset{c}, queue := s.queue + Reached(s.pools, c));
    } else {
      var n :| (n in s.queue || n in s.looking) && !StuckOnRoute(s, n);
      if n in s.looking {
        e, s' := PassGoesOn(s, n);
      } else if n in s.pools && !s.pools[n].paused {
        e, s' := Begin(n), s.(queue := s.queue - {n}, looking := s.looking[n := Read(s.pools[n])]);
      } else {
        e, s' := Skip(n), s.(queue := s.queue - {n});
      }
    }
  }

  lemma PassGoesOn(s: State, n: Name) returns (e: Event, s': State)
    requires n in s.looking && Sound(s.looking[n]) && !StuckOnRoute(s, n)
    ensures Step(s, e, s') && IsQuiet(s, e)
  {
    var l := s.looking[n];
    if n !in s.pools {
      e, s' := Fail(n), s.(looking := s.looking - {n}, queue := s.queue + {n});
    } else {
      match l
      case Read(p) =>
        var d := DecisionOn(s.pools[n := p], n);
        e, s' := List(n, d), s.(looking := s.looking[n := Decided(p, d)]);
      case Decided(p, d) =>
        var after := Target(s.routes, n, p, d);
        e, s' := Settle(n), s.(routes := after, changes := s.changes + OwnRouteChange(n, s.routes, after),
                               looking := s.looking[n := Reporting(p, d)]);
      case Reporting(p, d) =>
        var report := ReportOf(p, d);
        e, s' := Report(n), s.(
          reports := s.reports[n := report],
          changes := s.changes
            + (if n in s.reports && s.reports[n] == report then multiset{}
               else multiset{PoolChange(n, Some(s.pools[n]), Some(s.pools[n]))}),
          looking := s.looking - {n});
    }
  }

  /** No foreign object has the name of a Pool's route, and passes go by present Pools. */
  ghost predicate Unhindered(s: State) {
    && (forall n :: n in s.pools && n in s.routes ==> Controls(s.routes, n, s.pools[n].uid))
    && (forall n :: n in s.looking ==> n in s.pools && s.looking[n].pool == s.pools[n] && Sound(s.looking[n]))
  }

  lemma SettleStaysUnhindered(s: State, s': State, n: Name)
    requires RouteSettled(s, s', n) && Unhindered(s)
    ensures Unhindered(s') && s'.pools == s.pools
  {
  }

  lemma QuietStaysUnhindered(s: State, e: Event, s': State)
    requires Step(s, e, s') && IsQuiet(s, e) && Unhindered(s)
    ensures Unhindered(s') && s'.pools == s.pools
  {
    if e.Settle? { SettleStaysUnhindered(s, s', e.name); }
  }

  lemma ExtendRun(run: seq<State>, events: seq<Event>, e: Event, s: State)
    requires IsRun(run, events) && Step(run[|events|], e, s)
    ensures IsRun(run + [s], events + [e])
  {
    var longer, more := run + [s], events + [e];
    forall i | 0 <= i < |more| ensures Step(longer[i], more[i], longer[i + 1]) {
      assert i < |events| ==> longer[i] == run[i] && longer[i + 1] == run[i + 1] && more[i] == events[i];
    }
  }

  /** So where no foreign routes are in the way, every run can come to rest without an edit. */
  lemma {:induction false} RestIsReached(run: seq<State>, events: seq<Event>, names: set<Name>)
    returns (longer: seq<State>, more: seq<Event>)
    requires IsRun(run, events) && Unhindered(run[|events|]) && Within(run[|events|], names)
    ensures IsRun(longer, more) && run <= longer && events <= more
    ensures AtRest(longer[|more|]) && longer[|more|].pools == run[|events|].pools
    decreases Work(run[|events|], names)
  {
    var s := run[|events|];
    if AtRest(s) {
      longer, more := run, events;
    } else {
      SomethingInFlight(s);
      var e, s' := QuietGoesOn(s);
      QuietStaysUnhindered(s, e, s');
      QuietWorksOff(s, e, s', names);
      ExtendRun(run, events, e, s');
      longer, more := RestIsReached(run + [s'], events + [e], names);
    }
  }

  lemma SomethingInFlight(s: State)
    requires Unhindered(s) && !AtRest(s)
    ensures s.changes != multiset{}
      || (exists n :: n in s.queue && !StuckOnRoute(s, n)) || (exists n :: n in s.looking && !StuckOnRoute(s, n))
  {
    if s.queue != {} {
      var n :| n in s.queue;
      assert !StuckOnRoute(s, n);
    }
    if s.looking != map[] {
      var n :| n in s.looking;
      assert !StuckOnRoute(s, n);
    }
  }

  /** The sharing happens: a run at rest in which an older terminating Pool holds the
      hostname beside the other one, the oldest live claimant or terminating as well. */
  lemma TerminatingPoolShares(a: Name, p: Pool, b: Name, q: Pool) returns (run: seq<State>, events: seq<Event>)
    requires a != b && p.deleting && p.created < q.created && !p.paused && !q.paused
    requires Requests(p) && Requests(q) && p.route.value.hostname == q.route.value.hostname != ""
    ensures IsRun(run, events) && AtRest(run[|events|])
    ensures Holders(run[|events|], p.route.value.hostname) == {a, b}
    ensures !q.deleting ==> Oldest(run[|events|], b, p.route.value.hostname)
  {
    var hostname := p.route.value.hostname;
    var s0 := State(map[a := p, b := q], map[], map[], map[], multiset{}, {a, b});
    assert s0.pools.Keys == {a, b};
    run, events := RestIsReached([s0], [], {a, b});
    RunsAreCoherent(run, events, |events|);
    var s := run[|events|];
    forall n ensures n in Holders(s, hostname) <==> n in {a, b} {
      HoldersAtRest(s, hostname, n);
    }
  }

  // ---------- the code ----------

  class PoolController {
    var pools: map<Name, Pool>
    var routes: map<Name, TlsRoute>
    var reports: map<Name, Option<Conflict>>
    var looking: map<Name, Look>
    var changes: multiset<Change>
    var queue: set<Name>

    ghost function Snapshot(): State
      reads this
    {
      State(pools, routes, reports, looking, changes, queue)
    }

    /** Reconcile up to the pause check. */
    method BeginReconcile(n: Name)
      requires n in queue && n !in looking
      modifies this`queue, this`looking
      ensures Step(old(Snapshot()), if n !in pools || pools[n].paused then Skip(n) else Begin(n), Snapshot())
    {
      queue := queue - {n};
      if n !in pools || pools[n].paused { return; }
      looking := looking[n := Read(pools[n])];
    }

    /** hostnameOwner, for the Pool as it was read: itself, or the rival no other precedes,
        whatever the listing order. */
    method HostnameOwner(n: Name, p: Pool, listing: seq<Name>) returns (owner: Name)
      requires Requests(p)
      requires forall m :: m in listing <==> m in pools
      ensures owner == n <==> Entitled(pools[n := p], n)
      ensures owner != n ==> Foremost(pools[n := p], n, owner)
      ensures owner != n ==> owner in pools && Earlier(pools[owner].created, owner, p.created, n)
      ensures forall m ::
        (m in pools && m != n && m != owner && !pools[m].deleting && pools[m].route.Some?
         && pools[m].route.value.enabled && pools[m].route.value.hostname == p.route.value.hostname) ==>
          Earlier(if owner == n then p.created else pools[owner].created, owner, pools[m].created, m)
    {
      var all := pools[n := p];
      owner := n;
      for i := 0 to |listing|
        invariant owner in all
        invariant owner != n ==> Rival(all, n, owner) && Precedes(all, owner, n)
        invariant forall k :: 0 <= k < i && Rival(all, n, listing[k]) ==> !Precedes(all, listing[k], owner)
      {
        var other := listing[i];
        assert other in listing;
        if other == n { continue; }
        if pools[other].deleting { continue; }
        if pools[other].route.None? || !pools[other].route.value.enabled { continue; }
        if pools[other].route.value.hostname != p.route.value.hostname { continue; }
        PrecedesTotal(all, other, other);
        if Precedes(all, other, owner) {
          forall k | 0 <= k < i && Rival(all, n, listing[k]) ensures !Precedes(all, listing[k], other) {
            if Precedes(all, listing[k], other) { PrecedesTransitive(all, listing[k], other, owner); }
          }
          if owner != n { PrecedesTransitive(all, other, owner, n); }
          owner := other;
        }
      }
      forall m | Rival(all, n, m) ensures !Precedes(all, m, owner) {
        assert m in listing;
        var k :| 0 <= k < |listing| && listing[k] == m;
      }
      forall m | Rival(all, n, m) && m != owner ensures Precedes(all, owner, m) { PrecedesTotal(all, owner, m); }
      forall m | m in pools && m != n && !pools[m].deleting && Requests(pools[m])
        && pools[m].route.value.hostname == p.route.value.hostname ensures Rival(all, n, m) {}
      if owner != n { PrecedesTotal(all, owner, n); }
    }

    /** The decision on the route. */
    method ChooseRoute(n: Name) returns (d: Decision)
      requires n in looking && looking[n].Read?
      modifies this`looking
      ensures Listed(old(Snapshot()), Snapshot(), n, d)
    {
      var p := looking[n].pool;
      d := NoRoute;
      if p.route.Some? && p.route.value.enabled {
        var listing := AnyOrder(pools.Keys);
        var owner := HostnameOwner(n, p, listing);
        d := if owner == n then Wins else Loses(owner);
      }
      looking := looking[n := Decided(p, d)];
    }

    /** deleteOwnedTLSRoute: a route the Pool does not control is left alone. */
    method DeleteOwnedTlsRoute(n: Name, uid: nat)
      modifies this`routes, this`changes
      ensures n in old(routes) && old(routes)[n].controller == Some(Owner(n, uid)) ==> routes == old(routes) - {n}
      ensures !(n in old(routes) && old(routes)[n].controller == Some(Owner(n, uid))) ==> routes == old(routes)
      ensures changes == old(changes) + OwnRouteChange(n, old(routes), routes)
    {
      if n !in routes { return; }
      if routes[n].controller != Some(Owner(n, uid)) { return; }
      ghost var before := routes;
      routes := routes - {n};
      assert n in before && n !in routes;
      changes := changes + multiset{RouteChange(n)};
    }

    /** reconcileTLSRoute: create or update, refusing to take over a foreign route. */
    method ReconcileTlsRoute(n: Name, p: Pool) returns (ok: bool)
      requires Requests(p)
      modifies this`routes, this`changes
      ensures ok <==> (n in old(routes) ==> old(routes)[n].controller == Some(Owner(n, p.uid)))
      ensures routes == if ok then old(routes)[n := Rendered(n, p)] else old(routes)
      ensures ok ==> routes[n] == TlsRoute(
        Some(Owner(n, p.uid)), p.route.value.gateway, p.route.value.section, p.route.value.hostname, n, routes[n].port)
      ensures ok ==> routes[n].port == if p.servicePort > 0 then p.servicePort else 8140
      ensures changes == old(changes) + OwnRouteChange(n, old(routes), routes)
    {
      if n in routes && routes[n].controller != Some(Owner(n, p.uid)) { return false; }
      if n !in routes || routes[n] != Rendered(n, p) {
        ghost var before := routes;
        routes := routes[n := Rendered(n, p)];
        assert n !in before || before[n] != routes[n];
        changes := changes + multiset{RouteChange(n)};
      } else {
        assert routes == routes[n := Rendered(n, p)];
      }
      return true;
    }

    /** The route write of Reconcile; a foreign route is an error. */
    method SettleRoute(n: Name) returns (ok: bool)
      requires n in looking && looking[n].Decided? && Sound(looking[n])
      modifies this`routes, this`changes, this`looking, this`queue
      ensures ok <==> !Blocked(old(routes), n, old(looking)[n].pool, old(looking)[n].decision)
      ensures Step(old(Snapshot()), if ok then Settle(n) else Fail(n), Snapshot())
    {
      var p, d := looking[n].pool, looking[n].decision;
      ok := true;
      if d == Wins {
        ok := ReconcileTlsRoute(n, p);
      } else {
        DeleteOwnedTlsRoute(n, p.uid);
      }
      if ok {
        looking := looking[n := Reporting(p, d)];
      } else {
        looking, queue := looking - {n}, queue + {n};
      }
    }

    /** The single status update at the end; a Pool that is gone makes it fail. */
    method ReportStatus(n: Name)
      requires n in looking && looking[n].Reporting? && Sound(looking[n])
      modifies this`reports, this`changes, this`looking, this`queue
      ensures Step(old(Snapshot()), if n in pools then Report(n) else Fail(n), Snapshot())
    {
      var p, d := looking[n].pool, looking[n].decision;
      if n !in pools {
        looking, queue := looking - {n}, queue + {n};
        return;
      }
      var report: Option<Conflict> := if d.Loses? then Some(Conflict(p.route.value.hostname, d.owner)) else None;
      if n !in reports || reports[n] != report {
        changes := changes + multiset{PoolChange(n, Some(pools[n]), Some(pools[n]))};
      }
      reports := reports[n := report];
      looking := looking - {n};
    }

    /** poolsSharingHostname, run on the old or the new object of a change. */
    method PoolsSharingHostname(n: Name, changed: Option<Pool>) returns (requests: seq<Name>)
      ensures (set m | m in requests) == Sharing(pools, n, changed)
    {
      requests := [];
      if changed.None? || changed.value.route.None? || changed.value.route.value.hostname == "" { return; }
      var hostname := changed.value.route.value.hostname;
      var listing := AnyOrder(pools.Keys);
      for i := 0 to |listing|
        invariant forall m :: m in requests <==> m in listing[..i] && m in Sharing(pools, n, changed)
      {
        var other := listing[i];
        assert other in listing;
        if other == n { continue; }
        if pools[other].route.None? || pools[other].route.value.hostname != hostname { continue; }
        requests := requests + [other];
      }
      assert listing[..|listing|] == listing;
    }

    /** A change reaches the watches. */
    method DeliverChange(c: Change)
      requires c in changes
      modifies this`changes, this`queue
      ensures Delivered(old(Snapshot()), Snapshot(), c)
    {
      changes := changes - multiset{c};
      match c
      case RouteChange(owner) =>
        queue := queue + {owner};
      case PoolChange(n, before, after) =>
        var forOld := PoolsSharingHostname(n, before);
        var forNew := PoolsSharingHostname(n, after);
        queue := queue + {n} + (set m | m in forOld) + (set m | m in forNew);
    }
  }
}
