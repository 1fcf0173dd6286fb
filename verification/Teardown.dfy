/** Deleting a CertificateAuthority together with its Certificates: the two finalizers,
    the cleanup attempts and the garbage collector,
    internal/controller/certificate_controller.go and certificateauthority_controller.go. */
module Teardown {
  import opened Text

  type Name = string

  const MAX_CLEANUP_ATTEMPTS := 5

  /** `canClean`: an internal CA with a signing Secret. */
  datatype Authority = Authority(deleting: bool, finalizer: bool, canClean: bool)

  /** `refs`: spec.authorityRef names this CA; `owned`: the CA controls the object. */
  datatype Certificate = Certificate(deleting: bool, finalizer: bool, attempts: int, refs: bool, owned: bool)

  /** `checked`: a pass of the CA controller found nothing blocking and is about to
      release the finalizer; `late`: Certificates created, repointed or disowned since then. */
  datatype State = State(ca: Option<Authority>, certs: map<Name, Certificate>, checked: bool, late: set<Name>)

  datatype Event =
    | CertActed(name: Name, cleaned: bool)
    | CertAdopted(name: Name)
    | CaAdopted
    | CaBlocked
    | CaChecked
    | CaReleased
    | Collected(name: Name)
    | CallFailed
    | Created(name: Name, cert: Certificate)
    | Edited(name: Name, refs: bool, owned: bool)
    | Deleted(name: Name)
    | CaDeleted

  // ---------- what the controllers decide ----------

  /** Only a live Certificate the CA does not own may hold the CA back. */
  predicate Blocks(c: Certificate) {
    c.refs && !c.deleting && !c.owned
  }

  predicate Blocked(certs: map<Name, Certificate>) {
    exists n :: n in certs && Blocks(certs[n])
  }

  /** Marked for deletion and kept by the finalizer. */
  predicate Held(ca: Authority) {
    ca.deleting && ca.finalizer
  }

  /** handleCertificateCleanup has nothing to call. */
  predicate SkipsCleanup(s: State, n: Name)
    requires n in s.certs
  {
    s.certs[n].refs && (s.ca.None? || s.ca.value.deleting || !s.ca.value.canClean)
  }

  /** The deletion branch of a Certificate's reconcile, its patches succeeding. */
  function AfterReconcile(s: State, n: Name, cleaned: bool): map<Name, Certificate>
    requires n in s.certs
  {
    var c := s.certs[n];
    if SkipsCleanup(s, n) || cleaned || c.attempts + 1 >= MAX_CLEANUP_ATTEMPTS then s.certs - {n}
    else s.certs[n := c.(attempts := c.attempts + 1)]
  }

  /** The API server removes a marked object that has no finalizer. */
  function Marked(certs: map<Name, Certificate>, n: Name): map<Name, Certificate>
    requires n in certs
  {
    if certs[n].finalizer then certs[n := certs[n].(deleting := true)] else certs - {n}
  }

  predicate Step(s: State, e: Event, s': State) {
    match e
    case CertActed(n, cleaned) =>
      n in s.certs && s.certs[n].deleting && s.certs[n].finalizer && s' == s.(certs := AfterReconcile(s, n, cleaned))
    case CertAdopted(n) =>
      n in s.certs && !s.certs[n].deleting && s' == s.(certs := s.certs[n := s.certs[n].(finalizer := true)])
    case CaAdopted =>
      s.ca.Some? && !s.ca.value.deleting && s' == s.(ca := Some(s.ca.value.(finalizer := true)))
    case CaBlocked =>
      s.ca.Some? && Held(s.ca.value) && Blocked(s.certs) && s' == s.(checked := false)
    case CaChecked =>
      s.ca.Some? && Held(s.ca.value) && !Blocked(s.certs) && s' == s.(checked := true, late := {})
    case CaReleased =>
      s.ca.Some? && s.checked && s' == s.(ca := None, checked := false)
    case Collected(n) =>
      s.ca.None? && n in s.certs && s.certs[n].owned && !s.certs[n].deleting && s' == s.(certs := Marked(s.certs, n))
    case CallFailed =>
      s' == s.(checked := false) || s' == s
    case Created(n, c) =>
      n !in s.certs && !c.deleting && s' == s.(certs := s.certs[n := c], late := s.late + {n})
    case Edited(n, refs, owned) =>
      n in s.certs
      && s' == s.(certs := s.certs[n := s.certs[n].(refs := refs, owned := owned)], late := s.late + {n})
    case Deleted(n) =>
      n in s.certs && s' == s.(certs := Marked(s.certs, n))
    case CaDeleted =>
      s.ca.Some? && s' == s.(ca := if s.ca.value.finalizer then Some(s.ca.value.(deleting := true)) else None)
  }

  ghost predicate IsRun(run: seq<State>, events: seq<Event>) {
    && |run| == |events| + 1
    && forall i :: 0 <= i < |events| ==> Step(run[i], events[i], run[i + 1])
  }

  // ---------- what a finalizer is for ----------

  /** A step takes an object away from its finalizer only in the two releasing branches,
      takes no mark back, and gives no marked object a finalizer. Without a finalizer a
      deleted CA is gone at once. */
  lemma FinalizersHold(s: State, e: Event, s': State)
    requires Step(s, e, s')
    ensures s.ca.Some? && s.ca.value.finalizer && e != CaReleased ==> s'.ca.Some? && s'.ca.value.finalizer
    ensures s.ca.Some? && s'.ca.Some? && s.ca.value.deleting ==>
      s'.ca.value.deleting && (s'.ca.value.finalizer ==> s.ca.value.finalizer)
    ensures e == CaDeleted ==> if s.ca.value.finalizer then s'.ca.Some? && s'.ca.value.deleting else s'.ca.None?
    ensures forall n :: n in s.certs && s.certs[n].finalizer && !(e.CertActed? && e.name == n) ==>
      n in s'.certs && s'.certs[n].finalizer
    ensures forall n :: n in s.certs && n in s'.certs && s.certs[n].deleting ==>
      s'.certs[n].deleting && (s'.certs[n].finalizer ==> s.certs[n].finalizer)
  {
  }

  /** A CA with its finalizer is there until the release, and stays marked once it is. */
  lemma {:induction false} HeldUntilReleased(run: seq<State>, events: seq<Event>, i: nat, j: nat)
    requires IsRun(run, events) && i <= j < |run| && run[i].ca.Some? && run[i].ca.value.finalizer
    requires CaReleased !in events[i..j]
    ensures run[j].ca.Some? && run[j].ca.value.finalizer
    ensures run[i].ca.value.deleting ==> run[j].ca.value.deleting
  {
    if i < j {
      assert events[i..j] == events[i..j - 1] + [events[j - 1]];
      HeldUntilReleased(run, events, i, j - 1);
      FinalizersHold(run[j - 1], events[j - 1], run[j]);
    }
  }

  /** A Certificate with its finalizer is there until its own deletion branch has run. */
  lemma {:induction false} HeldUntilActed(run: seq<State>, events: seq<Event>, i: nat, j: nat, n: Name)
    requires IsRun(run, events) && i <= j < |run| && n in run[i].certs && run[i].certs[n].finalizer
    requires forall e :: e in events[i..j] ==> !(e.CertActed? && e.name == n)
    ensures n in run[j].certs && run[j].certs[n].finalizer
    ensures run[i].certs[n].deleting ==> run[j].certs[n].deleting
  {
    if i < j {
      assert events[i..j] == events[i..j - 1] + [events[j - 1]];
      HeldUntilActed(run, events, i, j - 1, n);
      FinalizersHold(run[j - 1], events[j - 1], run[j]);
    }
  }

  /** Only a CA that was deleted, and that its finalizer keeps, is checked and released. */
  lemma {:induction false} ReleaseWasAsked(run: seq<State>, events: seq<Event>, i: nat)
    requires IsRun(run, events) && i < |run| && !run[0].checked
    ensures run[i].checked ==> run[i].ca.Some? && run[i].ca.value.deleting && run[i].ca.value.finalizer
    ensures i < |events| && events[i] == CaReleased ==>
      run[i].ca.Some? && run[i].ca.value.deleting && run[i].ca.value.finalizer
  {
    if i > 0 {
      ReleaseWasAsked(run, events, i - 1);
      assert Step(run[i - 1], events[i - 1], run[i]);
    }
    if i < |events| { assert Step(run[i], events[i], run[i + 1]); }
  }

  // ---------- safety of the release ----------

  /** What blocks the CA now was not there when the pass looked. */
  predicate OnlyLateBlock(s: State) {
    s.checked ==> forall n :: n in s.certs && Blocks(s.certs[n]) ==> n in s.late
  }

  lemma {:induction false} RunsKeepOnlyLate(run: seq<State>, events: seq<Event>, i: nat)
    requires IsRun(run, events) && i < |run| && !run[0].checked
    ensures OnlyLateBlock(run[i])
  {
    if i > 0 {
      RunsKeepOnlyLate(run, events, i - 1);
      assert Step(run[i - 1], events[i - 1], run[i]);
    }
  }

  /** The finalizer is released while a live, foreign Certificate refers to the CA exactly
      when one was created, pointed at the CA or taken from its ownership after the pass
      listed them. */
  lemma ReleaseIsSafe(run: seq<State>, events: seq<Event>, i: nat)
    requires IsRun(run, events) && i < |events| && !run[0].checked && events[i] == CaReleased
    ensures Blocked(run[i].certs) <==> exists n :: n in run[i].late && n in run[i].certs && Blocks(run[i].certs[n])
  {
    RunsKeepOnlyLate(run, events, i);
    assert Step(run[i], events[i], run[i + 1]);
  }

  /** The window between list and patch is real. */
  lemma LateCertificateIsMissed() returns (run: seq<State>, events: seq<Event>)
    ensures IsRun(run, events) && !run[0].checked
    ensures |events| == 3 && events[2] == CaReleased && Blocked(run[2].certs)
  {
    var c := Certificate(false, false, 0, true, false);
    var s0 := State(Some(Authority(true, true, true)), map[], false, {});
    var s1 := s0.(checked := true);
    var s2 := s1.(certs := map["late" := c], late := {"late"});
    var s3 := s2.(ca := None, checked := false);
    run, events := [s0, s1, s2, s3], [CaChecked, Created("late", c), CaReleased];
    assert Blocks(s2.certs["late"]);
  }

  // ---------- how long one Certificate stays ----------

  function Budget(c: Certificate): nat {
    if c.attempts + 1 >= MAX_CLEANUP_ATTEMPTS then 1 else MAX_CLEANUP_ATTEMPTS - c.attempts
  }

  /** Its own completed reconciles. */
  function OwnActs(events: seq<Event>, n: Name): nat {
    if events == [] then 0
    else OwnActs(events[..|events| - 1], n)
         + if events[|events| - 1].CertActed? && events[|events| - 1].name == n then 1 else 0
  }

  /** A terminating Certificate that is still there has used up less than its budget,
      whatever the CA answers and everyone else does. */
  lemma {:induction false} StaysWithinBudget(run: seq<State>, events: seq<Event>, n: Name)
    requires IsRun(run, events)
    requires forall k :: 0 <= k < |run| ==> n in run[k].certs && run[k].certs[n].deleting
    ensures OwnActs(events, n) + Budget(run[|run| - 1].certs[n]) <= Budget(run[0].certs[n])
  {
    if events != [] {
      var m := |events| - 1;
      StaysWithinBudget(run[..m + 1], events[..m], n);
      assert Step(run[m], events[m], run[m + 1]);
    }
  }

  /** Marked with no attempt spent, it is gone after five reconciles of its own. */
  lemma LeavesWithinFive(run: seq<State>, events: seq<Event>, n: Name)
    requires IsRun(run, events)
    requires n in run[0].certs && run[0].certs[n].attempts >= 0
    requires forall k :: 0 <= k < |run| ==> n in run[k].certs && run[k].certs[n].deleting
    ensures OwnActs(events, n) < 5
  {
    StaysWithinBudget(run, events, n);
  }

  /** The steps between which n is only cleaned in vain: its CA is there to be asked, and
      says no, or the write of the attempt fails. */
  ghost predicate CleanedInVain(run: seq<State>, events: seq<Event>, n: Name) {
    && IsRun(run, events)
    && forall k :: 0 <= k < |events| ==>
         (events[k].CertActed? && events[k].name == n && n in run[k].certs ==>
            !events[k].cleaned
            && (!run[k].certs[n].refs
                || (run[k].ca.Some? && !run[k].ca.value.deleting && run[k].ca.value.canClean)))
  }

  /** The converse: while its cleanup fails, a marked Certificate stays for exactly four
      reconciles of its own, each counted, and the fifth releases it. */
  lemma {:induction false} StaysUntilFifth(run: seq<State>, events: seq<Event>, n: Name)
    requires CleanedInVain(run, events, n) && OwnActs(events, n) <= 4
    requires n in run[0].certs
    requires run[0].certs[n].deleting && run[0].certs[n].finalizer && run[0].certs[n].attempts == 0
    ensures var last := run[|events|].certs;
      n in last && last[n].deleting && last[n].finalizer && last[n].attempts == OwnActs(events, n)
  {
    if events != [] {
      var m := |events| - 1;
      assert CleanedInVain(run[..m + 1], events[..m], n);
      StaysUntilFifth(run[..m + 1], events[..m], n);
      assert Step(run[m], events[m], run[m + 1]);
    }
  }

  lemma FifthReleases(s: State, s': State, n: Name, cleaned: bool)
    requires Step(s, CertActed(n, cleaned), s') && s.certs[n].attempts == 4
    ensures n !in s'.certs
  {
  }

  // ---------- everything goes ----------

  /** The CA is gone or going, and so is every Certificate or its owner. */
  ghost predicate Doomed(s: State) {
    && (s.ca.Some? ==> Held(s.ca.value))
    && (forall n :: n in s.certs ==> s.certs[n].deleting || s.certs[n].owned)
    && (forall n :: n in s.certs && s.certs[n].deleting ==> s.certs[n].finalizer)
  }

  predicate Empty(s: State) {
    s.ca.None? && s.certs == map[]
  }

  predicate ByUser(e: Event) {
    e.Created? || e.Edited? || e.Deleted? || e.CaDeleted?
  }

  function CertWeight(c: Certificate): nat {
    Budget(c) + (if c.deleting then 0 else if c.finalizer then 1 else 2)
  }

  ghost function CertsWeight(certs: map<Name, Certificate>): nat {
    if certs == map[] then 0
    else
      var n :| n in certs;
      CertWeight(certs[n]) + CertsWeight(certs - {n})
  }

  lemma {:induction false} WeightWithout(certs: map<Name, Certificate>, n: Name)
    requires n in certs
    ensures CertsWeight(certs) == CertWeight(certs[n]) + CertsWeight(certs - {n})
    decreases certs
  {
    var m :| m in certs && CertsWeight(certs) == CertWeight(certs[m]) + CertsWeight(certs - {m});
    if m != n {
      WeightWithout(certs - {m}, n);
      WeightWithout(certs - {n}, m);
      assert certs - {m} - {n} == certs - {n} - {m};
    }
  }

  lemma WeightWith(certs: map<Name, Certificate>, n: Name, c: Certificate)
    requires n in certs
    ensures CertsWeight(certs[n := c]) == CertsWeight(certs) - CertWeight(certs[n]) + CertWeight(c)
  {
    WeightWithout(certs, n);
    WeightWithout(certs[n := c], n);
    assert certs[n := c] - {n} == certs - {n};
  }

  ghost function Weight(s: State): nat {
    (if s.ca.Some? then 1 else 0) + CertsWeight(s.certs)
  }

  predicate SameObjects(s: State, s': State) {
    s'.ca == s.ca && s'.certs == s.certs
  }

  /** In a doomed state whatever changes an object lightens the rest. */
  lemma ChangeLightens(s: State, e: Event, s': State)
    requires Doomed(s) && Step(s, e, s') && !ByUser(e)
    ensures Doomed(s')
    ensures SameObjects(s, s') || Weight(s') < Weight(s)
  {
    match e
    case CertActed(n, cleaned) =>
      WeightWithout(s.certs, n);
      WeightWith(s.certs, n, s.certs[n].(attempts := s.certs[n].attempts + 1));
    case CertAdopted(n) =>
      WeightWith(s.certs, n, s.certs[n].(finalizer := true));
      if s.certs[n].finalizer { assert s'.certs == s.certs; }
    case Collected(n) =>
      WeightWithout(s.certs, n);
      WeightWith(s.certs, n, s.certs[n].(deleting := true));
    case _ =>
  }

  predicate Releases(e: Event) {
    e == CaReleased || e == CaBlocked
  }

  predicate Moves(e: Event, n: Name) {
    (e.CertActed? || e.Collected?) && e.name == n
  }

  /** Each controller and the collector finish a pass for what is there at the start. */
  ghost predicate FairRound(run: seq<State>, events: seq<Event>) {
    && IsRun(run, events)
    && (forall k :: 0 <= k < |events| ==> !ByUser(events[k]))
    && (run[0].ca.Some? ==> exists k :: 0 <= k < |events| && Releases(events[k]))
    && (run[0].ca.None? ==> forall n :: n in run[0].certs ==> exists k :: 0 <= k < |events| && Moves(events[k], n))
  }

  lemma {:induction false} LighterOrSame(run: seq<State>, events: seq<Event>, k: nat)
    requires IsRun(run, events) && Doomed(run[0]) && k < |run|
    requires forall j :: 0 <= j < |events| ==> !ByUser(events[j])
    ensures Doomed(run[k])
    ensures SameObjects(run[0], run[k]) || Weight(run[k]) < Weight(run[0])
  {
    if k > 0 {
      LighterOrSame(run, events, k - 1);
      ChangeLightens(run[k - 1], events[k - 1], run[k]);
    }
  }

  /** Finishing a pass for something still there changes an object. */
  lemma UsefulAct(s: State, e: Event, s': State)
    requires Doomed(s) && Step(s, e, s')
    requires if s.ca.Some? then Releases(e) else exists n :: n in s.certs && Moves(e, n)
    ensures !SameObjects(s, s')
  {
  }

  /** There is no deadlock: a round in a state that is not empty makes it lighter. */
  lemma RoundLightens(run: seq<State>, events: seq<Event>)
    requires FairRound(run, events) && Doomed(run[0]) && !Empty(run[0])
    ensures Doomed(run[|run| - 1]) && Weight(run[|run| - 1]) < Weight(run[0])
  {
    var k: nat;
    if run[0].ca.Some? {
      k :| 0 <= k < |events| && Releases(events[k]);
    } else {
      var n :| n in run[0].certs;
      k :| 0 <= k < |events| && Moves(events[k], n);
    }
    LighterOrSame(run, events, k);
    if SameObjects(run[0], run[k]) {
      UsefulAct(run[k], events[k], run[k + 1]);
    }
    ChangeLightens(run[k], events[k], run[k + 1]);
    LightensOn(run, events, k + 1);
  }

  lemma {:induction false} LightensOn(run: seq<State>, events: seq<Event>, k: nat)
    requires IsRun(run, events) && k < |run| && Doomed(run[k])
    requires forall j :: 0 <= j < |events| ==> !ByUser(events[j])
    ensures Doomed(run[|run| - 1]) && Weight(run[|run| - 1]) <= Weight(run[k])
    decreases |run| - k
  {
    if k + 1 < |run| {
      ChangeLightens(run[k], events[k], run[k + 1]);
      LightensOn(run, events, k + 1);
    }
  }

  datatype Round = Round(run: seq<State>, events: seq<Event>)

  ghost predicate FairRounds(rounds: seq<Round>) {
    && (forall i :: 0 <= i < |rounds| ==> FairRound(rounds[i].run, rounds[i].events))
    && (forall i :: 0 <= i < |rounds| - 1 ==> rounds[i + 1].run[0] == rounds[i].run[|rounds[i].run| - 1])
  }

  lemma EmptyWeighsNothing(s: State)
    ensures Weight(s) == 0 <==> Empty(s)
  {
  }

  lemma {:induction false} RoundsLighten(rounds: seq<Round>)
    requires FairRounds(rounds) && rounds != [] && Doomed(rounds[0].run[0])
    ensures var last := rounds[|rounds| - 1].run;
      Doomed(last[|last| - 1]) && Weight(last[|last| - 1]) <= Max(0, Weight(rounds[0].run[0]) - |rounds|)
  {
    var m := |rounds| - 1;
    if m > 0 {
      RoundsLighten(rounds[..m]);
      assert rounds[m - 1 + 1].run[0] == rounds[m - 1].run[|rounds[m - 1].run| - 1];
    }
    var last := rounds[m].run;
    EmptyWeighsNothing(last[0]);
    if Empty(last[0]) {
      LightensOn(last, rounds[m].events, 0);
    } else {
      RoundLightens(last, rounds[m].events);
    }
  }

  function Max(a: int, b: int): int {
    if a >= b then a else b
  }

  /** Any fair schedule empties a doomed state, within as many rounds as it weighs. */
  lemma EverythingGoes(rounds: seq<Round>)
    requires FairRounds(rounds) && rounds != [] && Doomed(rounds[0].run[0])
    requires |rounds| >= Weight(rounds[0].run[0])
    ensures var last := rounds[|rounds| - 1].run; Empty(last[|last| - 1])
  {
    RoundsLighten(rounds);
    var last := rounds[|rounds| - 1].run;
    EmptyWeighsNothing(last[|last| - 1]);
  }

  // ---------- the code ----------

  class TeardownControllers {
    var ca: Option<Authority>
    var certs: map<Name, Certificate>
    ghost var checked: bool
    ghost var late: set<Name>

    ghost function Snapshot(): State
      reads this
    {
      State(ca, certs, checked, late)
    }

    /** handleCertificateCleanup; `answers` is whether the CA's clean endpoint does. */
    method HandleCertificateCleanup(n: Name, answers: bool) returns (ok: bool)
      requires n in certs
      ensures ok <==> SkipsCleanup(Snapshot(), n) || answers
    {
      if certs[n].refs {
        if ca.None? || ca.value.deleting || !ca.value.canClean { return true; }
      }
      return answers;
    }

    /** The deletion branch of the Certificate's Reconcile. */
    method ReconcileDeletion(n: Name, answers: bool, patchFails: bool)
      requires n in certs && certs[n].deleting && certs[n].finalizer
      modifies this`certs
      ensures Step(old(Snapshot()), if patchFails then CallFailed else CertActed(n, answers), Snapshot())
    {
      var ok := HandleCertificateCleanup(n, answers);
      if !ok {
        var attempts := certs[n].attempts + 1;
        if attempts < MAX_CLEANUP_ATTEMPTS {
          if !patchFails { certs := certs[n := certs[n].(attempts := attempts)]; }
          return;
        }
      }
      if !patchFails { certs := certs - {n}; }
    }

    /** The opening of handleDeletion: the sorted names that hold the CA back. */
    method BlockingCertificates(listing: seq<Name>) returns (blocking: seq<Name>)
      requires Distinct(listing) && forall n :: n in listing <==> n in certs && certs[n].refs
      ensures StrictlySorted(blocking)
      ensures Elements(blocking) == set n | n in certs && Blocks(certs[n])
    {
      var names: seq<Name> := [];
      for i := 0 to |listing|
        invariant Distinct(names)
        invariant forall n :: n in names <==> n in listing[..i] && Blocks(certs[n])
      {
        var n := listing[i];
        assert n in listing && n !in listing[..i];
        if certs[n].deleting || certs[n].owned { continue; }
        names := names + [n];
      }
      assert listing[..|listing|] == listing;
      SortDistinct(names);
      blocking := SortStrings(names);
      forall n ensures n in Elements(names) <==> n in certs && Blocks(certs[n]) {
      }
    }

    /** handleDeletion: what it reports, and whether it goes on to the release. */
    method HandleDeletion(listing: seq<Name>) returns (blocking: seq<Name>)
      requires ca.Some? && ca.value.deleting
      requires Distinct(listing) && forall n :: n in listing <==> n in certs && certs[n].refs
      modifies this`checked, this`late
      ensures !ca.value.finalizer ==> blocking == [] && Snapshot() == old(Snapshot())
      ensures ca.value.finalizer ==> StrictlySorted(blocking)
      ensures ca.value.finalizer ==> Elements(blocking) == set n | n in certs && Blocks(certs[n])
      ensures ca.value.finalizer ==>
        Step(old(Snapshot()), if blocking == [] then CaChecked else CaBlocked, Snapshot())
    {
      if !ca.value.finalizer { return []; }
      blocking := BlockingCertificates(listing);
      EmptyElements(blocking);
      if blocking == [] {
        assert forall n :: n in certs && Blocks(certs[n]) ==> n in Elements(blocking);
        checked, late := true, {};
      } else {
        assert blocking[0] in Elements(blocking);
        checked := false;
      }
    }

    /** The patch at the end of handleDeletion. */
    method ReleaseFinalizer(patchFails: bool)
      requires ca.Some? && checked
      modifies this`ca, this`checked
      ensures Step(old(Snapshot()), if patchFails then CallFailed else CaReleased, Snapshot())
    {
      if !patchFails { ca := None; }
      checked := false;
    }
  }
}
