/** Certificates claiming a certname against a CertificateAuthority: the check of
    otherCertificateUsingCertname before signing, internal/controller/certificate_controller.go.
    Other writers act between the check and the submission of the request. */
module Certnames {
  import opened Text

  type Name = string

  datatype Certificate = Certificate(uid: nat, deleting: bool, authority: string, certname: string)

  datatype Claim = Claim(authority: string, certname: string)

  /** A pass that found no rival: the object it read, and what it will submit. */
  datatype Pass = Pass(uid: nat, claim: Claim)

  datatype Submission = Submission(name: Name, pass: Pass)

  datatype State = State(
    certs: map<Name, Certificate>, passes: map<Name, Pass>, submitted: seq<Submission>, born: nat)

  /** The default covers resources written before the field became required. */
  function EffectiveCertname(certname: string): string {
    if certname != "" then certname else "puppet"
  }

  function CertnameOf(c: Certificate): string {
    EffectiveCertname(c.certname)
  }

  function ClaimOf(c: Certificate): Claim {
    Claim(c.authority, CertnameOf(c))
  }

  /** Two Certificates created without a certname collide, with each other and with one
      that says "puppet"; other names are what they say. */
  lemma DefaultCertnameCollides(c: Certificate, d: Certificate)
    ensures CertnameOf(c) == CertnameOf(d) <==>
      c.certname == d.certname || (c.certname in {"", "puppet"} && d.certname in {"", "puppet"})
    ensures CertnameOf(c) == if c.certname == "" then "puppet" else c.certname
  {
  }

  predicate Live(certs: map<Name, Certificate>, n: Name, claim: Claim) {
    n in certs && !certs[n].deleting && ClaimOf(certs[n]) == claim
  }

  predicate Rival(certs: map<Name, Certificate>, n: Name, m: Name)
    requires n in certs
  {
    m != n && Live(certs, m, ClaimOf(certs[n]))
  }

  ghost predicate SoleClaimant(certs: map<Name, Certificate>, n: Name)
    requires n in certs
  {
    forall m :: m in certs ==> !Rival(certs, n, m)
  }

  /** otherCertificateUsingCertname over the index entry of the certname, in whatever
      order it comes: the least rival, or "" when there is none. */
  method OtherCertificateUsingCertname(certs: map<Name, Certificate>, n: Name, listing: seq<Name>)
    returns (other: Name)
    requires n in certs && "" !in certs
    requires forall m :: m in listing <==> m in certs && CertnameOf(certs[m]) == CertnameOf(certs[n])
    ensures other == "" <==> SoleClaimant(certs, n)
    ensures other != "" ==> Rival(certs, n, other)
    ensures other != "" ==> forall m :: m in certs && Rival(certs, n, m) ==> AtMost(other, m)
  {
    var claimants: seq<Name> := [];
    for i := 0 to |listing|
      invariant forall m :: m in claimants <==> m in listing[..i] && Rival(certs, n, m)
    {
      var m := listing[i];
      assert m in listing;
      if m == n || certs[m].deleting || certs[m].authority != certs[n].authority { continue; }
      claimants := claimants + [m];
    }
    assert listing[..|listing|] == listing;
    forall m | m in certs && Rival(certs, n, m) ensures m in claimants {
      assert m in listing;
    }
    if claimants == [] { return ""; }
    var sorted := SortStrings(claimants);
    SameElements(sorted, claimants);
    assert sorted[0] in Elements(claimants);
    forall m | m in claimants ensures AtMost(sorted[0], m) {
      assert m in Elements(sorted);
      var j :| 0 <= j < |sorted| && sorted[j] == m;
    }
    return sorted[0];
  }

  // ---------- the steps ----------

  predicate Created(s: State, s': State, n: Name, c: Certificate) {
    n !in s.certs && c.uid == s.born && s' == s.(certs := s.certs[n := c], born := s.born + 1)
  }

  predicate MarkedDeleting(s: State, s': State, n: Name) {
    n in s.certs && s' == s.(certs := s.certs[n := s.certs[n].(deleting := true)])
  }

  predicate Removed(s: State, s': State, n: Name) {
    s' == s.(certs := s.certs - {n})
  }

  /** The certname is immutable, the authorityRef is not. */
  predicate Repointed(s: State, s': State, n: Name, authority: string) {
    n in s.certs && s' == s.(certs := s.certs[n := s.certs[n].(authority := authority)])
  }

  /** The check passes: the claim goes into the pass. */
  ghost predicate Checked(s: State, s': State, n: Name) {
    && n in s.certs && !s.certs[n].deleting && SoleClaimant(s.certs, n)
    && s' == s.(passes := s.passes[n := Pass(s.certs[n].uid, ClaimOf(s.certs[n]))])
  }

  predicate SubmittedBy(s: State, s': State, n: Name) {
    n in s.passes && s' == s.(submitted := s.submitted + [Submission(n, s.passes[n])])
  }

  /** A pass is over, or the check refused it. */
  predicate Ended(s: State, s': State, n: Name) {
    s' == s.(passes := s.passes - {n})
  }

  ghost predicate Next(s: State, s': State) {
    || (exists n, c :: Created(s, s', n, c))
    || (exists n :: MarkedDeleting(s, s', n))
    || (exists n :: Removed(s, s', n))
    || (exists n, a :: Repointed(s, s', n, a))
    || (exists n :: Checked(s, s', n))
    || (exists n :: SubmittedBy(s, s', n))
    || (exists n :: Ended(s, s', n))
  }

  predicate Init(s: State) {
    s == State(map[], map[], [], 0)
  }

  ghost predicate IsRun(run: seq<State>) {
    && |run| >= 1 && Init(run[0])
    && forall i :: 0 <= i < |run| - 1 ==> Next(run[i], run[i + 1])
  }

  // ---------- the first claimant keeps the name ----------

  predicate MaySubmit(s: State, n: Name, claim: Claim) {
    n in s.passes && s.passes[n].claim == claim
  }

  lemma CheckFailsBesideRival(s: State, s': State, a: Name, b: Name, claim: Claim)
    requires Next(s, s') && a != b && Live(s.certs, a, claim) && !MaySubmit(s, b, claim)
    ensures !MaySubmit(s', b, claim)
  {
  }

  /** While a holds the claim, b, which had not passed the check before, does not. */
  lemma {:induction false} NeverMaySubmit(run: seq<State>, i: nat, j: nat, a: Name, b: Name, claim: Claim)
    requires IsRun(run) && i <= j < |run| && a != b
    requires forall k :: i <= k <= j ==> Live(run[k].certs, a, claim)
    requires !MaySubmit(run[i], b, claim)
    ensures !MaySubmit(run[j], b, claim)
  {
    if i < j {
      NeverMaySubmit(run, i, j - 1, a, b, claim);
      CheckFailsBesideRival(run[j - 1], run[j], a, b, claim);
    }
  }

  /** A Certificate created while another one is live on the same pair never submits as
      long as the first one stays. */
  lemma LaterNeverSubmits(run: seq<State>, i: nat, j: nat, a: Name, b: Name, c: Certificate)
    requires IsRun(run) && i < j < |run| - 1 && a != b
    requires Created(run[i], run[i + 1], b, c) && b !in run[i].passes
    requires forall k :: i < k <= j ==> Live(run[k].certs, a, ClaimOf(c))
    ensures SubmittedBy(run[j], run[j + 1], b) ==> run[j].passes[b].claim != ClaimOf(c)
  {
    NeverMaySubmit(run, i + 1, j, a, b, ClaimOf(c));
  }

  /** Two Certificates that stay live on one pair block each other, and everyone else:
      once the passes under way are over, nobody submits for the pair. */
  lemma TwoClaimantsBlockAll(run: seq<State>, i: nat, j: nat, a: Name, b: Name, n: Name, claim: Claim)
    requires IsRun(run) && i <= j < |run| - 1 && a != b
    requires forall k :: i <= k <= j ==> Live(run[k].certs, a, claim) && Live(run[k].certs, b, claim)
    requires !MaySubmit(run[i], n, claim)
    ensures SubmittedBy(run[j], run[j + 1], n) ==> run[j].passes[n].claim != claim
  {
    NeverMaySubmit(run, i, j, if n == a then b else a, n, claim);
  }

  // ---------- mutual exclusion ----------

  /** A live Certificate whose own pass may still submit its present claim. */
  predicate InFlight(s: State, n: Name, claim: Claim) {
    Live(s.certs, n, claim) && n in s.passes && s.passes[n] == Pass(s.certs[n].uid, claim)
  }

  ghost predicate Exclusive(s: State) {
    forall a, b, claim :: a != b && InFlight(s, a, claim) ==> !InFlight(s, b, claim)
  }

  ghost predicate UidsBelow(s: State) {
    && (forall n :: n in s.certs ==> s.certs[n].uid < s.born)
    && (forall n :: n in s.passes ==> s.passes[n].uid < s.born)
  }

  lemma NextKeepsUids(s: State, s': State)
    requires UidsBelow(s) && Next(s, s')
    ensures UidsBelow(s')
  {
  }

  /** The edit gives n back the very claim its running pass is about to submit. */
  predicate Returns(s: State, n: Name, authority: Name) {
    && n in s.certs && n in s.passes && !s.certs[n].deleting
    && ClaimOf(s.certs[n]) != s.passes[n].claim
    && s.passes[n] == Pass(s.certs[n].uid, ClaimOf(s.certs[n].(authority := authority)))
  }

  ghost predicate HeldByOther(s: State, n: Name, claim: Claim) {
    exists m :: m != n && InFlight(s, m, claim)
  }

  /** Such an edit beside another Certificate that is in flight for the claim; both can
      be looked up before the edit is made. */
  ghost predicate Collides(s: State, s': State) {
    exists n, a :: Repointed(s, s', n, a) && Returns(s, n, a) && HeldByOther(s, n, s.passes[n].claim)
  }

  /** Apart from such edits only a passed check puts a Certificate in flight, and it does
      not pass beside another live claimant. */
  lemma LaunchesAlone(s: State, s': State, n: Name, m: Name, claim: Claim)
    requires UidsBelow(s) && Next(s, s')
    requires n != m && Live(s'.certs, m, claim) && !InFlight(s, n, claim) && InFlight(s', n, claim)
    ensures exists a :: Repointed(s, s', n, a) && Returns(s, n, a) && s.passes[n].claim == claim
  {
    if a :| Repointed(s, s', n, a) {
      assert Returns(s, n, a);
    }
  }

  /** Two in flight after a step that were not before: the step collided. */
  lemma NewPairCollides(s: State, s': State, n: Name, m: Name, claim: Claim)
    requires Exclusive(s) && UidsBelow(s) && Next(s, s') && n != m
    requires InFlight(s', n, claim) && InFlight(s', m, claim) && !InFlight(s, n, claim)
    ensures Collides(s, s')
  {
    LaunchesAlone(s, s', n, m, claim);
    var a :| Repointed(s, s', n, a) && Returns(s, n, a) && s.passes[n].claim == claim;
    assert InFlight(s, m, claim);
  }

  lemma CollisionBreaks(s: State, s': State)
    requires Collides(s, s')
    ensures !Exclusive(s')
  {
    var n, a :| Repointed(s, s', n, a) && Returns(s, n, a) && HeldByOther(s, n, s.passes[n].claim);
    var claim := s.passes[n].claim;
    var m :| m != n && InFlight(s, m, claim);
    assert InFlight(s', n, claim) && InFlight(s', m, claim);
  }

  /** From an exclusive state exclusion is lost exactly by a colliding edit. */
  lemma ExclusionIsLostIff(s: State, s': State)
    requires Exclusive(s) && UidsBelow(s) && Next(s, s')
    ensures !Exclusive(s') <==> Collides(s, s')
  {
    if Collides(s, s') {
      CollisionBreaks(s, s');
    } else {
      forall n, m, claim | n != m && InFlight(s', n, claim) ensures !InFlight(s', m, claim) {
        if InFlight(s', m, claim) {
          if !InFlight(s, n, claim) {
            NewPairCollides(s, s', n, m, claim);
          } else {
            NewPairCollides(s, s', m, n, claim);
          }
        }
      }
    }
  }

  lemma {:induction false} RunsKeepUids(run: seq<State>, i: nat)
    requires IsRun(run) && i < |run|
    ensures UidsBelow(run[i])
  {
    if i > 0 {
      RunsKeepUids(run, i - 1);
      NextKeepsUids(run[i - 1], run[i]);
    }
  }

  ghost predicate ExclusiveUpTo(run: seq<State>, i: nat)
    requires i < |run|
  {
    forall k :: 0 <= k <= i ==> Exclusive(run[k])
  }

  ghost predicate NoCollisionUpTo(run: seq<State>, i: nat)
    requires i < |run|
  {
    forall k :: 0 <= k < i ==> !Collides(run[k], run[k + 1])
  }

  /** Of all live Certificates on one pair at most one is between check and submission,
      at every moment of a run exactly when no authorityRef edit of the run collides. */
  lemma {:induction false} RunsAreExclusiveIff(run: seq<State>, i: nat)
    requires IsRun(run) && i < |run|
    ensures ExclusiveUpTo(run, i) <==> NoCollisionUpTo(run, i)
  {
    if i > 0 {
      RunsAreExclusiveIff(run, i - 1);
      RunsKeepUids(run, i - 1);
      if Exclusive(run[i - 1]) { ExclusionIsLostIff(run[i - 1], run[i]); }
      assert ExclusiveUpTo(run, i) <==> ExclusiveUpTo(run, i - 1) && Exclusive(run[i]);
      assert NoCollisionUpTo(run, i) <==> NoCollisionUpTo(run, i - 1) && !Collides(run[i - 1], run[i - 1 + 1]);
    }
  }

  /** Collisions happen: a reference moved away and back between check and submission
      lets a second Certificate through. */
  lemma MovedAndBackBreaksExclusion() returns (run: seq<State>)
    ensures IsRun(run) && !Exclusive(run[|run| - 1])
  {
    var x, y := Certificate(0, false, "x", "n"), Certificate(1, false, "x", "n");
    var s0 := State(map[], map[], [], 0);
    var s1 := s0.(certs := map["a" := x], born := 1);
    assert Created(s0, s1, "a", x);
    var s2 := s1.(passes := map["a" := Pass(0, Claim("x", "n"))]);
    assert Checked(s1, s2, "a");
    var s3 := s2.(certs := map["a" := x.(authority := "y")]);
    assert Repointed(s2, s3, "a", "y");
    var s4 := s3.(certs := s3.certs["b" := y], born := 2);
    assert Created(s3, s4, "b", y);
    var s5 := s4.(passes := s4.passes["b" := Pass(1, Claim("x", "n"))]);
    assert Checked(s4, s5, "b");
    var s6 := s5.(certs := s5.certs["a" := x]);
    assert Repointed(s5, s6, "a", "x");
    run := [s0, s1, s2, s3, s4, s5, s6];
    assert InFlight(s6, "a", Claim("x", "n")) && InFlight(s6, "b", Claim("x", "n"));
  }

  // ---------- the code ----------

  class CertificateController {
    var certs: map<Name, Certificate>
    var passes: map<Name, Pass>
    var submitted: seq<Submission>
    ghost var born: nat

    ghost function Snapshot(): State
      reads this
    {
      State(certs, passes, submitted, born)
    }

    /** The opening of reconcileCertSigning: go on as the sole claimant, or report the
        conflict and stop. */
    method BeginSigning(n: Name, listing: seq<Name>) returns (conflict: Name)
      requires n in certs && !certs[n].deleting && "" !in certs
      requires forall m :: m in listing <==> m in certs && CertnameOf(certs[m]) == CertnameOf(certs[n])
      modifies this`passes
      ensures conflict == "" ==> Checked(old(Snapshot()), Snapshot(), n)
      ensures conflict != "" ==> Ended(old(Snapshot()), Snapshot(), n) && Rival(certs, n, conflict)
    {
      conflict := OtherCertificateUsingCertname(certs, n, listing);
      if conflict != "" {
        passes := passes - {n};
        return;
      }
      passes := passes[n := Pass(certs[n].uid, ClaimOf(certs[n]))];
    }

    /** submitCSR, with what the pass read. */
    method Submit(n: Name)
      requires n in passes
      modifies this`submitted
      ensures SubmittedBy(old(Snapshot()), Snapshot(), n)
    {
      submitted := submitted + [Submission(n, passes[n])];
    }
  }
}
