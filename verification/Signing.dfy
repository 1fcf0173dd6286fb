/** How one Certificate gets its TLS Secret: the pending key, the CA's answer and the
    renewal, internal/controller/certificate_signing.go and certificate_controller.go.

    A pass of the controller is a row of API calls. Between any two of them anyone else
    may write the Secrets, the CA may sign, Pools may change the derived alt names, and
    the controller may stop. A key or certificate is known by its public half only. */
module Signing {
  import opened Text

  type PublicKey = nat

  datatype KeyPem = NoKey | BadKey | Key(pub: PublicKey, pkcs1: bool)

  /** What a CERTIFICATE block holds; it need not parse. */
  datatype CertPem = Unreadable | Issued(pub: PublicKey, names: seq<string>)

  datatype TlsSecret = TlsSecret(cert: CertPem, key: KeyPem)

  datatype PendingSecret = PendingSecret(key: KeyPem, created: int, attempts: nat)

  datatype Csr = Csr(pub: PublicKey, names: seq<string>)

  /** The CA's entry for the certname. */
  datatype Ca = Ca(request: Option<Csr>, issued: Option<CertPem>)

  datatype Phase = Pending | Requesting | WaitingForSigning | Signed | Renewing | Error

  /** Why signCertificate came back with a zero Result and no error. */
  datatype End = Stored | TimedOut | Mismatched

  /** Where a pass stands, with what it holds in local variables. */
  datatype Pass =
    | Idle
    | Lacking
    | HasKey(key: KeyPem)
    | Submitted
    | Unanswered
    | Answered(cert: CertPem)
    | Adopting(cert: CertPem, key: KeyPem)
    | Written
    | Done(end: End)
    | RenewalSent(key: KeyPem)
    | RenewalAnswered(cert: CertPem, key: KeyPem)
    | RenewalMarked(cert: CertPem, key: KeyPem)

  /** `writes` counts the TLS Secrets the controller stored, `begun` what the count was
      when the pass began. */
  datatype State = State(
    tls: Option<TlsSecret>,
    pending: Option<PendingSecret>,
    ca: Ca,
    names: seq<string>,
    now: int,
    phase: Phase,
    recorded: Option<seq<string>>,
    pass: Pass,
    writes: nat,
    begun: nat)

  const SECOND := 1_000_000_000
  const POLL_TIMEOUT := 24 * 3600 * SECOND
  const WAITING_THRESHOLD := 10

  /** certMatchesKey: None when either side does not parse. */
  function CertMatchesKey(cert: CertPem, key: KeyPem): Option<bool> {
    if cert.Issued? && key.Key? then Some(cert.pub == key.pub) else None
  }

  predicate Matching(t: TlsSecret) {
    CertMatchesKey(t.cert, t.key) == Some(true)
  }

  /** The TLS Secret holds a certificate for the private key beside it. */
  predicate Paired(s: State) {
    s.tls.Some? ==> Matching(s.tls.value)
  }

  // ---------- the controller's API calls ----------

  predicate HoldsKey(s: State) {
    s.pending.Some? && s.pending.value.key != NoKey
  }

  predicate FoundKey(s: State, s': State) {
    s.pass == Idle && HoldsKey(s)
    && s' == s.(pass := HasKey(s.pending.value.key), begun := s.writes)
  }

  predicate FoundNoKey(s: State, s': State) {
    s.pass == Idle && !HoldsKey(s) && s' == s.(pass := Lacking, begun := s.writes)
  }

  /** The generated key is returned whether or not the create took effect. */
  predicate CreatedKey(s: State, s': State, key: KeyPem) {
    && s.pass == Lacking && key.Key? && key.pkcs1
    && s' == s.(
      pass := HasKey(key),
      pending := if s.pending.None? then Some(PendingSecret(key, s.now, 0)) else s.pending)
  }

  /** The CA takes the request, or it holds one already, which it does not replace and
      which counts as submitted. */
  predicate SubmittedCsr(s: State, s': State) {
    && s.pass.HasKey? && s.pass.key.Key? && s.pass.key.pkcs1
    && ((s.ca.request.Some? && s' == s.(pass := Submitted))
      || s' == s.(pass := Submitted, ca := s.ca.(request := Some(Csr(s.pass.key.pub, s.names)))))
  }

  predicate Fetched(s: State, s': State) {
    && (s.pass == Submitted || s.pass == Unanswered)
    && s' == s.(pass := if s.ca.issued.Some? then Answered(s.ca.issued.value) else Unanswered)
  }

  /** signCSRViaAPI: the CA signs the request it holds. */
  predicate OperatorSigned(s: State, s': State) {
    && s.pass == Unanswered && s.ca.request.Some?
    && s' == s.(ca := Ca(None, Some(Issued(s.ca.request.value.pub, s.ca.request.value.names))))
  }

  predicate HasTimedOut(s: State) {
    s.pending.Some? && s.now - s.pending.value.created >= POLL_TIMEOUT
  }

  predicate GaveUpPolling(s: State, s': State) {
    s.pass == Unanswered && HasTimedOut(s) && s' == s.(pass := Done(TimedOut), phase := Error)
  }

  predicate Polled(s: State, s': State) {
    && s.pass == Unanswered && s.pending.Some? && !HasTimedOut(s)
    && var attempts := s.pending.value.attempts + 1;
      s' == s.(
        pass := Idle,
        pending := Some(s.pending.value.(attempts := attempts)),
        phase := if attempts >= WAITING_THRESHOLD then WaitingForSigning else s.phase)
  }

  predicate CheckedKey(s: State, s': State) {
    && s.pass.Answered? && s.pending.Some?
    && var matches := CertMatchesKey(s.pass.cert, s.pending.value.key);
      matches.Some?
      && s' == if matches.value then s.(pass := Adopting(s.pass.cert, s.pending.value.key))
               else s.(pass := Done(Mismatched), phase := Error)
  }

  predicate StoredPair(s: State, s': State) {
    s.pass.Adopting?
    && s' == s.(tls := Some(TlsSecret(s.pass.cert, s.pass.key)), writes := s.writes + 1, pass := Written)
  }

  /** A failing delete is only logged. */
  predicate DeletedPending(s: State, s': State) {
    s.pass == Written
    && (s' == s.(pass := Done(Stored)) || s' == s.(pass := Done(Stored), pending := None))
  }

  predicate MarkedSigned(s: State, s': State) {
    s.pass.Done? && s' == s.(pass := Idle, phase := Signed, recorded := Some(s.names))
  }

  /** A TLS Secret found ready is taken over without signing, unless the phase is Signed. */
  predicate AdoptedSecret(s: State, s': State) {
    s.pass == Idle && s.phase != Signed && s.tls.Some? && s' == s.(phase := Signed, recorded := Some(s.names))
  }

  predicate ReadPair(s: State, s': State) {
    && s.pass == Idle && s.tls.Some? && s.tls.value.key.Key? && s.tls.value.key.pkcs1
    && s' == s.(pass := RenewalSent(s.tls.value.key), begun := s.writes)
  }

  /** The renewal endpoint certifies the key of the request it is sent. */
  predicate RenewalReplied(s: State, s': State, cert: CertPem) {
    && s.pass.RenewalSent? && cert.Issued? && s.pass.key.Key? && cert.pub == s.pass.key.pub
    && s' == s.(pass := RenewalAnswered(cert, s.pass.key))
  }

  predicate RenewalRecorded(s: State, s': State) {
    s.pass.RenewalAnswered?
    && s' == s.(pass := RenewalMarked(s.pass.cert, s.pass.key), phase := Signed, recorded := Some(s.names))
  }

  predicate StoredRenewal(s: State, s': State) {
    s.pass.RenewalMarked?
    && s' == s.(tls := Some(TlsSecret(s.pass.cert, s.pass.key)), writes := s.writes + 1, pass := Idle)
  }

  /** Before a pass and when it fails the phase is written; a stop leaves it as it is. */
  predicate Returned(s: State, s': State) {
    s' == s.(pass := Idle, phase := s'.phase) && (s'.phase == Signed ==> s.phase == Signed)
  }

  predicate PhaseSet(s: State, s': State) {
    s' == s.(phase := Requesting)
  }

  // ---------- everyone else ----------

  /** Others store matching pairs only; all else may become anything. */
  predicate Interfered(s: State, s': State) {
    && s' == s.(tls := s'.tls, pending := s'.pending, ca := s'.ca, names := s'.names, now := s'.now)
    && s.now <= s'.now
    && (s'.tls == s.tls || Paired(s'))
  }

  ghost predicate SigningStep(s: State, s': State) {
    || FoundKey(s, s') || FoundNoKey(s, s') || (exists key :: CreatedKey(s, s', key))
    || SubmittedCsr(s, s') || Fetched(s, s') || OperatorSigned(s, s')
    || GaveUpPolling(s, s') || Polled(s, s')
    || CheckedKey(s, s') || StoredPair(s, s') || DeletedPending(s, s') || MarkedSigned(s, s')
  }

  ghost predicate RenewalStep(s: State, s': State) {
    || ReadPair(s, s') || (exists cert :: RenewalReplied(s, s', cert))
    || RenewalRecorded(s, s') || StoredRenewal(s, s')
  }

  ghost predicate Next(s: State, s': State) {
    SigningStep(s, s') || RenewalStep(s, s') || AdoptedSecret(s, s') || Returned(s, s') || PhaseSet(s, s')
    || Interfered(s, s')
  }

  predicate Init(s: State) {
    Paired(s) && s.pass == Idle && s.phase == Pending
  }

  // ---------- the invariant ----------

  /** What a pass is about to store matches, and it has stored at most once. */
  predicate PassKeeps(s: State) {
    match s.pass
    case Idle => true
    case Adopting(cert, key) => CertMatchesKey(cert, key) == Some(true) && s.writes == s.begun
    case Written => s.writes == s.begun + 1
    case Done(end) => s.writes == if end == Stored then s.begun + 1 else s.begun
    case RenewalSent(key) => key.Key? && s.writes == s.begun
    case RenewalAnswered(cert, key) => CertMatchesKey(cert, key) == Some(true) && s.writes == s.begun
    case RenewalMarked(cert, key) => CertMatchesKey(cert, key) == Some(true) && s.writes == s.begun
    case _ => s.writes == s.begun
  }

  predicate Inv(s: State) {
    Paired(s) && PassKeeps(s)
  }

  lemma SigningKeepsInv(s: State, s': State)
    requires Inv(s) && SigningStep(s, s')
    ensures Inv(s')
  {
  }

  lemma NextKeepsInv(s: State, s': State)
    requires Inv(s) && Next(s, s')
    ensures Inv(s')
  {
    if SigningStep(s, s') {
      SigningKeepsInv(s, s');
    }
  }

  /** The state is a first one, or comes from the one before. */
  ghost predicate Follows(run: seq<State>, i: nat)
    requires i < |run|
  {
    if i == 0 then Init(run[0]) else Next(run[i - 1], run[i])
  }

  ghost predicate IsRun(run: seq<State>) {
    |run| >= 1 && forall i :: 0 <= i < |run| ==> Follows(run, i)
  }

  /** At every moment of every run the TLS Secret is paired. */
  lemma {:induction false} RunsArePaired(run: seq<State>, i: nat)
    requires IsRun(run) && i < |run|
    ensures Inv(run[i])
    ensures run[i].tls.Some? ==> var t := run[i].tls.value; t.cert.Issued? && t.key.Key? && t.cert.pub == t.key.pub
  {
    assert Follows(run, i);
    if i > 0 {
      RunsArePaired(run, i - 1);
      NextKeepsInv(run[i - 1], run[i]);
    }
  }

  /** A pass comes to Submitted only by leaving a request at the CA: the one it held, or the
      one for the pass's key and the names of that moment. */
  lemma SubmissionLeavesRequest(run: seq<State>, i: nat)
    requires IsRun(run) && i + 1 < |run| && run[i].pass != Submitted && run[i + 1].pass == Submitted
    ensures run[i].pass.HasKey? && run[i].pass.key.Key? && run[i + 1].ca.request.Some?
    ensures run[i + 1].ca.request in {run[i].ca.request, Some(Csr(run[i].pass.key.pub, run[i].names))}
  {
    assert Follows(run, i + 1);
  }

  // ---------- what the Signed mark says of the Secret ----------

  predicate PollTimedOut(s: State) {
    s.pass == Unanswered && HasTimedOut(s)
  }

  /** The CA's answer compared with the pending key of this moment. */
  predicate AnswerIsFor(s: State, matches: bool) {
    s.pass.Answered? && s.pending.Some? && CertMatchesKey(s.pass.cert, s.pending.value.key) == Some(matches)
  }

  /** The pass has taken the branch it will end with. */
  predicate Decided(p: Pass) {
    p.Adopting? || p == Written || p.Done?
  }

  predicate DecidedBy(s: State, p: Pass) {
    match p
    case Done(TimedOut) => PollTimedOut(s)
    case Done(Mismatched) => AnswerIsFor(s, false)
    case _ => AnswerIsFor(s, true)
  }

  /** A pass stays with its branch, or takes it now, and then the guard holds. */
  ghost predicate KeepsOrDecides(s: State, s': State) {
    Decided(s'.pass) ==>
      if Decided(s.pass) then (forall d :: DecidedBy(d, s.pass) ==> DecidedBy(d, s'.pass)) else DecidedBy(s, s'.pass)
  }

  lemma DecisionStep(s: State, s': State)
    requires Next(s, s')
    ensures KeepsOrDecides(s, s')
  {
  }

  lemma {:induction false} LastDecision(run: seq<State>, i: nat) returns (j: nat)
    requires i < |run| && !Decided(run[0].pass) && Decided(run[i].pass)
    requires forall k :: 0 <= k < i ==> KeepsOrDecides(run[k], run[k + 1])
    ensures j < i && DecidedBy(run[j], run[i].pass)
    ensures forall k :: j < k <= i ==> Decided(run[k].pass)
  {
    assert KeepsOrDecides(run[i - 1], run[i - 1 + 1]);
    if Decided(run[i - 1].pass) {
      j := LastDecision(run, i - 1);
    } else {
      j := i - 1;
    }
  }

  /** Every decided pass goes back to the moment of its branch, and the guard held then. */
  lemma DecisionOf(run: seq<State>, i: nat) returns (j: nat)
    requires IsRun(run) && i < |run| && Decided(run[i].pass)
    ensures j < i && DecidedBy(run[j], run[i].pass)
    ensures forall k :: j < k <= i ==> Decided(run[k].pass)
  {
    forall k | 0 <= k < i ensures KeepsOrDecides(run[k], run[k + 1]) {
      assert Follows(run, k + 1);
      DecisionStep(run[k], run[k + 1]);
    }
    assert Follows(run, 0);
    j := LastDecision(run, i);
  }

  /** A pass that marks the Certificate Signed has stored a Secret exactly when the CA's
      answer was for the pending key; it has stored nothing exactly when polling had timed
      out or the answer was for another key. */
  lemma SignedMeansStored(run: seq<State>, i: nat) returns (j: nat)
    requires IsRun(run) && i + 1 < |run| && MarkedSigned(run[i], run[i + 1])
    ensures run[i + 1].phase == Signed
    ensures j < i && forall k :: j < k <= i ==> Decided(run[k].pass)
    ensures run[i + 1].writes == run[i].begun + 1 <==> AnswerIsFor(run[j], true)
    ensures run[i + 1].writes == run[i].begun <==> PollTimedOut(run[j]) || AnswerIsFor(run[j], false)
  {
    RunsArePaired(run, i);
    j := DecisionOf(run, i);
  }

  // ---------- what it says of the names ----------

  /** The names recorded for drift detection are those of the stored certificate. */
  predicate Truthful(s: State) {
    s.tls.Some? && s.tls.value.cert.Issued? && s.recorded == Some(s.tls.value.cert.names)
  }

  /** The three writes of the Signed status. */
  predicate Marks(s: State, s': State) {
    MarkedSigned(s, s') || AdoptedSecret(s, s') || RenewalRecorded(s, s')
  }

  predicate CarriesOtherNames(s: State) {
    s.tls.Some? && s.tls.value.cert.Issued? && s.tls.value.cert.names != s.names
  }

  /** No Secret is stored, and nobody changes the Secret or what the names derive from. */
  predicate LeavesSecretAndNames(s: State, s': State) {
    s'.tls == s.tls && s'.names == s.names
  }

  lemma {:induction false} SecretAndNamesStay(run: seq<State>, i: nat, j: nat)
    requires i <= j < |run|
    requires forall k :: i <= k < j ==> LeavesSecretAndNames(run[k], run[k + 1])
    ensures LeavesSecretAndNames(run[i], run[j])
  {
    if i < j {
      SecretAndNamesStay(run, i, j - 1);
      assert LeavesSecretAndNames(run[j - 1], run[j - 1 + 1]);
    }
  }

  /** From a drifted Certificate, until a Secret is stored or somebody changes Secret or
      names, every mark hides the drift: recorded are the new names, stored the old. */
  lemma MarkHidesDrift(run: seq<State>, i: nat, j: nat)
    requires IsRun(run) && i <= j && j + 1 < |run| && CarriesOtherNames(run[i])
    requires forall k :: i <= k <= j ==> LeavesSecretAndNames(run[k], run[k + 1])
    requires Marks(run[j], run[j + 1])
    ensures var s := run[j + 1]; s.phase == Signed && s.recorded == Some(s.names) && !Truthful(s)
  {
    SecretAndNamesStay(run, i, j);
    assert LeavesSecretAndNames(run[j], run[j + 1]);
  }

  lemma {:induction false} SecretStays(run: seq<State>, i: nat, j: nat)
    requires i <= j < |run| && forall k :: i <= k < j ==> run[k + 1].tls == run[k].tls
    ensures run[j].tls == run[i].tls
  {
    if i < j {
      SecretStays(run, i, j - 1);
      assert run[j - 1 + 1].tls == run[j - 1].tls;
    }
  }

  /** In general a mark with no Secret stored since i is right exactly when the certificate
      of i carries the names derived at the mark. */
  lemma UnstoredMarkIsTruthfulIff(run: seq<State>, i: nat, j: nat)
    requires IsRun(run) && i <= j && j + 1 < |run| && Marks(run[j], run[j + 1])
    requires forall k :: i <= k < j ==> run[k + 1].tls == run[k].tls
    ensures Truthful(run[j + 1]) <==>
      run[i].tls.Some? && run[i].tls.value.cert.Issued? && run[i].tls.value.cert.names == run[j].names
  {
    SecretStays(run, i, j);
  }

  // ----- a mark after a stored Secret -----

  /** What the CA's entry holds for one key, requested or issued. */
  function EntriesFor(ca: Ca, p: PublicKey): set<Csr> {
    (if ca.request.Some? && ca.request.value.pub == p then {ca.request.value} else {})
    + (if ca.issued.Some? && ca.issued.value.Issued? && ca.issued.value.pub == p then {Csr(p, ca.issued.value.names)}
       else {})
  }

  /** Others leave the Secret alone, and the CA comes to hold nothing for the key on its
      own: it may sign, forget, and take requests for other keys. */
  predicate KeepsTo(s: State, s': State, p: PublicKey) {
    Interfered(s, s') ==> s'.tls == s.tls && EntriesFor(s'.ca, p) <= EntriesFor(s.ca, p)
  }

  /** The CA holds the request of the pass after it was submitted. */
  predicate Accepts(s: State, s': State, p: PublicKey) {
    SubmittedCsr(s, s') && s.pass.key.pub == p && s'.ca.request == Some(Csr(p, s.names))
  }

  predicate CertKnown(cert: CertPem, p: PublicKey, known: set<Csr>) {
    cert.Issued? && cert.pub == p ==> Csr(p, cert.names) in known
  }

  /** Whatever is on its way into the Secret for the key is among the known requests. */
  predicate Known(s: State, p: PublicKey, known: set<Csr>) {
    && EntriesFor(s.ca, p) <= known
    && match s.pass
      case Answered(cert) => CertKnown(cert, p, known)
      case Adopting(cert, _) => CertKnown(cert, p, known)
      case Written => s.tls.Some? && CertKnown(s.tls.value.cert, p, known)
      case Done(Stored) => s.tls.Some? && CertKnown(s.tls.value.cert, p, known)
      case _ => true
  }

  function WithAccepted(s: State, s': State, p: PublicKey, known: set<Csr>): set<Csr> {
    if Accepts(s, s', p) then known + {Csr(p, s.names)} else known
  }

  lemma SigningKnows(s: State, s': State, p: PublicKey, known: set<Csr>)
    requires SigningStep(s, s') && Known(s, p, known)
    ensures Known(s', p, WithAccepted(s, s', p, known))
  {
  }

  lemma StepKnows(s: State, s': State, p: PublicKey, known: set<Csr>)
    requires Next(s, s') && KeepsTo(s, s', p) && Known(s, p, known)
    ensures Known(s', p, WithAccepted(s, s', p, known))
  {
    if SigningStep(s, s') { SigningKnows(s, s', p, known); }
  }

  predicate KeepsToAt(run: seq<State>, k: nat, p: PublicKey)
    requires k + 1 < |run|
  {
    KeepsTo(run[k], run[k + 1], p)
  }

  predicate KeepsToAll(run: seq<State>, i: nat, j: nat, p: PublicKey) {
    i <= j < |run| && forall k :: i <= k < j ==> KeepsToAt(run, k, p)
  }

  lemma PreviousStep(run: seq<State>, i: nat, j: nat, p: PublicKey)
    requires IsRun(run) && KeepsToAll(run, i, j, p) && i < j
    ensures KeepsToAll(run, i, j - 1, p) && KeepsTo(run[j - 1], run[j], p) && Next(run[j - 1], run[j])
  {
    assert KeepsToAt(run, j - 1, p) && Follows(run, j);
  }

  predicate AcceptsAt(run: seq<State>, k: nat, p: PublicKey)
    requires k + 1 < |run|
  {
    Accepts(run[k], run[k + 1], p)
  }

  /** The requests for the key the CA took over from the controller. */
  function AcceptedBetween(run: seq<State>, i: nat, j: nat, p: PublicKey): set<Csr>
    requires i <= j < |run|
  {
    set k | i <= k < j && AcceptsAt(run, k, p) :: Csr(p, run[k].names)
  }

  lemma AcceptedGrows(run: seq<State>, i: nat, j: nat, p: PublicKey, held: set<Csr>)
    requires i < j < |run|
    ensures WithAccepted(run[j - 1], run[j], p, held + AcceptedBetween(run, i, j - 1, p))
         <= held + AcceptedBetween(run, i, j, p)
  {
    if Accepts(run[j - 1], run[j], p) {
      assert AcceptsAt(run, j - 1, p);
    }
  }

  lemma RunStepKnows(run: seq<State>, i: nat, j: nat, p: PublicKey, held: set<Csr>)
    requires IsRun(run) && KeepsToAll(run, i, j, p) && i < j
    requires Known(run[j - 1], p, held + AcceptedBetween(run, i, j - 1, p))
    ensures Known(run[j], p, held + AcceptedBetween(run, i, j, p))
  {
    PreviousStep(run, i, j, p);
    var known := held + AcceptedBetween(run, i, j - 1, p);
    StepKnows(run[j - 1], run[j], p, known);
    AcceptedGrows(run, i, j, p, held);
    MoreKnown(run[j], p, WithAccepted(run[j - 1], run[j], p, known), held + AcceptedBetween(run, i, j, p));
  }

  lemma {:induction false} RunKnows(run: seq<State>, i: nat, j: nat, p: PublicKey)
    requires IsRun(run) && KeepsToAll(run, i, j, p) && run[i].pass == Idle
    ensures Known(run[j], p, EntriesFor(run[i].ca, p) + AcceptedBetween(run, i, j, p))
  {
    if i < j {
      RunKnows(run, i, j - 1, p);
      RunStepKnows(run, i, j, p, EntriesFor(run[i].ca, p));
    }
  }

  lemma MoreKnown(s: State, p: PublicKey, known: set<Csr>, more: set<Csr>)
    requires Known(s, p, known) && known <= more
    ensures Known(s, p, more)
  {
  }

  /** A pass that stored a Secret for the key is about to be marked. */
  predicate MarksStored(s: State, s': State, p: PublicKey) {
    && MarkedSigned(s, s') && s.writes == s.begun + 1
    && s.tls.Some? && s.tls.value.key.Key? && s.tls.value.key.pub == p
  }

  /** Where the names of a certificate come from: an entry the CA had before, or the step
      at which it accepted a request. */
  datatype Origin = HeldBefore(csr: Csr) | AcceptedAt(step: nat)

  predicate IsOrigin(run: seq<State>, i: nat, j: nat, p: PublicKey, o: Origin)
    requires i <= j < |run|
  {
    match o
    case HeldBefore(csr) => csr in EntriesFor(run[i].ca, p)
    case AcceptedAt(k) => i <= k < j && AcceptsAt(run, k, p)
  }

  function OriginalNames(run: seq<State>, o: Origin): seq<string>
    requires o.AcceptedAt? ==> o.step < |run|
  {
    match o
    case HeldBefore(csr) => csr.names
    case AcceptedAt(k) => run[k].names
  }

  /** The mark after a stored Secret goes back to what the CA held for the key before, or
      to the step at which it accepted the request; it is right exactly when the names
      derived then are those derived at the mark. Names may change at any time. */
  lemma StoredMarkIsTruthfulIff(run: seq<State>, i: nat, j: nat, p: PublicKey) returns (o: Origin)
    requires IsRun(run) && j + 1 < |run| && KeepsToAll(run, i, j, p) && run[i].pass == Idle
    requires MarksStored(run[j], run[j + 1], p)
    ensures IsOrigin(run, i, j, p, o)
    ensures run[j].tls.value.cert == Issued(p, OriginalNames(run, o))
    ensures Truthful(run[j + 1]) <==> OriginalNames(run, o) == run[j].names
  {
    RunsArePaired(run, j);
    RunKnows(run, i, j, p);
    var csr := Csr(p, run[j].tls.value.cert.names);
    if csr in EntriesFor(run[i].ca, p) {
      o := HeldBefore(csr);
    } else {
      var k :| i <= k < j && AcceptsAt(run, k, p) && csr == Csr(p, run[k].names);
      o := AcceptedAt(k);
    }
  }

  /** For a key that is new to the CA it is the step that accepted its request that counts. */
  lemma NewKeyMarkIsTruthfulIff(run: seq<State>, i: nat, j: nat, p: PublicKey) returns (k: nat)
    requires IsRun(run) && j + 1 < |run| && KeepsToAll(run, i, j, p) && run[i].pass == Idle
    requires MarksStored(run[j], run[j + 1], p) && EntriesFor(run[i].ca, p) == {}
    ensures i <= k < j && AcceptsAt(run, k, p)
    ensures Truthful(run[j + 1]) <==> run[k].names == run[j].names
  {
    var o := StoredMarkIsTruthfulIff(run, i, j, p);
    k := o.step;
  }

  /** What is on its way into the Secret for the key carries the present names. */
  predicate Current(s: State, p: PublicKey) {
    Known(s, p, {Csr(p, s.names)})
  }

  /** As long as the names stay, every such step keeps it so. */
  lemma StepKeepsCurrent(s: State, s': State, p: PublicKey)
    requires Next(s, s') && KeepsTo(s, s', p) && s'.names == s.names && Current(s, p)
    ensures Current(s', p)
  {
    StepKnows(s, s', p, {Csr(p, s.names)});
    MoreKnown(s', p, WithAccepted(s, s', p, {Csr(p, s.names)}), {Csr(p, s.names)});
  }

  lemma {:induction false} StaysCurrent(run: seq<State>, i: nat, j: nat, p: PublicKey)
    requires IsRun(run) && KeepsToAll(run, i, j, p) && Current(run[i], p)
    requires forall k :: i <= k <= j ==> run[k].names == run[i].names
    ensures Current(run[j], p)
  {
    if i < j {
      StaysCurrent(run, i, j - 1, p);
      PreviousStep(run, i, j, p);
      StepKeepsCurrent(run[j - 1], run[j], p);
    }
  }

  /** So with steady names a stored Secret is marked rightly if all the CA held for its
      key at the start was for them, whatever it held for other keys. */
  lemma SteadyMarkIsTruthful(run: seq<State>, i: nat, j: nat, p: PublicKey)
    requires IsRun(run) && j + 1 < |run| && KeepsToAll(run, i, j, p) && run[i].pass == Idle
    requires MarksStored(run[j], run[j + 1], p) && EntriesFor(run[i].ca, p) <= {Csr(p, run[i].names)}
    requires forall k :: i <= k <= j ==> run[k].names == run[i].names
    ensures Truthful(run[j + 1])
  {
    RunsArePaired(run, j);
    StaysCurrent(run, i, j, p);
  }

  // ---------- how a drift is hidden ----------

  /** The CA signs what it was asked for, and nothing else. */
  predicate HonestCa(ca: Ca, ca': Ca) {
    ca' == ca || (ca.request.Some? && ca' == Ca(None, Some(Issued(ca.request.value.pub, ca.request.value.names))))
  }

  /** Others touch neither the Secret nor the pending key, and the CA is honest. */
  predicate Calm(s: State, s': State) {
    Interfered(s, s') ==> s'.tls == s.tls && s'.pending == s.pending && HonestCa(s.ca, s'.ca)
  }

  /** A calm run whose names do not change any more from i on. */
  ghost predicate CalmRun(run: seq<State>, i: nat) {
    && IsRun(run) && i < |run|
    && (forall k :: 0 <= k < |run| - 1 ==> Calm(run[k], run[k + 1]))
    && (forall k :: i <= k < |run| ==> run[k].names == run[i].names)
  }

  function Fresh(names: seq<string>, tls: Option<TlsSecret>, issued: Option<CertPem>): State {
    State(tls, None, Ca(None, issued), names, 0, Pending, None, Idle, 0, 0)
  }

  lemma ExtendRun(run: seq<State>, s: State)
    requires IsRun(run) && Next(run[|run| - 1], s)
    ensures IsRun(run + [s])
  {
    var longer := run + [s];
    forall k | 0 <= k < |longer| ensures Follows(longer, k) {
      if k < |run| {
        assert Follows(run, k);
        assert longer[k] == run[k] && (k > 0 ==> longer[k - 1] == run[k - 1]);
      }
    }
  }

  lemma ExtendCalm(run: seq<State>, i: nat, s: State)
    requires CalmRun(run, i) && Next(run[|run| - 1], s) && Calm(run[|run| - 1], s)
    requires s.names == run[|run| - 1].names
    ensures CalmRun(run + [s], i)
  {
    ExtendRun(run, s);
    var longer := run + [s];
    forall k | 0 <= k < |longer| - 1 ensures Calm(longer[k], longer[k + 1]) {
      assert k < |run| - 1 ==> longer[k] == run[k] && longer[k + 1] == run[k + 1];
    }
  }

  predicate NothingPending(s: State) {
    s.pass == Idle && s.pending.None?
  }

  /** A pass up to its submitted request, under a new key. */
  lemma Submits(run: seq<State>, i: nat, key: KeyPem) returns (longer: seq<State>)
    requires CalmRun(run, i) && NothingPending(run[|run| - 1]) && key.Key? && key.pkcs1
    ensures CalmRun(longer, i) && longer[i] == run[i]
    ensures var s := run[|run| - 1];
      longer[|longer| - 1] == s.(
        pass := Submitted, pending := Some(PendingSecret(key, s.now, 0)), begun := s.writes,
        ca := s.ca.(request := Some(Csr(key.pub, s.names))))
  {
    var t := run[|run| - 1].(pass := Lacking, begun := run[|run| - 1].writes);
    ExtendCalm(run, i, t); longer := run + [t];
    var u := t.(pass := HasKey(key), pending := Some(PendingSecret(key, t.now, 0)));
    assert CreatedKey(t, u, key);
    ExtendCalm(longer, i, u); longer := longer + [u];
    var v := u.(pass := Submitted, ca := u.ca.(request := Some(Csr(key.pub, u.names))));
    assert SubmittedCsr(u, v);
    ExtendCalm(longer, i, v); longer := longer + [v];
  }

  /** The pass finds its key again; the CA keeps the request it holds, or takes a new one. */
  lemma Resubmits(run: seq<State>, i: nat) returns (longer: seq<State>)
    requires CalmRun(run, i) && run[|run| - 1].pass == Idle
    requires var s := run[|run| - 1]; s.pending.Some? && s.pending.value.key.Key? && s.pending.value.key.pkcs1
    ensures CalmRun(longer, i) && longer[i] == run[i]
    ensures var s := run[|run| - 1];
      longer[|longer| - 1] == s.(
        pass := Submitted, begun := s.writes,
        ca := if s.ca.request.Some? then s.ca else s.ca.(request := Some(Csr(s.pending.value.key.pub, s.names))))
  {
    var s := run[|run| - 1];
    var t := s.(pass := HasKey(s.pending.value.key), begun := s.writes);
    assert FoundKey(s, t);
    ExtendCalm(run, i, t); longer := run + [t];
    var u := t.(pass := Submitted,
                ca := if t.ca.request.Some? then t.ca else t.ca.(request := Some(Csr(t.pass.key.pub, t.names))));
    assert SubmittedCsr(t, u);
    ExtendCalm(longer, i, u); longer := longer + [u];
  }

  /** Nothing is issued yet, so the operator lets the CA sign what it holds. */
  lemma OperatorSigns(run: seq<State>, i: nat) returns (longer: seq<State>)
    requires CalmRun(run, i) && run[|run| - 1].pass == Submitted
    requires var ca := run[|run| - 1].ca; ca.request.Some? && ca.issued.None?
    ensures CalmRun(longer, i) && longer[i] == run[i]
    ensures var s := run[|run| - 1]; var cert := Issued(s.ca.request.value.pub, s.ca.request.value.names);
      longer[|longer| - 1] == s.(pass := Unanswered, ca := Ca(None, Some(cert)))
  {
    var s := run[|run| - 1];
    var t := s.(pass := Unanswered);
    assert Fetched(s, t);
    ExtendCalm(run, i, t); longer := run + [t];
    var u := t.(ca := Ca(None, Some(Issued(t.ca.request.value.pub, t.ca.request.value.names))));
    assert OperatorSigned(t, u);
    ExtendCalm(longer, i, u); longer := longer + [u];
  }

  /** What the CA serves is for the pending key: it is stored and the pass marked Signed.
      The delete of the pending key fails. */
  lemma StoresAndMarks(run: seq<State>, i: nat) returns (longer: seq<State>)
    requires CalmRun(run, i)
    requires var s := run[|run| - 1];
      (s.pass == Submitted || s.pass == Unanswered) && s.ca.issued.Some? && s.pending.Some?
      && CertMatchesKey(s.ca.issued.value, s.pending.value.key) == Some(true)
    ensures CalmRun(longer, i) && longer[i] == run[i]
    ensures var s := run[|run| - 1];
      longer[|longer| - 1] == s.(
        tls := Some(TlsSecret(s.ca.issued.value, s.pending.value.key)), writes := s.writes + 1,
        pass := Idle, phase := Signed, recorded := Some(s.names))
  {
    var s := run[|run| - 1];
    var cert, key := s.ca.issued.value, s.pending.value.key;
    var t := s.(pass := Answered(cert));
    assert Fetched(s, t);
    ExtendCalm(run, i, t); longer := run + [t];
    var u := t.(pass := Adopting(cert, key));
    assert CheckedKey(t, u);
    ExtendCalm(longer, i, u); longer := longer + [u];
    longer := StoresAdopted(longer, i);
  }

  lemma StoresAdopted(run: seq<State>, i: nat) returns (longer: seq<State>)
    requires CalmRun(run, i) && run[|run| - 1].pass.Adopting?
    ensures CalmRun(longer, i) && longer[i] == run[i]
    ensures var s := run[|run| - 1];
      longer[|longer| - 1] == s.(
        tls := Some(TlsSecret(s.pass.cert, s.pass.key)), writes := s.writes + 1,
        pass := Idle, phase := Signed, recorded := Some(s.names))
  {
    var s := run[|run| - 1];
    var t := s.(tls := Some(TlsSecret(s.pass.cert, s.pass.key)), writes := s.writes + 1, pass := Written);
    assert StoredPair(s, t);
    ExtendCalm(run, i, t); longer := run + [t];
    var u := t.(pass := Done(Stored));
    assert DeletedPending(t, u);
    ExtendCalm(longer, i, u); longer := longer + [u];
    var v := u.(pass := Idle, phase := Signed, recorded := Some(u.names));
    assert MarkedSigned(u, v);
    ExtendCalm(longer, i, v); longer := longer + [v];
  }

  /** A request the CA never signs: after a day the Certificate is Signed all the same. */
  lemma TimesOut(run: seq<State>, i: nat) returns (longer: seq<State>)
    requires CalmRun(run, i) && NothingPending(run[|run| - 1]) && run[|run| - 1].ca.issued.None?
    ensures CalmRun(longer, i) && longer[i] == run[i]
    ensures var s, e := run[|run| - 1], longer[|longer| - 1];
      && e.phase == Signed && e.recorded == Some(e.names) && e.pass == Idle
      && e.names == s.names && e.tls == s.tls && e.writes == s.writes
  {
    longer := Submits(run, i, Key(1, true));
    var t := longer[|longer| - 1];
    var u := t.(now := t.now + POLL_TIMEOUT);
    assert Interfered(t, u);
    ExtendCalm(longer, i, u); longer := longer + [u];
    var v := u.(pass := Unanswered);
    assert Fetched(u, v);
    ExtendCalm(longer, i, v); longer := longer + [v];
    longer := EndsWith(longer, i, TimedOut);
  }

  lemma EndsWith(run: seq<State>, i: nat, end: End) returns (longer: seq<State>)
    requires CalmRun(run, i)
    requires if end == TimedOut then PollTimedOut(run[|run| - 1])
             else end == Mismatched && AnswerIsFor(run[|run| - 1], false)
    ensures CalmRun(longer, i) && longer[i] == run[i]
    ensures var s := run[|run| - 1];
      longer[|longer| - 1] == s.(pass := Idle, phase := Signed, recorded := Some(s.names))
  {
    var s := run[|run| - 1];
    var t := s.(pass := Done(end), phase := Error);
    assert GaveUpPolling(s, t) || CheckedKey(s, t);
    ExtendCalm(run, i, t); longer := run + [t];
    var u := t.(pass := Idle, phase := Signed, recorded := Some(t.names));
    assert MarkedSigned(t, u);
    ExtendCalm(longer, i, u); longer := longer + [u];
  }

  lemma StartCalm(s: State)
    requires Init(s)
    ensures CalmRun([s], 0)
  {
    assert Follows([s], 0);
  }

  /** A run that ends in the polling timeout: Signed, and no Secret was ever stored. */
  lemma TimeoutIsMarkedSigned() returns (run: seq<State>)
    ensures IsRun(run)
    ensures run[|run| - 1].phase == Signed && run[|run| - 1].tls.None? && run[|run| - 1].writes == 0
  {
    StartCalm(Fresh([], None, None));
    run := TimesOut([Fresh([], None, None)], 0);
  }

  /** The derived names become b, between two passes; from here on they stay. */
  lemma Drifts(run: seq<State>, i: nat, b: seq<string>) returns (longer: seq<State>)
    requires CalmRun(run, i)
    ensures longer != [] && CalmRun(longer, |longer| - 1)
    ensures longer[|longer| - 1] == run[|run| - 1].(names := b)
  {
    var s := run[|run| - 1];
    var t := s.(names := b);
    assert Interfered(s, t);
    ExtendRun(run, t);
    longer := run + [t];
    forall k | 0 <= k < |longer| - 1 ensures Calm(longer[k], longer[k + 1]) {
      assert k < |run| - 1 ==> longer[k] == run[k] && longer[k + 1] == run[k + 1];
    }
  }

  /** A Certificate adopted with the names a, whose derived names then became b. */
  function Drifted(a: seq<string>, b: seq<string>, issued: Option<CertPem>): State {
    Fresh(b, Some(TlsSecret(Issued(1, a), Key(1, true))), issued).(phase := Signed, recorded := Some(a))
  }

  lemma DriftedIsReached(a: seq<string>, b: seq<string>, issued: Option<CertPem>) returns (run: seq<State>)
    ensures run != [] && CalmRun(run, |run| - 1) && run[|run| - 1] == Drifted(a, b, issued)
  {
    var s := Fresh(a, Some(TlsSecret(Issued(1, a), Key(1, true))), issued);
    StartCalm(s);
    var t := s.(phase := Signed, recorded := Some(a));
    assert AdoptedSecret(s, t);
    run := [s];
    ExtendCalm(run, 0, t); run := run + [t];
    run := Drifts(run, 0, b);
  }

  /** In a calm run the names drifted at some time before a pass began at i, and at the end
      the new names are recorded over a certificate with others, after so many writes. */
  ghost predicate DriftHidden(run: seq<State>, i: nat, writes: nat) {
    && CalmRun(run, i) && run[i].pass == Idle
    && var s := run[|run| - 1];
      s.phase == Signed && s.recorded == Some(s.names) && !Truthful(s) && s.writes == run[i].writes + writes
  }

  /** While the CA still serves the old certificate the keys differ. */
  lemma MismatchHidesDrift(a: seq<string>, b: seq<string>) returns (run: seq<State>, i: nat)
    requires a != b
    ensures DriftHidden(run, i, 0)
  {
    run := DriftedIsReached(a, b, Some(Issued(1, a)));
    i := |run| - 1;
    run := Submits(run, i, Key(2, true));
    var s := run[|run| - 1];
    var t := s.(pass := Answered(Issued(1, a)));
    assert Fetched(s, t);
    ExtendCalm(run, i, t); run := run + [t];
    run := EndsWith(run, i, Mismatched);
  }

  /** Nobody signs the new request for a day. */
  lemma TimeoutHidesDrift(a: seq<string>, b: seq<string>) returns (run: seq<State>, i: nat)
    requires a != b
    ensures DriftHidden(run, i, 0)
  {
    run := DriftedIsReached(a, b, None);
    i := |run| - 1;
    run := TimesOut(run, i);
  }

  /** The shortest: a pass that only waits has left the phase Signed, and the next one
      finds the old Secret ready and adopts it. */
  lemma AdoptionHidesDrift(a: seq<string>, b: seq<string>) returns (run: seq<State>, i: nat)
    requires a != b
    ensures DriftHidden(run, i, 0)
  {
    run := DriftedIsReached(a, b, Some(Issued(1, a)));
    i := |run| - 1;
    var s := run[|run| - 1];
    var t := s.(phase := Requesting);
    assert PhaseSet(s, t);
    ExtendCalm(run, i, t); run := run + [t];
    var u := t.(phase := Signed, recorded := Some(b));
    assert AdoptedSecret(t, u);
    ExtendCalm(run, i, u); run := run + [u];
  }

  /** The request for the old names still lies at the CA when the names drift; the next
      pass takes it for its own, and what is signed and stored carries the old names. */
  lemma StaleRequestHidesDrift(a: seq<string>, b: seq<string>) returns (run: seq<State>, i: nat)
    requires a != b
    ensures DriftHidden(run, i, 1)
  {
    StartCalm(Fresh(a, None, None));
    run := Submits([Fresh(a, None, None)], 0, Key(1, true));
    run := WaitsOnce(run, 0);
    run := Drifts(run, 0, b);
    i := |run| - 1;
    run := Resubmits(run, i);
    run := OperatorSigns(run, i);
    run := StoresAndMarks(run, i);
  }

  /** A poll without an answer ends the pass. */
  lemma WaitsOnce(run: seq<State>, i: nat) returns (longer: seq<State>)
    requires CalmRun(run, i)
    requires var s := run[|run| - 1];
      s.pass == Submitted && s.ca.issued.None? && s.pending.Some? && !HasTimedOut(s) && s.pending.value.attempts == 0
    ensures CalmRun(longer, i) && longer[i] == run[i]
    ensures var s := run[|run| - 1];
      longer[|longer| - 1] == s.(pass := Idle, pending := Some(s.pending.value.(attempts := 1)))
  {
    var s := run[|run| - 1];
    var t := s.(pass := Unanswered);
    assert Fetched(s, t);
    ExtendCalm(run, i, t); longer := run + [t];
    var u := t.(pass := Idle, pending := Some(t.pending.value.(attempts := 1)));
    assert Polled(t, u);
    ExtendCalm(longer, i, u); longer := longer + [u];
  }

  /** The pending key was not deleted after the first signing; it still matches the old
      certificate, which the CA serves and the next pass stores once more. */
  lemma LeftoverKeyHidesDrift(a: seq<string>, b: seq<string>) returns (run: seq<State>, i: nat)
    requires a != b
    ensures DriftHidden(run, i, 1)
  {
    StartCalm(Fresh(a, None, None));
    run := Submits([Fresh(a, None, None)], 0, Key(1, true));
    run := OperatorSigns(run, 0);
    run := StoresAndMarks(run, 0);
    run := Drifts(run, 0, b);
    i := |run| - 1;
    run := Resubmits(run, i);
    run := StoresAndMarks(run, i);
  }

  // ---------- the code ----------

  /** What signCertificate returns; each end is a zero Result to its caller. */
  datatype Outcome = Failed | Requeue | Ended(end: End)

  datatype Answer = NotSubmitted | FetchError | NotYet | Got(cert: CertPem)

  /** Which calls of a pass fail: the create of the pending key, the submission, the two
      fetches, the signing by the operator, the count of polls, the store, the delete. */
  datatype Env = Env(
    createFails: bool, rejected: bool, fetchFails: bool, signFails: bool, refetchFails: bool, updateFails: bool,
    storeFails: bool, deleteFails: bool)

  /** There is a key that can be used, or one can be stored, and the CA accepts. */
  predicate CanSubmit(s: State, env: Env) {
    && !env.rejected
    && if s.pending.Some? && s.pending.value.key != NoKey
       then s.pending.value.key.Key? && s.pending.value.key.pkcs1
       else !env.createFails
  }

  /** What comes of a certificate beside the pending key: an error without a readable pair,
      the mismatch for another key, and the store for this one. */
  function AdoptionOf(pending: Option<PendingSecret>, cert: CertPem, env: Env): Outcome {
    if pending.None? || !cert.Issued? || !pending.value.key.Key? then Failed
    else if cert.pub != pending.value.key.pub then Ended(Mismatched)
    else if env.storeFails then Failed
    else Ended(Stored)
  }

  /** A Secret whose key can be read. */
  predicate CanRenew(tls: Option<TlsSecret>) {
    tls.Some? && tls.value.key.Key? && tls.value.key.pkcs1
  }

  class CertificateSigner {
    var tls: Option<TlsSecret>
    var pending: Option<PendingSecret>
    var ca: Ca
    var names: seq<string>
    var now: int
    var phase: Phase
    var recorded: Option<seq<string>>
    ghost var pass: Pass
    ghost var writes: nat
    ghost var begun: nat
    ghost var history: seq<State>
    ghost var asked: nat  // requests to sign that the operator has sent

    ghost function Snapshot(): State
      reads this
    {
      State(tls, pending, ca, names, now, phase, recorded, pass, writes, begun)
    }

    /** The states so far form a run of the machine above that has come to here. */
    ghost predicate Valid()
      reads this
    {
      IsRun(history) && history[|history| - 1] == Snapshot()
    }

    /** And it is a continuation of the run given. */
    ghost predicate Continues(earlier: seq<State>)
      reads this
    {
      Valid() && earlier <= history
    }

    ghost method Log()
      requires IsRun(history) && Next(history[|history| - 1], Snapshot())
      modifies this`history
      ensures Continues(old(history)) && history == old(history) + [Snapshot()]
    {
      ExtendRun(history, Snapshot());
      history := history + [Snapshot()];
    }

    /** Everyone else, between two API calls. */
    method Interfere()
      requires Valid()
      modifies this`tls, this`pending, this`ca, this`names, this`now, this`history
      ensures Continues(old(history)) && history == old(history) + [Snapshot()]
    {
      ghost var before := Snapshot();
      var removed: bool := *;
      var secret: TlsSecret := *;
      if removed {
        tls := None;
      } else if Matching(secret) {
        tls := Some(secret);
      }
      pending := *;
      ca := *;
      names := *;
      var elapsed: int := *;
      if elapsed > 0 { now := now + elapsed; }
      assert Interfered(before, Snapshot());
      Log();
    }

    /** The lookup that opens ensurePendingKey. */
    method FindPendingKey() returns (found: bool)
      requires Valid() && pass == Idle
      modifies this`pass, this`begun, this`history
      ensures Continues(old(history)) && (found <==> HoldsKey(old(Snapshot())))
      ensures if found then FoundKey(old(Snapshot()), Snapshot()) else FoundNoKey(old(Snapshot()), Snapshot())
    {
      begun := writes;
      found := pending.Some? && pending.value.key != NoKey;
      pass := if found then HasKey(pending.value.key) else Lacking;
      Log();
    }

    /** ensurePendingKey; None when there is no key and none can be stored. */
    method EnsurePendingKey(fails: bool) returns (key: Option<KeyPem>)
      requires Valid() && pass == Idle
      modifies this
      ensures Continues(old(history)) && writes == begun == old(writes) && phase == old(phase)
      ensures asked == old(asked)
      ensures key.None? <==> !HoldsKey(old(Snapshot())) && fails
      ensures key.Some? ==> pass == HasKey(key.value)
      ensures HoldsKey(old(Snapshot())) ==> key == Some(old(pending).value.key) && pending == old(pending)
      ensures !HoldsKey(old(Snapshot())) && key.Some? ==>
        key.value.Key? && key.value.pkcs1
        && |history| >= 2 && CreatedKey(history[|history| - 2], Snapshot(), key.value)
    {
      var found := FindPendingKey();
      if found { return Some(pending.value.key); }
      Interfere();
      if fails { return None; }
      var generated: PublicKey := *;
      CreatePending(Key(generated, true));
      return Some(Key(generated, true));
    }

    /** The create, whose AlreadyExists is not an error. */
    method CreatePending(key: KeyPem)
      requires Valid() && pass == Lacking && key.Key? && key.pkcs1
      modifies this`pending, this`pass, this`history
      ensures Continues(old(history)) && CreatedKey(old(Snapshot()), Snapshot(), key)
      ensures history == old(history) + [Snapshot()]
    {
      ghost var before := Snapshot();
      if pending.None? { pending := Some(PendingSecret(key, now, 0)); }
      pass := HasKey(key);
      assert CreatedKey(before, Snapshot(), key);
      Log();
    }

    /** submitCSR from the key on. A CA that holds a request may keep it. */
    method SubmitCsr(key: KeyPem, rejected: bool) returns (ok: bool)
      requires Valid() && pass == HasKey(key)
      modifies this`ca, this`pass, this`history
      ensures Continues(old(history)) && (ok <==> key.Key? && key.pkcs1 && !rejected)
      ensures ok ==> SubmittedCsr(old(Snapshot()), Snapshot()) && pass == Submitted
      ensures ok ==> ca.request.Some? && ca.issued == old(ca).issued
      ensures ok && old(ca).request.None? ==> ca.request == Some(Csr(key.pub, names))
      ensures ok && ca.request != old(ca).request ==> ca.request == Some(Csr(key.pub, names))
      ensures !ok ==> Snapshot() == old(Snapshot())
    {
      if !key.Key? || !key.pkcs1 { return false; }
      if rejected { return false; }
      ghost var before := Snapshot();
      var alreadyHeld: bool := *;
      if ca.request.None? || !alreadyHeld { ca := ca.(request := Some(Csr(key.pub, names))); }
      pass := Submitted;
      assert SubmittedCsr(before, Snapshot());
      Log();
      return true;
    }

    method FetchSignedCert(fails: bool) returns (answer: Answer)
      requires Valid() && (pass == Submitted || pass == Unanswered)
      modifies this`pass, this`history
      ensures Continues(old(history))
      ensures answer == if fails then FetchError else if ca.issued.Some? then Got(ca.issued.value) else NotYet
      ensures pass == match answer
        case Got(cert) => Answered(cert)
        case NotYet => Unanswered
        case _ => old(pass)
    {
      if fails { return FetchError; }
      ghost var before := Snapshot();
      answer := if ca.issued.Some? then Got(ca.issued.value) else NotYet;
      pass := if ca.issued.Some? then Answered(ca.issued.value) else Unanswered;
      assert Fetched(before, Snapshot());
      Log();
    }

    /** signCSRViaAPI. */
    method OperatorSign(fails: bool) returns (ok: bool)
      requires Valid() && pass == Unanswered
      modifies this`ca, this`asked, this`history
      ensures Continues(old(history)) && (ok <==> !fails && old(ca).request.Some?)
      ensures asked == old(asked) + 1
      ensures ok ==> OperatorSigned(old(Snapshot()), Snapshot()) && history == old(history) + [Snapshot()]
      ensures !ok ==> Snapshot() == old(Snapshot()) && history == old(history)
    {
      asked := asked + 1;
      if fails || ca.request.None? { return false; }
      CaSigns();
      return true;
    }

    method CaSigns()
      requires Valid() && pass == Unanswered && ca.request.Some?
      modifies this`ca, this`history
      ensures Continues(old(history)) && history == old(history) + [Snapshot()]
      ensures OperatorSigned(old(Snapshot()), Snapshot())
    {
      ghost var before := Snapshot();
      ca := Ca(None, Some(Issued(ca.request.value.pub, ca.request.value.names)));
      assert OperatorSigned(before, Snapshot());
      Log();
    }

    /** The operator has let the CA sign since, or there was nothing to sign. */
    ghost predicate AskedToSign(from: nat)
      reads this
    {
      exists k :: from <= k < |history| && history[k].pass == Unanswered
        && (history[k].ca.request.None? || (k + 1 < |history| && OperatorSigned(history[k], history[k + 1])))
    }

    /** signCSRViaAPI and the fetch after it. */
    method SignAndFetch(signFails: bool, fetchFails: bool) returns (cert: Option<CertPem>)
      requires Valid() && pass == Unanswered
      modifies this`tls, this`pending, this`ca, this`names, this`now, this`pass, this`asked, this`history
      ensures Continues(old(history)) && pass == if cert.Some? then Answered(cert.value) else Unanswered
      ensures asked == old(asked) + 1
      ensures !signFails ==> AskedToSign(|old(history)| - 1)
      ensures signFails || fetchFails || old(ca).request.None? ==> cert == None
      ensures !signFails && !fetchFails && old(ca).request.Some? ==> cert == ca.issued
    {
      var ok := OperatorSign(signFails);
      if !ok {
        assert !signFails ==> history[|old(history)| - 1].ca.request.None?;
        return None;
      }
      assert OperatorSigned(history[|old(history)| - 1], history[|old(history)| - 1 + 1]);
      ghost var signed := history;
      Interfere();
      assert history[|old(history)| - 1] == signed[|old(history)| - 1];
      assert history[|old(history)| - 1 + 1] == signed[|old(history)| - 1 + 1];
      var answer := FetchSignedCert(fetchFails);
      assert OperatorSigned(history[|old(history)| - 1], history[|old(history)| - 1 + 1]);
      return if answer.Got? then Some(answer.cert) else None;
    }

    /** The polling timeout: reported, and not retried. */
    method GiveUpPolling()
      requires Valid() && pass == Unanswered && HasTimedOut(Snapshot())
      modifies this`phase, this`pass, this`history
      ensures Continues(old(history)) && GaveUpPolling(old(Snapshot()), Snapshot())
    {
      phase := Error;
      pass := Done(TimedOut);
      Log();
    }

    /** One more attempt on the pending Secret's annotation. */
    method CountPoll()
      requires Valid() && pass == Unanswered && pending.Some? && !HasTimedOut(Snapshot())
      modifies this`pending, this`phase, this`pass, this`history
      ensures Continues(old(history)) && history == old(history) + [Snapshot()]
      ensures Polled(old(Snapshot()), Snapshot())
    {
      var attempts := pending.value.attempts + 1;
      pending := Some(pending.value.(attempts := attempts));
      if attempts >= WAITING_THRESHOLD { phase := WaitingForSigning; }
      pass := Idle;
      Log();
    }

    /** The branch of signCertificate without a certificate. */
    method Poll(updateFails: bool) returns (r: Outcome)
      requires Valid() && pass == Unanswered
      modifies this`pending, this`phase, this`pass, this`history
      ensures Continues(old(history))
      ensures r.Ended? <==> old(pending).Some? && old(now) - old(pending).value.created >= 86_400_000_000_000
      ensures r == Failed <==> old(pending).None? || (updateFails && !r.Ended?)
      ensures r == Failed ==> Snapshot() == old(Snapshot())
      ensures r.Ended? ==> r == Ended(TimedOut) && GaveUpPolling(old(Snapshot()), Snapshot())
      ensures r == Requeue ==> Polled(old(Snapshot()), Snapshot()) && history == old(history) + [Snapshot()]
      ensures r == Requeue ==> pending == Some(old(pending).value.(attempts := old(pending).value.attempts + 1))
      ensures r == Requeue ==> phase == if pending.value.attempts >= 10 then WaitingForSigning else old(phase)
    {
      if pending.None? { return Failed; }
      if now - pending.value.created >= POLL_TIMEOUT {
        GiveUpPolling();
        return Ended(TimedOut);
      }
      if updateFails { return Failed; }
      CountPoll();
      return Requeue;
    }

    /** The branch of signCertificate with a certificate, up to the comparison. */
    method CheckKey(cert: CertPem) returns (key: KeyPem, r: Outcome)
      requires Valid() && pass == Answered(cert)
      modifies this`phase, this`pass, this`history
      ensures Continues(old(history))
      ensures r == Failed <==> old(pending).None? || !cert.Issued? || !old(pending).value.key.Key?
      ensures r.Ended? <==>
        old(pending).Some? && cert.Issued? && old(pending).value.key.Key? && cert.pub != old(pending).value.key.pub
      ensures r == Requeue ==> pass == Adopting(cert, key) && key == old(pending).value.key
      ensures !r.Ended? ==> phase == old(phase)
      ensures r.Ended? ==> r == Ended(Mismatched) && pass == Done(Mismatched) && phase == Error
    {
      key := NoKey;
      if pending.None? { return key, Failed; }
      key := pending.value.key;
      var matches := CertMatchesKey(cert, key);
      if matches.None? { return key, Failed; }
      ghost var before := Snapshot();
      if !matches.value {
        phase := Error;
        pass := Done(Mismatched);
        assert CheckedKey(before, Snapshot());
        Log();
        return key, Ended(Mismatched);
      }
      pass := Adopting(cert, key);
      assert CheckedKey(before, Snapshot());
      Log();
      return key, Requeue;
    }

    /** createOrUpdateTLSSecret: data and owner in one write, refused on a foreign Secret. */
    method StorePair(cert: CertPem, key: KeyPem, fails: bool) returns (ok: bool)
      requires Valid() && pass == Adopting(cert, key)
      modifies this`tls, this`writes, this`pass, this`history
      ensures Continues(old(history)) && ok == !fails
      ensures ok ==> tls == Some(TlsSecret(cert, key)) && writes == old(writes) + 1 && pass == Written
      ensures !ok ==> tls == old(tls) && writes == old(writes)
    {
      if fails { return false; }
      WritePair(cert, key);
      return true;
    }

    method WritePair(cert: CertPem, key: KeyPem)
      requires Valid() && pass == Adopting(cert, key)
      modifies this`tls, this`writes, this`pass, this`history
      ensures Continues(old(history))
      ensures tls == Some(TlsSecret(cert, key)) && writes == old(writes) + 1 && pass == Written
    {
      PutPair(cert, key);
      Log();
    }

    method PutPair(cert: CertPem, key: KeyPem)
      requires pass == Adopting(cert, key)
      modifies this`tls, this`writes, this`pass
      ensures StoredPair(old(Snapshot()), Snapshot())
    {
      tls, writes, pass := Some(TlsSecret(cert, key)), writes + 1, Written;
    }

    /** A failing delete is only logged. */
    method DeletePending(fails: bool)
      requires Valid() && pass == Written
      modifies this`pending, this`pass, this`history
      ensures Continues(old(history)) && pass == Done(Stored)
      ensures pending == if fails then old(pending) else None
    {
      ghost var before := Snapshot();
      if !fails { pending := None; }
      pass := Done(Stored);
      assert DeletedPending(before, Snapshot());
      Log();
    }

    /** Step 1 of signCertificate. */
    method EnsureSubmitted(env: Env) returns (ok: bool)
      requires Valid() && pass == Idle
      modifies this
      ensures Continues(old(history)) && writes == begun == old(writes) && phase == old(phase)
      ensures asked == old(asked)
      ensures ok <==> CanSubmit(old(Snapshot()), env)
      ensures ok ==> pass == Submitted && ca.request.Some?
    {
      var key := EnsurePendingKey(env.createFails);
      if key.None? { return false; }
      Interfere();
      ok := SubmitCsr(key.value, env.rejected);
    }

    /** signCertificate up to the certificate or its absence: an internal CA that has not
        signed yet is asked to. */
    method ObtainCert(internalCa: bool, env: Env) returns (answer: Answer)
      requires Valid() && pass == Idle
      modifies this
      ensures Continues(old(history)) && writes == begun == old(writes) && phase == old(phase)
      ensures asked <= old(asked) + (if internalCa then 1 else 0)
      ensures answer == NotSubmitted <==> !CanSubmit(old(Snapshot()), env)
      ensures answer == FetchError <==> CanSubmit(old(Snapshot()), env) && env.fetchFails
      ensures answer == NotYet ==> pass == Unanswered
      ensures answer == NotYet && internalCa && !env.signFails ==> AskedToSign(|old(history)|)
      ensures answer == NotYet && internalCa ==> asked == old(asked) + 1
      ensures answer.Got? ==> pass == Answered(answer.cert)
    {
      var ok := EnsureSubmitted(env);
      if !ok { return NotSubmitted; }
      Interfere();
      answer := FetchSignedCert(env.fetchFails);
      if answer == NotYet && internalCa {
        answer := AskToSign(env);
      }
    }

    method AskToSign(env: Env) returns (answer: Answer)
      requires Valid() && pass == Unanswered
      modifies this`tls, this`pending, this`ca, this`names, this`now, this`pass, this`asked, this`history
      ensures Continues(old(history)) && (answer == NotYet || answer.Got?)
      ensures asked == old(asked) + 1
      ensures answer == NotYet ==> pass == Unanswered
      ensures !env.signFails ==> AskedToSign(|old(history)|)
      ensures answer.Got? ==> pass == Answered(answer.cert)
    {
      Interfere();
      var cert := SignAndFetch(env.signFails, env.refetchFails);
      answer := if cert.Some? then Got(cert.value) else NotYet;
    }

    /** Step 3 of signCertificate. */
    method Adopt(cert: CertPem, env: Env) returns (r: Outcome)
      requires Valid() && pass == Answered(cert) && phase != Signed
      modifies this
      ensures Continues(old(history))
      ensures asked == old(asked)
      ensures r.Ended? ==> pass == Done(r.end)
      ensures r == AdoptionOf(old(pending), cert, env)
      ensures !r.Ended? ==> phase != Signed
      ensures writes == old(writes) + if r == Ended(Stored) then 1 else 0
    {
      var key;
      key, r := CheckKey(cert);
      if r != Requeue { return; }
      r := StoreAndClean(cert, key, env);
    }

    method StoreAndClean(cert: CertPem, key: KeyPem, env: Env) returns (r: Outcome)
      requires Valid() && pass == Adopting(cert, key)
      modifies this
      ensures Continues(old(history)) && phase == old(phase)
      ensures asked == old(asked)
      ensures r == if env.storeFails then Failed else Ended(Stored)
      ensures if r == Ended(Stored) then pass == Done(Stored) && writes == old(writes) + 1 else writes == old(writes)
      ensures r == Ended(Stored) && !env.deleteFails ==> pending == None
    {
      Interfere();
      var ok := StorePair(cert, key, env.storeFails);
      if !ok { return Failed; }
      Interfere();
      DeletePending(env.deleteFails);
      r := Ended(Stored);
    }

    /** signCertificate: a Secret is stored in exactly those passes that end Stored. Also
        returned is what the CA answered, which settles what comes of it. */
    method SignCertificate(internalCa: bool, env: Env) returns (r: Outcome, answer: Answer)
      requires Valid() && pass == Idle && phase != Signed
      modifies this
      ensures Continues(old(history))
      ensures asked <= old(asked) + (if internalCa then 1 else 0)
      ensures r.Ended? ==> pass == Done(r.end)
      ensures r == Requeue ==> pass == Idle
      ensures !r.Ended? ==> phase != Signed
      ensures writes == old(writes) + if r == Ended(Stored) then 1 else 0
      ensures answer == NotSubmitted <==> !CanSubmit(old(Snapshot()), env)
      ensures answer == FetchError <==> CanSubmit(old(Snapshot()), env) && env.fetchFails
      ensures answer == NotYet && internalCa && !env.signFails ==> AskedToSign(|old(history)|)
      ensures answer == NotYet && internalCa ==> asked == old(asked) + 1
      ensures answer == NotSubmitted ==> r == Failed
      ensures answer == FetchError ==> r == Requeue && phase == old(phase)
      ensures answer == NotYet ==> r in {Failed, Requeue, Ended(TimedOut)}
      ensures answer == NotYet && r == Failed ==> env.updateFails || pending.None?
      ensures answer == NotYet && r == Requeue ==> |history| >= 2 && Polled(history[|history| - 2], Snapshot())
      ensures answer.Got? ==>
        exists k :: |old(history)| <= k < |history| && r == AdoptionOf(history[k].pending, answer.cert, env)
    {
      answer := ObtainCert(internalCa, env);
      match answer
      case NotSubmitted =>
        r := Failed;
      case FetchError =>
        EndPass();
        r := Requeue;
      case NotYet =>
        r := PollOnce(env);
      case Got(cert) =>
        r := AdoptOnce(cert, env, |old(history)|);
    }

    method PollOnce(env: Env) returns (r: Outcome)
      requires Valid() && pass == Unanswered && phase != Signed
      modifies this
      ensures Continues(old(history)) && writes == old(writes) && phase != Signed
      ensures asked == old(asked)
      ensures r in {Failed, Requeue, Ended(TimedOut)}
      ensures r.Ended? ==> pass == Done(r.end)
      ensures r == Failed ==> env.updateFails || pending.None?
      ensures r == Requeue ==> pass == Idle && |history| >= 2 && Polled(history[|history| - 2], Snapshot())
    {
      Interfere();
      r := Poll(env.updateFails);
    }

    method AdoptOnce(cert: CertPem, env: Env, ghost from: nat) returns (r: Outcome)
      requires Valid() && pass == Answered(cert) && phase != Signed && from <= |history|
      modifies this
      ensures Continues(old(history)) && r != Requeue
      ensures asked == old(asked)
      ensures r.Ended? ==> pass == Done(r.end)
      ensures !r.Ended? ==> phase != Signed
      ensures writes == old(writes) + if r == Ended(Stored) then 1 else 0
      ensures exists k :: from <= k < |history| && r == AdoptionOf(history[k].pending, cert, env)
    {
      Interfere();
      ghost var k := |history| - 1;
      assert history[k].pending == pending;
      ghost var before := history;
      r := Adopt(cert, env);
      assert history[k] == before[k];
    }

    method SetRequesting()
      requires Valid()
      modifies this`phase, this`history
      ensures Continues(old(history)) && phase == Requesting
    {
      ghost var before := Snapshot();
      phase := Requesting;
      assert PhaseSet(before, Snapshot());
      Log();
    }

    /** A pass that failed, with the phase that says so. */
    method FailPass(p: Phase)
      requires Valid() && p != Signed
      modifies this`phase, this`pass, this`history
      ensures Continues(old(history)) && phase == p && pass == Idle
    {
      ghost var before := Snapshot();
      phase := p;
      pass := Idle;
      assert Returned(before, Snapshot());
      Log();
    }

    /** A pass that will be repeated and reports nothing. */
    method EndPass()
      requires Valid()
      modifies this`pass, this`history
      ensures Continues(old(history)) && pass == Idle
    {
      ghost var before := Snapshot();
      pass := Idle;
      assert Returned(before, Snapshot());
      Log();
    }

    method MarkSigned()
      requires Valid() && pass.Done?
      modifies this`phase, this`recorded, this`pass, this`history
      ensures Continues(old(history)) && pass == Idle && phase == Signed && recorded == Some(names)
    {
      ghost var before := Snapshot();
      phase := Signed;
      recorded := Some(names);
      pass := Idle;
      assert MarkedSigned(before, Snapshot());
      Log();
    }

    /** reconcileCertSigning behind the certname check: the Signed mark follows every zero
        Result, while a Secret was stored in one of the three cases only. */
    method ReconcileCertSigning(internalCa: bool, env: Env) returns (r: Outcome, answer: Answer)
      requires Valid() && pass == Idle
      modifies this
      ensures Continues(old(history)) && pass == Idle
      ensures asked <= old(asked) + (if internalCa then 1 else 0)
      ensures phase == Signed <==> r.Ended?
      ensures r.Ended? ==> recorded == Some(names)
      ensures r == Failed ==> phase == Error
      ensures writes == old(writes) + if r == Ended(Stored) then 1 else 0
      ensures answer == NotSubmitted ==> r == Failed
      ensures answer == FetchError ==> r == Requeue && env.fetchFails
      ensures answer == NotYet ==> r in {Failed, Requeue, Ended(TimedOut)}
      ensures answer == NotYet && internalCa && !env.signFails ==> AskedToSign(|old(history)|)
      ensures answer == NotYet && internalCa ==> asked == old(asked) + 1
      ensures answer.Got? ==>
        exists k :: |old(history)| <= k < |history| && r == AdoptionOf(history[k].pending, answer.cert, env)
    {
      SetRequesting();
      Interfere();
      r, answer := SignCertificate(internalCa, env);
      if r == Failed {
        FailPass(Error);
      } else if r.Ended? {
        MarkLater();
      }
    }

    method MarkLater()
      requires Valid() && pass.Done?
      modifies this
      ensures Continues(old(history)) && pass == Idle && phase == Signed && recorded == Some(names)
      ensures asked == old(asked)
      ensures writes == old(writes)
    {
      Interfere();
      MarkSigned();
    }

    /** The first call of renewCertificate: the pair to be renewed. */
    method ReadPairForRenewal() returns (key: KeyPem)
      requires Valid() && pass == Idle
      modifies this`pass, this`begun, this`history
      ensures Continues(old(history))
      ensures key == if CanRenew(tls) then tls.value.key else NoKey
      ensures pass == if CanRenew(tls) then RenewalSent(key) else Idle
    {
      if tls.None? || !tls.value.key.Key? || !tls.value.key.pkcs1 { return NoKey; }
      ghost var before := Snapshot();
      key := tls.value.key;
      pass, begun := RenewalSent(key), writes;
      assert ReadPair(before, Snapshot());
      Log();
    }

    /** The endpoint's reply is recorded: cooldown and status come before the Secret. */
    method RecordRenewal(key: KeyPem, cert: CertPem)
      requires Valid() && pass == RenewalSent(key) && key.Key?
      requires cert.Issued? && cert.pub == key.pub
      modifies this`phase, this`recorded, this`pass, this`history
      ensures Continues(old(history)) && pass == RenewalMarked(cert, key) && phase == Signed && recorded == Some(names)
    {
      ghost var before := Snapshot();
      pass := RenewalAnswered(cert, key);
      assert RenewalReplied(before, Snapshot(), cert);
      Log();
      before := Snapshot();
      phase := Signed;
      recorded := Some(names);
      pass := RenewalMarked(cert, key);
      assert RenewalRecorded(before, Snapshot());
      Log();
    }

    method StoreRenewal(key: KeyPem, cert: CertPem)
      requires Valid() && pass == RenewalMarked(cert, key)
      modifies this`tls, this`writes, this`pass, this`history
      ensures Continues(old(history))
      ensures pass == Idle && tls == Some(TlsSecret(cert, key)) && writes == old(writes) + 1
    {
      PutRenewed(key, cert);
      Log();
    }

    method PutRenewed(key: KeyPem, cert: CertPem)
      requires pass == RenewalMarked(cert, key)
      modifies this`tls, this`writes, this`pass
      ensures StoredRenewal(old(Snapshot()), Snapshot())
    {
      tls, writes, pass := Some(TlsSecret(cert, key)), writes + 1, Idle;
    }

    /** renewCertificate, told what names the endpoint certifies, if it answers at all. On
        success the Secret is the key that was there with a certificate for it. */
    method RenewCertificate(reply: Option<seq<string>>, storeFails: bool) returns (ok: bool)
      requires Valid() && pass == Idle
      modifies this
      ensures Continues(old(history))
      ensures asked == old(asked)
      ensures ok <==> CanRenew(old(tls)) && reply.Some? && !storeFails
      ensures ok ==> pass == Idle && phase == Signed
      ensures ok ==> tls == Some(TlsSecret(Issued(old(tls).value.key.pub, reply.value), old(tls).value.key))
      ensures writes == old(writes) + if ok then 1 else 0
    {
      var key := ReadPairForRenewal();
      if key == NoKey || reply.None? { return false; }
      ok := StoreReply(key, Issued(key.pub, reply.value), storeFails);
    }

    /** renewCertificate from the reply on. */
    method StoreReply(key: KeyPem, cert: CertPem, storeFails: bool) returns (ok: bool)
      requires Valid() && pass == RenewalSent(key) && key.Key? && cert.Issued? && cert.pub == key.pub
      modifies this
      ensures Continues(old(history)) && ok == !storeFails
      ensures asked == old(asked)
      ensures ok ==> pass == Idle && phase == Signed && tls == Some(TlsSecret(cert, key))
      ensures writes == old(writes) + if ok then 1 else 0
    {
      Interfere();
      RecordRenewal(key, cert);
      Interfere();
      if storeFails { return false; }
      StoreRenewal(key, cert);
      return true;
    }

    /** reconcileCertRenewal. */
    method ReconcileCertRenewal(reply: Option<seq<string>>, storeFails: bool) returns (ok: bool)
      requires Valid() && pass == Idle
      modifies this
      ensures Continues(old(history)) && pass == Idle
      ensures asked == old(asked)
      ensures ok <==> CanRenew(old(tls)) && reply.Some? && !storeFails
      ensures ok ==> phase == Signed
      ensures ok ==> tls == Some(TlsSecret(Issued(old(tls).value.key.pub, reply.value), old(tls).value.key))
      ensures !ok ==> phase == Renewing
      ensures writes == old(writes) + if ok then 1 else 0
    {
      ok := RenewCertificate(reply, storeFails);
      if !ok { FailPass(Renewing); }
    }

    /** The adoption branch of Reconcile: a TLS Secret that is there is taken as it is. */
    method AdoptTlsSecret()
      requires Valid() && pass == Idle && phase != Signed && tls.Some?
      modifies this`phase, this`recorded, this`history
      ensures Continues(old(history)) && phase == Signed && recorded == Some(names)
    {
      ghost var before := Snapshot();
      phase := Signed;
      recorded := Some(names);
      assert AdoptedSecret(before, Snapshot());
      Log();
    }
  }
}
