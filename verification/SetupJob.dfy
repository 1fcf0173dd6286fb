/** The CA setup Job and its failure budget, internal/controller/certificateauthority_job.go.

    Each write is a step of its own, so the controller may stop between recording an
    attempt and deleting the Job. Nobody else deletes the Job or edits the annotation. */
module SetupJob {
  import opened Text

  const MAX_SETUP_ATTEMPTS := 5

  datatype JobStatus = Running | Succeeded | Failed(reason: string, message: string)

  /** Deletion is in the foreground: the Job stays, terminating, until its Pods are gone. */
  datatype Job = Job(image: string, status: JobStatus, terminating: bool)

  datatype Pass = Idle | Deleting(retry: bool) | GivingUp(failure: string)

  /** `created` and `deleted` count the Jobs created and the retries deleted since the
      budget was last reset. */
  datatype State = State(
    annotation: Option<string>,
    job: Option<Job>,
    image: string,
    secretReady: bool,
    condition: Option<string>,
    pass: Pass,
    created: nat,
    deleted: nat)

  /** setupAttempts: anything unparseable is a fresh start. */
  function SetupAttempts(annotation: Option<string>): nat {
    if annotation.None? then 0
    else match ParseInt64(annotation.value)
      case None => 0
      case Some(n) => if n < 0 then 0 else n
  }

  /** recordSetupAttempts: no write when the counter already says so, 0 clears it. */
  function Recorded(annotation: Option<string>, attempts: nat): Option<string> {
    if SetupAttempts(annotation) == attempts then annotation
    else if attempts == 0 then None
    else Some(Decimal(attempts))
  }

  lemma RecordedReadsBack(annotation: Option<string>, attempts: nat)
    requires IsInt64(attempts)
    ensures SetupAttempts(Recorded(annotation, attempts)) == attempts
  {
    ParseInt64OfDecimal(attempts);
  }

  /** No text, no number and a negative number all mean a fresh start. */
  lemma UnreadableStartsFresh(text: string, n: int)
    ensures SetupAttempts(None) == 0
    ensures ParseInt64(text) == None ==> SetupAttempts(Some(text)) == 0
    ensures IsInt64(n) ==> SetupAttempts(Some(Decimal(n))) == if n < 0 then 0 else n
  {
    ParseInt64OfDecimal(n);
  }

  const NO_REASON := "the CA setup job failed without a reason"
  const NO_CA_CERT := "the job succeeded but the CA Secret has no ca_crt.pem"

  function JobFailureMessage(reason: string, message: string): string {
    if message != "" then message else if reason != "" then reason
    else NO_REASON
  }

  /** Why the current Job has to be retried, if it has. */
  function Failure(s: State): Option<string> {
    if s.job.None? || s.job.value.image != s.image then None
    else match s.job.value.status
      case Running => None
      case Succeeded => if s.secretReady then None else Some(NO_CA_CERT)
      case Failed(reason, message) => Some(JobFailureMessage(reason, message))
  }

  function GiveUpMessage(attempts: nat, failure: string): string {
    "CA setup job failed " + Decimal(attempts) + " times, giving up: " + failure
  }

  // ---------- the controller's writes ----------

  predicate CreatedJob(s: State, s': State) {
    s.pass == Idle && s.job.None?
    && s' == s.(job := Some(Job(s.image, Running, false)), created := s.created + 1)
  }

  predicate ResetForImage(s: State, s': State) {
    s.pass == Idle && s.job.Some? && s.job.value.image != s.image
    && s' == s.(annotation := Recorded(s.annotation, 0), pass := Deleting(false), created := 0, deleted := 0)
  }

  predicate ResetForSuccess(s: State, s': State) {
    && s.pass == Idle && s.job.Some? && s.job.value.image == s.image
    && s.job.value.status == Succeeded && s.secretReady
    && s' == s.(annotation := Recorded(s.annotation, 0), created := 0, deleted := 0)
  }

  predicate SpentAttempt(s: State, s': State) {
    && s.pass == Idle && Failure(s).Some? && SetupAttempts(s.annotation) < MAX_SETUP_ATTEMPTS
    && var attempts := SetupAttempts(s.annotation) + 1;
      s' == s.(
        annotation := Recorded(s.annotation, attempts),
        pass := if attempts >= MAX_SETUP_ATTEMPTS then GivingUp(Failure(s).value) else Deleting(true))
  }

  predicate DeletedJob(s: State, s': State) {
    s.pass.Deleting? && s.job.Some?
    && s' == s.(
      job := Some(s.job.value.(terminating := true)),
      deleted := if s.pass.retry then s.deleted + 1 else s.deleted,
      pass := Idle)
  }

  predicate GaveUp(s: State, s': State) {
    || (s.pass.GivingUp?
        && s' == s.(condition := Some(GiveUpMessage(SetupAttempts(s.annotation), s.pass.failure)), pass := Idle))
    || (s.pass == Idle && Failure(s).Some? && SetupAttempts(s.annotation) >= MAX_SETUP_ATTEMPTS
        && s' == s.(condition := Some(GiveUpMessage(SetupAttempts(s.annotation), Failure(s).value))))
  }

  /** A failing call or a restart ends the pass. */
  predicate Stopped(s: State, s': State) {
    s' == s.(pass := Idle)
  }

  // ---------- everyone else ----------

  /** The Job runs, a terminating Job goes away, the desired image and the Secret change. */
  predicate Interfered(s: State, s': State) {
    && s' == s.(job := s'.job, image := s'.image, secretReady := s'.secretReady)
    && (s.job.None? ==> s'.job.None?)
    && (s.job.Some? && s'.job.None? ==> s.job.value.terminating)
    && (s.job.Some? && s'.job.Some? ==> s'.job == Some(s.job.value.(status := s'.job.value.status)))
  }

  predicate Next(s: State, s': State) {
    || CreatedJob(s, s') || ResetForImage(s, s') || ResetForSuccess(s, s')
    || SpentAttempt(s, s') || DeletedJob(s, s') || GaveUp(s, s') || Stopped(s, s')
    || Interfered(s, s')
  }

  predicate Init(s: State) {
    s.pass == Idle && s.created == 0 && s.deleted == 0
  }

  // ---------- the budget ----------

  /** A Job that still has to be created counts as one. */
  function Owed(job: Option<Job>): nat {
    if job.None? || job.value.terminating then 1 else 0
  }

  predicate Inv(s: State) {
    && s.created + Owed(s.job) <= s.deleted + 1
    && s.deleted <= SetupAttempts(s.annotation)
    && s.deleted <= MAX_SETUP_ATTEMPTS - 1
    && (s.pass == Deleting(true) ==> s.deleted < SetupAttempts(s.annotation) < MAX_SETUP_ATTEMPTS)
    && (s.pass == Deleting(false) ==> s.created == 0 && s.deleted == 0)
  }

  lemma NextKeepsInv(s: State, s': State)
    requires Inv(s) && Next(s, s')
    ensures Inv(s')
  {
    if SpentAttempt(s, s') {
      RecordedReadsBack(s.annotation, SetupAttempts(s.annotation) + 1);
    } else if ResetForImage(s, s') || ResetForSuccess(s, s') {
      RecordedReadsBack(s.annotation, 0);
    }
  }

  /** The state is a first one, or comes from the one before. */
  ghost predicate Follows(run: seq<State>, i: nat)
    requires i < |run|
  {
    if i == 0 then Init(run[0]) else Next(run[i - 1], run[i])
  }

  ghost predicate IsRun(run: seq<State>) {
    |run| >= 1 && forall i :: 0 <= i < |run| ==> Follows(run, i)
  }

  /** Between two resets at most four Jobs are deleted for a retry and at most five are
      created, in every run. */
  lemma {:induction false} JobsAreBounded(run: seq<State>, i: nat)
    requires IsRun(run) && i < |run|
    ensures Inv(run[i])
    ensures run[i].deleted <= 4 && run[i].created <= 5
  {
    assert Follows(run, i);
    if i > 0 {
      JobsAreBounded(run, i - 1);
      NextKeepsInv(run[i - 1], run[i]);
    }
  }

  // ---------- giving up for good ----------

  /** The budget is spent, the failed Job is still there, and it has been said. */
  predicate Final(s: State) {
    && s.pass == Idle && Failure(s).Some? && SetupAttempts(s.annotation) >= MAX_SETUP_ATTEMPTS
    && s.condition == Some(GiveUpMessage(SetupAttempts(s.annotation), Failure(s).value))
  }

  /** From there the controller changes nothing, however often it comes back, as long as
      the Job, the desired image and the Secret stay as they are. */
  lemma {:induction false} FinalIsFixed(run: seq<State>, i: nat, j: nat)
    requires IsRun(run) && i <= j < |run| && Final(run[i])
    requires forall k :: i <= k < j ==>
      run[k + 1].job == run[k].job && run[k + 1].image == run[k].image && run[k + 1].secretReady == run[k].secretReady
    ensures run[j] == run[i]
  {
    if i < j {
      FinalIsFixed(run, i, j - 1);
      assert Follows(run, j) && run[j - 1 + 1].job == run[j - 1].job;
    }
  }

  // ---------- the code ----------

  datatype Requeue = NoRequeue | Medium | Long | Erred

  /** What is left of a Job of the desired image: it is waited for, its success clears the
      counter, and a failure uses up an attempt and the Job, up to the fifth. */
  predicate HandlesCurrent(s: State, s': State, deleteFails: bool, r: Requeue)
    requires s.job.Some?
  {
    match s.job.value.status
    case Running => r == Long && s' == s
    case Succeeded =>
      if s.secretReady then
        r == NoRequeue && SetupAttempts(s'.annotation) == 0 && s'.job == s.job && s'.condition == s.condition
      else HandlesFailure(s, s', "the job succeeded but the CA Secret has no ca_crt.pem", deleteFails, r)
    case Failed(reason, message) =>
      HandlesFailure(
        s, s', if message != "" then message else if reason != "" then reason else NO_REASON, deleteFails, r)
  }

  predicate HandlesFailure(s: State, s': State, failure: string, deleteFails: bool, r: Requeue)
    requires s.job.Some?
  {
    var attempts := SetupAttempts(s.annotation);
    && s' == s.(annotation := s'.annotation, job := s'.job, deleted := s'.deleted, condition := s'.condition)
    && (attempts >= 5 ==> s'.annotation == s.annotation)
    && SetupAttempts(s'.annotation) == (if attempts < 5 then attempts + 1 else attempts)
    && r == (if attempts >= 4 then NoRequeue else if deleteFails then Erred else Medium)
    && s'.job == (if r == Medium then Some(s.job.value.(terminating := true)) else s.job)
    && s'.deleted == (if r == Medium then s.deleted + 1 else s.deleted)
    && s'.condition == (if attempts >= 4 then Some(GiveUpMessage(SetupAttempts(s'.annotation), failure)) else s.condition)
  }

  class SetupJobController {
    var annotation: Option<string>
    var job: Option<Job>
    var image: string
    var secretReady: bool
    var condition: Option<string>
    ghost var pass: Pass
    ghost var created: nat
    ghost var deleted: nat
    ghost var history: seq<State>

    ghost function Snapshot(): State
      reads this
    {
      State(annotation, job, image, secretReady, condition, pass, created, deleted)
    }

    ghost predicate Valid()
      reads this
    {
      IsRun(history) && history[|history| - 1] == Snapshot()
    }

    /** And it is a continuation of the run given. */
    ghost predicate Continues(earlier: seq<State>)
      reads this
    {
      Valid() && earlier <= history
    }

    ghost method Log()
      requires IsRun(history) && Next(history[|history| - 1], Snapshot())
      modifies this`history
      ensures Continues(old(history)) && history == old(history) + [Snapshot()]
    {
      var longer := history + [Snapshot()];
      forall i | 0 <= i < |longer| ensures Follows(longer, i) {
        if i < |history| { assert Follows(history, i) && longer[..|history|] == history; }
      }
      history := longer;
    }

    method Create() returns (r: Requeue)
      requires Valid() && pass == Idle && job.None?
      modifies this`job, this`created, this`history
      ensures Continues(old(history)) && CreatedJob(old(Snapshot()), Snapshot()) && r == Medium
    {
      job := Some(Job(image, Running, false));
      created := created + 1;
      Log();
      return Medium;
    }

    /** deleteAndRequeueJob; a failing delete, or a Job that is gone, is an error. */
    method DeleteAndRequeueJob(fails: bool) returns (r: Requeue)
      requires Valid() && pass.Deleting?
      modifies this`job, this`deleted, this`pass, this`history
      ensures Continues(old(history)) && pass == Idle
      ensures r == if fails || old(job).None? then Erred else Medium
      ensures r == Erred ==> job == old(job) && deleted == old(deleted)
      ensures r == Medium ==> job == Some(old(job).value.(terminating := true))
      ensures r == Medium ==> deleted == if old(pass).retry then old(deleted) + 1 else old(deleted)
    {
      if fails || job.None? {
        pass := Idle;
        Log();
        return Erred;
      }
      job := Some(job.value.(terminating := true));
      deleted := if pass.retry then deleted + 1 else deleted;
      pass := Idle;
      Log();
      return Medium;
    }

    /** giveUpOnSetupJob; the Job is left in place. */
    method GiveUp(failure: string) returns (r: Requeue)
      requires Valid() && SetupAttempts(annotation) >= MAX_SETUP_ATTEMPTS
      requires pass == GivingUp(failure) || (pass == Idle && Failure(Snapshot()) == Some(failure))
      modifies this`condition, this`pass, this`history
      ensures Continues(old(history)) && pass == Idle && r == NoRequeue
      ensures condition
           == Some("CA setup job failed " + Decimal(SetupAttempts(annotation)) + " times, giving up: " + failure)
    {
      condition := Some(GiveUpMessage(SetupAttempts(annotation), failure));
      pass := Idle;
      Log();
      return NoRequeue;
    }

    /** retrySetupJob: the attempt is recorded before the Job goes. Five attempts are the
        limit; the fifth is recorded and leaves the Job in place. */
    method RetrySetupJob(failure: string, deleteFails: bool) returns (r: Requeue)
      requires Valid() && pass == Idle && Failure(Snapshot()) == Some(failure)
      modifies this`annotation, this`job, this`condition, this`pass, this`deleted, this`history
      ensures Continues(old(history)) && pass == Idle
      ensures SetupAttempts(old(annotation)) >= 5 ==>
        Snapshot() == old(Snapshot()).(condition := Some(GiveUpMessage(SetupAttempts(annotation), failure)))
      ensures SetupAttempts(old(annotation)) < 5 ==> SetupAttempts(annotation) == SetupAttempts(old(annotation)) + 1
      ensures created == old(created)
      ensures SetupAttempts(old(annotation)) >= 4 ==> job == old(job) && deleted == old(deleted) && r == NoRequeue
      ensures SetupAttempts(old(annotation)) >= 4 ==>
        condition == Some(GiveUpMessage(SetupAttempts(annotation), failure))
      ensures SetupAttempts(old(annotation)) < 4 ==>
        condition == old(condition) && r == if deleteFails then Erred else Medium
      ensures r == Medium ==>
        job == Some(old(job).value.(terminating := true)) && deleted == old(deleted) + 1
      ensures r == Erred ==> job == old(job) && deleted == old(deleted)
    {
      var attempts := SetupAttempts(annotation);
      if attempts >= MAX_SETUP_ATTEMPTS {
        r := GiveUp(failure);
        return;
      }
      attempts := attempts + 1;
      SpendAttempt(attempts, failure);
      if attempts >= MAX_SETUP_ATTEMPTS {
        r := GiveUp(failure);
        return;
      }
      r := DeleteAndRequeueJob(deleteFails);
    }

    method SpendAttempt(attempts: nat, failure: string)
      requires Valid() && pass == Idle && Failure(Snapshot()) == Some(failure)
      requires attempts == SetupAttempts(annotation) + 1 <= MAX_SETUP_ATTEMPTS
      modifies this`annotation, this`pass, this`history
      ensures Continues(old(history)) && SetupAttempts(annotation) == attempts
      ensures pass == if attempts >= MAX_SETUP_ATTEMPTS then GivingUp(failure) else Deleting(true)
    {
      RecordedReadsBack(annotation, attempts);
      annotation := Recorded(annotation, attempts);
      pass := if attempts >= MAX_SETUP_ATTEMPTS then GivingUp(failure) else Deleting(true);
      Log();
    }

    method ResetBudget()
      requires Valid() && pass == Idle && job.Some?
      requires job.value.image == image ==> job.value.status == Succeeded && secretReady
      modifies this`annotation, this`pass, this`created, this`deleted, this`history
      ensures Continues(old(history)) && SetupAttempts(annotation) == 0 && created == deleted == 0
      ensures old(job).value.image == image ==> ResetForSuccess(old(Snapshot()), Snapshot())
      ensures pass == if job.value.image == image then Idle else Deleting(false)
    {
      RecordedReadsBack(annotation, 0);
      annotation := Recorded(annotation, 0);
      created, deleted := 0, 0;
      if job.value.image != image { pass := Deleting(false); }
      Log();
    }

    /** The part of reconcileJob behind the image check. */
    method ReconcileCurrentJob(deleteFails: bool) returns (r: Requeue)
      requires Valid() && pass == Idle && job.Some? && job.value.image == image
      modifies this`annotation, this`job, this`condition, this`pass, this`created, this`deleted, this`history
      ensures Continues(old(history)) && pass == Idle
      ensures HandlesCurrent(old(Snapshot()), Snapshot(), deleteFails, r)
    {
      match job.value.status
      case Succeeded =>
        if secretReady {
          ResetBudget();
          r := NoRequeue;
        } else {
          r := RetrySetupJob(NO_CA_CERT, deleteFails);
        }
      case Failed(reason, message) =>
        r := RetrySetupJob(JobFailureMessage(reason, message), deleteFails);
      case Running =>
        r := Long;
    }

    /** reconcileJob. */
    method ReconcileJob(deleteFails: bool) returns (r: Requeue)
      requires Valid() && pass == Idle
      modifies this`annotation, this`job, this`condition, this`pass, this`created, this`deleted, this`history
      ensures Continues(old(history)) && pass == Idle
      ensures old(job).None? ==>
        r == Medium && Snapshot() == old(Snapshot()).(job := Some(Job(image, Running, false)), created := created)
      ensures old(job).Some? && old(job).value.image != image ==>
        && SetupAttempts(annotation) == 0 && condition == old(condition)
        && r == (if deleteFails then Erred else Medium)
        && job == (if deleteFails then old(job) else Some(old(job).value.(terminating := true)))
      ensures old(job).Some? && old(job).value.image == image ==>
        HandlesCurrent(old(Snapshot()), Snapshot(), deleteFails, r)
      ensures Final(old(Snapshot())) ==> Snapshot() == old(Snapshot())
      ensures Failure(old(Snapshot())).Some? && SetupAttempts(old(annotation)) >= MAX_SETUP_ATTEMPTS ==> Final(Snapshot())
    {
      if job.None? {
        r := Create();
      } else if job.value.image != image {
        ResetBudget();
        r := DeleteAndRequeueJob(deleteFails);
      } else {
        r := ReconcileCurrentJob(deleteFails);
      }
    }
  }
}
