/**
 The immutable job contract shared by every queue adapter. A job is rebuilt by
 each operation and every rebuilt value passes the same validation, so an
 operation either yields a valid successor or is refused.
 */
module Jobs {
  import opened Common

  const MAX_ATTEMPTS := 64

  datatype JobState =
    | Pending | Queued | Running | Succeeded | Failed | Cancelled | Retrying | DeadLetter
  {
    predicate Terminal() {
      Succeeded? || Cancelled? || DeadLetter?
    }
  }

  datatype Scope = Scope(tenant: string, workspace: string, collection: string)

  datatype Request = Request(operation: string, idempotencyKey: string, payload: map<string, string>)

  datatype Failure = Failure(code: string, retryable: bool, attempt: int, occurredAt: Time)

  datatype JobResult =
    JobResult(outputRefs: map<string, string>, documentId: Option<string>, completedAt: Time)

  datatype Attempt = Attempt(
    number: int,
    worker: string,
    state: JobState,
    startedAt: Time,
    finishedAt: Option<Time>,
    failure: Option<Failure>)

  datatype Job = Job(
    id: string,
    scope: Scope,
    request: Request,
    state: JobState,
    maxAttempts: int,
    attempts: seq<Attempt>,
    result: Option<JobResult>,
    failure: Option<Failure>,
    availableAt: Time,
    createdAt: Time,
    updatedAt: Time,
    version: int)
  {
    function Count(): nat {
      |attempts|
    }

    function Last(): Attempt
      requires attempts != []
    {
      attempts[|attempts| - 1]
    }

    predicate RetryEligible() {
      && Count() < maxAttempts
      && (state.Failed? || state.Retrying?)
      && failure.Some? && failure.value.retryable
    }
  }

  /** Why the contract refuses an operation: a bad transition, or a value the constructor rejects. */
  datatype Refusal = InvalidTransition | InvalidValue

  predicate CanTransition(from: JobState, to: JobState) {
    match from
    case Pending => to.Queued? || to.Cancelled?
    case Queued => to.Running? || to.Cancelled?
    case Running => to.Succeeded? || to.Failed? || to.Cancelled?
    case Failed => to.Retrying? || to.DeadLetter?
    case Retrying => to.Queued? || to.DeadLetter? || to.Cancelled?
    case Succeeded => false
    case Cancelled => false
    case DeadLetter => false
  }

  predicate ValidAttempt(a: Attempt) {
    && 1 <= a.number <= MAX_ATTEMPTS
    && (a.finishedAt.Some? ==> a.startedAt <= a.finishedAt.value)
    && match a.state
       case Running => a.finishedAt.None? && a.failure.None?
       case Succeeded => a.finishedAt.Some? && a.failure.None?
       case Cancelled => a.finishedAt.Some? && a.failure.None?
       case Failed =>
         && a.finishedAt.Some? && a.failure.Some?
         && a.failure.value.attempt == a.number
         && a.startedAt <= a.failure.value.occurredAt <= a.finishedAt.value
       case _ => false
  }

  /**
   An attempt list is numbered from one, inside the job's lifetime, and chronological.
   Attempts never finish before they start, so order between neighbours and order
   between any two attempts say the same.
   */
  predicate ValidHistory(attempts: seq<Attempt>, createdAt: Time, updatedAt: Time) {
    && (forall i :: 0 <= i < |attempts| ==>
          && attempts[i].number == i + 1
          && ValidAttempt(attempts[i])
          && createdAt <= attempts[i].startedAt <= updatedAt
          && (attempts[i].finishedAt.Some? ==> attempts[i].finishedAt.value <= updatedAt))
    && (forall i, k :: 0 <= i < k < |attempts| ==>
          && attempts[i].finishedAt.Some?
          && attempts[i].finishedAt.value <= attempts[k].startedAt)
  }

  /** What each job state demands of the latest attempt, the result and the failure. */
  predicate ValidState(j: Job) {
    match j.state
    case Pending =>
      j.attempts == [] && j.result.None? && j.failure.None?
    case Queued =>
      && j.result.None? && j.failure.None?
      && (j.attempts != [] ==>
            && j.Last().state.Failed?
            && j.Last().failure.Some? && j.Last().failure.value.retryable
            && j.Count() < j.maxAttempts)
    case Running =>
      j.attempts != [] && j.Last().state.Running? && j.result.None? && j.failure.None?
    case Succeeded =>
      && j.attempts != [] && j.Last().state.Succeeded?
      && j.result.Some? && j.failure.None?
      && j.Last().finishedAt.Some?
      && j.Last().startedAt <= j.result.value.completedAt <= j.Last().finishedAt.value
    case Cancelled =>
      && j.result.None? && j.failure.None?
      && (j.attempts != [] ==> j.Last().state.Failed? || j.Last().state.Cancelled?)
    case _ =>
      && j.attempts != [] && j.Last().state.Failed?
      && j.result.None?
      && j.failure.Some? && j.failure == j.Last().failure
      && (j.state.Retrying? ==> j.failure.value.retryable && j.Count() < j.maxAttempts)
  }

  predicate ValidJob(j: Job) {
    && 0 < j.maxAttempts <= MAX_ATTEMPTS
    && j.Count() <= j.maxAttempts
    && 1 <= j.version
    && j.createdAt <= j.availableAt
    && j.createdAt <= j.updatedAt
    && ValidHistory(j.attempts, j.createdAt, j.updatedAt)
    && ValidState(j)
  }

  function Construct(j: Job): Result<Job, Refusal> {
    if ValidJob(j) then Ok(j) else Err(InvalidValue)
  }

  function StartAttempt(j: Job, worker: string, now: Time): Result<Job, Refusal> {
    if !j.state.Queued? || j.Count() >= j.maxAttempts || now < j.updatedAt then
      Err(InvalidTransition)
    else
      Construct(j.(
        state := Running,
        attempts := j.attempts + [Attempt(j.Count() + 1, worker, Running, now, None, None)],
        result := None,
        failure := None,
        updatedAt := now,
        version := j.version + 1))
  }

  /** The payload a target state must carry when an attempt is closed. */
  predicate ClosingAllowed(
      current: Attempt, target: JobState, now: Time, result: Option<JobResult>, failure: Option<Failure>)
  {
    match target
    case Succeeded => result.Some? && failure.None? && result.value.completedAt <= now
    case Cancelled => result.None? && failure.None?
    case Failed =>
      && result.None? && failure.Some?
      && failure.value.attempt == current.number && failure.value.occurredAt <= now
    case _ => false
  }

  function FinishAttempt(
      j: Job,
      target: JobState,
      now: Time,
      result: Option<JobResult>,
      failure: Option<Failure>,
      finishedAt: Option<Time>): Result<Job, Refusal>
  {
    if !j.state.Running? || j.attempts == [] || !j.Last().state.Running? || now < j.updatedAt
       || !ClosingAllowed(j.Last(), target, now, result, failure)
    then
      Err(InvalidTransition)
    else
      var current := j.Last();
      var completion := if finishedAt.Some? then finishedAt.value else now;
      if !(current.startedAt <= completion <= now)
         || (target.Succeeded? && finishedAt.Some? && completion != result.value.completedAt)
      then
        Err(InvalidTransition)
      else
        var closed := current.(state := target, finishedAt := Some(completion), failure := failure);
        Construct(j.(
          state := target,
          attempts := j.attempts[..|j.attempts| - 1] + [closed],
          result := result,
          failure := failure,
          updatedAt := now,
          version := j.version + 1))
  }

  /** A transition that neither enters nor leaves RUNNING, the only ones the queue asks for. */
  function Transition(j: Job, target: JobState, now: Time, availableAt: Option<Time>): Result<Job, Refusal> {
    if !CanTransition(j.state, target) || target.Running? || j.state.Running? || now < j.updatedAt then
      Err(InvalidTransition)
    else if (target.Retrying? || target.DeadLetter?)
            && (j.failure.None? || j.failure.value.attempt != j.Count()) then
      Err(InvalidTransition)
    else if target.Retrying? && (!j.failure.value.retryable || j.Count() >= j.maxAttempts) then
      Err(InvalidTransition)
    else if j.failure.Some? && j.failure.value.occurredAt > now then
      Err(InvalidTransition)
    else
      Construct(j.(
        state := target,
        result := None,
        failure := if target.Retrying? || target.DeadLetter? then j.failure else None,
        availableAt := if availableAt.Some? then availableAt.value else j.availableAt,
        updatedAt := now,
        version := j.version + 1))
  }

  /** Hand a running attempt to a new lease: only the version and the update time move. */
  function Resume(j: Job, now: Time): Result<Job, Refusal> {
    Construct(j.(updatedAt := Later(now, j.updatedAt), version := j.version + 1))
  }

  // ---------------------------------------------------------------- evolution

  predicate SameAttempt(a: Attempt, b: Attempt) {
    a.number == b.number && a.worker == b.worker && a.startedAt == b.startedAt
  }

  /** History only grows: finished attempts are frozen and identities never change. */
  predicate HistoryKept(before: seq<Attempt>, after: seq<Attempt>) {
    && |before| <= |after|
    && forall i :: 0 <= i < |before| ==>
         SameAttempt(before[i], after[i]) && (before[i].state.Running? || before[i] == after[i])
  }

  predicate SameRequest(a: Job, b: Job) {
    && a.id == b.id && a.scope == b.scope && a.request == b.request
    && a.maxAttempts == b.maxAttempts && a.createdAt == b.createdAt
  }

  /** The last attempt is closed in the target state and nothing before it moves. */
  predicate Closes(a: Job, b: Job, target: JobState) {
    && a.state.Running? && b.state == target
    && |a.attempts| == |b.attempts| > 0
    && a.attempts[..|a.attempts| - 1] == b.attempts[..|a.attempts| - 1]
    && SameAttempt(a.Last(), b.Last()) && b.Last().state == target
  }

  lemma HistoryAppend(attempts: seq<Attempt>, a: Attempt, createdAt: Time, updatedAt: Time, now: Time)
    requires ValidHistory(attempts, createdAt, updatedAt) && updatedAt <= now
    requires a.number == |attempts| + 1 && ValidAttempt(a) && a.startedAt == now && a.state.Running?
    requires createdAt <= now
    requires attempts != [] ==> !attempts[|attempts| - 1].state.Running?
    ensures ValidHistory(attempts + [a], createdAt, now)
  {
    var n := |attempts|;
    assert n > 0 ==> ValidAttempt(attempts[n - 1]);
    forall i, k | 0 <= i < k < n + 1
      ensures (attempts + [a])[i].finishedAt.Some?
      ensures (attempts + [a])[i].finishedAt.value <= (attempts + [a])[k].startedAt
    {
      if k < n {
        assert attempts[i].finishedAt.value <= attempts[k].startedAt;
      }
    }
  }

  lemma HistoryClose(attempts: seq<Attempt>, closed: Attempt, createdAt: Time, updatedAt: Time, now: Time)
    requires ValidHistory(attempts, createdAt, updatedAt) && updatedAt <= now && attempts != []
    requires SameAttempt(attempts[|attempts| - 1], closed)
    requires closed.finishedAt.Some? && closed.finishedAt.value <= now
    ensures ValidHistory(attempts[..|attempts| - 1] + [closed], createdAt, now) <==> ValidAttempt(closed)
  {
    var n := |attempts| - 1;
    var atts := attempts[..n] + [closed];
    assert ValidAttempt(attempts[n]);
    if ValidHistory(atts, createdAt, now) {
      assert ValidAttempt(atts[n]);
    }
  }

  /** A claim is granted exactly to a queued job whose clock has not run ahead of the caller. */
  lemma StartAttemptExact(j: Job, worker: string, now: Time)
    requires ValidJob(j)
    ensures StartAttempt(j, worker, now).Ok? <==> j.state.Queued? && j.updatedAt <= now
    ensures StartAttempt(j, worker, now).Ok? ==>
              var r := StartAttempt(j, worker, now).value;
              && ValidJob(r) && SameRequest(j, r) && r.version == j.version + 1
              && r.state.Running? && r.Count() == j.Count() + 1
              && r.attempts == j.attempts + [Attempt(j.Count() + 1, worker, Running, now, None, None)]
  {
    hide ValidHistory;
    if j.state.Queued? && j.updatedAt <= now {
      var a := Attempt(j.Count() + 1, worker, Running, now, None, None);
      HistoryAppend(j.attempts, a, j.createdAt, j.updatedAt, now);
    }
  }

  /** The conditions, beyond the closing payload, under which the rebuilt job validates. */
  predicate ClosingFits(
      current: Attempt, target: JobState, now: Time,
      result: Option<JobResult>, failure: Option<Failure>, finishedAt: Option<Time>)
    requires ClosingAllowed(current, target, now, result, failure)
  {
    && (finishedAt.Some? ==> current.startedAt <= finishedAt.value <= now)
    && (target.Succeeded? ==>
          && current.startedAt <= result.value.completedAt
          && (finishedAt.Some? ==> finishedAt.value == result.value.completedAt))
    && (target.Failed? ==>
          && current.startedAt <= failure.value.occurredAt
          && (finishedAt.Some? ==> failure.value.occurredAt <= finishedAt.value))
  }

  /** Closing an attempt is refused exactly when its time, target or payload is out of order. */
  lemma FinishAttemptExact(
      j: Job, target: JobState, now: Time,
      result: Option<JobResult>, failure: Option<Failure>, finishedAt: Option<Time>)
    requires ValidJob(j)
    ensures FinishAttempt(j, target, now, result, failure, finishedAt).Ok? <==>
              && j.state.Running? && j.updatedAt <= now
              && ClosingAllowed(j.Last(), target, now, result, failure)
              && ClosingFits(j.Last(), target, now, result, failure, finishedAt)
    ensures FinishAttempt(j, target, now, result, failure, finishedAt).Ok? ==>
              var r := FinishAttempt(j, target, now, result, failure, finishedAt).value;
              && ValidJob(r) && SameRequest(j, r) && r.version == j.version + 1
              && Closes(j, r, target) && r.result == result && r.failure == failure
  {
    hide ValidHistory;
    if j.state.Running? && j.updatedAt <= now && ClosingAllowed(j.Last(), target, now, result, failure) {
      var n := |j.attempts| - 1;
      var completion := if finishedAt.Some? then finishedAt.value else now;
      var closed := j.Last().(state := target, finishedAt := Some(completion), failure := failure);
      assert (j.attempts[..n] + [closed])[..n] == j.attempts[..n];
      LastFits(j.attempts, j.createdAt, j.updatedAt);
      if completion <= now {
        HistoryClose(j.attempts, closed, j.createdAt, j.updatedAt, now);
      }
    }
  }

  lemma LastFits(attempts: seq<Attempt>, createdAt: Time, updatedAt: Time)
    requires ValidHistory(attempts, createdAt, updatedAt) && attempts != []
    ensures attempts[|attempts| - 1].number == |attempts|
    ensures ValidAttempt(attempts[|attempts| - 1])
    ensures createdAt <= attempts[|attempts| - 1].startedAt <= updatedAt
  {
  }

  lemma HistoryLater(attempts: seq<Attempt>, createdAt: Time, updatedAt: Time, now: Time)
    requires ValidHistory(attempts, createdAt, updatedAt) && updatedAt <= now
    ensures ValidHistory(attempts, createdAt, now)
  {
  }

  lemma TransitionExact(j: Job, target: JobState, now: Time, availableAt: Option<Time>)
    requires ValidJob(j) && !j.state.Running?
    requires availableAt.Some? ==> j.createdAt <= availableAt.value
    ensures Transition(j, target, now, availableAt).Ok? <==>
              && CanTransition(j.state, target) && !target.Running? && j.updatedAt <= now
              && (target.Retrying? ==> j.RetryEligible())
    ensures Transition(j, target, now, availableAt).Ok? ==>
              var r := Transition(j, target, now, availableAt).value;
              && ValidJob(r) && SameRequest(j, r) && r.version == j.version + 1
              && r.state == target && r.attempts == j.attempts
              && (availableAt.Some? ==> r.availableAt == availableAt.value)
  {
    hide ValidHistory;
    if j.attempts != [] {
      LastFits(j.attempts, j.createdAt, j.updatedAt);
    }
    if j.updatedAt <= now {
      HistoryLater(j.attempts, j.createdAt, j.updatedAt, now);
    }
  }

  lemma ResumeExact(j: Job, now: Time)
    requires ValidJob(j) && j.state.Running?
    ensures Resume(j, now).Ok?
    ensures var r := Resume(j, now).value;
            && ValidJob(r) && SameRequest(j, r) && r.version == j.version + 1
            && r.state.Running? && r.attempts == j.attempts
  {
    var later := Later(now, j.updatedAt);
    hide ValidHistory;
    HistoryLater(j.attempts, j.createdAt, j.updatedAt, later);
  }

  lemma HistoryKeptTransitive(a: seq<Attempt>, b: seq<Attempt>, c: seq<Attempt>)
    requires HistoryKept(a, b) && HistoryKept(b, c)
    ensures HistoryKept(a, c)
  {
    forall i | 0 <= i < |a|
      ensures SameAttempt(a[i], c[i]) && (a[i].state.Running? || a[i] == c[i])
    {
      assert SameAttempt(a[i], b[i]) && SameAttempt(b[i], c[i]);
    }
  }
}
