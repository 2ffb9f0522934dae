/** Each transaction of the canonical queue keeps the record invariant and respects the publication owner. */
module JobTransactions {
  import opened Common
  import opened Jobs
  import opened JobStore
  import opened JobInvariant

  /** A contract step, once persisted, follows its predecessor and commits the job it was built from. */
  lemma TxnFollows(
      r: Record, next: Result<Job, Refusal>, change: LeaseChange, guard: Option<Lease>, kind: EventKind,
      deadline: Option<Time>, clock: Time, c: Time)
    requires Inv(r) && c <= clock
    requires next.Ok? ==> StepOk(JobOf(r), next.value, kind) && (change.Grant? <==> next.value.state.Running?)
    ensures var t := PersistTxn(r, next, JobOf(r), change, guard, kind, deadline, clock);
            && (t.Commit? ==>
                  && Follows(r, c, t.rec, clock, if change.Grant? then {change.token} else {})
                  && next.Ok? && t.job == next.value && JobOf(t.rec) == t.job
                  && t.rec.log == r.log + [StepEvent(t.job, Some(JobOf(r).state), kind)])
            && (next.Ok? && guard.None? && deadline.None? ==> t.Commit?)
  {
    hide Inv, StepOk, Follows, Persist, JobOf, ValidJob;
    if next.Ok? {
      if guard.None? && deadline.None? {
        PersistSucceeds(r, next.value, change, kind, clock);
      }
      if Persist(r, next.value, JobOf(r).version, JobOf(r).state, change, guard, kind, deadline, clock).Ok? {
        PersistFollows(r, next.value, change, guard, kind, deadline, clock, c);
      }
    }
  }

  lemma FinishIsStep(
      j: Job, target: JobState, now: Time, result: Option<JobResult>, failure: Option<Failure>,
      finishedAt: Option<Time>, kind: EventKind)
    requires ValidJob(j) && KindFits(kind, Running, target) && !kind.Claimed? && !kind.CheckpointResumed?
    ensures var r := FinishAttempt(j, target, now, result, failure, finishedAt);
            r.Ok? ==> j.state.Running? && StepOk(j, r.value, kind) && Closes(j, r.value, target)
                      && r.value.failure == failure && r.value.result == result && r.value.version == j.version + 1
  {
    hide ValidJob;
    FinishAttemptExact(j, target, now, result, failure, finishedAt);
    hide FinishAttempt;
  }

  lemma TransitionIsStep(j: Job, target: JobState, now: Time, availableAt: Option<Time>, kind: EventKind)
    requires ValidJob(j) && !j.state.Running? && !target.Running? && !kind.Claimed?
    requires CanTransition(j.state, target) ==> KindFits(kind, j.state, target)
    requires availableAt.Some? ==> j.createdAt <= availableAt.value
    ensures var r := Transition(j, target, now, availableAt);
            && (r.Ok? ==> StepOk(j, r.value, kind) && r.value.state == target && r.value.attempts == j.attempts
                          && (availableAt.Some? ==> r.value.availableAt == availableAt.value))
            && (r.Ok? <==> CanTransition(j.state, target) && j.updatedAt <= now
                           && (target.Retrying? ==> j.RetryEligible()))
  {
    hide ValidJob;
    TransitionExact(j, target, now, availableAt);
    hide Transition;
  }

  lemma InvGives(r: Record)
    requires Inv(r)
    ensures ValidJob(JobOf(r)) && Decode(r) == Ok(JobOf(r))
    ensures JobOf(r).state == r.row.cols.state && JobOf(r).version == r.row.cols.version
    ensures JobOf(r).state.Running? ==> JobOf(r).attempts != [] && JobOf(r).Last().state.Running?
    ensures JobOf(r).createdAt <= JobOf(r).updatedAt
  {
    hide LogOk, TableIs, LoadAttempts, ValidHistory;
  }

  /** The record stays as its lease owner knew it: same job, same lease, same history of steps. */
  ghost predicate Untouched(r: Record, r': Record) {
    JobOf(r') == JobOf(r) && r'.row.hold == r.row.hold && r'.log == r.log
  }

  // ---------------------------------------------------------------- the publication owner

  /** Answers that carry no authority over this attempt. */
  predicate Inconclusive(answer: Answer, job: Job)
    requires job.attempts != []
  {
    match answer
    case RaisedCancelled => true
    case Raised(_) => true
    case Malformed => true
    case Continuation(_) => true
    case Cancellation(_, facts, at) => facts != FactsOf(job) || at.None?
    case Completed(Published(_, facts)) => facts != FactsOf(job)
    case _ => false
  }

  /** The owner holds a continuation of this very attempt: every fact but the attempt's own identity is its own. */
  predicate Continues(answer: Answer, job: Job)
    requires job.attempts != []
  {
    answer.Continuation? && answer.facts.(attemptId := FactsOf(job).attemptId) == FactsOf(job)
  }

  /** The attempt that was running has been recorded as lost. */
  predicate Lost(a: Job, b: Job) {
    && a.state.Running? && a.Count() > 0
    && a.Count() <= b.Count()
    && (b.attempts[a.Count() - 1].state.Failed? || b.attempts[a.Count() - 1].state.Cancelled?)
  }

  /** The owner denied that this very attempt ever committed, or nobody was there to ask. */
  predicate Denies(answer: Answer, job: Job)
    requires job.attempts != []
  {
    || answer.NoReconciler?
    || answer.Absent?
    || (answer.Cancellation? && answer.facts == FactsOf(job))
  }

  lemma SettleFollows(
      r: Record, completion: Result<Job, Reason>, kind: EventKind, clock: Time, c: Time)
    requires Inv(r) && c <= clock && JobOf(r).state.Running?
    requires completion.Ok? ==> StepOk(JobOf(r), completion.value, kind) && !completion.value.state.Running?
    ensures var s := Settle(r, JobOf(r), completion, kind, clock);
            && s.Settled? && Follows(r, c, s.rec, clock, {}) && JobOf(s.rec) == s.job
            && (completion.Ok? ==> s.job == completion.value)
            && (completion.Err? ==> Untouched(r, s.rec))
  {
    hide Inv, StepOk, Follows, Persist, JobOf, Annotate;
    if completion.Err? {
      AnnotateFollows(r, Some(completion.error), clock, c);
    } else {
      PersistSucceeds(r, completion.value, Clear, kind, clock);
      PersistFollows(r, completion.value, Clear, None, kind, None, clock, c);
    }
  }

  lemma SettleCloses(
      r: Record, completion: Result<Job, Reason>, kind: EventKind, target: JobState, clock: Time, c: Time)
    requires Inv(r) && c <= clock && JobOf(r).state.Running?
    requires target.Succeeded? || target.Cancelled?
    requires completion.Ok? ==> StepOk(JobOf(r), completion.value, kind) && Closes(JobOf(r), completion.value, target)
    ensures var s := Settle(r, JobOf(r), completion, kind, clock);
            && s.Settled? && Follows(r, c, s.rec, clock, {}) && JobOf(s.rec) == s.job
            && (completion.Ok? ==> s.job == completion.value && s.job.state == target && s.job != JobOf(r))
            && (completion.Err? ==> Untouched(r, s.rec) && s.job == JobOf(r))
            && (Lost(JobOf(r), s.job) ==> completion.Ok? && target.Cancelled?)
  {
    hide Inv, StepOk, Follows, Persist, JobOf, Annotate;
    InvGives(r);
    SettleFollows(r, completion, kind, clock, c);
  }

  lemma PlainSettles(r: Record, result: JobResult, now: Time, clock: Time, c: Time)
    requires Inv(r) && c <= clock && JobOf(r).state.Running?
    ensures var s := Settle(r, JobOf(r), PlainCompletion(JobOf(r), result, now), PublicationRecovered, clock);
            && s.Settled? && Follows(r, c, s.rec, clock, {}) && JobOf(s.rec) == s.job
            && !Lost(JobOf(r), s.job)
            && (s.job == JobOf(r) || s.job.state.Succeeded?) && (s.job == JobOf(r) ==> Untouched(r, s.rec))
  {
    InvGives(r);
    hide Inv, Follows, JobOf, ValidJob, FinishAttempt, Settle;
    FinishIsStep(JobOf(r), Succeeded, now, Some(result), None, None, PublicationRecovered);
    SettleCloses(r, PlainCompletion(JobOf(r), result, now), PublicationRecovered, Succeeded, clock, c);
  }

  lemma PublishedSettles(r: Record, result: JobResult, facts: Facts, now: Time, clock: Time, c: Time)
    requires Inv(r) && c <= clock && JobOf(r).state.Running? && JobOf(r).attempts != []
    ensures var s := Settle(r, JobOf(r), PublishedCompletion(JobOf(r), result, facts, now), PublicationRecovered, clock);
            && s.Settled? && Follows(r, c, s.rec, clock, {}) && JobOf(s.rec) == s.job
            && !Lost(JobOf(r), s.job)
            && (s.job == JobOf(r) || s.job.state.Succeeded?) && (s.job == JobOf(r) ==> Untouched(r, s.rec))
            && (facts != FactsOf(JobOf(r)) ==> Untouched(r, s.rec))
  {
    InvGives(r);
    hide Inv, Follows, JobOf, ValidJob, FinishAttempt, Settle;
    var at := Later(Later(now, JobOf(r).updatedAt), result.completedAt);
    FinishIsStep(JobOf(r), Succeeded, at, Some(result), None, Some(result.completedAt), PublicationRecovered);
    SettleCloses(r, PublishedCompletion(JobOf(r), result, facts, now), PublicationRecovered, Succeeded, clock, c);
  }

  lemma CancelledSettles(r: Record, facts: Facts, completedAt: Option<Time>, now: Time, clock: Time, c: Time)
    requires Inv(r) && c <= clock && JobOf(r).state.Running? && JobOf(r).attempts != []
    ensures var s := Settle(r, JobOf(r), CancelledCompletion(JobOf(r), facts, completedAt, now), PublicationCancelled, clock);
            && s.Settled? && Follows(r, c, s.rec, clock, {}) && JobOf(s.rec) == s.job
            && (Lost(JobOf(r), s.job) ==> facts == FactsOf(JobOf(r)))
            && (s.job == JobOf(r) || s.job.state.Cancelled?) && (s.job == JobOf(r) ==> Untouched(r, s.rec))
            && (facts != FactsOf(JobOf(r)) || completedAt.None? ==> Untouched(r, s.rec))
  {
    InvGives(r);
    hide Inv, Follows, JobOf, ValidJob, FinishAttempt, Settle;
    if completedAt.Some? {
      var at := Later(Later(now, JobOf(r).updatedAt), completedAt.value);
      FinishIsStep(JobOf(r), Cancelled, at, None, None, completedAt, PublicationCancelled);
    }
    SettleCloses(r, CancelledCompletion(JobOf(r), facts, completedAt, now), PublicationCancelled, Cancelled, clock, c);
  }

  /** An answer without authority only schedules another look. */
  lemma SilentFollows(r: Record, now: Time, answer: Answer, clock: Time, allow: bool, c: Time)
    requires Inv(r) && c <= clock && JobOf(r).state.Running? && JobOf(r).attempts != []
    requires answer.Continuation? || answer.RaisedCancelled? || answer.Raised? || answer.Malformed?
    ensures var s := Reconcile(r, JobOf(r), now, answer, clock, allow);
            && (s.Settled? || s.Resumable?) && (s.Resumable? <==> allow && Continues(answer, JobOf(r)))
            && (s.Settled? ==> Follows(r, c, s.rec, clock, {}) && s.job == JobOf(r) == JobOf(s.rec)
                               && Untouched(r, s.rec) && !Lost(JobOf(r), s.job))
  {
    InvGives(r);
    hide Resumptions, Inv, Follows, JobOf, Annotate, ValidJob, FactsOf;
    FollowsRefl(r, c, clock, {});
    if answer.Raised? {
      var reason := answer.reason;
      AnnotateFollows(r, Some(if reason.FinishUnknown? || reason.FactsUnknown? then reason else AuthorityUnavailable), clock, c);
    }
    AnnotateFollows(r, Some(FinishUnknown), clock, c);
    AnnotateFollows(r, Some(FactsUnknown), clock, c);
  }

  /** A settled row: untouched, or closed as the owner vouches; lost only on its word about this very attempt. */
  ghost predicate SettledAs(r: Record, c: Time, s: Settlement, clock: Time, answer: Answer)
    requires JobOf(r).attempts != []
  {
    s.Settled? ==>
      && Follows(r, c, s.rec, clock, {}) && JobOf(s.rec) == s.job
      && (s.job == JobOf(r) || s.job.state.Succeeded? || s.job.state.Cancelled?)
      && (s.job == JobOf(r) ==> Untouched(r, s.rec))
      && (Lost(JobOf(r), s.job) ==> answer.Cancellation? && answer.facts == FactsOf(JobOf(r)))
      && (Inconclusive(answer, JobOf(r)) ==> Untouched(r, s.rec))
  }

  /** Completions and cancellations. */
  lemma VouchedFollows(r: Record, now: Time, answer: Answer, clock: Time, allow: bool, c: Time)
    requires Inv(r) && c <= clock && JobOf(r).state.Running? && JobOf(r).attempts != []
    requires answer.Completed? || answer.Cancellation?
    ensures var s := Reconcile(r, JobOf(r), now, answer, clock, allow);
            s.Settled? && SettledAs(r, c, s, clock, answer)
  {
    hide Inv, Follows, JobOf, Annotate, ValidJob, Settle, PlainCompletion, PublishedCompletion, CancelledCompletion, FactsOf;
    hide Untouched, Lost;
    match answer
    case Completed(Plain(result)) => PlainSettles(r, result, now, clock, c);
    case Completed(Published(result, facts)) => PublishedSettles(r, result, facts, now, clock, c);
    case Cancellation(_, facts, completedAt) => CancelledSettles(r, facts, completedAt, now, clock, c);
  }

  /** What the owner's answer does to the locked row. */
  lemma ReconcileFollows(r: Record, now: Time, answer: Answer, clock: Time, allow: bool, c: Time)
    requires Inv(r) && c <= clock && JobOf(r).state.Running? && JobOf(r).attempts != []
    ensures var s := Reconcile(r, JobOf(r), now, answer, clock, allow);
            && !s.Stopped?
            && (s.NotHandled? <==> answer.NoReconciler? || answer.Absent?)
            && (s.Resumable? <==> allow && Continues(answer, JobOf(r)))
            && SettledAs(r, c, s, clock, answer)
  {
    hide Inv, Follows, JobOf, Untouched, Lost;
    if answer.NoReconciler? || answer.Absent? {
    } else {
      hide Reconcile;
      if answer.Completed? || answer.Cancellation? {
        VouchedFollows(r, now, answer, clock, allow, c);
      } else {
        SilentFollows(r, now, answer, clock, allow, c);
      }
    }
  }

  // ---------------------------------------------------------------- the owner's operations

  lemma RetryFollows(r: Record, at: Time, clock: Time, c: Time)
    requires Inv(r) && c <= clock && JobOf(r).RetryEligible() && JobOf(r).state.Failed? && JobOf(r).updatedAt <= at
    ensures var j, t := JobOf(r), RetryTxn(r, JobOf(r), at, clock);
            && t.Commit? && Follows(r, c, t.rec, clock, {}) && JobOf(t.rec) == t.job
            && t.job.attempts == j.attempts && t.job.state.Retrying? && t.job.version == j.version + 1
            && t.job.updatedAt == at
  {
    InvGives(r);
    hide Inv, Follows, JobOf, ValidJob, PersistTxn;
    TransitionIsStep(JobOf(r), Retrying, at, None, RetryScheduled);
    TxnFollows(r, Transition(JobOf(r), Retrying, at, None), Clear, None, RetryScheduled, None, clock, c);
  }

  lemma AvailableFollows(r: Record, due: Time, available: Time, clock: Time, c: Time)
    requires Inv(r) && c <= clock && JobOf(r).state.Retrying? && JobOf(r).updatedAt <= due <= available
    ensures var j := JobOf(r);
            var t := PersistTxn(r, Transition(j, Queued, due, Some(available)), j, Clear, None, Requeued, None, clock);
            && t.Commit? && Follows(r, c, t.rec, clock, {}) && JobOf(t.rec) == t.job
            && t.job.attempts == j.attempts && t.job.state.Queued? && t.job.version == j.version + 1
            && t.job.availableAt == available
  {
    InvGives(r);
    hide Inv, Follows, JobOf, ValidJob, PersistTxn, Transition;
    TransitionIsStep(JobOf(r), Queued, due, Some(available), Requeued);
    TxnFollows(r, Transition(JobOf(r), Queued, due, Some(available)), Clear, None, Requeued, None, clock, c);
  }

  lemma RequeueFollows(cfg: Config, r: Record, due: Time, clock: Time, c: Time)
    requires Inv(r) && c <= clock && JobOf(r).state.Retrying? && JobOf(r).updatedAt <= due
    ensures var j, t := JobOf(r), RequeueTxn(cfg, r, JobOf(r), due, clock);
            && t.Commit? && Follows(r, c, t.rec, clock, {}) && JobOf(t.rec) == t.job
            && t.job.attempts == j.attempts && t.job.state.Queued? && t.job.version == j.version + 1
            && t.job.availableAt == due + Backoff(cfg, j.Count())
  {
    hide Inv, Follows, JobOf, ValidJob, PersistTxn, Transition, Backoff;
    var available: Time := due + Backoff(cfg, JobOf(r).Count());
    AvailableFollows(r, due, available, clock, c);
  }

  lemma DeadLetterFollows(r: Record, at: Time, clock: Time, c: Time)
    requires Inv(r) && c <= clock && JobOf(r).state.Failed? && JobOf(r).updatedAt <= at
    ensures var j, t := JobOf(r), DeadLetterTxn(r, JobOf(r), at, clock);
            && t.Commit? && Follows(r, c, t.rec, clock, {}) && JobOf(t.rec) == t.job
            && t.job.attempts == j.attempts && t.job.state.DeadLetter? && t.job.version == j.version + 1
  {
    InvGives(r);
    hide Inv, Follows, JobOf, ValidJob, PersistTxn;
    TransitionIsStep(JobOf(r), DeadLetter, at, None, DeadLettered);
    TxnFollows(r, Transition(JobOf(r), DeadLetter, at, None), Clear, None, DeadLettered, None, clock, c);
  }

  /** A failed attempt ends requeued after its backoff while budget remains, else in the dead letters. */
  lemma AfterFailureFollows(cfg: Config, r: Record, now: Time, clock: Time, c: Time)
    requires Inv(r) && c <= clock && JobOf(r).state.Failed?
    ensures var failed, t := JobOf(r), AfterFailure(cfg, r, JobOf(r), now, clock);
            && t.Commit? && Follows(r, c, t.rec, clock, {}) && JobOf(t.rec) == t.job
            && t.job.attempts == failed.attempts
            && (if failed.RetryEligible() then
                  t.job.state.Queued? && t.job.version == failed.version + 2
                  && t.job.availableAt == Later(now, failed.updatedAt) + Backoff(cfg, failed.Count())
                else
                  t.job.state.DeadLetter? && t.job.version == failed.version + 1)
  {
    hide Inv, Follows, JobOf, Backoff, RetryTxn, RequeueTxn, DeadLetterTxn;
    var failed := JobOf(r);
    var at := Later(now, failed.updatedAt);
    if failed.RetryEligible() {
      RetryFollows(r, at, clock, c);
      var mid := RetryTxn(r, failed, at, clock);
      FollowsGives(r, c, mid.rec, clock, {});
      RequeueFollows(cfg, mid.rec, at, clock, clock);
      FollowsThen(r, c, mid.rec, clock, RequeueTxn(cfg, mid.rec, mid.job, at, clock).rec, clock);
    } else {
      DeadLetterFollows(r, at, clock, c);
    }
  }

  lemma FollowsThen(r: Record, c: Time, r1: Record, c1: Time, r2: Record, c2: Time)
    requires Follows(r, c, r1, c1, {}) && Follows(r1, c1, r2, c2, {})
    ensures Follows(r, c, r2, c2, {})
  {
    hide Follows;
    FollowsTrans(r, c, r1, c1, r2, c2, {}, {});
    var none: set<string> := {};
    assert none + none == none;
  }

  lemma FollowsGives(r: Record, c: Time, r': Record, c': Time, granted: set<string>)
    requires Follows(r, c, r', c', granted)
    ensures Inv(r')
  {
    hide Inv;
  }

  // ---------------------------------------------------------------- committed transactions

  /** What any committed owner, caller or polling transaction keeps, given the answer it consulted. */
  ghost predicate Keeps(r: Record, c: Time, t: Txn, clock: Time, answer: Answer) {
    t.Commit? ==>
      && Follows(r, c, t.rec, clock, {}) && JobOf(t.rec) == t.job
      && (JobOf(r).attempts != [] && Lost(JobOf(r), t.job) ==> Denies(answer, JobOf(r)))
      && (JobOf(r).attempts != [] && JobOf(r).state.Running? && Inconclusive(answer, JobOf(r)) ==> Untouched(r, t.rec))
  }

  lemma LockGives(r: Record, lease: Lease, expected: int, clock: Time)
    requires Inv(r) && LockLease(r, lease, expected, clock).Ok?
    ensures LockLease(r, lease, expected, clock).value == JobOf(r)
    ensures JobOf(r).state.Running? && JobOf(r).attempts != [] && JobOf(r).Last().state.Running?
    ensures r.row.hold.Some? && Live(r, lease.token, clock) && JobOf(r).version == expected
  {
    InvGives(r);
    hide Inv, JobOf, Decode;
  }

  /** The states a consulted owner can leave a running job in. */
  predicate SettledState(state: JobState) {
    state.Running? || state.Succeeded? || state.Cancelled?
  }

  lemma ReconcileKeeps(r: Record, now: Time, answer: Answer, clock: Time, allow: bool, c: Time)
    requires Inv(r) && c <= clock && JobOf(r).state.Running? && JobOf(r).attempts != []
    ensures var s := Reconcile(r, JobOf(r), now, answer, clock, allow);
            && !s.Stopped?
            && (s.Settled? ==>
                  && Keeps(r, c, Commit(s.rec, s.job), clock, answer)
                  && (s.job.state.Running? ==> s.job == JobOf(r)) && SettledState(s.job.state))
            && (s.Resumable? <==> allow && Continues(answer, JobOf(r)))
            && (s.Resumable? ==> Keeps(r, c, Commit(r, JobOf(r)), clock, answer))
            && (s.NotHandled? <==> answer.NoReconciler? || answer.Absent?)
  {
    hide Inv, JobOf, Reconcile, Follows;
    InvGives(r);
    ReconcileFollows(r, now, answer, clock, allow, c);
    FollowsRefl(r, c, clock, {});
  }

  /** A failed attempt leaves RUNNING only when the owner denies it, and then ends requeued or dead. */
  lemma FailKeeps(
      cfg: Config, r: Record, lease: Lease, failure: Failure, now: Time, expected: int, answer: Answer,
      lockClock: Time, writeClock: Time, c: Time)
    requires Inv(r) && c <= lockClock <= writeClock
    ensures var t := Fail(cfg, r, lease, failure, now, expected, answer, lockClock, writeClock);
            && Keeps(r, c, t, writeClock, answer)
            && (t.Commit? ==> JobOf(r).state.Running? && Live(r, lease.token, c) && JobOf(r).version == expected)
            && (t.Commit? && (answer.Absent? || answer.NoReconciler?) ==>
                  && t.job.Count() == JobOf(r).Count() && t.job.Last().failure == Some(failure)
                  && (if failure.retryable && t.job.Count() < t.job.maxAttempts
                      then t.job.state.Queued? && t.job.version == expected + 3
                      else t.job.state.DeadLetter? && t.job.version == expected + 2))
            && (t.Commit? && !answer.Absent? && !answer.NoReconciler? ==> SettledState(t.job.state))
  {
    hide Inv, JobOf, Reconcile, Follows, LockLease, FinishAttempt, PersistTxn, AfterFailure, StepOk;
    if LockLease(r, lease, expected, lockClock).Ok? {
      LockGives(r, lease, expected, lockClock);
      InvGives(r);
      ReconcileKeeps(r, now, answer, writeClock, false, c);
      if answer.Absent? || answer.NoReconciler? {
        FailedFollows(cfg, r, Some(lease), failure, now, FailedEvent, writeClock, c);
      }
    }
  }

  /** Close the attempt as failed and schedule what follows, in one transaction. */
  function FailTxn(
      cfg: Config, r: Record, job: Job, guard: Option<Lease>, failure: Failure, now: Time, kind: EventKind, clock: Time): Txn
  {
    var failed := PersistTxn(r, FinishAttempt(job, Failed, now, None, Some(failure), None), job, Clear, guard, kind, None, clock);
    if failed.Abort? then failed else AfterFailure(cfg, failed.rec, failed.job, now, clock)
  }

  lemma FailedFollows(
      cfg: Config, r: Record, guard: Option<Lease>, failure: Failure, now: Time, kind: EventKind,
      clock: Time, c: Time)
    requires Inv(r) && c <= clock && JobOf(r).state.Running? && JobOf(r).attempts != []
    requires kind.FailedEvent? || kind.LeaseExpired?
    ensures var j, t := JobOf(r), FailTxn(cfg, r, JobOf(r), guard, failure, now, kind, clock);
            && (t.Commit? ==>
                  && Follows(r, c, t.rec, clock, {}) && JobOf(t.rec) == t.job
                  && t.job.Count() == j.Count() > 0 && t.job.Last().failure == Some(failure)
                  && (if failure.retryable && t.job.Count() < t.job.maxAttempts
                      then t.job.state.Queued? && t.job.version == j.version + 3
                      else t.job.state.DeadLetter? && t.job.version == j.version + 2))
            && (guard.None? ==> (t.Commit? <==> FinishAttempt(j, Failed, now, None, Some(failure), None).Ok?))
  {
    hide Inv, JobOf, Follows, FinishAttempt, PersistTxn, AfterFailure;
    InvGives(r);
    var j := JobOf(r);
    var next := FinishAttempt(j, Failed, now, None, Some(failure), None);
    FinishIsStep(j, Failed, now, None, Some(failure), None, kind);
    TxnFollows(r, next, Clear, guard, kind, None, clock, c);
    var mid := PersistTxn(r, next, j, Clear, guard, kind, None, clock);
    if mid.Commit? {
      FollowsGives(r, c, mid.rec, clock, {});
      FailureKept(j, mid.job, failure);
      AfterFailureFollows(cfg, mid.rec, now, clock, clock);
      FollowsThen(r, c, mid.rec, clock, AfterFailure(cfg, mid.rec, mid.job, now, clock).rec, clock);
      FollowsLimits(mid.rec, clock, AfterFailure(cfg, mid.rec, mid.job, now, clock).rec, clock);
    }
  }

  lemma FollowsLimits(r: Record, c: Time, r': Record, c': Time)
    requires Follows(r, c, r', c', {})
    ensures JobOf(r').maxAttempts == JobOf(r).maxAttempts
  {
    hide Inv, JobOf;
  }

  lemma FailureKept(a: Job, b: Job, failure: Failure)
    requires ValidJob(b) && Closes(a, b, Failed) && b.failure == Some(failure)
    ensures b.Count() == a.Count() > 0 && b.Last().failure == Some(failure)
    ensures b.RetryEligible() <==> failure.retryable && b.Count() < b.maxAttempts
  {
    hide ValidHistory;
  }

  /** An acknowledgement either defers untouched or records success; it never records a loss. */
  lemma AcknowledgeKeeps(
      r: Record, lease: Lease, submitted: Completion, now: Time, expected: int, deadline: Option<Time>,
      answer: Answer, lockClock: Time, writeClock: Time, c: Time)
    requires Inv(r) && c <= lockClock <= writeClock
    ensures var t := Acknowledge(r, lease, submitted, now, expected, deadline, answer, lockClock, writeClock);
            t.Commit? ==>
              && Follows(r, c, t.rec, writeClock, {}) && JobOf(t.rec) == t.job
              && JobOf(r).state.Running? && Live(r, lease.token, c) && JobOf(r).version == expected
              && (if t.job.state.Succeeded? then t.job.result == Some(submitted.result) && t.job.version == expected + 1
                  else Untouched(r, t.rec))
              && (submitted.Plain? && JobOf(r).attempts != [] && Inconclusive(answer, JobOf(r)) ==> Untouched(r, t.rec))
              && (submitted.Published? && JobOf(r).attempts != [] && submitted.facts != FactsOf(JobOf(r)) ==> Untouched(r, t.rec))
  {
    hide Inv, JobOf, Follows, LockLease, FinishAttempt, PersistTxn, Annotate, StepOk, ValidJob;
    if LockLease(r, lease, expected, lockClock).Ok? {
      LockGives(r, lease, expected, lockClock);
      InvGives(r);
      var job := JobOf(r);
      var deferred := AcknowledgeDeferral(submitted, answer);
      if deferred.Some? {
        AnnotateFollows(r, deferred, writeClock, c);
      } else {
        var authority := if submitted.Plain? && answer.Completed? && answer.completion.Published?
                         then answer.completion else submitted;
        match authority {
          case Plain(result) =>
            FinishIsStep(job, Succeeded, now, Some(result), None, None, Acknowledged);
            TxnFollows(r, FinishAttempt(job, Succeeded, now, Some(result), None, None), Clear, Some(lease), Acknowledged, deadline, writeClock, c);
          case Published(result, facts) =>
            var done := PublishedCompletion(job, result, facts, now);
            if done.Err? {
              AnnotateFollows(r, Some(done.error), writeClock, c);
            } else {
              var at := Later(Later(now, job.updatedAt), result.completedAt);
              FinishIsStep(job, Succeeded, at, Some(result), None, Some(result.completedAt), Acknowledged);
              TxnFollows(r, Ok(done.value), Clear, Some(lease), Acknowledged, deadline, writeClock, c);
            }
        }
      }
    }
  }

  lemma HeartbeatKeeps(
      cfg: Config, r: Record, lease: Lease, expected: int, nonce: string, lockClock: Time, writeClock: Time, c: Time)
    requires Inv(r) && c <= lockClock <= writeClock
    ensures var t := Heartbeat(cfg, r, lease, expected, nonce, lockClock, writeClock);
            t.Commit? ==>
              && Follows(r, c, t.rec, writeClock, {}) && JobOf(t.rec) == t.job == JobOf(r)
              && Live(r, lease.token, c) && JobOf(r).version == expected && r.row.hold.Some?
              && t.rec.row == r.row.(hold := Some(r.row.hold.value.(until := writeClock + cfg.leaseSeconds)))
  {
    hide Inv, JobOf, Follows, LockLease;
    if LockLease(r, lease, expected, lockClock).Ok? {
      LockGives(r, lease, expected, lockClock);
      if LeaseLocks(r, lease, expected, writeClock) {
        RenewFollows(r, writeClock + cfg.leaseSeconds, nonce, writeClock, c);
      }
    }
  }

  /** A caller's cancellation has request authority only: it never takes a running lease. */
  lemma CancelKeeps(
      r: Record, scope: Scope, now: Time, expected: int, port: CancelPort, answer: Answer, clock: Time, c: Time)
    requires Inv(r) && c <= clock
    ensures var t := Cancel(r, scope, now, expected, port, answer, clock);
            && Keeps(r, c, t, clock, answer)
            && (t.Commit? && JobOf(r).state.Running? && (answer.Absent? || answer.NoReconciler?) ==> Untouched(r, t.rec))
            && (t.Commit? && !JobOf(r).state.Running? ==>
                  t.job.state.Cancelled? && CanTransition(JobOf(r).state, Cancelled))
  {
    hide Inv, JobOf, Reconcile, Follows, Decode, PersistTxn, Transition, StepOk;
    InvGives(r);
    if JobOf(r).state.Running? {
      ReconcileKeeps(r, now, answer, clock, false, c);
      FollowsRefl(r, c, clock, {});
    } else {
      TransitionIsStep(JobOf(r), Cancelled, now, None, CancelledEvent);
      TxnFollows(r, Transition(JobOf(r), Cancelled, now, None), Clear, None, CancelledEvent, None, clock, c);
    }
  }

  lemma CancelLeaseKeeps(
      r: Record, lease: Lease, now: Time, expected: int, port: CancelPort, answer: Answer,
      lockClock: Time, writeClock: Time, c: Time)
    requires Inv(r) && c <= lockClock <= writeClock
    ensures var t := CancelLease(r, lease, now, expected, port, answer, lockClock, writeClock);
            && Keeps(r, c, t, writeClock, answer)
            && (t.Commit? ==> JobOf(r).state.Running? && Live(r, lease.token, c) && JobOf(r).version == expected)
            && (t.Commit? && port.PortRaises? ==> t.rec == r)
            && (t.Commit? && !port.PortRaises? && (answer.Absent? || answer.NoReconciler?) ==> t.job.state.Cancelled?)
            && (t.Commit? ==> SettledState(t.job.state))
  {
    hide Inv, JobOf, Reconcile, Follows, LockLease, FinishAttempt, PersistTxn, StepOk;
    if LockLease(r, lease, expected, lockClock).Ok? {
      LockGives(r, lease, expected, lockClock);
      InvGives(r);
      FollowsRefl(r, c, writeClock, {});
      ReconcileKeeps(r, now, answer, writeClock, false, c);
      FinishIsStep(JobOf(r), Cancelled, now, None, None, None, CancelledEvent);
      TxnFollows(r, FinishAttempt(JobOf(r), Cancelled, now, None, None, None), Clear, Some(lease), CancelledEvent, None, writeClock, c);
    }
  }

  lemma RecoverPublicationKeeps(r: Record, scope: Scope, now: Time, answer: Answer, clock: Time, c: Time)
    requires Inv(r) && c <= clock
    ensures var t := RecoverPublication(r, scope, now, answer, clock);
            && Keeps(r, c, t, clock, answer)
            && (t.Commit? && (answer.Absent? || answer.NoReconciler?) ==> t.rec == r)
  {
    hide Inv, JobOf, Reconcile, Follows, Decode;
    InvGives(r);
    FollowsRefl(r, c, clock, {});
    if JobOf(r).state.Running? {
      ReconcileKeeps(r, now, answer, clock, false, c);
    }
  }

  /** Expiry recovery of a running row never breaks, and fails the lost attempt only when the owner denies it. */
  lemma RecoverExpiredKeeps(cfg: Config, r: Record, now: Time, answer: Answer, room: bool, clock: Time, c: Time)
    requires Inv(r) && c <= clock && JobOf(r).state.Running?
    ensures var e := RecoverExpired(cfg, r, now, answer, room, clock);
            && !e.Broken?
            && (e.Recovered? ==> Keeps(r, c, Commit(e.rec, JobOf(e.rec)), clock, answer))
            && (e.Offered? <==> JobOf(r).attempts != [] && Continues(answer, JobOf(r)) && room)
  {
    hide Inv, JobOf, Reconcile, Follows, Decode, FinishAttempt, PersistTxn, AfterFailure, Annotate, StepOk, Continues;
    InvGives(r);
    var job := JobOf(r);
    var at := Later(now, job.updatedAt);
    ReconcileKeeps(r, at, answer, clock, true, c);
    AnnotateFollows(r, None, clock, c);
    match Reconcile(r, job, at, answer, clock, true) {
      case Settled(rec', job') =>
        if job'.state.Running? {
          AnnotateKeeps(r, c, rec', job', clock, answer);
        }
      case NotHandled =>
        var failure := Failure("lease_expired", true, job.Count(), at);
        ExpiryCloses(job, at);
        FailedFollows(cfg, r, None, failure, at, LeaseExpired, clock, c);
      case _ =>
    }
  }

  lemma AnnotateKeeps(r: Record, c: Time, r': Record, job': Job, clock: Time, answer: Answer)
    requires Inv(r) && Keeps(r, c, Commit(r', job'), clock, answer) && job'.state.Running? && JobOf(r).state.Running?
    requires job' == JobOf(r)
    ensures var r2 := Annotate(r', JobOf(r), None, clock);
            Keeps(r, c, Commit(r2, JobOf(r2)), clock, answer) && JobOf(r2) == job'
  {
    hide Inv, JobOf, Follows, Annotate;
    FollowsGives(r, c, r', clock, {});
    AnnotateFollows(r', None, clock, clock);
    FollowsThen(r, c, r', clock, Annotate(r', JobOf(r), None, clock), clock);
  }

  lemma ExpiryCloses(j: Job, at: Time)
    requires ValidJob(j) && j.state.Running? && j.attempts != [] && j.updatedAt <= at
    ensures FinishAttempt(j, Failed, at, None, Some(Failure("lease_expired", true, j.Count(), at)), None).Ok?
  {
    FinishAttemptExact(j, Failed, at, None, Some(Failure("lease_expired", true, j.Count(), at)), None);
    LastFits(j.attempts, j.createdAt, j.updatedAt);
    hide ValidJob, FinishAttempt;
  }

  /** A grant goes to a queued row whose clock allows it, or resumes a running one without a new attempt. */
  lemma ClaimOneKeeps(
      cfg: Config, r: Record, worker: string, token: string, hint: Option<int>, now: Time, clock: Time, c: Time)
    requires Inv(r) && c <= clock
    ensures var j, t := JobOf(r), ClaimOne(cfg, r, worker, token, hint, now, clock);
            && (t.Commit? <==>
                  && (hint.Some? ==> hint.value == j.version)
                  && (j.state.Running? || (j.state.Queued? && j.updatedAt <= now)))
            && (t.Commit? ==>
                  && Follows(r, c, t.rec, clock, {token}) && JobOf(t.rec) == t.job
                  && t.job.state.Running? && t.job.version == j.version + 1
                  && t.rec.row.hold == Some(Hold(worker, token, clock, clock + cfg.leaseSeconds))
                  && (j.state.Running? ==> t.job.attempts == j.attempts && t.rec.row.recoveryAt == Some(clock)
                                           && Resumptions(t.rec)
                                              == Resumptions(r) + 1)
                  && (j.state.Queued? ==> t.job.attempts == j.attempts + [Attempt(j.Count() + 1, worker, Running, now, None, None)]
                                          && Resumptions(t.rec)
                                             == Resumptions(r)))
  {
    hide Inv, JobOf, Follows, ValidJob, Persist, StartAttempt, Resume, Decode, StepOk, Resumptions;
    InvGives(r);
    var j := JobOf(r);
    ResumeOrStart(j, worker, now);
    var kind := if j.state.Running? then CheckpointResumed else Claimed;
    var next := if j.state.Running? then Resume(j, now) else StartAttempt(j, worker, now);
    if next.Ok? {
      PersistSucceeds(r, next.value, Grant(worker, token, cfg.leaseSeconds), kind, clock);
      TxnFollows(r, next, Grant(worker, token, cfg.leaseSeconds), None, kind, None, clock, c);
      PersistRow(r, next.value, j.version, j.state, Grant(worker, token, cfg.leaseSeconds), None, kind, None, clock);
      var t := ClaimOne(cfg, r, worker, token, hint, now, clock);
      if t.Commit? {
        LoggedResumptions(r, t.rec, StepEvent(next.value, Some(j.state), kind));
      }
    }
  }

  lemma ResumeOrStart(j: Job, worker: string, now: Time)
    requires ValidJob(j)
    ensures var next := if j.state.Running? then Resume(j, now) else StartAttempt(j, worker, now);
            && (next.Ok? <==> j.state.Running? || (j.state.Queued? && j.updatedAt <= now))
            && (next.Ok? ==>
                  && StepOk(j, next.value, if j.state.Running? then CheckpointResumed else Claimed)
                  && next.value.state.Running? && next.value.version == j.version + 1
                  && next.value.attempts ==
                       if j.state.Running? then j.attempts
                       else j.attempts + [Attempt(j.Count() + 1, worker, Running, now, None, None)])
  {
    hide ValidJob, Resume, StartAttempt;
    if j.state.Running? {
      ResumeExact(j, now);
    } else {
      StartAttemptExact(j, worker, now);
      var a := Attempt(j.Count() + 1, worker, Running, now, None, None);
      assert (j.attempts + [a])[..j.Count()] == j.attempts;
    }
  }

  /** The first row of a job satisfies the invariant and holds no lease. */
  lemma InsertKeeps(job: Job)
    requires ValidJob(job)
    ensures Insert(job).Ok? <==> !job.state.Running?
    ensures Insert(job).Ok? ==> Inv(Insert(job).value) && JobOf(Insert(job).value) == job
                                && Insert(job).value.row.hold.None?
  {
    hide ValidJob, LoadAttempts, WriteAttempts;
    if !job.state.Running? {
      NumbersFit(job);
      HistoryWritten(map[], [], job.attempts);
      CreatedLog(job);
    }
  }

  lemma CreatedLog(job: Job)
    ensures LogOk(Columns(job), job.Count(), [StepEvent(job, None, Created)])
  {
    var e := StepEvent(job, None, Created);
    var none: seq<Event> := [];
    assert [e][..0] == none;
    assert Steps([e]) == [e] by {
      assert Steps(none) + [e] == [e];
    }
  }

  lemma QueuePendingKeeps(r: Record, clock: Time, c: Time)
    requires Inv(r) && c <= clock
    ensures var t := QueuePending(r, clock);
            && t.Commit? && Follows(r, c, t.rec, clock, {}) && JobOf(t.rec) == t.job
            && (if JobOf(r).state.Pending? then t.job.state.Queued? else t.rec == r)
  {
    hide Inv, JobOf, Follows, Decode, Transition, PersistTxn, StepOk;
    InvGives(r);
    FollowsRefl(r, c, clock, {});
    if JobOf(r).state.Pending? {
      TransitionIsStep(JobOf(r), Queued, JobOf(r).updatedAt, None, Enqueued);
      TxnFollows(r, Transition(JobOf(r), Queued, JobOf(r).updatedAt, None), Clear, None, Enqueued, None, clock, c);
    }
  }
}
