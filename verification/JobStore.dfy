/**
 One durable job: its row, its rows in the attempts table and its rows in the
 event table, together with every transaction the canonical queue runs on it.
 A transaction either commits a new record or aborts and leaves nothing behind.
 */
module JobStore {
  import opened Common
  import opened Jobs

  /** The lease value a worker holds and presents. */
  datatype Lease = Lease(
    jobId: string, scope: Scope, worker: string, token: string,
    acquiredAt: Time, expiresAt: Time, heartbeatAt: Time)

  /** The lease columns of a row. */
  datatype Hold = Hold(worker: string, token: string, acquiredAt: Time, until: Time)

  datatype Reason = FinishUnknown | FactsUnknown | AuthorityUnavailable | AttemptConflict

  datatype EventKind =
    | Created | Enqueued | Claimed | CheckpointResumed | Acknowledged | FailedEvent
    | LeaseExpired | RetryScheduled | Requeued | DeadLettered | CancelledEvent
    | PublicationRecovered | PublicationCancelled | LeaseHeartbeat

  /** `job:<id>:<version>` for a persisted step, `job:<id>:heartbeat:<nonce>` for a renewal. */
  datatype EventId = StepId(job: string, version: int) | HeartbeatId(job: string, nonce: string)

  datatype Event = Event(
    id: EventId, kind: EventKind, from: Option<JobState>, to: JobState, version: int, count: nat)

  /** `cols` is the job row with its history column projected away. */
  datatype Row = Row(
    cols: Job, count: nat, hold: Option<Hold>, recoveryAt: Option<Time>, lastError: Option<Reason>)

  datatype Record = Record(row: Row, attempts: map<int, Attempt>, log: seq<Event>)

  datatype QueueError =
    | LeaseError | ConcurrencyError | ContractError | CorruptError | NotFoundError
    | CapacityError | IdempotencyError | UnavailableError

  datatype Config = Config(maxPending: nat, leaseSeconds: Time, backoffSeconds: Time)

  predicate ValidConfig(cfg: Config) {
    1 <= cfg.maxPending <= 100_000 && 0.1 <= cfg.leaseSeconds <= 86_400.0 && cfg.backoffSeconds <= 86_400.0
  }

  // ---------------------------------------------------------------- tables

  function Columns(j: Job): Job {
    j.(attempts := [])
  }

  /** SELECT ... ORDER BY attempt_no; attempt_no is checked to lie between 1 and 64. */
  function LoadUpTo(t: map<int, Attempt>, n: nat): seq<Attempt> {
    if n == 0 then [] else LoadUpTo(t, n - 1) + (if n in t then [t[n]] else [])
  }

  function LoadAttempts(t: map<int, Attempt>): seq<Attempt> {
    LoadUpTo(t, |t| + MAX_ATTEMPTS)
  }

  /** INSERT ... ON CONFLICT DO UPDATE ... WHERE state = 'RUNNING'. */
  function Upsert(t: map<int, Attempt>, a: Attempt): map<int, Attempt> {
    if a.number in t && !t[a.number].state.Running? then t else t[a.number := a]
  }

  function WriteAttempts(t: map<int, Attempt>, attempts: seq<Attempt>): map<int, Attempt> {
    if attempts == [] then t
    else Upsert(WriteAttempts(t, attempts[..|attempts| - 1]), attempts[|attempts| - 1])
  }

  predicate Logged(log: seq<Event>, id: EventId) {
    exists i :: 0 <= i < |log| && log[i].id == id
  }

  /** INSERT ... ON CONFLICT (event_id) DO NOTHING. */
  function WriteEvent(log: seq<Event>, e: Event): seq<Event> {
    if Logged(log, e.id) then log else log + [e]
  }

  function JobOf(rec: Record): Job {
    rec.row.cols.(attempts := LoadAttempts(rec.attempts))
  }

  function Decode(rec: Record): Result<Job, QueueError> {
    if rec.row.count != |LoadAttempts(rec.attempts)| || !ValidJob(JobOf(rec)) then Err(CorruptError)
    else Ok(JobOf(rec))
  }

  function StepEvent(job: Job, from: Option<JobState>, kind: EventKind): Event {
    Event(StepId(job.id, job.version), kind, from, job.state, job.version, job.Count())
  }

  datatype LeaseChange = Clear | Grant(worker: string, token: string, duration: Time)

  predicate GuardHolds(row: Row, guard: Lease, clock: Time) {
    && row.cols.state.Running?
    && row.hold.Some? && row.hold.value.worker == guard.worker && row.hold.value.token == guard.token
    && clock < row.hold.value.until
  }

  /** The single write path: version fence, optional lease and deadline guard, history, one event. */
  function Persist(
      rec: Record, job: Job, expected: int, from: JobState, change: LeaseChange,
      guard: Option<Lease>, kind: EventKind, deadline: Option<Time>, clock: Time): Result<Record, QueueError>
  {
    if job.version != expected + 1 then Err(ConcurrencyError)
    else if rec.row.cols.id != job.id || rec.row.cols.scope != job.scope || rec.row.cols.version != expected
            || (guard.Some? && !GuardHolds(rec.row, guard.value, clock))
            || (deadline.Some? && deadline.value <= clock)
    then Err(if guard.Some? then LeaseError else ConcurrencyError)
    else
      var hold := if change.Clear? then None
                  else Some(Hold(change.worker, change.token, clock, clock + change.duration));
      var row := Row(
        Columns(job), job.Count(), hold,
        if kind.CheckpointResumed? then Some(clock) else rec.row.recoveryAt,
        if kind.PublicationRecovered? || kind.PublicationCancelled? then None else rec.row.lastError);
      Ok(Record(row, WriteAttempts(rec.attempts, job.attempts),
                WriteEvent(rec.log, StepEvent(job, Some(from), kind))))
  }

  /** The row predicate every owner operation locks on. */
  predicate LeaseLocks(rec: Record, lease: Lease, expected: int, clock: Time) {
    && rec.row.cols.id == lease.jobId && rec.row.cols.scope == lease.scope
    && GuardHolds(rec.row, lease, clock)
    && rec.row.cols.version == expected
  }

  function LockLease(rec: Record, lease: Lease, expected: int, clock: Time): Result<Job, QueueError> {
    if LeaseLocks(rec, lease, expected, clock) then Decode(rec) else Err(LeaseError)
  }

  // ---------------------------------------------------------------- publication authority

  /** The attempt identity derived from persisted facts; a collision-free digest stands for its input. */
  datatype AttemptId = AttemptId(scope: Scope, jobId: string, count: int, startedAt: Time)

  datatype Facts = Facts(
    jobId: string, scope: Scope, attempt: int, createdAt: Time, startedAt: Time, attemptId: AttemptId)

  /** A plain handler result, or one carrying the publication owner's facts. */
  datatype Completion = Plain(result: JobResult) | Published(result: JobResult, facts: Facts)

  /** Everything the injected publication owner can answer, raised errors included. */
  datatype Answer =
    | NoReconciler
    | Absent
    | Continuation(facts: Facts)
    | Completed(completion: Completion)
    | Cancellation(raised: bool, facts: Facts, completedAt: Option<Time>)
    | RaisedCancelled
    | Raised(reason: Reason)
    | Malformed

  function FactsOf(j: Job): Facts
    requires j.attempts != []
  {
    Facts(j.id, j.scope, j.Count(), j.createdAt, j.Last().startedAt,
          AttemptId(j.scope, j.id, j.Count(), j.Last().startedAt))
  }

  function PlainCompletion(job: Job, result: JobResult, now: Time): Result<Job, Reason> {
    var r := FinishAttempt(job, Succeeded, now, Some(result), None, None);
    if r.Ok? then Ok(r.value) else Err(AttemptConflict)
  }

  function PublishedCompletion(job: Job, result: JobResult, facts: Facts, now: Time): Result<Job, Reason>
    requires job.attempts != []
  {
    if facts != FactsOf(job) then Err(AttemptConflict)
    else
      var at := Later(Later(now, job.updatedAt), result.completedAt);
      var r := FinishAttempt(job, Succeeded, at, Some(result), None, Some(result.completedAt));
      if r.Ok? then Ok(r.value) else Err(AttemptConflict)
  }

  function CancelledCompletion(job: Job, facts: Facts, completedAt: Option<Time>, now: Time): Result<Job, Reason>
    requires job.attempts != []
  {
    if facts != FactsOf(job) then Err(AttemptConflict)
    else if completedAt.None? then Err(FinishUnknown)
    else
      var at := Later(Later(now, job.updatedAt), completedAt.value);
      var r := FinishAttempt(job, Cancelled, at, None, None, completedAt);
      if r.Ok? then Ok(r.value) else Err(AttemptConflict)
  }

  /** Schedule another look at a running row; attempts, lease and version stay. */
  function Annotate(rec: Record, job: Job, reason: Option<Reason>, clock: Time): Record {
    if rec.row.cols.version == job.version && rec.row.cols.state.Running? then
      rec.(row := rec.row.(
             recoveryAt := Some(clock + 1.0),
             lastError := if reason.Some? then reason else rec.row.lastError))
    else rec
  }

  /** Outcome of consulting the publication owner inside a transaction. */
  datatype Settlement = NotHandled | Settled(rec: Record, job: Job) | Resumable | Stopped(error: QueueError)

  function Settle(
      rec: Record, job: Job, completion: Result<Job, Reason>, kind: EventKind, clock: Time): Settlement
  {
    if completion.Err? then Settled(Annotate(rec, job, Some(completion.error), clock), job)
    else
      var p := Persist(rec, completion.value, job.version, job.state, Clear, None, kind, None, clock);
      if p.Ok? then Settled(p.value, completion.value) else Stopped(p.error)
  }

  function Reconcile(
      rec: Record, job: Job, now: Time, answer: Answer, clock: Time, allowContinuation: bool): Settlement
    requires job.attempts != []
  {
    match answer
    case NoReconciler => NotHandled
    case Absent => NotHandled
    case Continuation(facts) =>
      if allowContinuation && facts.(attemptId := FactsOf(job).attemptId) == FactsOf(job) then Resumable
      else Settled(rec, job)
    case Completed(Plain(result)) =>
      Settle(rec, job, PlainCompletion(job, result, now), PublicationRecovered, clock)
    case Completed(Published(result, facts)) =>
      Settle(rec, job, PublishedCompletion(job, result, facts, now), PublicationRecovered, clock)
    case Cancellation(_, facts, completedAt) =>
      Settle(rec, job, CancelledCompletion(job, facts, completedAt, now), PublicationCancelled, clock)
    case RaisedCancelled => Settled(Annotate(rec, job, Some(FinishUnknown), clock), job)
    case Raised(reason) =>
      var known := if reason.FinishUnknown? || reason.FactsUnknown? then reason else AuthorityUnavailable;
      Settled(Annotate(rec, job, Some(known), clock), job)
    case Malformed => Settled(Annotate(rec, job, Some(FactsUnknown), clock), job)
  }

  // ---------------------------------------------------------------- transactions on one row

  datatype Txn = Commit(rec: Record, job: Job) | Abort(error: QueueError)

  const MAX_BACKOFF: Time := 86_400.0

  function Backoff(cfg: Config, attempt: nat): Time {
    var power := if attempt <= 1 then 0 else if attempt - 1 < 16 then attempt - 1 else 16;
    Capped(cfg.backoffSeconds, power, MAX_BACKOFF)
  }

  function PersistTxn(
      rec: Record, next: Result<Job, Refusal>, from: Job, change: LeaseChange, guard: Option<Lease>,
      kind: EventKind, deadline: Option<Time>, clock: Time): Txn
  {
    if next.Err? then Abort(ContractError)
    else
      var p := Persist(rec, next.value, from.version, from.state, change, guard, kind, deadline, clock);
      if p.Ok? then Commit(p.value, next.value) else Abort(p.error)
  }

  function RetryTxn(rec: Record, failed: Job, at: Time, clock: Time): Txn {
    PersistTxn(rec, Transition(failed, Retrying, at, None), failed, Clear, None, RetryScheduled, None, clock)
  }

  function RequeueTxn(cfg: Config, rec: Record, retrying: Job, due: Time, clock: Time): Txn {
    var available: Time := due + Backoff(cfg, retrying.Count());
    PersistTxn(rec, Transition(retrying, Queued, due, Some(available)), retrying, Clear, None, Requeued, None, clock)
  }

  function DeadLetterTxn(rec: Record, failed: Job, at: Time, clock: Time): Txn {
    PersistTxn(rec, Transition(failed, DeadLetter, at, None), failed, Clear, None, DeadLettered, None, clock)
  }

  /** A failed attempt is retried after a backoff or moved to the dead letters, in the same transaction. */
  function AfterFailure(cfg: Config, rec: Record, failed: Job, now: Time, clock: Time): Txn {
    var at := Later(now, failed.updatedAt);
    if failed.RetryEligible() then
      var retrying := RetryTxn(rec, failed, at, clock);
      if retrying.Abort? then retrying
      else RequeueTxn(cfg, retrying.rec, retrying.job, Later(at, retrying.job.updatedAt), clock)
    else
      DeadLetterTxn(rec, failed, at, clock)
  }

  function Fail(
      cfg: Config, rec: Record, lease: Lease, failure: Failure, now: Time, expected: int,
      answer: Answer, lockClock: Time, writeClock: Time): Txn
  {
    var locked := LockLease(rec, lease, expected, lockClock);
    if locked.Err? then Abort(locked.error)
    else
      var job := locked.value;
      match Reconcile(rec, job, now, answer, writeClock, false)
      case Stopped(error) => Abort(error)
      case Settled(rec', job') => Commit(rec', job')
      case Resumable => Commit(rec, job)
      case NotHandled =>
        var failed := PersistTxn(rec, FinishAttempt(job, Failed, now, None, Some(failure), None), job,
                                 Clear, Some(lease), FailedEvent, None, writeClock);
        if failed.Abort? then failed else AfterFailure(cfg, failed.rec, failed.job, now, writeClock)
  }

  function Acknowledge(
      rec: Record, lease: Lease, submitted: Completion, now: Time, expected: int, deadline: Option<Time>,
      answer: Answer, lockClock: Time, writeClock: Time): Txn
  {
    if deadline.Some? && deadline.value <= now then Abort(LeaseError)
    else
      var locked := LockLease(rec, lease, expected, lockClock);
      if locked.Err? then Abort(locked.error)
      else
        var job := locked.value;
        var deferred := AcknowledgeDeferral(submitted, answer);
        if deferred.Some? then Commit(Annotate(rec, job, deferred, writeClock), job)
        else
          var authority := if submitted.Plain? && answer.Completed? && answer.completion.Published?
                           then answer.completion else submitted;
          match authority
          case Published(result, facts) =>
            var done := PublishedCompletion(job, result, facts, now);
            if done.Err? then Commit(Annotate(rec, job, Some(done.error), writeClock), job)
            else PersistTxn(rec, Ok(done.value), job, Clear, Some(lease), Acknowledged, deadline, writeClock)
          case Plain(result) =>
            PersistTxn(rec, FinishAttempt(job, Succeeded, now, Some(result), None, None), job,
                       Clear, Some(lease), Acknowledged, deadline, writeClock)
  }

  /** Why an ordinary result may not be acknowledged yet, given what the publication owner said. */
  function AcknowledgeDeferral(submitted: Completion, answer: Answer): Option<Reason> {
    if submitted.Published? || answer.NoReconciler? then None
    else match answer
      case Raised(_) => Some(AuthorityUnavailable)
      case RaisedCancelled => Some(AuthorityUnavailable)
      case Cancellation(raised, _, _) => Some(if raised then AuthorityUnavailable else FactsUnknown)
      case Completed(Published(result, _)) => if result != submitted.result then Some(AttemptConflict) else None
      case Completed(Plain(_)) => None
      case Absent => None
      case _ => Some(FactsUnknown)
  }

  function Heartbeat(
      cfg: Config, rec: Record, lease: Lease, expected: int, nonce: string,
      lockClock: Time, writeClock: Time): Txn
  {
    var locked := LockLease(rec, lease, expected, lockClock);
    if locked.Err? then Abort(locked.error)
    else if !LeaseLocks(rec, lease, expected, writeClock) then Abort(LeaseError)
    else
      var job := locked.value;
      var e := Event(HeartbeatId(job.id, nonce), LeaseHeartbeat, Some(job.state), job.state, job.version, job.Count());
      Commit(rec.(row := rec.row.(hold := Some(rec.row.hold.value.(until := writeClock + cfg.leaseSeconds))),
                  log := WriteEvent(rec.log, e)), job)
  }

  /** The publication owner's cancellation port: absent, raising, or accepting the request. */
  datatype CancelPort = NoPort | PortRaises | PortAccepts

  function Cancel(
      rec: Record, scope: Scope, now: Time, expected: int, port: CancelPort, answer: Answer, clock: Time): Txn
  {
    if rec.row.cols.scope != scope then Abort(NotFoundError)
    else
      var decoded := Decode(rec);
      if decoded.Err? then Abort(decoded.error)
      else
        var job := decoded.value;
        if expected != job.version then Abort(ConcurrencyError)
        else if job.state.Running? then
          if port.NoPort? then Abort(LeaseError)
          else if port.PortRaises? then Abort(UnavailableError)
          else
            match Reconcile(rec, job, now, answer, clock, false)
            case Stopped(error) => Abort(error)
            case Settled(rec', job') => Commit(rec', job')
            case _ => Commit(rec, job)
        else
          PersistTxn(rec, Transition(job, Cancelled, now, None), job, Clear, None, CancelledEvent, None, clock)
  }

  function CancelLease(
      rec: Record, lease: Lease, now: Time, expected: int, port: CancelPort, answer: Answer,
      lockClock: Time, writeClock: Time): Txn
  {
    var locked := LockLease(rec, lease, expected, lockClock);
    if locked.Err? then Abort(locked.error)
    else
      var job := locked.value;
      if port.PortRaises? then Commit(rec, job)
      else
        match Reconcile(rec, job, now, answer, writeClock, false)
        case Stopped(error) => Abort(error)
        case Settled(rec', job') => Commit(rec', job')
        case Resumable => Commit(rec, job)
        case NotHandled =>
          PersistTxn(rec, FinishAttempt(job, Cancelled, now, None, None, None), job,
                     Clear, Some(lease), CancelledEvent, None, writeClock)
  }

  /** The scoped polling seam: it settles a running row and never starts an attempt. */
  function RecoverPublication(rec: Record, scope: Scope, now: Time, answer: Answer, clock: Time): Txn {
    if rec.row.cols.scope != scope then Abort(NotFoundError)
    else
      var decoded := Decode(rec);
      if decoded.Err? then Abort(decoded.error)
      else if !decoded.value.state.Running? then Commit(rec, decoded.value)
      else
        match Reconcile(rec, decoded.value, now, answer, clock, false)
        case Stopped(error) => Abort(error)
        case Settled(rec', job') => Commit(rec', job')
        case _ => Commit(rec, decoded.value)
  }

  /** Expiry recovery of one row: settled, failed on behalf of the lost owner, or offered for resumption. */
  datatype Recovery = Recovered(rec: Record) | Offered | Broken(error: QueueError)

  function RecoverExpired(
      cfg: Config, rec: Record, now: Time, answer: Answer, room: bool, clock: Time): Recovery
  {
    var decoded := Decode(rec);
    if decoded.Err? then Broken(decoded.error)
    else
      var job := decoded.value;
      if job.attempts == [] || !job.Last().state.Running? then Broken(CorruptError)
      else
        var at := Later(now, job.updatedAt);
        match Reconcile(rec, job, at, answer, clock, true)
        case Stopped(error) => Broken(error)
        case Resumable => if room then Offered else Recovered(Annotate(rec, job, None, clock))
        case Settled(rec', job') =>
          Recovered(if job'.state.Running? then Annotate(rec', job, None, clock) else rec')
        case NotHandled =>
          var failure := Failure("lease_expired", true, job.Count(), at);
          var failed := PersistTxn(rec, FinishAttempt(job, Failed, at, None, Some(failure), None), job,
                                   Clear, None, LeaseExpired, None, clock);
          if failed.Abort? then Broken(failed.error)
          else
            var done := AfterFailure(cfg, failed.rec, failed.job, at, clock);
            if done.Abort? then Broken(done.error) else Recovered(done.rec)
  }

  /** Claim a queued row or resume a running one under a fresh token. */
  function ClaimOne(
      cfg: Config, rec: Record, worker: string, token: string, hint: Option<int>, now: Time, clock: Time): Txn
  {
    var decoded := Decode(rec);
    if decoded.Err? then Abort(decoded.error)
    else
      var job := decoded.value;
      if hint.Some? && hint.value != job.version then Abort(ConcurrencyError)
      else
        var next := if job.state.Running? then Resume(job, now) else StartAttempt(job, worker, now);
        PersistTxn(rec, next, job, Grant(worker, token, cfg.leaseSeconds), None,
                   if job.state.Running? then CheckpointResumed else Claimed, None, clock)
  }

  /** The first row of a job; a CHECK constraint refuses a running row without lease columns. */
  function Insert(job: Job): Result<Record, QueueError> {
    if job.state.Running? then Err(UnavailableError)
    else Ok(Record(Row(Columns(job), job.Count(), None, None, None),
                   WriteAttempts(map[], job.attempts), [StepEvent(job, None, Created)]))
  }

  /** Queue an inserted or replayed pending row. */
  function QueuePending(rec: Record, clock: Time): Txn {
    var decoded := Decode(rec);
    if decoded.Err? then Abort(decoded.error)
    else if !decoded.value.state.Pending? then Commit(rec, decoded.value)
    else
      var job := decoded.value;
      PersistTxn(rec, Transition(job, Queued, job.updatedAt, None), job, Clear, None, Enqueued, None, clock)
  }
}
