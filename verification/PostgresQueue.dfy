/**
 The queue adapter as it runs: one database session updates rows, attempts and
 events step by step, and an error rolls the whole transaction back. Each method
 is proved against the transaction it implements.
 */
module PostgresQueue {
  import opened Common
  import opened Jobs
  import opened JobStore
  import opened JobInvariant
  import opened JobTransactions
  import opened ClaimOrder
  import opened JobQueue

  /** The publication owner's reply as a session acts on it. */
  datatype Consulted = Unhandled | Handled(job: Job) | ToResume | Broke(error: QueueError)

  /** A transaction either replaced its row and answered, or left every row alone. */
  ghost predicate Committed(before: Rows, id: string, t: Txn, after: Rows, r: Result<Job, QueueError>) {
    match t
    case Commit(rec, job) => r == Ok(job) && after == before[id := rec]
    case Abort(error) => r == Err(error) && after == before
  }

  /** A statement inside a transaction: what it did, or the error that will roll everything back. */
  ghost predicate Applied(before: Rows, id: string, t: Txn, after: Rows, r: Result<Job, QueueError>) {
    match t
    case Commit(rec, job) => r == Ok(job) && after == before[id := rec]
    case Abort(error) => r == Err(error)
  }

  class PostgresJobQueue {
    const cfg: Config
    var rows: Rows

    constructor (cfg: Config)
      ensures this.cfg == cfg && rows == map[]
    {
      this.cfg, rows := cfg, map[];
    }

    /** The fenced write: row, history rows, one event, or nothing when the fence refuses. */
    method Store(
        id: string, job: Job, expected: int, from: JobState, change: LeaseChange, guard: Option<Lease>,
        kind: EventKind, deadline: Option<Time>, clock: Time) returns (error: Option<QueueError>)
      requires id in rows
      modifies this
      ensures match Persist(old(rows[id]), job, expected, from, change, guard, kind, deadline, clock)
              case Ok(rec) => error.None? && rows == old(rows)[id := rec]
              case Err(e) => error == Some(e) && rows == old(rows)
    {
      hide WriteAttempts, WriteEvent, GuardHolds, StepEvent, LoadAttempts;
      var rec := rows[id];
      if job.version != expected + 1 {
        return Some(ConcurrencyError);
      }
      if rec.row.cols.id != job.id || rec.row.cols.scope != job.scope || rec.row.cols.version != expected
         || (guard.Some? && !GuardHolds(rec.row, guard.value, clock))
         || (deadline.Some? && deadline.value <= clock)
      {
        return Some(if guard.Some? then LeaseError else ConcurrencyError);
      }
      var hold := if change.Clear? then None
                  else Some(Hold(change.worker, change.token, clock, clock + change.duration));
      var row := Row(
        Columns(job), job.Count(), hold,
        if kind.CheckpointResumed? then Some(clock) else rec.row.recoveryAt,
        if kind.PublicationRecovered? || kind.PublicationCancelled? then None else rec.row.lastError);
      var table := InsertAttempts(rec.attempts, job.attempts);
      rows := rows[id := Record(row, table, WriteEvent(rec.log, StepEvent(job, Some(from), kind)))];
      return None;
    }

    /** Persist what the contract allows. */
    method Write(
        id: string, from: Job, next: Result<Job, Refusal>, change: LeaseChange, guard: Option<Lease>,
        kind: EventKind, deadline: Option<Time>, clock: Time) returns (r: Result<Job, QueueError>)
      requires id in rows
      modifies this
      ensures Applied(old(rows), id, PersistTxn(old(rows[id]), next, from, change, guard, kind, deadline, clock), rows, r)
      ensures r.Err? ==> rows == old(rows)
    {
      hide Persist;
      if next.Err? {
        return Err(ContractError);
      }
      var error := Store(id, next.value, from.version, from.state, change, guard, kind, deadline, clock);
      return if error.None? then Ok(next.value) else Err(error.value);
    }

    /** Upsert the history one attempt at a time; a finished row refuses the update. */
    method InsertAttempts(before: map<int, Attempt>, attempts: seq<Attempt>) returns (t: map<int, Attempt>)
      ensures t == WriteAttempts(before, attempts)
    {
      t := before;
      for i := 0 to |attempts|
        invariant t == WriteAttempts(before, attempts[..i])
      {
        var a := attempts[i];
        if !(a.number in t && !t[a.number].state.Running?) {
          t := t[a.number := a];
        }
        assert attempts[..i + 1][..i] == attempts[..i];
      }
      assert attempts[..|attempts|] == attempts;
    }

    /** Schedule another look at a running row. */
    method Defer(id: string, job: Job, reason: Option<Reason>, clock: Time)
      requires id in rows
      modifies this
      ensures rows == old(rows)[id := Annotate(old(rows[id]), job, reason, clock)]
    {
      var rec := rows[id];
      if rec.row.cols.version == job.version && rec.row.cols.state.Running? {
        var lastError := if reason.Some? then reason else rec.row.lastError;
        rec := rec.(row := rec.row.(recoveryAt := Some(clock + 1.0), lastError := lastError));
      }
      rows := rows[id := rec];
    }

    /** Record a completion the owner vouches for, or remember why it does not fit. */
    method Conclude(id: string, job: Job, completion: Result<Job, Reason>, kind: EventKind, clock: Time)
      returns (c: Consulted)
      requires id in rows
      modifies this
      ensures match Settle(old(rows[id]), job, completion, kind, clock)
              case Settled(rec, job') => c == Handled(job') && rows == old(rows)[id := rec]
              case Stopped(error) => c == Broke(error)
              case _ => false
    {
      if completion.Err? {
        Defer(id, job, Some(completion.error), clock);
        return Handled(job);
      }
      var r := Write(id, job, Ok(completion.value), Clear, None, kind, None, clock);
      return if r.Ok? then Handled(r.value) else Broke(r.error);
    }

    /** Check the publication owner before an attempt may fail. */
    method Consult(id: string, job: Job, now: Time, answer: Answer, clock: Time, allow: bool) returns (c: Consulted)
      requires id in rows && job.attempts != []
      modifies this
      ensures match Reconcile(old(rows[id]), job, now, answer, clock, allow)
              case Settled(rec, job') => c == Handled(job') && rows == old(rows)[id := rec]
              case Stopped(error) => c == Broke(error)
              case NotHandled => c == Unhandled && rows == old(rows)
              case Resumable => c == ToResume && rows == old(rows)
    {
      hide Settle, Annotate, PlainCompletion, PublishedCompletion, CancelledCompletion, FactsOf;
      match answer
      case NoReconciler => c := Unhandled;
      case Absent => c := Unhandled;
      case Continuation(facts) =>
        c := if allow && facts.(attemptId := FactsOf(job).attemptId) == FactsOf(job) then ToResume else Handled(job);
      case Completed(Plain(result)) =>
        c := Conclude(id, job, PlainCompletion(job, result, now), PublicationRecovered, clock);
      case Completed(Published(result, facts)) =>
        c := Conclude(id, job, PublishedCompletion(job, result, facts, now), PublicationRecovered, clock);
      case Cancellation(_, facts, completedAt) =>
        c := Conclude(id, job, CancelledCompletion(job, facts, completedAt, now), PublicationCancelled, clock);
      case RaisedCancelled =>
        Defer(id, job, Some(FinishUnknown), clock);
        c := Handled(job);
      case Raised(reason) =>
        Defer(id, job, Some(if reason.FinishUnknown? || reason.FactsUnknown? then reason else AuthorityUnavailable), clock);
        c := Handled(job);
      case Malformed =>
        Defer(id, job, Some(FactsUnknown), clock);
        c := Handled(job);
    }

    /** Requeue a failed job after its backoff while budget remains, else dead-letter it. */
    method Reschedule(id: string, failed: Job, now: Time, clock: Time) returns (r: Result<Job, QueueError>)
      requires id in rows
      modifies this
      ensures Applied(old(rows), id, AfterFailure(cfg, old(rows[id]), failed, now, clock), rows, r)
    {
      hide PersistTxn, Transition;
      var at := Later(now, failed.updatedAt);
      if failed.RetryEligible() {
        r := Write(id, failed, Transition(failed, Retrying, at, None), Clear, None, RetryScheduled, None, clock);
        if r.Err? {
          return;
        }
        var retrying := r.value;
        var due := Later(at, retrying.updatedAt);
        var available: Time := due + Backoff(cfg, retrying.Count());
        r := Write(id, retrying, Transition(retrying, Queued, due, Some(available)), Clear, None, Requeued, None, clock);
      } else {
        r := Write(id, failed, Transition(failed, DeadLetter, at, None), Clear, None, DeadLettered, None, clock);
      }
    }

    method Fail(
        lease: Lease, failure: Failure, now: Time, expected: int, answer: Answer, lockClock: Time, writeClock: Time)
      returns (r: Result<Job, QueueError>)
      requires lease.jobId in rows ==> Inv(rows[lease.jobId])
      modifies this
      ensures lease.jobId !in old(rows) ==> r == Err(LeaseError) && rows == old(rows)
      ensures lease.jobId in old(rows) ==>
                Committed(old(rows), lease.jobId,
                          JobStore.Fail(cfg, old(rows[lease.jobId]), lease, failure, now, expected, answer, lockClock, writeClock),
                          rows, r)
    {
      hide Inv, JobOf, Decode, LeaseLocks, PersistTxn, AfterFailure, Reconcile, FinishAttempt;
      var id, saved := lease.jobId, rows;
      if id !in rows || !LeaseLocks(rows[id], lease, expected, lockClock) {
        return Err(LeaseError);
      }
      var locked := Decode(rows[id]);
      if locked.Err? {
        return Err(locked.error);
      }
      var job := locked.value;
      LockGives(rows[id], lease, expected, lockClock);
      var c := Consult(id, job, now, answer, writeClock, false);
      match c {
        case Handled(settled) => r := Ok(settled);
        case ToResume =>
          assert rows == rows[id := rows[id]];
          r := Ok(job);
        case Broke(error) => r := Err(error);
        case Unhandled =>
          r := Write(id, job, FinishAttempt(job, Failed, now, None, Some(failure), None),
                     Clear, Some(lease), FailedEvent, None, writeClock);
          if r.Ok? {
            r := Reschedule(id, r.value, now, writeClock);
          }
      }
      if r.Err? {
        rows := saved;
      }
    }

    method Acknowledge(
        lease: Lease, submitted: Completion, now: Time, expected: int, deadline: Option<Time>, answer: Answer,
        lockClock: Time, writeClock: Time)
      returns (r: Result<Job, QueueError>)
      requires lease.jobId in rows ==> Inv(rows[lease.jobId])
      modifies this
      ensures lease.jobId !in old(rows) ==> r == Err(LeaseError) && rows == old(rows)
      ensures lease.jobId in old(rows) ==>
                Committed(old(rows), lease.jobId,
                          JobStore.Acknowledge(old(rows[lease.jobId]), lease, submitted, now, expected, deadline, answer,
                                               lockClock, writeClock),
                          rows, r)
    {
      hide Inv, JobOf, Decode, LeaseLocks, PersistTxn, FinishAttempt, PublishedCompletion, Annotate;
      if deadline.Some? && deadline.value <= now {
        return Err(LeaseError);
      }
      var id := lease.jobId;
      if id !in rows || !LeaseLocks(rows[id], lease, expected, lockClock) {
        return Err(LeaseError);
      }
      var locked := Decode(rows[id]);
      if locked.Err? {
        return Err(locked.error);
      }
      var job := locked.value;
      LockGives(rows[id], lease, expected, lockClock);
      var authority := submitted;
      if submitted.Plain? {
        match answer
        case NoReconciler =>
        case Raised(_) =>
          Defer(id, job, Some(AuthorityUnavailable), writeClock);
          return Ok(job);
        case RaisedCancelled =>
          Defer(id, job, Some(AuthorityUnavailable), writeClock);
          return Ok(job);
        case Cancellation(raised, _, _) =>
          Defer(id, job, Some(if raised then AuthorityUnavailable else FactsUnknown), writeClock);
          return Ok(job);
        case Completed(Published(result, _)) =>
          if result != submitted.result {
            Defer(id, job, Some(AttemptConflict), writeClock);
            return Ok(job);
          }
          authority := answer.completion;
        case Completed(Plain(_)) =>
        case Absent =>
        case Continuation(_) =>
          Defer(id, job, Some(FactsUnknown), writeClock);
          return Ok(job);
        case Malformed =>
          Defer(id, job, Some(FactsUnknown), writeClock);
          return Ok(job);
      }
      if authority.Published? {
        var done := PublishedCompletion(job, authority.result, authority.facts, now);
        if done.Err? {
          Defer(id, job, Some(done.error), writeClock);
          return Ok(job);
        }
        r := Write(id, job, Ok(done.value), Clear, Some(lease), Acknowledged, deadline, writeClock);
      } else {
        r := Write(id, job, FinishAttempt(job, Succeeded, now, Some(authority.result), None, None),
                   Clear, Some(lease), Acknowledged, deadline, writeClock);
      }
    }

    // -------------------------------------------------------------- claiming

    /** Recover one expired row; `offered` asks the claim to resume it instead. */
    method RecoverRow(id: string, now: Time, answer: Answer, room: bool, clock: Time)
      returns (error: Option<QueueError>, offered: bool)
      requires id in rows
      modifies this
      ensures match RecoverExpired(cfg, old(rows[id]), now, answer, room, clock)
              case Broken(e) => error == Some(e)
              case Offered => error.None? && offered && rows == old(rows)
              case Recovered(rec) => error.None? && !offered && rows == old(rows)[id := rec]
    {
      hide JobOf, Decode, PersistTxn, AfterFailure, Reconcile, FinishAttempt, Annotate;
      offered := false;
      error := None;
      var decoded := Decode(rows[id]);
      if decoded.Err? {
        return Some(decoded.error), false;
      }
      var job := decoded.value;
      if job.attempts == [] || !job.Last().state.Running? {
        return Some(CorruptError), false;
      }
      var at := Later(now, job.updatedAt);
      var c := Consult(id, job, at, answer, clock, true);
      match c
      case Broke(e) => error := Some(e);
      case ToResume =>
        if room {
          offered := true;
        } else {
          Defer(id, job, None, clock);
        }
      case Handled(settled) =>
        if settled.state.Running? {
          Defer(id, job, None, clock);
        }
      case Unhandled =>
        var failure := JobFailure(job, at);
        var r := Write(id, job, FinishAttempt(job, Failed, at, None, Some(failure), None),
                       Clear, None, LeaseExpired, None, clock);
        if r.Ok? {
          r := Reschedule(id, r.value, at, clock);
        }
        if r.Err? {
          error := Some(r.error);
        }
    }

    function JobFailure(job: Job, at: Time): Failure {
      Failure("lease_expired", true, job.Count(), at)
    }

    /** Recover the selected rows in order and collect those to resume. */
    method Sweep(ks: seq<Key>, now: Time, answers: string -> Answer, clock: Time)
      returns (error: Option<QueueError>, offered: seq<string>)
      modifies this
      ensures match RecoverAll(cfg, old(rows), ks, now, answers, clock, [])
              case Swept(swept, chosen) => error.None? && rows == swept && offered == chosen
              case SweepFailed(e) => error == Some(e)
    {
      hide RecoverExpired;
      offered := [];
      error := None;
      var i := 0;
      while i < |ks|
        invariant 0 <= i <= |ks| && error.None?
        invariant RecoverAll(cfg, rows, ks[i..], now, answers, clock, offered)
                  == RecoverAll(cfg, old(rows), ks, now, answers, clock, [])
      {
        var id := ks[i].id;
        if id !in rows {
          return Some(UnavailableError), offered;
        }
        var offer;
        error, offer := RecoverRow(id, now, answers(id), |offered| < RECOVERY_LIMIT, clock);
        if error.Some? {
          return;
        }
        if offer {
          offered := offered + [id];
        }
        assert ks[i..][1..] == ks[i + 1..];
        i := i + 1;
      }
    }

    /** Hand the chosen rows out one by one, each under a token of its own. */
    method Grant(ks: seq<Key>, q: ClaimRequest) returns (error: Option<QueueError>, claimed: seq<Handout>)
      modifies this
      ensures match ClaimAll(cfg, old(rows), ks, q.worker, q.tokens, q.hints, q.now, q.late, [])
              case Granted(granted, grants) => error.None? && rows == granted && claimed == grants
              case BatchFailed(e) => error == Some(e)
    {
      hide Decode, StartAttempt, Resume, PersistTxn;
      claimed := [];
      error := None;
      var i := 0;
      while i < |ks|
        invariant 0 <= i <= |ks| && error.None? && i <= |q.tokens|
        invariant ClaimAll(cfg, rows, ks[i..], q.worker, q.tokens[i..], q.hints, q.now, q.late, claimed)
                  == ClaimAll(cfg, old(rows), ks, q.worker, q.tokens, q.hints, q.now, q.late, [])
      {
        var id := ks[i].id;
        if id !in rows || i == |q.tokens| {
          return Some(UnavailableError), claimed;
        }
        var decoded := Decode(rows[id]);
        if decoded.Err? {
          return Some(decoded.error), claimed;
        }
        var job := decoded.value;
        if id in q.hints && q.hints[id] != job.version {
          return Some(ConcurrencyError), claimed;
        }
        var next := if job.state.Running? then Resume(job, q.now) else StartAttempt(job, q.worker, q.now);
        var r := Write(id, job, next, LeaseChange.Grant(q.worker, q.tokens[i], cfg.leaseSeconds), None,
                       if job.state.Running? then CheckpointResumed else Claimed, None, q.late);
        if r.Err? {
          return Some(r.error), claimed;
        }
        if rows[id].row.hold.None? {
          return Some(LeaseError), claimed;
        }
        claimed := claimed + [Handout(r.value, LeaseOf(rows[id]))];
        assert ks[i..][1..] == ks[i + 1..] && q.tokens[i..][1..] == q.tokens[i + 1..];
        i := i + 1;
      }
    }

    /** One claim: sweep the expired rows, merge both lanes by durable age, hand out the oldest. */
    method Claim(q: ClaimRequest) returns (error: Option<QueueError>, claimed: seq<Handout>)
      modifies this
      ensures match JobQueue.Claim(cfg, old(rows), q)
              case Granted(granted, grants) => error.None? && rows == granted && claimed == grants
              case BatchFailed(e) => error == Some(e) && rows == old(rows) && claimed == []
    {
      hide RecoverAll, ClaimAll, Chosen, Selected;
      var saved := rows;
      var offered;
      claimed := [];
      error, offered := Sweep(Selected(rows, q), q.now, q.answers, q.at);
      if error.None? {
        error, claimed := Grant(Chosen(rows, offered, q), q);
      }
      if error.Some? {
        rows := saved;
        claimed := [];
      }
    }
  }
}
