/**
 What every committed transaction keeps for one durable job: the three tables
 agree, history is append-only, the event log replays to the row, terminal jobs
 are frozen, and no lease that was dead comes back to life.
 */
module JobInvariant {
  import opened Common
  import opened Jobs
  import opened JobStore

  // ---------------------------------------------------------------- the attempts table

  ghost predicate TableIs(t: map<int, Attempt>, attempts: seq<Attempt>) {
    && (forall n :: n in t <==> 1 <= n <= |attempts|)
    && (forall i :: 0 <= i < |attempts| ==> t[i + 1] == attempts[i])
  }

  lemma {:induction false} LoadsBack(t: map<int, Attempt>, attempts: seq<Attempt>, n: nat)
    requires TableIs(t, attempts)
    ensures LoadUpTo(t, n) == if n <= |attempts| then attempts[..n] else attempts
  {
    if n > 0 {
      LoadsBack(t, attempts, n - 1);
      if n <= |attempts| {
        assert t[n - 1 + 1] == attempts[n - 1];
        assert attempts[..n] == attempts[..n - 1] + [attempts[n - 1]];
      }
    }
  }

  predicate Numbered(attempts: seq<Attempt>) {
    forall i :: 0 <= i < |attempts| ==> attempts[i].number == i + 1
  }

  lemma UpsertOne(t: map<int, Attempt>, held: seq<Attempt>, a: Attempt)
    requires TableIs(t, held) && 1 <= a.number <= |held| + 1
    requires a.number <= |held| ==> held[a.number - 1].state.Running? || held[a.number - 1] == a
    ensures TableIs(Upsert(t, a), if a.number <= |held| then held[a.number - 1 := a] else held + [a])
  {
  }

  /** A history whose first attempts have been rewritten. */
  function Overlay(before: seq<Attempt>, written: seq<Attempt>): seq<Attempt> {
    if |written| <= |before| then written + before[|written|..] else written
  }

  lemma OverlayNext(before: seq<Attempt>, written: seq<Attempt>, a: Attempt)
    ensures var held, n := Overlay(before, written), |written|;
            Overlay(before, written + [a]) == if n < |held| then held[n := a] else held + [a]
  {
  }

  /** Upserting a grown history leaves the table equal to it, because only running rows change. */
  lemma {:induction false} WriteReplaces(t: map<int, Attempt>, before: seq<Attempt>, written: seq<Attempt>)
    requires TableIs(t, before) && Numbered(written)
    requires forall i :: 0 <= i < |before| && i < |written| ==> before[i].state.Running? || before[i] == written[i]
    ensures TableIs(WriteAttempts(t, written), Overlay(before, written))
  {
    if written == [] {
      assert Overlay(before, written) == before;
    } else {
      hide TableIs, Upsert;
      var n := |written| - 1;
      WriteReplaces(t, before, written[..n]);
      assert written[..n] + [written[n]] == written;
      UpsertOne(WriteAttempts(t, written[..n]), Overlay(before, written[..n]), written[n]);
      OverlayNext(before, written[..n], written[n]);
    }
  }

  // ---------------------------------------------------------------- the event log

  /** The events that record persisted steps, renewals dropped. */
  function Steps(log: seq<Event>): seq<Event> {
    if log == [] then []
    else
      var last := log[|log| - 1];
      Steps(log[..|log| - 1]) + (if last.kind.LeaseHeartbeat? then [] else [last])
  }

  function CountKind(steps: seq<Event>, kind: EventKind): nat {
    if steps == [] then 0
    else CountKind(steps[..|steps| - 1], kind) + (if steps[|steps| - 1].kind == kind then 1 else 0)
  }

  /** The states each kind of step connects. */
  predicate KindFits(kind: EventKind, from: JobState, to: JobState) {
    match kind
    case Enqueued => from.Pending? && to.Queued?
    case Claimed => from.Queued? && to.Running?
    case CheckpointResumed => from.Running? && to.Running?
    case Acknowledged => from.Running? && to.Succeeded?
    case PublicationRecovered => from.Running? && to.Succeeded?
    case PublicationCancelled => from.Running? && to.Cancelled?
    case FailedEvent => from.Running? && to.Failed?
    case LeaseExpired => from.Running? && to.Failed?
    case RetryScheduled => from.Failed? && to.Retrying?
    case Requeued => from.Retrying? && to.Queued?
    case DeadLettered => from.Failed? && to.DeadLetter?
    case CancelledEvent => CanTransition(from, to) && to.Cancelled?
    case _ => false
  }

  /** Replay the steps from the creation: the state reached, if every step starts where the last ended. */
  function Replay(steps: seq<Event>): Option<JobState> {
    if steps == [] then None
    else
      var last := steps[|steps| - 1];
      if |steps| == 1 then (if last.kind.Created? && last.from.None? then Some(last.to) else None)
      else if last.from.Some? && Replay(steps[..|steps| - 1]) == last.from
              && KindFits(last.kind, last.from.value, last.to)
      then Some(last.to)
      else None
  }

  /** The persisted steps of one job: gap-free versions, chained states, one claim an attempt. */
  predicate StepsOk(steps: seq<Event>, id: string, version: int, state: JobState, count: nat) {
    && steps != []
    && Replay(steps) == Some(state)
    && (forall i :: 0 <= i < |steps| ==>
          && steps[i].version == version - |steps| + 1 + i
          && steps[i].id == StepId(id, version - |steps| + 1 + i))
    && count == steps[0].count + CountKind(steps, Claimed)
  }

  predicate EntriesOk(log: seq<Event>, version: int) {
    forall i :: 0 <= i < |log| ==>
      && (log[i].id.HeartbeatId? <==> log[i].kind.LeaseHeartbeat?)
      && (log[i].id.StepId? ==> log[i].id.version <= version)
  }

  predicate LogOk(job: Job, count: nat, log: seq<Event>) {
    StepsOk(Steps(log), job.id, job.version, job.state, count) && EntriesOk(log, job.version)
  }

  // ---------------------------------------------------------------- invariant and progress

  ghost predicate Inv(rec: Record) {
    && ValidJob(JobOf(rec))
    && TableIs(rec.attempts, JobOf(rec).attempts)
    && rec.row.cols.attempts == []
    && rec.row.count == JobOf(rec).Count()
    && (rec.row.cols.state.Running? <==> rec.row.hold.Some?)
    && LogOk(rec.row.cols, rec.row.count, rec.log)
  }

  /** The lease that may still commit: right token, running, unexpired. */
  predicate Live(rec: Record, token: string, clock: Time) {
    && rec.row.cols.state.Running?
    && rec.row.hold.Some? && rec.row.hold.value.token == token && clock < rec.row.hold.value.until
  }

  /** How often the job has been handed to a new lease at a checkpoint. */
  function Resumptions(rec: Record): nat {
    CountKind(Steps(rec.log), CheckpointResumed)
  }

  /** The facts a commit must keep between a record at one clock and its successor at a later one. */
  ghost predicate Follows(r: Record, c: Time, r': Record, c': Time, granted: set<string>) {
    var j, j' := JobOf(r), JobOf(r');
    && c <= c'
    && Inv(r')
    && SameRequest(j, j')
    && j.version <= j'.version
    && (j.version == j'.version ==> j == j' && SameOwner(r.row.hold, r'.row.hold))
    && r.log <= r'.log
    && HistoryKept(j.attempts, j'.attempts)
    && (j.state.Terminal() ==> j == j')
    && (forall t :: t !in granted && Live(r', t, c') ==> Live(r, t, c) && j.version == j'.version)
    && (granted == {} ==> j'.Count() == j.Count() && Resumptions(r') == Resumptions(r))
    && (r'.row.hold.Some? ==>
          r'.row.hold.value.token in granted
          || (r.row.hold.Some? && r.row.hold.value.token == r'.row.hold.value.token))
    && (r'.row.recoveryAt == r.row.recoveryAt
        || (r'.row.recoveryAt.Some? && c <= r'.row.recoveryAt.value))
  }

  predicate SameOwner(a: Option<Hold>, b: Option<Hold>) {
    && a.Some? == b.Some?
    && (a.Some? ==> a.value.worker == b.value.worker && a.value.token == b.value.token)
  }

  lemma FollowsRefl(r: Record, c: Time, c': Time, granted: set<string>)
    requires Inv(r) && c <= c'
    ensures Follows(r, c, r, c', granted)
  {
    hide LogOk, ValidJob, TableIs, LoadAttempts, Resumptions;
  }

  lemma FollowsTrans(r: Record, c: Time, r1: Record, c1: Time, r2: Record, c2: Time, g1: set<string>, g2: set<string>)
    requires Follows(r, c, r1, c1, g1) && Follows(r1, c1, r2, c2, g2)
    ensures Follows(r, c, r2, c2, g1 + g2)
  {
    hide LogOk, ValidJob, TableIs, LoadAttempts, Resumptions;
    HistoryKeptTransitive(JobOf(r).attempts, JobOf(r1).attempts, JobOf(r2).attempts);
  }

  lemma DecodeExact(r: Record)
    requires Inv(r)
    ensures Decode(r) == Ok(JobOf(r))
  {
    hide LogOk, ValidJob, TableIs, LoadAttempts;
  }

  // ---------------------------------------------------------------- the single write path

  /** What a persisted step must be, as the contract operations produce it. */
  ghost predicate StepOk(a: Job, b: Job, kind: EventKind) {
    && ValidJob(b) && SameRequest(a, b) && b.version == a.version + 1
    && KindFits(kind, a.state, b.state)
    && if kind.Claimed? then
         b.Count() == a.Count() + 1 && b.attempts[..a.Count()] == a.attempts
       else
         b.Count() == a.Count()
         && (b.attempts == a.attempts || (a.state.Running? && Closes(a, b, b.state)))
  }

  lemma LastRuns(j: Job)
    requires ValidJob(j) && j.state.Running?
    ensures j.attempts != [] && j.Last().state.Running?
  {
    hide ValidHistory;
  }

  lemma NumbersFit(j: Job)
    requires ValidJob(j)
    ensures Numbered(j.attempts) && j.Count() <= MAX_ATTEMPTS
  {
    hide ValidState, ValidAttempt;
  }

  lemma StepKeepsHistory(a: Job, b: Job, kind: EventKind)
    requires ValidJob(a) && StepOk(a, b, kind)
    ensures HistoryKept(a.attempts, b.attempts)
  {
    hide ValidJob;
    if kind.Claimed? {
      assert forall i :: 0 <= i < a.Count() ==> b.attempts[..a.Count()][i] == b.attempts[i];
    } else if b.attempts != a.attempts {
      var n := a.Count() - 1;
      assert forall i :: 0 <= i < n ==> a.attempts[..n][i] == b.attempts[..n][i];
      LastRuns(a);
    }
  }

  lemma NewVersionUnlogged(job: Job, count: nat, log: seq<Event>, version: int)
    requires LogOk(job, count, log) && job.version < version
    ensures !Logged(log, StepId(job.id, version))
  {
  }

  lemma PersistWrites(
      r: Record, next: Job, change: LeaseChange, guard: Option<Lease>, kind: EventKind,
      deadline: Option<Time>, clock: Time)
    requires Inv(r) && StepOk(JobOf(r), next, kind)
    requires Persist(r, next, JobOf(r).version, JobOf(r).state, change, guard, kind, deadline, clock).Ok?
    ensures var r' := Persist(r, next, JobOf(r).version, JobOf(r).state, change, guard, kind, deadline, clock).value;
            && JobOf(r') == next && TableIs(r'.attempts, next.attempts)
            && r'.log == r.log + [StepEvent(next, Some(JobOf(r).state), kind)]
  {
    hide LogOk, ValidJob, LoadAttempts;
    var j := JobOf(r);
    StepKeepsHistory(j, next, kind);
    NumbersFit(next);
    HistoryWritten(r.attempts, j.attempts, next.attempts);
    NewVersionUnlogged(r.row.cols, r.row.count, r.log, next.version);
  }

  /** Writing a grown history over the table leaves exactly that history behind. */
  lemma HistoryWritten(t: map<int, Attempt>, before: seq<Attempt>, after: seq<Attempt>)
    requires TableIs(t, before) && HistoryKept(before, after) && Numbered(after) && |after| <= MAX_ATTEMPTS
    ensures TableIs(WriteAttempts(t, after), after) && LoadAttempts(WriteAttempts(t, after)) == after
  {
    var w := WriteAttempts(t, after);
    WriteReplaces(t, before, after);
    assert Overlay(before, after) == after;
    LoadsBack(w, after, |w| + MAX_ATTEMPTS);
  }

  lemma StepsAppend(log: seq<Event>, e: Event)
    ensures Steps(log + [e]) == Steps(log) + (if e.kind.LeaseHeartbeat? then [] else [e])
  {
    assert (log + [e])[..|log|] == log;
  }

  lemma StepsExtend(steps: seq<Event>, id: string, version: int, state: JobState, count: nat, e: Event)
    requires StepsOk(steps, id, version, state, count)
    requires e.id == StepId(id, version + 1) && e.version == version + 1
    requires e.from == Some(state) && KindFits(e.kind, state, e.to)
    ensures StepsOk(steps + [e], id, version + 1, e.to, count + if e.kind.Claimed? then 1 else 0)
  {
    assert (steps + [e])[..|steps|] == steps;
  }

  lemma LogStep(a: Job, b: Job, n: nat, log: seq<Event>, kind: EventKind)
    requires LogOk(Columns(a), n, log) && n == a.Count() && StepOk(a, b, kind)
    ensures LogOk(Columns(b), b.Count(), log + [StepEvent(b, Some(a.state), kind)])
  {
    hide ValidJob, StepsOk, Steps;
    var e := StepEvent(b, Some(a.state), kind);
    StepsAppend(log, e);
    StepsExtend(Steps(log), a.id, a.version, a.state, n, e);
  }

  lemma LogRenew(job: Job, count: nat, log: seq<Event>, e: Event)
    requires LogOk(job, count, log) && e.kind.LeaseHeartbeat? && e.id.HeartbeatId?
    ensures LogOk(job, count, WriteEvent(log, e))
  {
    hide StepsOk, Steps;
    StepsAppend(log, e);
    assert Steps(log) + [] == Steps(log);
  }

  lemma CountAppend(log: seq<Event>, e: Event, kind: EventKind)
    ensures CountKind(Steps(log + [e]), kind)
            == CountKind(Steps(log), kind) + if e.kind == kind && !e.kind.LeaseHeartbeat? then 1 else 0
  {
    StepsAppend(log, e);
    assert (Steps(log) + [e])[..|Steps(log)|] == Steps(log);
    assert Steps(log) + [] == Steps(log);
  }

  lemma LoggedResumptions(r: Record, r': Record, e: Event)
    ensures r'.log == r.log + [e] ==> Resumptions(r') == Resumptions(r) + if e.kind.CheckpointResumed? then 1 else 0
    ensures r'.log == r.log ==> Resumptions(r') == Resumptions(r)
  {
    CountAppend(r.log, e, CheckpointResumed);
  }

  /** Every persisted step follows its predecessor. */
  lemma PersistFollows(
      r: Record, next: Job, change: LeaseChange, guard: Option<Lease>, kind: EventKind,
      deadline: Option<Time>, clock: Time, c: Time)
    requires Inv(r) && StepOk(JobOf(r), next, kind) && c <= clock
    requires change.Grant? <==> next.state.Running?
    requires Persist(r, next, JobOf(r).version, JobOf(r).state, change, guard, kind, deadline, clock).Ok?
    ensures var r' := Persist(r, next, JobOf(r).version, JobOf(r).state, change, guard, kind, deadline, clock).value;
            && Follows(r, c, r', clock, if change.Grant? then {change.token} else {})
            && JobOf(r') == next
            && r'.log == r.log + [StepEvent(next, Some(JobOf(r).state), kind)]
  {
    hide LogOk, ValidJob, TableIs, LoadAttempts, WriteAttempts, HistoryKept, Persist, Resumptions;
    var next' := Persist(r, next, JobOf(r).version, JobOf(r).state, change, guard, kind, deadline, clock).value;
    LoggedResumptions(r, next', StepEvent(next, Some(JobOf(r).state), kind));
    PersistWrites(r, next, change, guard, kind, deadline, clock);
    PersistRow(r, next, JobOf(r).version, JobOf(r).state, change, guard, kind, deadline, clock);
    LogStep(JobOf(r), next, r.row.count, r.log, kind);
    StepKeepsHistory(JobOf(r), next, kind);
  }

  lemma PersistRow(
      r: Record, next: Job, expected: int, from: JobState, change: LeaseChange, guard: Option<Lease>,
      kind: EventKind, deadline: Option<Time>, clock: Time)
    requires Persist(r, next, expected, from, change, guard, kind, deadline, clock).Ok?
    ensures var row := Persist(r, next, expected, from, change, guard, kind, deadline, clock).value.row;
            && row.cols == Columns(next) && row.count == next.Count()
            && (change.Clear? ==> row.hold.None?)
            && (change.Grant? ==> row.hold == Some(Hold(change.worker, change.token, clock, clock + change.duration)))
            && row.recoveryAt == (if kind.CheckpointResumed? then Some(clock) else r.row.recoveryAt)
  {
    hide ValidJob, WriteAttempts, WriteEvent;
  }

  /** A persisted step without a guard can only be refused by the contract. */
  lemma PersistSucceeds(r: Record, next: Job, change: LeaseChange, kind: EventKind, clock: Time)
    requires Inv(r) && StepOk(JobOf(r), next, kind)
    ensures Persist(r, next, JobOf(r).version, JobOf(r).state, change, None, kind, None, clock).Ok?
  {
    hide LogOk, ValidJob, TableIs, LoadAttempts;
  }

  lemma AnnotateFollows(r: Record, reason: Option<Reason>, clock: Time, c: Time)
    requires Inv(r) && c <= clock
    ensures var r' := Annotate(r, JobOf(r), reason, clock);
            && Follows(r, c, r', clock, {}) && JobOf(r') == JobOf(r)
            && r'.row.hold == r.row.hold && r'.log == r.log
            && (JobOf(r).state.Running? ==> r'.row.recoveryAt == Some(clock + 1.0))
  {
    hide LogOk, ValidJob, TableIs, LoadAttempts;
    hide Steps, CountKind;
  }

  lemma RenewFollows(r: Record, until: Time, nonce: string, clock: Time, c: Time)
    requires Inv(r) && c <= clock && r.row.hold.Some? && clock < r.row.hold.value.until
    ensures var j := JobOf(r);
            var e := Event(HeartbeatId(j.id, nonce), LeaseHeartbeat, Some(j.state), j.state, j.version, j.Count());
            var r' := r.(row := r.row.(hold := Some(r.row.hold.value.(until := until))), log := WriteEvent(r.log, e));
            && Follows(r, c, r', clock, {}) && JobOf(r') == j
  {
    var j := JobOf(r);
    var e := Event(HeartbeatId(j.id, nonce), LeaseHeartbeat, Some(j.state), j.state, j.version, j.Count());
    LogRenew(r.row.cols, r.row.count, r.log, e);
    LoggedResumptions(r, r.(log := WriteEvent(r.log, e)), e);
    hide LogOk, ValidJob, TableIs, LoadAttempts, Steps, CountKind;
  }
}
