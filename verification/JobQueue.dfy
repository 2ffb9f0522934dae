/**
 The shared durable queue: every job of the database, the transactions any
 number of workers and callers run on it, and the runs they form. A transaction
 is one atomic step; it reads the database clock once when it locks its row and
 once when it writes.
 */
module JobQueue {
  import opened Common
  import opened Jobs
  import opened JobStore
  import opened JobInvariant
  import opened ClaimOrder

  type Rows = map<string, Record>

  /** The job table with its unique index on (scope, idempotency key). */
  datatype Store = Store(rows: Rows, index: map<(Scope, string), string>)

  function IndexKey(j: Job): (Scope, string) {
    (j.scope, j.request.idempotencyKey)
  }

  // ---------------------------------------------------------------- admission

  /** Two submissions are the same request when everything but trace lineage agrees. */
  predicate SameEnvelope(existing: Job, candidate: Job) {
    && existing.request.operation == candidate.request.operation
    && existing.maxAttempts == candidate.maxAttempts
    && existing.request.payload - TRACE_FIELDS == candidate.request.payload - TRACE_FIELDS
  }

  const TRACE_FIELDS: set<string> := {"traceparent", "tracestate"}

  datatype Admission = Admitted(store: Store, job: Job) | Rejected(error: QueueError)

  function Put(s: Store, id: string, t: Txn): Admission {
    if t.Abort? then Rejected(t.error) else Admitted(s.(rows := s.rows[id := t.rec]), t.job)
  }

  function InsertInto(s: Store, job: Job): Admission {
    var inserted := Insert(job);
    if inserted.Err? then Rejected(inserted.error)
    else if job.id in s.rows then Rejected(UnavailableError)
    else Admitted(Store(s.rows[job.id := inserted.value], s.index[IndexKey(job) := job.id]), job)
  }

  predicate CountsAsPending(rec: Record, scope: Scope) {
    var c := rec.row.cols;
    c.scope == scope && (c.state.Pending? || c.state.Queued? || c.state.Retrying? || c.state.Running?)
  }

  function CreateOrReplay(s: Store, job: Job, expected: int): Admission {
    if IndexKey(job) in s.index && s.index[IndexKey(job)] in s.rows then
      var decoded := Decode(s.rows[s.index[IndexKey(job)]]);
      if decoded.Err? then Rejected(decoded.error)
      else if expected != 0 && expected != decoded.value.version then Rejected(ConcurrencyError)
      else if !SameEnvelope(decoded.value, job) then Rejected(IdempotencyError)
      else Admitted(s, decoded.value)
    else if expected != 0 then Rejected(ConcurrencyError)
    else InsertInto(s, job)
  }

  function Enqueue(cfg: Config, s: Store, job: Job, expected: int, clock: Time): Admission {
    if IndexKey(job) in s.index && s.index[IndexKey(job)] in s.rows then
      var id := s.index[IndexKey(job)];
      var decoded := Decode(s.rows[id]);
      if decoded.Err? then Rejected(decoded.error)
      else if expected != 0 && expected != decoded.value.version then Rejected(ConcurrencyError)
      else if !SameEnvelope(decoded.value, job) then Rejected(IdempotencyError)
      else Put(s, id, QueuePending(s.rows[id], clock))
    else if |set id | id in s.rows && CountsAsPending(s.rows[id], job.scope)| >= cfg.maxPending then Rejected(CapacityError)
    else if expected != 0 then Rejected(ConcurrencyError)
    else
      var inserted := InsertInto(s, job);
      if inserted.Rejected? then inserted
      else Put(inserted.store, job.id, QueuePending(inserted.store.rows[job.id], clock))
  }

  // ---------------------------------------------------------------- claiming

  predicate Expired(rec: Record, scope: Scope, clock: Time) {
    && rec.row.cols.scope == scope && rec.row.cols.state.Running?
    && rec.row.hold.Some? && rec.row.hold.value.until <= clock
    && (rec.row.recoveryAt.None? || rec.row.recoveryAt.value <= clock)
  }

  predicate Ready(rec: Record, scope: Scope, clock: Time) {
    rec.row.cols.scope == scope && rec.row.cols.state.Queued? && rec.row.cols.availableAt <= clock
  }

  function RecoveryKey(rec: Record): Key {
    Key(rec.row.recoveryAt.Some?, if rec.row.recoveryAt.Some? then rec.row.recoveryAt.value else 0.0,
        rec.row.cols.createdAt, rec.row.cols.id)
  }

  function ReadyKey(rec: Record): Key {
    Key(false, rec.row.cols.createdAt, rec.row.cols.createdAt, rec.row.cols.id)
  }

  /** A resumable row competes at its last recovery marker, or at its creation if it has none. */
  function OfferKey(rec: Record): Key {
    Key(false, if rec.row.recoveryAt.Some? then rec.row.recoveryAt.value else rec.row.cols.createdAt,
        rec.row.cols.createdAt, rec.row.cols.id)
  }

  /** `locked` are the rows other transactions hold and SKIP LOCKED passes over. */
  function ExpiredKeys(rows: Rows, scope: Scope, clock: Time, locked: set<string>): set<Key> {
    set id | id in rows && id !in locked && Expired(rows[id], scope, clock) :: RecoveryKey(rows[id])
  }

  function ReadyKeys(rows: Rows, scope: Scope, clock: Time, locked: set<string>): set<Key> {
    set id | id in rows && id !in locked && Ready(rows[id], scope, clock) :: ReadyKey(rows[id])
  }

  function OfferKeys(rows: Rows, offered: seq<string>): set<Key> {
    set id | id in offered && id in rows :: OfferKey(rows[id])
  }

  const RECOVERY_LIMIT: nat := 100

  datatype Sweep = Swept(rows: Rows, offered: seq<string>) | SweepFailed(error: QueueError)

  /** Recover the selected expired rows one by one, collecting those offered for resumption. */
  function RecoverAll(
      cfg: Config, rows: Rows, ks: seq<Key>, now: Time, answers: string -> Answer, clock: Time,
      offered: seq<string>): Sweep
  {
    if ks == [] then Swept(rows, offered)
    else if ks[0].id !in rows then SweepFailed(UnavailableError)
    else
      var id := ks[0].id;
      match RecoverExpired(cfg, rows[id], now, answers(id), |offered| < RECOVERY_LIMIT, clock)
      case Broken(error) => SweepFailed(error)
      case Offered => RecoverAll(cfg, rows, ks[1..], now, answers, clock, offered + [id])
      case Recovered(rec) => RecoverAll(cfg, rows[id := rec], ks[1..], now, answers, clock, offered)
  }

  datatype Handout = Handout(job: Job, lease: Lease)

  datatype Batch = Granted(rows: Rows, grants: seq<Handout>) | BatchFailed(error: QueueError)

  function LeaseOf(rec: Record): Lease
    requires rec.row.hold.Some?
  {
    var h := rec.row.hold.value;
    Lease(rec.row.cols.id, rec.row.cols.scope, h.worker, h.token, h.acquiredAt, h.until, h.acquiredAt)
  }

  /** Grant the chosen rows in order, each under its own fresh token; one refusal undoes the batch. */
  function ClaimAll(
      cfg: Config, rows: Rows, ks: seq<Key>, worker: string, tokens: seq<string>, hints: map<string, int>,
      now: Time, clock: Time, grants: seq<Handout>): Batch
  {
    if ks == [] then Granted(rows, grants)
    else if ks[0].id !in rows || tokens == [] then BatchFailed(UnavailableError)
    else
      var id := ks[0].id;
      var hint := if id in hints then Some(hints[id]) else None;
      var t := ClaimOne(cfg, rows[id], worker, tokens[0], hint, now, clock);
      if t.Abort? then BatchFailed(t.error)
      else if t.rec.row.hold.None? then BatchFailed(LeaseError)
      else ClaimAll(cfg, rows[id := t.rec], ks[1..], worker, tokens[1..], hints, now, clock,
                    grants + [Handout(t.job, LeaseOf(t.rec))])
  }

  datatype ClaimRequest = ClaimRequest(
    worker: string, scope: Scope, hints: map<string, int>, limit: nat, now: Time,
    tokens: seq<string>, answers: string -> Answer, locked: set<string>, at: Time, late: Time)

  /** The expired rows one claim recovers. */
  function Selected(rows: Rows, q: ClaimRequest): seq<Key> {
    First(ExpiredKeys(rows, q.scope, q.at, q.locked), RECOVERY_LIMIT)
  }

  function SweepExpired(cfg: Config, rows: Rows, q: ClaimRequest): Sweep {
    RecoverAll(cfg, rows, Selected(rows, q), q.now, q.answers, q.at, [])
  }

  /** The rows one claim serves: both lanes merged by durable age, then truncated. */
  function Chosen(rows: Rows, offered: seq<string>, q: ClaimRequest): seq<Key> {
    First(OfferKeys(rows, offered) + Elems(First(ReadyKeys(rows, q.scope, q.at, q.locked), q.limit)), q.limit)
  }

  function Claim(cfg: Config, rows: Rows, q: ClaimRequest): Batch {
    match SweepExpired(cfg, rows, q)
    case SweepFailed(error) => BatchFailed(error)
    case Swept(swept, offered) =>
      ClaimAll(cfg, swept, Chosen(swept, offered, q), q.worker, q.tokens, q.hints, q.now, q.late, [])
  }

  // ---------------------------------------------------------------- runs

  /**
   Tokens ever issued, publications committed and attempts the publication owner
   has denied are histories kept for the statements below.
   */
  datatype World = World(
    store: Store, clock: Time, used: set<string>,
    committed: set<(string, int)>, denied: set<(string, int)>)

  datatype Op =
    | Tick(at: Time)
    | Create(job: Job, expected: int)
    | Submit(job: Job, expected: int, at: Time)
    | ClaimJobs(request: ClaimRequest)
    | Renew(lease: Lease, expected: int, nonce: string, at: Time, late: Time)
    | Ack(lease: Lease, submitted: Completion, now: Time, expected: int, deadline: Option<Time>,
          answer: Answer, at: Time, late: Time)
    | FailAttempt(lease: Lease, failure: Failure, now: Time, expected: int, answer: Answer, at: Time, late: Time)
    | CancelRunning(lease: Lease, now: Time, expected: int, port: CancelPort, answer: Answer, at: Time, late: Time)
    | CancelJob(id: string, scope: Scope, now: Time, expected: int, port: CancelPort, answer: Answer, at: Time)
    | Poll(id: string, scope: Scope, now: Time, answer: Answer, at: Time)
    | Publish(id: string, attempt: int)

  /** Operations that present a lease. */
  predicate OwnerOp(op: Op) {
    op.Renew? || op.Ack? || op.FailAttempt? || op.CancelRunning?
  }

  predicate RowOp(op: Op) {
    OwnerOp(op) || op.CancelJob? || op.Poll?
  }

  function RowId(op: Op): string
    requires RowOp(op)
  {
    if OwnerOp(op) then op.lease.jobId else op.id
  }

  function RowTxn(cfg: Config, rec: Record, op: Op): Txn
    requires RowOp(op)
  {
    match op
    case Renew(lease, expected, nonce, at, late) => Heartbeat(cfg, rec, lease, expected, nonce, at, late)
    case Ack(lease, submitted, now, expected, deadline, answer, at, late) =>
      Acknowledge(rec, lease, submitted, now, expected, deadline, answer, at, late)
    case FailAttempt(lease, failure, now, expected, answer, at, late) =>
      Fail(cfg, rec, lease, failure, now, expected, answer, at, late)
    case CancelRunning(lease, now, expected, port, answer, at, late) =>
      CancelLease(rec, lease, now, expected, port, answer, at, late)
    case CancelJob(_, scope, now, expected, port, answer, at) =>
      Cancel(rec, scope, now, expected, port, answer, at)
    case Poll(_, scope, now, answer, at) => RecoverPublication(rec, scope, now, answer, at)
  }

  function StartOf(w: World, op: Op): Time {
    match op
    case Tick(at) => at
    case Submit(_, _, at) => at
    case ClaimJobs(q) => q.at
    case CancelJob(_, _, _, _, _, _, at) => at
    case Poll(_, _, _, _, at) => at
    case Create(_, _) => w.clock
    case Publish(_, _) => w.clock
    case Renew(_, _, _, at, _) => at
    case Ack(_, _, _, _, _, _, at, _) => at
    case FailAttempt(_, _, _, _, _, at, _) => at
    case CancelRunning(_, _, _, _, _, at, _) => at
  }

  function EndOf(w: World, op: Op): Time {
    if op.ClaimJobs? then op.request.late else if OwnerOp(op) then op.late else StartOf(w, op)
  }

  function TokensOf(op: Op): set<string> {
    if op.ClaimJobs? then set t | t in op.request.tokens else {}
  }

  /** The database clock never runs back, and every token drawn is new. */
  predicate Timely(w: World, op: Op) {
    && w.clock <= StartOf(w, op) <= EndOf(w, op)
    && (op.ClaimJobs? ==>
          && 1 <= op.request.limit <= 100 && op.request.limit <= |op.request.tokens|
          && (forall i, k :: 0 <= i < k < |op.request.tokens| ==> op.request.tokens[i] != op.request.tokens[k])
          && TokensOf(op) !! w.used)
    && (op.Create? || op.Submit? ==> ValidJob(op.job))
  }

  /** The attempts whose publication the owner denies while this operation consults it. */
  function Denials(rows: Rows, op: Op): set<(string, int)> {
    if op.ClaimJobs? then
      set id | id in rows && id in IdsOf(Selected(rows, op.request)) && DeniesAt(rows[id], op.request.answers(id), true) ::
        (id, rows[id].row.count as int)
    else if RowOp(op) && !op.Renew? && !op.Ack? && RowId(op) in rows
            && DeniesAt(rows[RowId(op)], op.answer, op.FailAttempt? || op.CancelRunning?) then
      {(RowId(op), rows[RowId(op)].row.count as int)}
    else {}
  }

  /** No publication to speak of counts as a denial where the operation is about to close the attempt. */
  predicate DeniesAt(rec: Record, answer: Answer, closes: bool) {
    var j := JobOf(rec);
    && j.attempts != [] && j.state.Running?
    && ((closes && (answer.Absent? || answer.NoReconciler?)) || (answer.Cancellation? && answer.facts == FactsOf(j)))
  }

  function NextStore(cfg: Config, s: Store, op: Op): Store {
    if op.Create? then
      var a := CreateOrReplay(s, op.job, op.expected);
      if a.Admitted? then a.store else s
    else if op.Submit? then
      var a := Enqueue(cfg, s, op.job, op.expected, op.at);
      if a.Admitted? then a.store else s
    else if op.ClaimJobs? then
      var b := Claim(cfg, s.rows, op.request);
      if b.Granted? then s.(rows := b.rows) else s
    else if RowOp(op) && RowId(op) in s.rows then
      var t := RowTxn(cfg, s.rows[RowId(op)], op);
      if t.Commit? then s.(rows := s.rows[RowId(op) := t.rec]) else s
    else s
  }

  function Next(cfg: Config, w: World, op: Op): World {
    World(NextStore(cfg, w.store, op), EndOf(w, op), w.used + TokensOf(op),
          if op.Publish? then w.committed + {(op.id, op.attempt)} else w.committed,
          w.denied + Denials(w.store.rows, op))
  }

  /** What an operation on one row answers its caller. */
  function Reply(cfg: Config, w: World, op: Op): Result<Job, QueueError>
    requires RowOp(op)
  {
    if RowId(op) !in w.store.rows then Err(if OwnerOp(op) then LeaseError else NotFoundError)
    else
      var t := RowTxn(cfg, w.store.rows[RowId(op)], op);
      if t.Commit? then Ok(t.job) else Err(t.error)
  }

  function Run(cfg: Config, w: World, ops: seq<Op>): World {
    if ops == [] then w else Next(cfg, Run(cfg, w, ops[..|ops| - 1]), ops[|ops| - 1])
  }

  predicate TimelyRun(cfg: Config, w: World, ops: seq<Op>) {
    ops != [] ==>
      TimelyRun(cfg, w, ops[..|ops| - 1]) && Timely(Run(cfg, w, ops[..|ops| - 1]), ops[|ops| - 1])
  }
}
