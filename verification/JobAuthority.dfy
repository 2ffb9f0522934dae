/**
 The publication owner has the last word: as long as it denies only attempts
 that never commit, no run records a committed attempt as failed or cancelled.
 */
module JobAuthority {
  import opened Common
  import opened Jobs
  import opened JobStore
  import opened JobInvariant
  import opened JobTransactions
  import opened ClaimOrder
  import opened JobQueue
  import opened JobRuns
  import opened JobFencing

  /** Attempts the job already carried when it entered the queue. */
  function Imported(rec: Record): nat {
    if Steps(rec.log) == [] then 0 else Steps(rec.log)[0].count
  }

  predicate LostAttempt(a: Attempt) {
    a.state.Failed? || a.state.Cancelled?
  }

  /** Every attempt this queue recorded as lost had been denied by the publication owner. */
  ghost predicate LossesDenied(rec: Record, denied: set<(string, int)>) {
    var j := JobOf(rec);
    forall i :: Imported(rec) <= i < j.Count() && LostAttempt(j.attempts[i]) ==> (j.id, i + 1) in denied
  }

  ghost predicate RowsLosses(rows: Rows, denied: set<(string, int)>) {
    forall id :: id in rows ==> LossesDenied(rows[id], denied)
  }

  lemma ImportedKept(r: Record, c: Time, r': Record, c': Time, granted: set<string>)
    requires Inv(r) && Follows(r, c, r', c', granted)
    ensures Imported(r') == Imported(r)
  {
    hide Inv, Follows;
    GrowthGives(r, c, r', c', granted);
  }

  lemma OnlyLastRuns(j: Job, i: nat)
    requires ValidJob(j) && i < j.Count() && j.attempts[i].state.Running?
    ensures i == j.Count() - 1 && j.state.Running?
  {
  }

  /** One committed step adds no loss beyond the running attempt the owner has just denied. */
  lemma LossesKept(r: Record, c: Time, r': Record, c': Time, granted: set<string>, denied: set<(string, int)>)
    requires Inv(r) && Follows(r, c, r', c', granted) && LossesDenied(r, denied)
    requires Lost(JobOf(r), JobOf(r')) ==> (JobOf(r).id, JobOf(r).Count()) in denied
    requires JobOf(r').Count() == JobOf(r).Count()
             || (JobOf(r').Count() == JobOf(r).Count() + 1 && JobOf(r').state.Running?)
    ensures LossesDenied(r', denied)
  {
    ImportedKept(r, c, r', c', granted);
    HistoryFollows(r, c, r', c', granted);
    hide Inv, Follows, JobOf, Imported, ValidJob, Lost, LostAttempt, HistoryKept;
    var j, j' := JobOf(r), JobOf(r');
    forall i | Imported(r') <= i < j'.Count() && LostAttempt(j'.attempts[i]) ensures (j'.id, i + 1) in denied {
      LossExplained(j, j', i);
    }
  }

  /** A loss in the successor was there before, or is the running attempt just closed. */
  lemma LossExplained(j: Job, j': Job, i: nat)
    requires ValidJob(j) && ValidJob(j') && HistoryKept(j.attempts, j'.attempts)
    requires j'.Count() == j.Count() || (j'.Count() == j.Count() + 1 && j'.state.Running?)
    requires i < j'.Count() && LostAttempt(j'.attempts[i])
    ensures i < j.Count() && (LostAttempt(j.attempts[i]) || (i == j.Count() - 1 && Lost(j, j')))
  {
    hide ValidJob;
    if i == j.Count() {
      LastRuns(j');
    } else if j.attempts[i].state.Running? {
      OnlyLastRuns(j, i);
    }
  }

  lemma HistoryFollows(r: Record, c: Time, r': Record, c': Time, granted: set<string>)
    requires Inv(r) && Follows(r, c, r', c', granted)
    ensures ValidJob(JobOf(r)) && ValidJob(JobOf(r')) && JobOf(r).id == JobOf(r').id
    ensures HistoryKept(JobOf(r).attempts, JobOf(r').attempts)
    ensures granted == {} ==> JobOf(r').Count() == JobOf(r).Count()
  {
    hide LogOk, TableIs, LoadAttempts, ValidJob, HistoryKept, Live, Resumptions;
  }

  lemma CountOf(r: Record)
    requires Inv(r)
    ensures r.row.count == JobOf(r).Count() && r.row.cols.id == JobOf(r).id
  {
    hide LogOk, TableIs, LoadAttempts, ValidJob;
  }

  lemma UpdateLosses(rows: Rows, id: string, rec: Record, denied: set<(string, int)>)
    requires RowsLosses(rows, denied) && LossesDenied(rec, denied)
    ensures RowsLosses(rows[id := rec], denied)
  {
    hide LossesDenied;
  }

  lemma MoreDenied(rows: Rows, denied: set<(string, int)>, more: set<(string, int)>)
    requires RowsLosses(rows, denied) && denied <= more
    ensures RowsLosses(rows, more)
  {
    hide JobOf, Imported;
  }

  // ---------------------------------------------------------------- claims

  lemma {:induction false} SweepLosses(
      cfg: Config, rows: Rows, ks: seq<Key>, now: Time, answers: string -> Answer, clock: Time,
      offered: seq<string>, denied: set<(string, int)>)
    requires RowsInv(rows) && RowsLosses(rows, denied) && DistinctIds(ks)
    requires forall k :: k in ks ==> k.id in rows && rows[k.id].row.cols.state.Running?
    requires forall k :: k in ks && DeniesAt(rows[k.id], answers(k.id), true) ==> (k.id, rows[k.id].row.count as int) in denied
    ensures var s := RecoverAll(cfg, rows, ks, now, answers, clock, offered);
            s.Swept? ==> RowsLosses(s.rows, denied)
  {
    hide Inv, Follows, RecoverExpired, JobOf, Lost, Denies, RowsLosses, LossesDenied, DeniesAt;
    if ks != [] {
      var id := ks[0].id;
      StateOf(rows[id]);
      RecoverExpiredSafe(cfg, rows[id], now, answers(id), |offered| < RECOVERY_LIMIT, clock, clock);
      match RecoverExpired(cfg, rows[id], now, answers(id), |offered| < RECOVERY_LIMIT, clock)
      case Offered =>
        SweepLosses(cfg, rows, ks[1..], now, answers, clock, offered + [id], denied);
      case Recovered(rec) =>
        SweptLosses(rows, id, rec, answers(id), clock, denied);
        UpdateFollows(rows, id, rec, clock, clock, {});
        SweepLosses(cfg, rows[id := rec], ks[1..], now, answers, clock, offered, denied);
    }
  }

  lemma SweptLosses(
      rows: Rows, id: string, rec: Record, answer: Answer, clock: Time, denied: set<(string, int)>)
    requires RowsInv(rows) && RowsLosses(rows, denied) && id in rows && Follows(rows[id], clock, rec, clock, {})
    requires JobOf(rows[id]).attempts != [] && Lost(JobOf(rows[id]), JobOf(rec)) ==> Denies(answer, JobOf(rows[id]))
    requires DeniesAt(rows[id], answer, true) ==> (id, rows[id].row.count as int) in denied
    ensures RowsLosses(rows[id := rec], denied)
  {
    hide Inv, Follows, JobOf, LossesDenied;
    CountOf(rows[id]);
    HistoryFollows(rows[id], clock, rec, clock, {});
    LossesKept(rows[id], clock, rec, clock, {}, denied);
    UpdateLosses(rows, id, rec, denied);
  }

  lemma {:induction false} GrantLosses(
      cfg: Config, rows: Rows, ks: seq<Key>, worker: string, tokens: seq<string>, hints: map<string, int>,
      now: Time, clock: Time, grants: seq<Handout>, denied: set<(string, int)>)
    requires RowsInv(rows) && RowsLosses(rows, denied)
    ensures var b := ClaimAll(cfg, rows, ks, worker, tokens, hints, now, clock, grants);
            b.Granted? ==> RowsLosses(b.rows, denied)
  {
    hide Inv, Follows, ClaimOne, RowsLosses, JobOf;
    if ks != [] && ks[0].id in rows && tokens != [] {
      var id := ks[0].id;
      var hint := if id in hints then Some(hints[id]) else None;
      var t := ClaimOne(cfg, rows[id], worker, tokens[0], hint, now, clock);
      if t.Commit? && t.rec.row.hold.Some? {
        ClaimedLosses(cfg, rows, id, worker, tokens[0], hint, now, clock, denied);
        ClaimFollows(cfg, rows[id], worker, tokens[0], hint, now, clock, clock);
        UpdateFollows(rows, id, t.rec, clock, clock, {tokens[0]});
        GrantLosses(cfg, rows[id := t.rec], ks[1..], worker, tokens[1..], hints, now, clock,
                    grants + [Handout(t.job, LeaseOf(t.rec))], denied);
      }
    }
  }

  lemma ClaimedLosses(
      cfg: Config, rows: Rows, id: string, worker: string, token: string, hint: Option<int>, now: Time, clock: Time,
      denied: set<(string, int)>)
    requires RowsInv(rows) && RowsLosses(rows, denied) && id in rows
    requires ClaimOne(cfg, rows[id], worker, token, hint, now, clock).Commit?
    ensures RowsLosses(rows[id := ClaimOne(cfg, rows[id], worker, token, hint, now, clock).rec], denied)
  {
    hide Inv, Follows, ClaimOne, JobOf, LossesDenied, Resumptions;
    var rec := ClaimOne(cfg, rows[id], worker, token, hint, now, clock).rec;
    ClaimOneKeeps(cfg, rows[id], worker, token, hint, now, clock, clock);
    InvGives(rows[id]);
    LossesKept(rows[id], clock, rec, clock, {token}, denied);
    UpdateLosses(rows, id, rec, denied);
  }

  lemma ClaimLosses(cfg: Config, rows: Rows, q: ClaimRequest, denied: set<(string, int)>)
    requires RowsInv(rows) && RowsLosses(rows, denied) && q.at <= q.late
    requires Denials(rows, ClaimJobs(q)) <= denied
    ensures Claim(cfg, rows, q).Granted? ==> RowsLosses(Claim(cfg, rows, q).rows, denied)
  {
    hide Inv, Follows, RecoverAll, ClaimAll, Selected, RowsLosses, DeniesAt;
    SelectionFits(rows, q);
    forall k | k in Selected(rows, q) && DeniesAt(rows[k.id], q.answers(k.id), true)
      ensures (k.id, rows[k.id].row.count as int) in denied
    {
      assert (k.id, rows[k.id].row.count as int) in Denials(rows, ClaimJobs(q));
    }
    RecoverAllKeeps(cfg, rows, Selected(rows, q), q.now, q.answers, q.at, [], q.at);
    SweepLosses(cfg, rows, Selected(rows, q), q.now, q.answers, q.at, [], denied);
    var s := SweepExpired(cfg, rows, q);
    GrantLosses(cfg, s.rows, Chosen(s.rows, s.offered, q), q.worker, q.tokens, q.hints, q.now, q.late, [], denied);
  }

  // ---------------------------------------------------------------- one row

  /** A transaction on one row records a loss only under a denial it counts as such. */
  lemma RowTxnLoses(cfg: Config, r: Record, op: Op)
    requires Inv(r) && RowOp(op) && StartOf(EMPTY, op) <= EndOf(EMPTY, op)
    ensures var t := RowTxn(cfg, r, op);
            t.Commit? && Lost(JobOf(r), t.job) ==>
              !op.Renew? && !op.Ack? && DeniesAt(r, op.answer, op.FailAttempt? || op.CancelRunning?)
  {
    hide Inv, Follows, JobOf, Heartbeat, Acknowledge, Fail, CancelLease, Cancel, RecoverPublication;
    InvGives(r);
    var c := StartOf(EMPTY, op);
    match op
    case Renew(lease, expected, nonce, at, late) => HeartbeatKeeps(cfg, r, lease, expected, nonce, at, late, c);
    case Ack(lease, submitted, now, expected, deadline, answer, at, late) =>
      AcknowledgeKeeps(r, lease, submitted, now, expected, deadline, answer, at, late, c);
      var t := Acknowledge(r, lease, submitted, now, expected, deadline, answer, at, late);
      if t.Commit? && t.job.state.Succeeded? {
        SucceededNotLost(r, t.rec, c, late);
      }
    case FailAttempt(lease, failure, now, expected, answer, at, late) =>
      FailKeeps(cfg, r, lease, failure, now, expected, answer, at, late, c);
    case CancelRunning(lease, now, expected, port, answer, at, late) =>
      CancelLeaseKeeps(r, lease, now, expected, port, answer, at, late, c);
    case CancelJob(_, scope, now, expected, port, answer, at) =>
      CancelKeeps(r, scope, now, expected, port, answer, at, c);
    case Poll(_, scope, now, answer, at) => RecoverPublicationKeeps(r, scope, now, answer, at, c);
  }

  lemma SucceededNotLost(r: Record, r': Record, c: Time, c': Time)
    requires Inv(r) && Follows(r, c, r', c', {}) && JobOf(r').state.Succeeded?
    ensures !Lost(JobOf(r), JobOf(r'))
  {
    hide Inv, Follows, JobOf;
    HistoryFollows(r, c, r', c', {});
    var j := JobOf(r');
    assert ValidState(j);
  }

  // ---------------------------------------------------------------- runs

  /** The owner denies only attempts it has not committed, and commits none it has denied. */
  ghost predicate Honest(w: World, op: Op) {
    && (op.Publish? ==> (op.id, op.attempt) !in w.denied)
    && Denials(w.store.rows, op) !! w.committed
  }

  ghost predicate HonestRun(cfg: Config, w: World, ops: seq<Op>) {
    ops != [] ==>
      HonestRun(cfg, w, ops[..|ops| - 1]) && Honest(Run(cfg, w, ops[..|ops| - 1]), ops[|ops| - 1])
  }

  ghost predicate Authoritative(w: World) {
    RowsLosses(w.store.rows, w.denied) && w.denied !! w.committed
  }

  lemma NewRowLosses(job: Job)
    requires ValidJob(job) && Insert(job).Ok?
    ensures forall denied :: LossesDenied(Insert(job).value, denied)
  {
    InsertKeeps(job);
    assert Steps([StepEvent(job, None, Created)]) == [StepEvent(job, None, Created)];
    hide ValidJob, WriteAttempts, LoadAttempts, Inv;
  }

  lemma QueuedLosses(rows: Rows, id: string, clock: Time, denied: set<(string, int)>)
    requires id in rows && Inv(rows[id]) && RowsLosses(rows, denied)
    ensures QueuePending(rows[id], clock).Commit? ==> RowsLosses(rows[id := QueuePending(rows[id], clock).rec], denied)
  {
    hide Inv, Follows, JobOf, LossesDenied, QueuePending;
    QueuePendingKeeps(rows[id], clock, clock);
    HistoryFollows(rows[id], clock, QueuePending(rows[id], clock).rec, clock, {});
    if JobOf(rows[id]).state.Pending? {
      LossesKept(rows[id], clock, QueuePending(rows[id], clock).rec, clock, {}, denied);
    }
    UpdateLosses(rows, id, QueuePending(rows[id], clock).rec, denied);
  }

  lemma InsertLosses(s: Store, job: Job, denied: set<(string, int)>)
    requires ValidJob(job) && RowsLosses(s.rows, denied)
    ensures var a := InsertInto(s, job);
            a.Admitted? ==> RowsLosses(a.store.rows, denied) && job.id in a.store.rows && Inv(a.store.rows[job.id])
  {
    hide ValidJob, Insert, LossesDenied, Inv;
    InsertKeeps(job);
    if InsertInto(s, job).Admitted? {
      NewRowLosses(job);
      UpdateLosses(s.rows, job.id, Insert(job).value, denied);
    }
  }

  lemma AdmissionLosses(cfg: Config, w: World, op: Op)
    requires WorldInv(w) && RowsLosses(w.store.rows, w.denied) && (op.Submit? || op.Create?) && ValidJob(op.job)
    ensures RowsLosses(NextStore(cfg, w.store, op).rows, w.denied)
  {
    hide RowsLosses, Inv, ValidJob, InsertInto, QueuePending, Decode;
    InsertLosses(w.store, op.job, w.denied);
    var k := IndexKey(op.job);
    if op.Submit? {
      if k in w.store.index && w.store.index[k] in w.store.rows {
        QueuedLosses(w.store.rows, w.store.index[k], op.at, w.denied);
      } else {
        var a := InsertInto(w.store, op.job);
        if a.Admitted? {
          QueuedLosses(a.store.rows, op.job.id, op.at, w.denied);
        }
      }
    }
  }

  lemma RowOpLosses(cfg: Config, w: World, op: Op)
    requires WorldInv(w) && RowOp(op) && RowId(op) in w.store.rows && StartOf(EMPTY, op) <= EndOf(EMPTY, op)
    requires RowsLosses(w.store.rows, w.denied + Denials(w.store.rows, op))
    ensures RowsLosses(NextStore(cfg, w.store, op).rows, w.denied + Denials(w.store.rows, op))
  {
    hide Inv, Follows, JobOf, RowTxn, LossesDenied, Lost, DeniesAt;
    var r := w.store.rows[RowId(op)];
    var t := RowTxn(cfg, r, op);
    if t.Commit? {
      var c, c' := StartOf(EMPTY, op), EndOf(EMPTY, op);
      RowTxnFollows(cfg, r, op, c);
      RowTxnLoses(cfg, r, op);
      CountOf(r);
      HistoryFollows(r, c, t.rec, c', {});
      LossesKept(r, c, t.rec, c', {}, w.denied + Denials(w.store.rows, op));
      UpdateLosses(w.store.rows, RowId(op), t.rec, w.denied + Denials(w.store.rows, op));
    }
  }

  lemma NextAuthoritative(cfg: Config, w: World, op: Op)
    requires WorldInv(w) && Timely(w, op) && Honest(w, op) && Authoritative(w)
    ensures Authoritative(Next(cfg, w, op))
  {
    hide WorldInv, Denials, RowsLosses, Claim, Enqueue, CreateOrReplay, RowTxn, ValidJob;
    var denied := w.denied + Denials(w.store.rows, op);
    MoreDenied(w.store.rows, w.denied, denied);
    if op.Submit? || op.Create? {
      AdmissionLosses(cfg, w, op);
      MoreDenied(NextStore(cfg, w.store, op).rows, w.denied, denied);
    } else if op.ClaimJobs? {
      RowsOf(w);
      ClaimLosses(cfg, w.store.rows, op.request, denied);
    } else if RowOp(op) && RowId(op) in w.store.rows {
      RowOpLosses(cfg, w, op);
    }
    NoDenials(w, op);
  }

  lemma NoDenials(w: World, op: Op)
    ensures op.Publish? ==> Denials(w.store.rows, op) == {}
  {
  }

  lemma RowsOf(w: World)
    requires WorldInv(w)
    ensures RowsInv(w.store.rows)
  {
    hide RowsInv, IndexInv, TokensInv;
  }

  lemma {:induction false} RunAuthoritative(cfg: Config, w: World, ops: seq<Op>)
    requires WorldInv(w) && TimelyRun(cfg, w, ops) && HonestRun(cfg, w, ops) && Authoritative(w)
    ensures Authoritative(Run(cfg, w, ops))
  {
    hide WorldInv, Authoritative, Next, Timely, Honest;
    if ops != [] {
      var before := ops[..|ops| - 1];
      RunAuthoritative(cfg, w, before);
      RunKeeps(cfg, w, before);
      NextAuthoritative(cfg, Run(cfg, w, before), ops[|ops| - 1]);
    }
  }

  lemma EmptyWorld()
    ensures WorldInv(EMPTY) && Authoritative(EMPTY)
  {
  }

  /**
   Publication authority wins: over every run of claims, expiry recoveries,
   failures, acknowledgements and cancellations, an attempt whose publication
   committed is never recorded as failed or cancelled.
   */
  lemma CommittedIsNeverLost(cfg: Config, ops: seq<Op>, id: string, i: nat)
    requires TimelyRun(cfg, EMPTY, ops) && HonestRun(cfg, EMPTY, ops)
    requires id in Run(cfg, EMPTY, ops).store.rows
    ensures var w := Run(cfg, EMPTY, ops);
            Imported(w.store.rows[id]) <= i < JobOf(w.store.rows[id]).Count() && (id, i + 1) in w.committed ==>
              !LostAttempt(JobOf(w.store.rows[id]).attempts[i])
  {
    hide JobOf, Imported, Run, TimelyRun, HonestRun, WorldInv;
    EmptyWorld();
    RunAuthoritative(cfg, EMPTY, ops);
    ReachableInv(cfg, ops);
    RowOf(Run(cfg, EMPTY, ops), id);
    CountOf(Run(cfg, EMPTY, ops).store.rows[id]);
  }

  /** The authority a transaction rests on says nothing about this attempt: the owner's answer, or the facts a caller submits. */
  predicate Baseless(op: Op, job: Job)
    requires RowOp(op) && !op.Renew? && job.attempts != []
  {
    if op.Ack? && op.submitted.Published? then op.submitted.facts != FactsOf(job) else Inconclusive(op.answer, job)
  }

  /**
   Authority that is unavailable, malformed or about another attempt leaves the
   job, its lease and its history as they were, whichever transaction on the row asked.
   */
  lemma InconclusiveChangesNothing(cfg: Config, r: Record, op: Op)
    requires Inv(r) && RowOp(op) && !op.Renew? && StartOf(EMPTY, op) <= EndOf(EMPTY, op)
    requires JobOf(r).state.Running? && JobOf(r).attempts != [] && Baseless(op, JobOf(r))
    ensures var t := RowTxn(cfg, r, op);
            t.Commit? ==> Untouched(r, t.rec)
  {
    hide Inv, Follows, JobOf, Lost, Denies, Inconclusive, Heartbeat, Acknowledge, Fail, CancelLease, Cancel, RecoverPublication;
    var c := StartOf(EMPTY, op);
    match op
    case Ack(lease, submitted, now, expected, deadline, answer, at, late) =>
      AcknowledgeKeeps(r, lease, submitted, now, expected, deadline, answer, at, late, c);
    case FailAttempt(lease, failure, now, expected, answer, at, late) =>
      FailKeeps(cfg, r, lease, failure, now, expected, answer, at, late, c);
    case CancelRunning(lease, now, expected, port, answer, at, late) =>
      CancelLeaseKeeps(r, lease, now, expected, port, answer, at, late, c);
    case CancelJob(_, scope, now, expected, port, answer, at) =>
      CancelKeeps(r, scope, now, expected, port, answer, at, c);
    case Poll(_, scope, now, answer, at) => RecoverPublicationKeeps(r, scope, now, answer, at, c);
  }

  // ---------------------------------------------------------------- the owner's word inside a claim

  lemma RunningHasAttempt(r: Record)
    requires Inv(r) && JobOf(r).state.Running?
    ensures JobOf(r).attempts != []
  {
    InvGives(r);
    hide Inv, JobOf;
  }

  /** What the sweep of a claim makes of one running row, by what its owner answers. */
  ghost predicate SweptAs(rows: Rows, ks: seq<Key>, answers: string -> Answer, offered: seq<string>, s: Sweep, id: string)
    requires id in rows && JobOf(rows[id]).attempts != []
  {
    && s.Swept? && id in s.rows
    && (id in s.offered ==> id in IdsOf(ks) && Continues(answers(id), JobOf(rows[id])))
    && (Inconclusive(answers(id), JobOf(rows[id])) ==> Untouched(rows[id], s.rows[id]))
  }

  /** A row is offered only when the continuation is its own attempt's, and no other inconclusive answer changes it. */
  lemma {:induction false} SweepHeeds(
      cfg: Config, rows: Rows, ks: seq<Key>, now: Time, answers: string -> Answer, clock: Time,
      offered: seq<string>, c: Time, id: string)
    requires RowsInv(rows) && c <= clock && DistinctIds(ks)
    requires forall k :: k in ks ==> k.id in rows && rows[k.id].row.cols.state.Running?
    requires id in rows && id !in offered && JobOf(rows[id]).state.Running? && JobOf(rows[id]).attempts != []
    ensures SweptAs(rows, ks, answers, offered, RecoverAll(cfg, rows, ks, now, answers, clock, offered), id)
  {
    hide Inv, Follows, RecoverExpired, JobOf, Inconclusive, Continues, Untouched;
    if ks == [] {
      UntouchedRefl(rows[id]);
    } else {
      var k, rest := ks[0].id, ks[1..];
      StateOf(rows[k]);
      RecoverExpiredKeeps(cfg, rows[k], now, answers(k), |offered| < RECOVERY_LIMIT, clock, c);
      RecoverExpiredSafe(cfg, rows[k], now, answers(k), |offered| < RECOVERY_LIMIT, clock, c);
      match RecoverExpired(cfg, rows[k], now, answers(k), |offered| < RECOVERY_LIMIT, clock)
      case Offered =>
        RecoverAllKeeps(cfg, rows, rest, now, answers, clock, offered + [k], c);
        if k != id {
          SweepHeeds(cfg, rows, rest, now, answers, clock, offered + [k], c, id);
        } else {
          UntouchedRefl(rows[id]);
        }
      case Recovered(rec) =>
        var next := rows[k := rec];
        UpdateFollows(rows, k, rec, c, clock, {});
        RecoverAllKeeps(cfg, next, rest, now, answers, clock, offered, clock);
        if k != id {
          SweepHeeds(cfg, next, rest, now, answers, clock, offered, clock, id);
        } else {
          OfferedLater(cfg, next, rest, now, answers, clock, offered, id);
          KeepsUntouched(rows[id], c, rec, clock, answers(id));
        }
    }
  }

  lemma UntouchedRefl(r: Record)
    ensures Untouched(r, r)
  {
  }

  lemma KeepsUntouched(r: Record, c: Time, rec: Record, clock: Time, answer: Answer)
    requires Keeps(r, c, Commit(rec, JobOf(rec)), clock, answer) && JobOf(r).attempts != [] && JobOf(r).state.Running?
    ensures Inconclusive(answer, JobOf(r)) ==> Untouched(r, rec)
  {
    hide Follows, Inconclusive, Untouched, JobOf;
  }

  /**
   The same inside a claim, expiry recovery included: an answer without authority leaves a
   running row's job, lease and history as they were, and the row is resumed only when the
   continuation's facts are those of its own attempt.
   */
  lemma ClaimHeedsOwner(cfg: Config, rows: Rows, q: ClaimRequest, id: string)
    requires RowsInv(rows) && q.at <= q.late
    requires id in rows && JobOf(rows[id]).state.Running? && JobOf(rows[id]).attempts != []
    requires Inconclusive(q.answers(id), JobOf(rows[id]))
    ensures var b := Claim(cfg, rows, q);
            b.Granted? ==> id in b.rows && (Untouched(rows[id], b.rows[id]) || Continues(q.answers(id), JobOf(rows[id])))
  {
    hide Inv, Follows, RecoverAll, ClaimAll, Selected, JobOf, Inconclusive, Continues, Untouched, First;
    SelectionFits(rows, q);
    RecoverAllKeeps(cfg, rows, Selected(rows, q), q.now, q.answers, q.at, [], q.at);
    SweepHeeds(cfg, rows, Selected(rows, q), q.now, q.answers, q.at, [], q.at, id);
    var s := SweepExpired(cfg, rows, q);
    ClaimAllKeeps(cfg, s.rows, Chosen(s.rows, s.offered, q), q.worker, q.tokens, q.hints, q.now, q.late, [], q.at);
    if id in IdsOf(Chosen(s.rows, s.offered, q)) && id !in s.offered {
      StateOf(s.rows[id]);
      UntouchedState(rows[id], s.rows[id]);
      ChosenLane(s.rows, s.offered, q, id);
    }
  }

  lemma UntouchedState(r: Record, r': Record)
    requires Untouched(r, r')
    ensures JobOf(r').state == JobOf(r).state
  {
    hide JobOf;
  }

  /** What a claim serves was offered, or waits in the ready lane. */
  lemma ChosenLane(rows: Rows, offered: seq<string>, q: ClaimRequest, id: string)
    requires id in rows && id in IdsOf(Chosen(rows, offered, q)) && RowsInv(rows)
    ensures id in offered || !rows[id].row.cols.state.Running?
  {
    hide First, Inv;
    var ready := ReadyKeys(rows, q.scope, q.at, q.locked);
    var all := OfferKeys(rows, offered) + Elems(First(ready, q.limit));
    FirstElems(ready, q.limit);
    FirstElems(all, q.limit);
    var k :| k in Chosen(rows, offered, q) && k.id == id;
    assert k in Elems(First(all, q.limit));
  }
}
