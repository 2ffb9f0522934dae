/** Statements over every interleaving of transactions on the shared queue. */
module JobRuns {
  import opened Common
  import opened Jobs
  import opened JobStore
  import opened JobInvariant
  import opened JobTransactions
  import opened ClaimOrder
  import opened JobQueue

  ghost predicate RowsInv(rows: Rows) {
    forall id :: id in rows ==> Inv(rows[id]) && rows[id].row.cols.id == id
  }

  /** Every row follows its predecessor; a new row starts without a lease. */
  ghost predicate RowsFollow(a: Rows, c: Time, b: Rows, c': Time, granted: set<string>) {
    && c <= c'
    && (forall id :: id in a ==> id in b && Follows(a[id], c, b[id], c', granted))
    && (forall id, t :: id in b && id !in a && t !in granted ==> !Live(b[id], t, c'))
  }

  lemma FollowsWeaken(r: Record, c: Time, r': Record, c': Time, g: set<string>, g': set<string>)
    requires Follows(r, c, r', c', g) && g <= g'
    ensures Follows(r, c, r', c', g')
  {
    hide Inv, JobOf, Live;
  }

  lemma RowsFollowRefl(a: Rows, c: Time, c': Time, granted: set<string>)
    requires RowsInv(a) && c <= c'
    ensures RowsFollow(a, c, a, c', granted)
  {
    hide Inv, Follows;
    forall id | id in a ensures Follows(a[id], c, a[id], c', granted) {
      FollowsRefl(a[id], c, c', granted);
    }
  }

  lemma RowsFollowTrans(
      a: Rows, c: Time, b: Rows, c1: Time, d: Rows, c2: Time, g1: set<string>, g2: set<string>, g: set<string>)
    requires RowsFollow(a, c, b, c1, g1) && RowsFollow(b, c1, d, c2, g2) && g1 <= g && g2 <= g
    ensures RowsFollow(a, c, d, c2, g)
  {
    hide Follows, Live;
    forall id | id in a ensures id in d && Follows(a[id], c, d[id], c2, g) {
      FollowsTrans(a[id], c, b[id], c1, d[id], c2, g1, g2);
      FollowsWeaken(a[id], c, d[id], c2, g1 + g2, g);
    }
    forall id, t | id in d && id !in a && t !in g ensures !Live(d[id], t, c2) {
      if id in b {
        FollowsFences(b[id], c1, d[id], c2, g2, t);
      }
    }
  }

  lemma FollowsFences(r: Record, c: Time, r': Record, c': Time, granted: set<string>, t: string)
    requires Follows(r, c, r', c', granted) && t !in granted
    ensures Live(r', t, c') ==> Live(r, t, c) && JobOf(r).version == JobOf(r').version
  {
    hide Inv, JobOf, Live;
  }

  lemma UpdateFollows(rows: Rows, id: string, rec: Record, c: Time, clock: Time, granted: set<string>)
    requires RowsInv(rows) && id in rows && Follows(rows[id], c, rec, clock, granted)
    ensures RowsInv(rows[id := rec]) && RowsFollow(rows, c, rows[id := rec], clock, granted)
  {
    hide Inv, Follows, Live;
    FollowsIdentity(rows[id], c, rec, clock, granted);
    forall k | k in rows ensures Follows(rows[k], c, rows[id := rec][k], clock, granted) {
      if k != id {
        FollowsRefl(rows[k], c, clock, granted);
      }
    }
  }

  lemma FollowsIdentity(r: Record, c: Time, r': Record, c': Time, granted: set<string>)
    requires Follows(r, c, r', c', granted)
    ensures Inv(r') && r'.row.cols.id == r.row.cols.id && IndexKey(r'.row.cols) == IndexKey(r.row.cols) && c <= c'
    ensures JobOf(r).version <= JobOf(r').version
  {
    hide Inv, LoadAttempts, HistoryKept;
  }

  // ---------------------------------------------------------------- claims

  lemma RecoverExpiredSafe(cfg: Config, r: Record, now: Time, answer: Answer, room: bool, clock: Time, c: Time)
    requires Inv(r) && c <= clock
    ensures var e := RecoverExpired(cfg, r, now, answer, room, clock);
            && (e.Recovered? ==>
                  && Follows(r, c, e.rec, clock, {})
                  && (JobOf(r).attempts != [] && Lost(JobOf(r), JobOf(e.rec)) ==> Denies(answer, JobOf(r))))
            && (JobOf(r).state.Running? ==> !e.Broken?)
  {
    hide Inv, Follows, JobOf, Decode;
    InvGives(r);
    if JobOf(r).state.Running? {
      hide RecoverExpired;
      RecoverExpiredKeeps(cfg, r, now, answer, room, clock, c);
    } else {
      NotRunningMeansClosed(r);
    }
  }

  lemma NotRunningMeansClosed(r: Record)
    requires Inv(r) && !JobOf(r).state.Running?
    ensures JobOf(r).attempts == [] || !JobOf(r).Last().state.Running?
  {
    hide LogOk, TableIs, LoadAttempts, ValidHistory;
  }

  predicate DistinctIds(ks: seq<Key>) {
    forall i, k :: 0 <= i < k < |ks| ==> ks[i].id != ks[k].id
  }

  /** The sweep over expired rows never fails and keeps every row. */
  lemma {:induction false} RecoverAllKeeps(
      cfg: Config, rows: Rows, ks: seq<Key>, now: Time, answers: string -> Answer, clock: Time,
      offered: seq<string>, c: Time)
    requires RowsInv(rows) && c <= clock && DistinctIds(ks)
    requires forall k :: k in ks ==> k.id in rows && rows[k.id].row.cols.state.Running?
    ensures var s := RecoverAll(cfg, rows, ks, now, answers, clock, offered);
            && s.Swept? && RowsInv(s.rows) && RowsFollow(rows, c, s.rows, clock, {})
            && s.rows.Keys == rows.Keys
            && (forall id :: id in rows && id !in IdsOf(ks) ==> s.rows[id] == rows[id])
  {
    hide Inv, Follows, Live, RecoverExpired, JobOf, Lost, Denies;
    if ks == [] {
      RowsFollowRefl(rows, c, clock, {});
    } else {
      var id := ks[0].id;
      StateOf(rows[id]);
      RecoverExpiredSafe(cfg, rows[id], now, answers(id), |offered| < RECOVERY_LIMIT, clock, c);
      match RecoverExpired(cfg, rows[id], now, answers(id), |offered| < RECOVERY_LIMIT, clock)
      case Offered =>
        RecoverAllKeeps(cfg, rows, ks[1..], now, answers, clock, offered + [id], c);
      case Recovered(rec) =>
        var next := rows[id := rec];
        UpdateFollows(rows, id, rec, c, clock, {});
        RecoverAllKeeps(cfg, next, ks[1..], now, answers, clock, offered, clock);
        var s := RecoverAll(cfg, next, ks[1..], now, answers, clock, offered);
        RowsFollowTrans(rows, c, next, clock, s.rows, clock, {}, {}, {});
    }
  }

  /** A row offered for resumption is still as the sweep found it. */
  lemma {:induction false} RecoverAllOffers(
      cfg: Config, rows: Rows, ks: seq<Key>, now: Time, answers: string -> Answer, clock: Time,
      offered: seq<string>, id: string)
    requires DistinctIds(ks) && id !in offered && id in rows
    ensures var s := RecoverAll(cfg, rows, ks, now, answers, clock, offered);
            s.Swept? && id in s.offered ==> id in s.rows && s.rows[id] == rows[id] && id in IdsOf(ks)
  {
    if ks != [] && ks[0].id in rows {
      var k := ks[0].id;
      var e := RecoverExpired(cfg, rows[k], now, answers(k), |offered| < RECOVERY_LIMIT, clock);
      if k == id {
        if e.Offered? {
          Untaken(cfg, rows, ks[1..], now, answers, clock, offered + [k], id);
        } else if e.Recovered? {
          OfferedLater(cfg, rows[k := e.rec], ks[1..], now, answers, clock, offered, id);
        }
      } else if e.Offered? {
        RecoverAllOffers(cfg, rows, ks[1..], now, answers, clock, offered + [k], id);
      } else if e.Recovered? {
        RecoverAllOffers(cfg, rows[k := e.rec], ks[1..], now, answers, clock, offered, id);
      }
    }
  }

  lemma {:induction false} Untaken(
      cfg: Config, rows: Rows, ks: seq<Key>, now: Time, answers: string -> Answer, clock: Time,
      offered: seq<string>, id: string)
    requires id in rows && forall k :: k in ks ==> k.id != id
    ensures var s := RecoverAll(cfg, rows, ks, now, answers, clock, offered);
            s.Swept? ==> id in s.rows && s.rows[id] == rows[id]
  {
    if ks != [] && ks[0].id in rows {
      var e := RecoverExpired(cfg, rows[ks[0].id], now, answers(ks[0].id), |offered| < RECOVERY_LIMIT, clock);
      if e.Offered? {
        Untaken(cfg, rows, ks[1..], now, answers, clock, offered + [ks[0].id], id);
      } else if e.Recovered? {
        Untaken(cfg, rows[ks[0].id := e.rec], ks[1..], now, answers, clock, offered, id);
      }
    }
  }

  /** Only selected rows are offered. */
  lemma {:induction false} OfferedLater(
      cfg: Config, rows: Rows, ks: seq<Key>, now: Time, answers: string -> Answer, clock: Time,
      offered: seq<string>, id: string)
    requires forall k :: k in ks ==> k.id != id
    requires id !in offered
    ensures var s := RecoverAll(cfg, rows, ks, now, answers, clock, offered);
            s.Swept? ==> id !in s.offered
  {
    if ks != [] && ks[0].id in rows {
      var e := RecoverExpired(cfg, rows[ks[0].id], now, answers(ks[0].id), |offered| < RECOVERY_LIMIT, clock);
      if e.Offered? {
        OfferedLater(cfg, rows, ks[1..], now, answers, clock, offered + [ks[0].id], id);
      } else if e.Recovered? {
        OfferedLater(cfg, rows[ks[0].id := e.rec], ks[1..], now, answers, clock, offered, id);
      }
    }
  }

  lemma StateOf(r: Record)
    requires Inv(r)
    ensures JobOf(r).state == r.row.cols.state
  {
  }

  lemma SelectionFits(rows: Rows, q: ClaimRequest)
    requires RowsInv(rows)
    ensures var ks := Selected(rows, q);
            && DistinctIds(ks)
            && (forall k :: k in ks ==> k.id in rows && k.id !in q.locked && Expired(rows[k.id], q.scope, q.at)
                                        && k == RecoveryKey(rows[k.id]))
  {
    hide Inv, First;
    var all := ExpiredKeys(rows, q.scope, q.at, q.locked);
    FirstElems(all, RECOVERY_LIMIT);
    FirstDistinct(all, RECOVERY_LIMIT);
    forall k | k in Selected(rows, q)
      ensures k.id in rows && k.id !in q.locked && Expired(rows[k.id], q.scope, q.at) && k == RecoveryKey(rows[k.id])
    {
      assert k in Elems(First(all, RECOVERY_LIMIT));
    }
  }

  lemma {:induction false} ClaimAllKeeps(
      cfg: Config, rows: Rows, ks: seq<Key>, worker: string, tokens: seq<string>, hints: map<string, int>,
      now: Time, clock: Time, grants: seq<Handout>, c: Time)
    requires RowsInv(rows) && c <= clock
    ensures var b := ClaimAll(cfg, rows, ks, worker, tokens, hints, now, clock, grants);
            b.Granted? ==>
              && RowsInv(b.rows) && RowsFollow(rows, c, b.rows, clock, set t | t in tokens)
              && b.rows.Keys == rows.Keys
              && (forall id :: id in rows && id !in IdsOf(ks) ==> b.rows[id] == rows[id])
  {
    hide Inv, Follows, Live, ClaimOne;
    if ks == [] {
      RowsFollowRefl(rows, c, clock, set t | t in tokens);
    } else if ks[0].id in rows && tokens != [] {
      var id := ks[0].id;
      var hint := if id in hints then Some(hints[id]) else None;
      var t := ClaimOne(cfg, rows[id], worker, tokens[0], hint, now, clock);
      if t.Commit? && t.rec.row.hold.Some? {
        ClaimFollows(cfg, rows[id], worker, tokens[0], hint, now, clock, c);
        var next := rows[id := t.rec];
        UpdateFollows(rows, id, t.rec, c, clock, {tokens[0]});
        var handed := grants + [Handout(t.job, LeaseOf(t.rec))];
        ClaimAllKeeps(cfg, next, ks[1..], worker, tokens[1..], hints, now, clock, handed, clock);
        var b := ClaimAll(cfg, next, ks[1..], worker, tokens[1..], hints, now, clock, handed);
        if b.Granted? {
          RowsFollowTrans(rows, c, next, clock, b.rows, clock, {tokens[0]}, set t | t in tokens[1..], set t | t in tokens);
        }
      }
    }
  }

  lemma ClaimFollows(
      cfg: Config, r: Record, worker: string, token: string, hint: Option<int>, now: Time, clock: Time, c: Time)
    requires Inv(r) && c <= clock
    ensures var t := ClaimOne(cfg, r, worker, token, hint, now, clock);
            t.Commit? ==> Follows(r, c, t.rec, clock, {token})
  {
    hide Inv, Follows, ClaimOne, JobOf;
    ClaimOneKeeps(cfg, r, worker, token, hint, now, clock, c);
  }

  lemma ClaimKeeps(cfg: Config, rows: Rows, q: ClaimRequest, c: Time)
    requires RowsInv(rows) && c <= q.at <= q.late
    ensures var b := Claim(cfg, rows, q);
            b.Granted? ==>
              && RowsInv(b.rows) && RowsFollow(rows, c, b.rows, q.late, set t | t in q.tokens)
              && b.rows.Keys == rows.Keys
  {
    hide Inv, Follows, RecoverAll, ClaimAll, Selected;
    SelectionFits(rows, q);
    RecoverAllKeeps(cfg, rows, Selected(rows, q), q.now, q.answers, q.at, [], c);
    var s := SweepExpired(cfg, rows, q);
    ClaimAllKeeps(cfg, s.rows, Chosen(s.rows, s.offered, q), q.worker, q.tokens, q.hints, q.now, q.late, [], q.at);
    var b := Claim(cfg, rows, q);
    if b.Granted? {
      RowsFollowTrans(rows, c, s.rows, q.at, b.rows, q.late, {}, set t | t in q.tokens, set t | t in q.tokens);
    }
  }

  // ---------------------------------------------------------------- one step

  ghost predicate IndexInv(s: Store) {
    && (forall k :: k in s.index ==> s.index[k] in s.rows && IndexKey(s.rows[s.index[k]].row.cols) == k)
    && (forall id :: id in s.rows ==>
          IndexKey(s.rows[id].row.cols) in s.index && s.index[IndexKey(s.rows[id].row.cols)] == id)
  }

  ghost predicate TokensInv(rows: Rows, used: set<string>) {
    forall id :: id in rows && rows[id].row.hold.Some? ==> rows[id].row.hold.value.token in used
  }

  ghost predicate StoreOk(s: Store, used: set<string>) {
    RowsInv(s.rows) && IndexInv(s) && TokensInv(s.rows, used)
  }

  ghost predicate WorldInv(w: World) {
    StoreOk(w.store, w.used)
  }

  /** A step of the whole database: the invariant survives and every row follows its predecessor. */
  ghost predicate StoreStep(s: Store, c: Time, s': Store, c': Time, granted: set<string>, used: set<string>) {
    StoreOk(s', used + granted) && RowsFollow(s.rows, c, s'.rows, c', granted)
  }

  const EMPTY: World := World(Store(map[], map[]), 0.0, {}, {}, {})

  lemma TokensKept(a: Rows, c: Time, b: Rows, c': Time, granted: set<string>, used: set<string>)
    requires RowsFollow(a, c, b, c', granted) && TokensInv(a, used) && b.Keys == a.Keys
    ensures TokensInv(b, used + granted)
  {
    hide Follows, Live;
    forall id | id in b && b[id].row.hold.Some? ensures b[id].row.hold.value.token in used + granted {
      HoldToken(a[id], c, b[id], c', granted);
    }
  }

  lemma HoldToken(r: Record, c: Time, r': Record, c': Time, granted: set<string>)
    requires Follows(r, c, r', c', granted) && r'.row.hold.Some?
    ensures r'.row.hold.value.token in granted
            || (r.row.hold.Some? && r.row.hold.value.token == r'.row.hold.value.token)
  {
    hide Inv, JobOf, Live;
  }

  lemma IndexKept(s: Store, c: Time, rows: Rows, c': Time, granted: set<string>)
    requires IndexInv(s) && RowsFollow(s.rows, c, rows, c', granted) && rows.Keys == s.rows.Keys
    ensures IndexInv(s.(rows := rows))
  {
    hide Follows, Live;
    forall id | id in rows ensures IndexKey(rows[id].row.cols) == IndexKey(s.rows[id].row.cols) {
      FollowsIdentity(s.rows[id], c, rows[id], c', granted);
    }
  }

  /** One row's transaction, whichever operation it serves. */
  lemma RowTxnFollows(cfg: Config, r: Record, op: Op, c: Time)
    requires Inv(r) && RowOp(op) && c <= StartOf(EMPTY, op) <= EndOf(EMPTY, op)
    ensures var t := RowTxn(cfg, r, op);
            t.Commit? ==> Follows(r, c, t.rec, EndOf(EMPTY, op), {}) && JobOf(t.rec) == t.job
  {
    hide Inv, Follows, JobOf, Lost, Denies, Heartbeat, Acknowledge, Fail, CancelLease, Cancel, RecoverPublication;
    match op
    case Renew(lease, expected, nonce, at, late) => HeartbeatKeeps(cfg, r, lease, expected, nonce, at, late, c);
    case Ack(lease, submitted, now, expected, deadline, answer, at, late) =>
      AcknowledgeKeeps(r, lease, submitted, now, expected, deadline, answer, at, late, c);
    case FailAttempt(lease, failure, now, expected, answer, at, late) =>
      FailKeeps(cfg, r, lease, failure, now, expected, answer, at, late, c);
    case CancelRunning(lease, now, expected, port, answer, at, late) =>
      CancelLeaseKeeps(r, lease, now, expected, port, answer, at, late, c);
    case CancelJob(_, scope, now, expected, port, answer, at) =>
      CancelKeeps(r, scope, now, expected, port, answer, at, c);
    case Poll(_, scope, now, answer, at) => RecoverPublicationKeeps(r, scope, now, answer, at, c);
  }

  /** Replacing rows by successors is a step. */
  lemma RowsStep(s: Store, c: Time, rows: Rows, c': Time, granted: set<string>, used: set<string>)
    requires StoreOk(s, used) && RowsInv(rows) && RowsFollow(s.rows, c, rows, c', granted) && rows.Keys == s.rows.Keys
    ensures StoreStep(s, c, s.(rows := rows), c', granted, used)
  {
    hide RowsInv, RowsFollow, IndexInv, TokensInv;
    IndexKept(s, c, rows, c', granted);
    TokensKept(s.rows, c, rows, c', granted, used);
  }

  lemma StayStep(s: Store, c: Time, c': Time, granted: set<string>, used: set<string>)
    requires StoreOk(s, used) && c <= c'
    ensures StoreStep(s, c, s, c', granted, used)
  {
    hide RowsFollow, IndexInv, TokensInv, Inv;
    RowsFollowRefl(s.rows, c, c', granted);
    TokensKept(s.rows, c, s.rows, c', granted, used);
  }

  lemma UpdateStep(s: Store, id: string, rec: Record, c: Time, c': Time, used: set<string>)
    requires StoreOk(s, used) && id in s.rows && Follows(s.rows[id], c, rec, c', {})
    ensures StoreStep(s, c, s.(rows := s.rows[id := rec]), c', {}, used)
  {
    hide RowsInv, RowsFollow, IndexInv, TokensInv, Follows;
    UpdateFollows(s.rows, id, rec, c, c', {});
    RowsStep(s, c, s.rows[id := rec], c', {}, used);
  }

  lemma InsertStep(s: Store, job: Job, c: Time, used: set<string>)
    requires ValidJob(job) && StoreOk(s, used) && IndexKey(job) !in s.index
    ensures var a := InsertInto(s, job);
            a.Admitted? ==> job.id in a.store.rows && a.job == job && StoreStep(s, c, a.store, c, {}, used)
  {
    hide RowsInv, IndexInv, TokensInv, RowsFollow, ValidJob, Insert;
    if InsertInto(s, job).Admitted? {
      var rec := Insert(job).value;
      InsertKeeps(job);
      InsertedRow(job);
      InsertedRows(s.rows, job.id, rec, c);
      InsertedIndex(s, job, rec);
      InsertedTokens(s.rows, job.id, rec, used);
    }
  }

  lemma InsertedRow(job: Job)
    requires ValidJob(job) && Insert(job).Ok?
    ensures var rec := Insert(job).value;
            Inv(rec) && rec.row.cols == Columns(job) && rec.row.hold.None?
  {
    hide Inv, JobOf, ValidJob, WriteAttempts;
    InsertKeeps(job);
  }

  lemma InsertedRows(rows: Rows, id: string, rec: Record, c: Time)
    requires RowsInv(rows) && id !in rows && Inv(rec) && rec.row.cols.id == id && rec.row.hold.None?
    ensures RowsInv(rows[id := rec]) && RowsFollow(rows, c, rows[id := rec], c, {})
  {
    hide Inv, Follows;
    RowsFollowRefl(rows, c, c, {});
  }

  lemma InsertedTokens(rows: Rows, id: string, rec: Record, used: set<string>)
    requires TokensInv(rows, used) && rec.row.hold.None?
    ensures var none: set<string> := {}; TokensInv(rows[id := rec], used + none)
  {
  }

  lemma InsertedIndex(s: Store, job: Job, rec: Record)
    requires IndexInv(s) && job.id !in s.rows && IndexKey(job) !in s.index
    requires rec.row.cols.scope == job.scope && rec.row.cols.request == job.request
    ensures IndexInv(Store(s.rows[job.id := rec], s.index[IndexKey(job) := job.id]))
  {
  }

  lemma PutStep(s: Store, id: string, c: Time, c': Time, used: set<string>)
    requires StoreOk(s, used) && id in s.rows && c <= c'
    ensures var a := Put(s, id, QueuePending(s.rows[id], c'));
            a.Admitted? && StoreStep(s, c, a.store, c', {}, used)
  {
    hide IndexInv, TokensInv, Inv, Follows, JobOf, QueuePending, StoreStep;
    QueuePendingKeeps(s.rows[id], c', c);
    UpdateStep(s, id, QueuePending(s.rows[id], c').rec, c, c', used);
  }

  lemma StepTrans(
      s: Store, c: Time, s1: Store, c1: Time, s2: Store, c2: Time,
      g1: set<string>, g2: set<string>, g: set<string>, used: set<string>)
    requires StoreStep(s, c, s1, c1, g1, used) && StoreStep(s1, c1, s2, c2, g2, used + g1) && g == g1 + g2
    ensures StoreStep(s, c, s2, c2, g, used)
  {
    hide RowsInv, RowsFollow, IndexInv, TokensInv;
    RowsFollowTrans(s.rows, c, s1.rows, c1, s2.rows, c2, g1, g2, g);
    assert used + g1 + g2 == used + g;
  }

  lemma NoTokens(used: set<string>)
    ensures var none: set<string> := {}; used + none == used
  {
  }

  lemma AdmissionStep(cfg: Config, s: Store, job: Job, expected: int, c': Time, c: Time, used: set<string>)
    requires ValidJob(job) && StoreOk(s, used) && c <= c'
    ensures var a := Enqueue(cfg, s, job, expected, c');
            a.Admitted? ==> StoreStep(s, c, a.store, c', {}, used)
  {
    hide StoreOk, StoreStep, QueuePending, InsertInto, Decode, ValidJob, Put;
    if IndexKey(job) in s.index {
      IndexPoints(s, used, IndexKey(job));
      PutStep(s, s.index[IndexKey(job)], c, c', used);
    } else {
      InsertStep(s, job, c, used);
      var a := InsertInto(s, job);
      if a.Admitted? {
        NoTokens(used);
        StepOkAfter(s, c, a.store, c, {}, used);
        PutStep(a.store, job.id, c, c', used);
        StepTrans(s, c, a.store, c, Put(a.store, job.id, QueuePending(a.store.rows[job.id], c')).store, c', {}, {}, {}, used);
      }
    }
  }

  predicate Full(cfg: Config, s: Store, scope: Scope) {
    |set id | id in s.rows && CountsAsPending(s.rows[id], scope)| >= cfg.maxPending
  }

  /**
   Admission exactly: a known key is answered with its own job if and only if the
   envelope and the version agree, and changes nothing but a pending state; a new
   key is admitted if and only if there is room, no version is expected, the id is
   unused and the job is not running.
   */
  lemma AdmissionExact(cfg: Config, s: Store, job: Job, expected: int, clock: Time, used: set<string>)
    requires ValidJob(job) && StoreOk(s, used)
    ensures var a := Enqueue(cfg, s, job, expected, clock);
            if IndexKey(job) in s.index then
              var id := s.index[IndexKey(job)];
              && id in s.rows
              && (a.Admitted? <==>
                    (expected == 0 || expected == JobOf(s.rows[id]).version) && SameEnvelope(JobOf(s.rows[id]), job))
              && (a.Admitted? ==>
                    && a.store.index == s.index && a.store.rows.Keys == s.rows.Keys
                    && (JobOf(s.rows[id]).state.Pending? || (a.store.rows[id] == s.rows[id] && a.job == JobOf(s.rows[id]))))
            else
              && (a.Admitted? <==> !Full(cfg, s, job.scope) && expected == 0 && job.id !in s.rows && !job.state.Running?)
              && (a.Admitted? ==> a.store.index == s.index[IndexKey(job) := job.id] && a.store.rows.Keys == s.rows.Keys + {job.id})
  {
    hide Inv, JobOf, ValidJob, QueuePending, Insert, Follows, Decode, SameEnvelope;
    if IndexKey(job) in s.index {
      IndexPoints(s, used, IndexKey(job));
      var id := s.index[IndexKey(job)];
      RowIn(s, used, id);
      DecodeExact(s.rows[id]);
      QueuePendingKeeps(s.rows[id], clock, clock);
      QueuedJob(s.rows[id], clock);
    } else {
      InsertKeeps(job);
      if InsertInto(s, job).Admitted? {
        QueuePendingKeeps(Insert(job).value, clock, clock);
      }
    }
  }

  lemma RowIn(s: Store, used: set<string>, id: string)
    requires StoreOk(s, used) && id in s.rows
    ensures Inv(s.rows[id])
  {
    hide Inv, IndexInv, TokensInv;
  }

  /** Queueing answers with the job it leaves, and leaves a job that is not pending alone. */
  lemma QueuedJob(r: Record, clock: Time)
    requires Inv(r)
    ensures !JobOf(r).state.Pending? ==> QueuePending(r, clock) == Commit(r, JobOf(r))
  {
    DecodeExact(r);
    hide Inv, JobOf, Decode;
  }

  lemma IndexPoints(s: Store, used: set<string>, k: (Scope, string))
    requires StoreOk(s, used) && k in s.index
    ensures s.index[k] in s.rows
  {
    hide RowsInv, TokensInv;
  }

  lemma StepOkAfter(s: Store, c: Time, s': Store, c': Time, granted: set<string>, used: set<string>)
    requires StoreStep(s, c, s', c', granted, used)
    ensures StoreOk(s', used + granted)
  {
    hide StoreOk, RowsFollow;
  }

  lemma CreationStep(s: Store, job: Job, expected: int, c: Time, used: set<string>)
    requires ValidJob(job) && StoreOk(s, used)
    ensures var a := CreateOrReplay(s, job, expected);
            a.Admitted? ==> StoreStep(s, c, a.store, c, {}, used)
  {
    hide StoreOk, StoreStep, InsertInto, Decode, ValidJob;
    if IndexKey(job) in s.index {
      IndexPoints(s, used, IndexKey(job));
      StayStep(s, c, c, {}, used);
    } else {
      InsertStep(s, job, c, used);
    }
  }

  lemma ClaimStep(cfg: Config, s: Store, q: ClaimRequest, c: Time, used: set<string>)
    requires StoreOk(s, used) && c <= q.at <= q.late
    ensures var b := Claim(cfg, s.rows, q);
            b.Granted? ==> StoreStep(s, c, s.(rows := b.rows), q.late, (set t | t in q.tokens), used)
  {
    hide RowsInv, IndexInv, TokensInv, RowsFollow, Claim, StoreStep;
    ClaimKeeps(cfg, s.rows, q, c);
    if Claim(cfg, s.rows, q).Granted? {
      RowsStep(s, c, Claim(cfg, s.rows, q).rows, q.late, (set t | t in q.tokens), used);
    }
  }

  lemma RowOpStep(cfg: Config, s: Store, op: Op, c: Time, used: set<string>)
    requires StoreOk(s, used) && RowOp(op) && RowId(op) in s.rows && c <= StartOf(EMPTY, op) <= EndOf(EMPTY, op)
    ensures var t := RowTxn(cfg, s.rows[RowId(op)], op);
            t.Commit? ==> StoreStep(s, c, s.(rows := s.rows[RowId(op) := t.rec]), EndOf(EMPTY, op), {}, used)
  {
    hide Inv, IndexInv, TokensInv, RowsFollow, RowTxn, StoreStep, Follows, JobOf;
    RowTxnFollows(cfg, s.rows[RowId(op)], op, c);
    var t := RowTxn(cfg, s.rows[RowId(op)], op);
    if t.Commit? {
      UpdateStep(s, RowId(op), t.rec, c, EndOf(EMPTY, op), used);
    }
  }

  /** Every step keeps the whole-database invariant, and every row follows its predecessor. */
  lemma NextKeeps(cfg: Config, w: World, op: Op)
    requires WorldInv(w) && Timely(w, op)
    ensures var w' := Next(cfg, w, op);
            && WorldInv(w') && w.clock <= w'.clock
            && RowsFollow(w.store.rows, w.clock, w'.store.rows, w'.clock, TokensOf(op))
  {
    hide StoreOk, StoreStep, Claim, Enqueue, CreateOrReplay, RowTxn, Denials, ValidJob;
    var s, c, c' := w.store, w.clock, EndOf(w, op);
    NoTokens(w.used);
    StayStep(s, c, c', TokensOf(op), w.used);
    if op.Create? {
      CreationStep(s, op.job, op.expected, c, w.used);
    } else if op.Submit? {
      AdmissionStep(cfg, s, op.job, op.expected, op.at, c, w.used);
    } else if op.ClaimJobs? {
      ClaimStep(cfg, s, op.request, c, w.used);
    } else if RowOp(op) && RowId(op) in s.rows {
      RowOpStep(cfg, s, op, c, w.used);
    }
    StepGives(s, c, NextStore(cfg, s, op), c', TokensOf(op), w.used);
  }

  lemma StepGives(s: Store, c: Time, s': Store, c': Time, granted: set<string>, used: set<string>)
    requires StoreStep(s, c, s', c', granted, used)
    ensures StoreOk(s', used + granted) && RowsFollow(s.rows, c, s'.rows, c', granted) && c <= c'
  {
    hide StoreOk;
  }

  // ---------------------------------------------------------------- whole runs

  function TokensOfRun(ops: seq<Op>): set<string> {
    if ops == [] then {} else TokensOfRun(ops[..|ops| - 1]) + TokensOf(ops[|ops| - 1])
  }

  lemma {:induction false} RunKeeps(cfg: Config, w: World, ops: seq<Op>)
    requires WorldInv(w) && TimelyRun(cfg, w, ops)
    ensures var w' := Run(cfg, w, ops);
            && WorldInv(w') && w.clock <= w'.clock && w'.used == w.used + TokensOfRun(ops)
            && TokensOfRun(ops) !! w.used
            && RowsFollow(w.store.rows, w.clock, w'.store.rows, w'.clock, TokensOfRun(ops))
  {
    hide Inv, Follows, Live, NextStore, Denials, Timely;
    if ops == [] {
      RowsFollowRefl(w.store.rows, w.clock, w.clock, {});
    } else {
      var before, last := ops[..|ops| - 1], ops[|ops| - 1];
      RunKeeps(cfg, w, before);
      var m := Run(cfg, w, before);
      NextKeeps(cfg, m, last);
      FreshTokens(m, last);
      var w' := Next(cfg, m, last);
      RowsFollowTrans(w.store.rows, w.clock, m.store.rows, m.clock, w'.store.rows, w'.clock,
                      TokensOfRun(before), TokensOf(last), TokensOfRun(ops));
    }
  }

  lemma FreshTokens(w: World, op: Op)
    requires Timely(w, op)
    ensures TokensOf(op) !! w.used
  {
    hide ValidJob;
  }
}
