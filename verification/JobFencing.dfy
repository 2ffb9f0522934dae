/**
 Fencing and refinement over whole runs: a superseded lease never acts again, a
 finished job never changes, and the event log explains every row.
 */
module JobFencing {
  import opened Common
  import opened Jobs
  import opened JobStore
  import opened JobInvariant
  import opened JobTransactions
  import opened JobQueue
  import opened JobRuns

  // ---------------------------------------------------------------- leases

  /** A lease that has lost its row never regains it, whatever runs next. */
  lemma SupersededStaysDead(cfg: Config, w: World, ops: seq<Op>, id: string, t: string)
    requires WorldInv(w) && TimelyRun(cfg, w, ops)
    requires id in w.store.rows && t in w.used && !Live(w.store.rows[id], t, w.clock)
    ensures var w' := Run(cfg, w, ops);
            id in w'.store.rows && !Live(w'.store.rows[id], t, w'.clock)
  {
    hide WorldInv, Follows, Live, Run, TimelyRun;
    RunKeeps(cfg, w, ops);
    var w' := Run(cfg, w, ops);
    FollowsFences(w.store.rows[id], w.clock, w'.store.rows[id], w'.clock, TokensOfRun(ops), t);
  }

  /** Without its lease an owner is refused, and the database stays as it was. */
  lemma DeadLeaseRefused(cfg: Config, w: World, op: Op)
    requires OwnerOp(op) && w.clock <= StartOf(w, op)
    requires RowId(op) in w.store.rows ==> !Live(w.store.rows[RowId(op)], op.lease.token, w.clock)
    ensures Reply(cfg, w, op) == Err(LeaseError) && Next(cfg, w, op).store == w.store
  {
    hide Decode, Reconcile, PersistTxn, AfterFailure, PublishedCompletion, FinishAttempt;
  }

  /** Every persisted step ends all leases issued before it. */
  lemma StepSupersedes(cfg: Config, w: World, op: Op, id: string, t: string)
    requires WorldInv(w) && Timely(w, op) && id in w.store.rows && t in w.used
    ensures var w' := Next(cfg, w, op);
            && id in w'.store.rows
            && (JobOf(w'.store.rows[id]).version == JobOf(w.store.rows[id]).version
                || !Live(w'.store.rows[id], t, w'.clock))
  {
    hide WorldInv, Follows, Live, Next, Timely, JobOf;
    NextKeeps(cfg, w, op);
    FreshTokens(w, op);
    var w' := Next(cfg, w, op);
    FollowsFences(w.store.rows[id], w.clock, w'.store.rows[id], w'.clock, TokensOf(op), t);
  }

  /** An answered owner held the live lease at the row's current version. */
  lemma OwnerHeldLease(cfg: Config, w: World, op: Op)
    requires WorldInv(w) && Timely(w, op) && OwnerOp(op) && Reply(cfg, w, op).Ok?
    ensures RowId(op) in w.store.rows
    ensures var r := w.store.rows[RowId(op)];
            && Live(r, op.lease.token, w.clock) && r.row.hold.value.worker == op.lease.worker
            && r.row.cols.version == op.expected && op.lease.token in w.used
  {
    hide Inv, Decode, Reconcile, PersistTxn, AfterFailure, PublishedCompletion, FinishAttempt, ValidJob;
  }

  /** Whatever two owners attempt at one instant, only one (worker, token, version) can be answered. */
  lemma OneCommitterPerInstant(cfg: Config, w: World, a: Op, b: Op)
    requires WorldInv(w) && Timely(w, a) && Timely(w, b) && OwnerOp(a) && OwnerOp(b) && RowId(a) == RowId(b)
    requires Reply(cfg, w, a).Ok? && Reply(cfg, w, b).Ok?
    ensures a.lease.worker == b.lease.worker && a.lease.token == b.lease.token && a.expected == b.expected
  {
    hide WorldInv, Reply, Timely;
    OwnerHeldLease(cfg, w, a);
    OwnerHeldLease(cfg, w, b);
  }

  /**
   Fencing: once expiry, a resume, a settlement or any finish has superseded a
   lease, no later heartbeat, acknowledgement, failure or cancellation presenting
   it changes anything, however the other transactions interleave.
   */
  lemma Fencing(cfg: Config, w: World, ops: seq<Op>, op: Op)
    requires WorldInv(w) && TimelyRun(cfg, w, ops) && Timely(Run(cfg, w, ops), op)
    requires OwnerOp(op) && RowId(op) in w.store.rows && op.lease.token in w.used
    requires !Live(w.store.rows[RowId(op)], op.lease.token, w.clock)
    ensures var m := Run(cfg, w, ops);
            Reply(cfg, m, op) == Err(LeaseError) && Next(cfg, m, op).store == m.store
  {
    hide WorldInv, Live, Run, TimelyRun, Reply, Next;
    SupersededStaysDead(cfg, w, ops, RowId(op), op.lease.token);
    DeadLeaseRefused(cfg, Run(cfg, w, ops), op);
  }

  /** One lease persists at most one step: after it, every use of the lease is refused. */
  lemma LeaseCommitsOnce(cfg: Config, w: World, first: Op, ops: seq<Op>, again: Op)
    requires WorldInv(w) && Timely(w, first) && OwnerOp(first) && Reply(cfg, w, first).Ok?
    requires JobOf(Next(cfg, w, first).store.rows[RowId(first)]).version != JobOf(w.store.rows[RowId(first)]).version
    requires OwnerOp(again) && RowId(again) == RowId(first) && again.lease.token == first.lease.token
    requires TimelyRun(cfg, Next(cfg, w, first), ops) && Timely(Run(cfg, Next(cfg, w, first), ops), again)
    ensures var m := Run(cfg, Next(cfg, w, first), ops);
            Reply(cfg, m, again) == Err(LeaseError) && Next(cfg, m, again).store == m.store
  {
    hide WorldInv, Live, Run, TimelyRun, Reply, Next, JobOf, Timely;
    OwnerHeldLease(cfg, w, first);
    StepSupersedes(cfg, w, first, RowId(first), first.lease.token);
    NextKeeps(cfg, w, first);
    TokensStayUsed(cfg, w, first);
    Fencing(cfg, Next(cfg, w, first), ops, again);
  }

  lemma TokensStayUsed(cfg: Config, w: World, op: Op)
    ensures w.used <= Next(cfg, w, op).used
  {
    hide NextStore, Denials;
  }

  // ---------------------------------------------------------------- histories

  /** Every world reached from an empty database satisfies the invariant. */
  lemma ReachableInv(cfg: Config, ops: seq<Op>)
    requires TimelyRun(cfg, EMPTY, ops)
    ensures WorldInv(Run(cfg, EMPTY, ops))
  {
    hide Run, TimelyRun;
    RunKeeps(cfg, EMPTY, ops);
  }

  /** A job that reached a terminal state is the same value after every run. */
  lemma FinishedForever(cfg: Config, w: World, ops: seq<Op>, id: string)
    requires WorldInv(w) && TimelyRun(cfg, w, ops) && id in w.store.rows
    requires JobOf(w.store.rows[id]).state.Terminal()
    ensures id in Run(cfg, w, ops).store.rows
    ensures Decode(Run(cfg, w, ops).store.rows[id]) == Ok(JobOf(w.store.rows[id]))
  {
    hide WorldInv, Run, TimelyRun, JobOf, Inv, Decode, JobState.Terminal;
    RunKeeps(cfg, w, ops);
    RowOf(Run(cfg, w, ops), id);
    DecodeExact(Run(cfg, w, ops).store.rows[id]);
  }

  lemma RowOf(w: World, id: string)
    requires WorldInv(w) && id in w.store.rows
    ensures Inv(w.store.rows[id]) && w.store.rows[id].row.cols.id == id
    ensures w.store.rows[id].row.hold.Some? ==> w.store.rows[id].row.hold.value.token in w.used
  {
    hide Inv;
  }

  /**
   The event log refines the row: events of persisted steps carry consecutive
   versions ending at the row's, each starts where the last ended, replaying them
   gives the row's state, the attempts table is the job's history, and every
   attempt has exactly one claim behind it.
   */
  lemma LogRefinesRow(cfg: Config, ops: seq<Op>, id: string)
    requires TimelyRun(cfg, EMPTY, ops) && id in Run(cfg, EMPTY, ops).store.rows
    ensures var r := Run(cfg, EMPTY, ops).store.rows[id];
            var steps, j := Steps(r.log), JobOf(r);
            && steps != [] && Replay(steps) == Some(j.state)
            && (forall i :: 0 <= i < |steps| ==> steps[i].id == StepId(id, j.version - |steps| + 1 + i))
            && j.Count() == steps[0].count + CountKind(steps, Claimed)
            && TableIs(r.attempts, j.attempts) && Decode(r) == Ok(j)
            && (j.state.Running? <==> r.row.hold.Some?)
  {
    hide Run, TimelyRun, LoadAttempts, ValidJob, TableIs, Decode, Replay, CountKind, WorldInv, Steps;
    ReachableInv(cfg, ops);
    var r := Run(cfg, EMPTY, ops).store.rows[id];
    RowOf(Run(cfg, EMPTY, ops), id);
    DecodeExact(r);
  }

  lemma {:induction false} StepsPrefix(log: seq<Event>, log': seq<Event>)
    requires log <= log'
    ensures Steps(log) <= Steps(log')
    decreases |log'|
  {
    if |log| < |log'| {
      var n := |log'| - 1;
      StepsPrefix(log, log'[..n]);
      assert log'[..n] + [log'[n]] == log';
      StepsAppend(log'[..n], log'[n]);
    } else {
      assert log == log';
    }
  }

  /**
   Over any run a row's log only grows, by one step for each version; finished
   attempts are frozen and new attempts match the claims added.
   */
  lemma HistoryGrows(cfg: Config, w: World, ops: seq<Op>, id: string)
    requires WorldInv(w) && TimelyRun(cfg, w, ops) && id in w.store.rows
    ensures id in Run(cfg, w, ops).store.rows
    ensures var r, r' := w.store.rows[id], Run(cfg, w, ops).store.rows[id];
            var steps, steps' := Steps(r.log), Steps(r'.log);
            && steps <= steps'
            && |steps'| - |steps| == JobOf(r').version - JobOf(r).version
            && JobOf(r').Count() - JobOf(r).Count() == CountKind(steps', Claimed) - CountKind(steps, Claimed)
            && HistoryKept(JobOf(r).attempts, JobOf(r').attempts)
  {
    hide Run, TimelyRun, LoadAttempts, WorldInv, Follows;
    RunKeeps(cfg, w, ops);
    var r, r' := w.store.rows[id], Run(cfg, w, ops).store.rows[id];
    RowOf(w, id);
    RowOf(Run(cfg, w, ops), id);
    GrowthGives(r, w.clock, r', Run(cfg, w, ops).clock, TokensOfRun(ops));
  }

  lemma GrowthGives(r: Record, c: Time, r': Record, c': Time, granted: set<string>)
    requires Inv(r) && Follows(r, c, r', c', granted)
    ensures var steps, steps' := Steps(r.log), Steps(r'.log);
            && steps != [] && steps <= steps' && steps[0] == steps'[0]
            && |steps'| - |steps| == JobOf(r').version - JobOf(r).version
            && JobOf(r').Count() - JobOf(r).Count() == CountKind(steps', Claimed) - CountKind(steps, Claimed)
            && HistoryKept(JobOf(r).attempts, JobOf(r').attempts)
  {
    hide ValidJob, TableIs, LoadAttempts, Live, HistoryKept, Resumptions, Replay, CountKind, Steps;
    StepsPrefix(r.log, r'.log);
  }
}
