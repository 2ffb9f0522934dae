/**
 The guarantees of the shared queue, stated on histories: all states of the
 database from its creation on, one for each operation of any client.
 */
module JobTheorems {
  import opened Common
  import opened Jobs
  import opened JobStore
  import opened JobInvariant
  import opened JobTransactions
  import opened JobQueue
  import opened JobRuns
  import opened JobFencing
  import opened JobAuthority
  import opened JobFairness

  /** Every state follows from the one before by one timely operation; the first is an empty database. */
  ghost predicate History(cfg: Config, states: seq<World>, ops: seq<Op>) {
    && |states| == |ops| + 1 && states[0] == EMPTY
    && forall i :: 0 <= i < |ops| ==> Timely(states[i], ops[i]) && states[i + 1] == Next(cfg, states[i], ops[i])
  }

  /** Between any two of its states a history is a timely run. */
  lemma {:induction false} HistoryRuns(cfg: Config, states: seq<World>, ops: seq<Op>, n: nat, m: nat)
    requires History(cfg, states, ops) && n <= m <= |ops|
    ensures TimelyRun(cfg, states[n], ops[n..m]) && Run(cfg, states[n], ops[n..m]) == states[m]
    decreases m - n
  {
    hide Timely, Next;
    if n < m {
      HistoryRuns(cfg, states, ops, n, m - 1);
      assert ops[n..m][..m - 1 - n] == ops[n..m - 1];
    }
  }

  lemma HistoryInv(cfg: Config, states: seq<World>, ops: seq<Op>, n: nat)
    requires History(cfg, states, ops) && n <= |ops|
    ensures WorldInv(states[n])
  {
    hide WorldInv, Timely, Next, Run, TimelyRun;
    HistoryRuns(cfg, states, ops, 0, n);
    ReachableInv(cfg, ops[0..n]);
  }

  /** The lease of a token on a job is alive in a state. */
  predicate Owns(w: World, id: string, token: string) {
    id in w.store.rows && Live(w.store.rows[id], token, w.clock)
  }

  /**
   Fencing: a token that was issued and does not own a job in some state never acts
   on it again; whatever ran in between, its operations are refused and change nothing.
   */
  lemma FencedForever(cfg: Config, states: seq<World>, ops: seq<Op>, n: nat, m: nat)
    requires History(cfg, states, ops) && n <= m < |ops| && OwnerOp(ops[m])
    requires ops[m].lease.token in states[n].used && RowId(ops[m]) in states[n].store.rows
    requires !Owns(states[n], RowId(ops[m]), ops[m].lease.token)
    ensures Reply(cfg, states[m], ops[m]) == Err(LeaseError) && states[m + 1].store == states[m].store
  {
    hide WorldInv, Timely, Next, Run, TimelyRun, Reply, Live;
    HistoryInv(cfg, states, ops, n);
    HistoryRuns(cfg, states, ops, n, m);
    Fencing(cfg, states[n], ops[n..m], ops[m]);
  }

  /** One lease persists at most one step: every later use of it is refused. */
  lemma LeasePersistsOnce(cfg: Config, states: seq<World>, ops: seq<Op>, n: nat, m: nat)
    requires History(cfg, states, ops) && n < m < |ops| && OwnerOp(ops[n]) && OwnerOp(ops[m])
    requires RowId(ops[m]) == RowId(ops[n]) && ops[m].lease.token == ops[n].lease.token
    requires Reply(cfg, states[n], ops[n]).Ok? && RowId(ops[n]) in states[n].store.rows && RowId(ops[n]) in states[n + 1].store.rows
    requires JobOf(states[n + 1].store.rows[RowId(ops[n])]).version != JobOf(states[n].store.rows[RowId(ops[n])]).version
    ensures Reply(cfg, states[m], ops[m]) == Err(LeaseError) && states[m + 1].store == states[m].store
  {
    hide WorldInv, Timely, Next, Run, TimelyRun, Reply, JobOf;
    HistoryInv(cfg, states, ops, n);
    HistoryRuns(cfg, states, ops, n + 1, m);
    LeaseCommitsOnce(cfg, states[n], ops[n], ops[n + 1..m], ops[m]);
  }

  /** At one instant at most one (worker, token, version) can be answered on a job. */
  lemma OneAnsweredPerInstant(cfg: Config, states: seq<World>, ops: seq<Op>, n: nat, a: Op, b: Op)
    requires History(cfg, states, ops) && n <= |ops| && OwnerOp(a) && OwnerOp(b) && RowId(a) == RowId(b)
    requires Timely(states[n], a) && Timely(states[n], b)
    requires Reply(cfg, states[n], a).Ok? && Reply(cfg, states[n], b).Ok?
    ensures (a.lease.worker, a.lease.token, a.expected) == (b.lease.worker, b.lease.token, b.expected)
  {
    hide WorldInv, Timely, Next, Reply;
    HistoryInv(cfg, states, ops, n);
    OneCommitterPerInstant(cfg, states[n], a, b);
  }

  /** A succeeded, cancelled or dead-lettered job reads the same in every later state. */
  lemma TerminalForever(cfg: Config, states: seq<World>, ops: seq<Op>, n: nat, m: nat, id: string)
    requires History(cfg, states, ops) && n <= m <= |ops| && id in states[n].store.rows
    requires JobOf(states[n].store.rows[id]).state.Terminal()
    ensures id in states[m].store.rows && Decode(states[m].store.rows[id]) == Ok(JobOf(states[n].store.rows[id]))
  {
    hide WorldInv, Timely, Next, Run, TimelyRun, JobOf, Decode;
    HistoryInv(cfg, states, ops, n);
    HistoryRuns(cfg, states, ops, n, m);
    FinishedForever(cfg, states[n], ops[n..m], id);
  }

  /** In every state each row is explained by its own event log. */
  lemma LogExplainsRow(cfg: Config, states: seq<World>, ops: seq<Op>, n: nat, id: string)
    requires History(cfg, states, ops) && n <= |ops| && id in states[n].store.rows
    ensures var r := states[n].store.rows[id];
            var steps, j := Steps(r.log), JobOf(r);
            && steps != [] && Replay(steps) == Some(j.state)
            && (forall i :: 0 <= i < |steps| ==> steps[i].id == StepId(id, j.version - |steps| + 1 + i))
            && j.Count() == steps[0].count + CountKind(steps, Claimed)
            && TableIs(r.attempts, j.attempts) && Decode(r) == Ok(j)
            && (j.state.Running? <==> r.row.hold.Some?)
  {
    hide Timely, Next, Run, TimelyRun, JobOf, Decode, TableIs, Steps, Replay, CountKind;
    HistoryRuns(cfg, states, ops, 0, n);
    LogRefinesRow(cfg, ops[0..n], id);
  }

  /** Logs, histories and versions only grow, in step. */
  lemma LogOnlyGrows(cfg: Config, states: seq<World>, ops: seq<Op>, n: nat, m: nat, id: string)
    requires History(cfg, states, ops) && n <= m <= |ops| && id in states[n].store.rows
    ensures id in states[m].store.rows
    ensures var r, r' := states[n].store.rows[id], states[m].store.rows[id];
            var steps, steps' := Steps(r.log), Steps(r'.log);
            && steps <= steps' && |steps'| - |steps| == JobOf(r').version - JobOf(r).version
            && JobOf(r').Count() - JobOf(r).Count() == CountKind(steps', Claimed) - CountKind(steps, Claimed)
            && HistoryKept(JobOf(r).attempts, JobOf(r').attempts)
  {
    hide WorldInv, Timely, Next, Run, TimelyRun, JobOf, HistoryKept, Steps, CountKind;
    HistoryInv(cfg, states, ops, n);
    HistoryRuns(cfg, states, ops, n, m);
    HistoryGrows(cfg, states[n], ops[n..m], id);
  }

  /** The publication owner denies only what never commits, all along a history. */
  ghost predicate HonestHistory(states: seq<World>, ops: seq<Op>)
    requires |states| == |ops| + 1
  {
    forall i :: 0 <= i < |ops| ==> Honest(states[i], ops[i])
  }

  lemma {:induction false} HistoryHonest(cfg: Config, states: seq<World>, ops: seq<Op>, n: nat)
    requires History(cfg, states, ops) && HonestHistory(states, ops) && n <= |ops|
    ensures HonestRun(cfg, EMPTY, ops[0..n])
  {
    hide Timely, Next, Honest, Run, TimelyRun;
    if n > 0 {
      HistoryHonest(cfg, states, ops, n - 1);
      HistoryRuns(cfg, states, ops, 0, n - 1);
      assert ops[0..n][..n - 1] == ops[0..n - 1];
    }
  }

  /** Publication authority wins: a committed attempt is failed or cancelled in no state. */
  lemma CommittedSurvives(cfg: Config, states: seq<World>, ops: seq<Op>, n: nat, id: string, i: nat)
    requires History(cfg, states, ops) && HonestHistory(states, ops) && n <= |ops|
    requires id in states[n].store.rows && (id, i + 1) in states[n].committed
    requires Imported(states[n].store.rows[id]) <= i < JobOf(states[n].store.rows[id]).Count()
    ensures !LostAttempt(JobOf(states[n].store.rows[id]).attempts[i])
  {
    hide Timely, Next, Honest, Run, TimelyRun, HonestRun, JobOf, Imported;
    HistoryRuns(cfg, states, ops, 0, n);
    HistoryHonest(cfg, states, ops, n);
    CommittedIsNeverLost(cfg, ops[0..n], id, i);
  }

  /** While a ready job waits, any other job of its scope overtakes it by resume at most once. */
  lemma OvertakenOnce(cfg: Config, states: seq<World>, ops: seq<Op>, n: nat, m: nat, waiting: string, other: string)
    requires History(cfg, states, ops) && n <= m <= |ops|
    requires waiting in states[n].store.rows && other in states[n].store.rows
    requires waiting in states[m].store.rows && other in states[m].store.rows
    requires states[n].store.rows[other].row.cols.scope == states[n].store.rows[waiting].row.cols.scope
    requires Ready(states[n].store.rows[waiting], states[n].store.rows[waiting].row.cols.scope, states[n].clock)
    requires states[n].store.rows[waiting].row.cols.createdAt < states[n].clock
    requires states[m].store.rows[waiting].row.cols.version == states[n].store.rows[waiting].row.cols.version
    requires NeverSkipped(ops[n..m], waiting)
    ensures Resumptions(states[m].store.rows[other])
            <= Resumptions(states[n].store.rows[other])
               + if Passed(states[n].store.rows[other], states[n].store.rows[waiting]) then 0 else 1
  {
    hide WorldInv, Timely, Next, Run, TimelyRun, Resumptions, NeverSkipped, Ready, Passed;
    HistoryInv(cfg, states, ops, n);
    HistoryRuns(cfg, states, ops, n, m);
    OvertakenAtMostOnce(cfg, states[n], ops[n..m], waiting, other);
  }
}
