/**
 Any number of worker runtimes on one shared queue: their executions interleave
 with each other and with every other client of the database.
 */
module Fleet {
  import opened Common
  import opened Jobs
  import opened JobStore
  import opened JobInvariant
  import opened JobTransactions
  import opened JobQueue
  import opened JobRuns
  import opened JobFencing
  import opened Runtime

  /** One shared database and every execution any runtime ever admitted. */
  datatype Workers = Workers(world: World, machines: seq<Machine>)

  datatype Move =
    | Admit(job: Job, lease: Lease, deadline: Time)
    | Poison(job: Job, lease: Lease, code: Code)
    | Client(op: Op)
    | Local(i: nat, step: Step)
    | Finish(i: nat, tid: int, op: Op)

  /** The queue operation a finalizer's plan makes: its own lease, at the version it claimed. */
  predicate Makes(e: Execution, plan: Plan, op: Op) {
    && (match plan
        case PlanAck(result) => op.Ack? && op.submitted.result == result && op.deadline == Some(e.deadline)
        case PlanFail(_, retryable) => op.FailAttempt? && op.failure.retryable == retryable
        case PlanCancel => op.CancelRunning?
        case PlanYield => false)
    && OwnerOp(op) && op.lease == e.lease && op.expected == e.job.version
  }

  predicate Enabled(f: Workers, a: Move) {
    match a
    case Admit(_, _, _) => true
    case Poison(_, _, _) => true
    case Client(op) => Timely(f.world, op)
    case Local(i, step) => i < |f.machines| && !step.Call?
    case Finish(i, tid, op) =>
      && i < |f.machines| && tid in f.machines[i].threads && f.machines[i].threads[tid].Owning?
      && Makes(f.machines[i].e, f.machines[i].threads[tid].plan, op) && Timely(f.world, op)
  }

  function Act(cfg: Config, f: Workers, a: Move): Workers
    requires Enabled(f, a)
  {
    match a
    case Admit(job, lease, deadline) => f.(machines := f.machines + [Fresh(job, lease, deadline)])
    case Poison(job, lease, code) => f.(machines := f.machines + [Poisoned(job, lease, code)])
    case Client(op) => f.(world := Next(cfg, f.world, op))
    case Local(i, step) => f.(machines := f.machines[i := Do(f.machines[i], step)])
    case Finish(i, tid, op) =>
      Workers(Next(cfg, f.world, op),
              f.machines[i := Do(f.machines[i], Call(tid, Reply(cfg, f.world, op)))])
  }

  /** A history of the whole fleet: every state is reached from the one before by an enabled move. */
  ghost predicate History(cfg: Config, states: seq<Workers>, moves: seq<Move>) {
    && |states| == |moves| + 1
    && forall i :: 0 <= i < |moves| ==> Enabled(states[i], moves[i]) && states[i + 1] == Act(cfg, states[i], moves[i])
  }

  /** The durable row of the job says SUCCEEDED. */
  predicate Won(w: World, id: string) {
    id in w.store.rows && JobOf(w.store.rows[id]).state.Succeeded?
  }

  ghost predicate Honoured(w: World, machines: seq<Machine>) {
    && (forall i :: 0 <= i < |machines| && Success(machines[i]) ==> Won(w, machines[i].e.job.id))
    && (forall i, k :: 0 <= i < k < |machines| && Success(machines[i]) && Success(machines[k]) ==>
          machines[i].e.job.id != machines[k].e.job.id)
  }

  ghost predicate FleetInv(f: Workers) {
    && WorldInv(f.world)
    && (forall i :: 0 <= i < |f.machines| ==> MachineInv(f.machines[i]))
    && Honoured(f.world, f.machines)
  }

  // ---------------------------------------------------------------- the queue's side

  lemma WonStays(cfg: Config, w: World, op: Op, id: string)
    requires WorldInv(w) && Timely(w, op) && Won(w, id)
    ensures Won(Next(cfg, w, op), id)
  {
    hide WorldInv, Next, Timely, JobOf, Follows;
    NextKeeps(cfg, w, op);
    TerminalStays(w.store.rows[id], w.clock, Next(cfg, w, op).store.rows[id], Next(cfg, w, op).clock, TokensOf(op));
  }

  lemma TerminalStays(r: Record, c: Time, r': Record, c': Time, granted: set<string>)
    requires Follows(r, c, r', c', granted) && JobOf(r).state.Terminal()
    ensures JobOf(r') == JobOf(r)
  {
    hide Inv, JobOf, Live, Resumptions;
  }

  /** An owner told that its job succeeded has itself just moved the row there. */
  lemma WinIsNew(cfg: Config, w: World, op: Op)
    requires WorldInv(w) && Timely(w, op) && OwnerOp(op)
    requires Reply(cfg, w, op).Ok? && Reply(cfg, w, op).value.state.Succeeded?
    ensures !Won(w, RowId(op)) && Won(Next(cfg, w, op), RowId(op)) && Reply(cfg, w, op).value.id == RowId(op)
  {
    hide WorldInv, Timely, Next, RowTxn, Reply, Live, JobOf, Inv, Follows;
    OwnerHeldLease(cfg, w, op);
    var r := w.store.rows[RowId(op)];
    RowOf(w, RowId(op));
    LiveNotWon(r, op.lease.token, w.clock);
    Straight(w, op);
    ReplyIsCommit(cfg, w, op);
    RowTxnFollows(cfg, r, op, w.clock);
    SameId(r, w.clock, RowTxn(cfg, r, op).rec, EndOf(EMPTY, op));
  }

  lemma LiveNotWon(r: Record, token: string, clock: Time)
    requires Inv(r) && Live(r, token, clock)
    ensures !JobOf(r).state.Succeeded?
  {
    hide Inv, LoadAttempts;
  }

  /** A row operation that is answered commits exactly what it answers. */
  lemma ReplyIsCommit(cfg: Config, w: World, op: Op)
    requires RowOp(op) && RowId(op) in w.store.rows && Reply(cfg, w, op).Ok?
    ensures var t := RowTxn(cfg, w.store.rows[RowId(op)], op);
            && t.Commit? && t.job == Reply(cfg, w, op).value
            && RowId(op) in Next(cfg, w, op).store.rows && Next(cfg, w, op).store.rows[RowId(op)] == t.rec
  {
    hide RowTxn, Denials;
  }

  lemma Straight(w: World, op: Op)
    requires Timely(w, op) && OwnerOp(op)
    ensures w.clock <= StartOf(EMPTY, op) <= EndOf(EMPTY, op) && EndOf(w, op) == EndOf(EMPTY, op)
  {
    hide ValidJob;
  }

  lemma SameId(r: Record, c: Time, r': Record, c': Time)
    requires Inv(r) && Follows(r, c, r', c', {})
    ensures JobOf(r').id == r.row.cols.id
  {
    hide Inv, Live, LoadAttempts, HistoryKept, Resumptions;
  }

  /** What a counted outcome says about the row the call left behind. */
  predicate Tells(outcome: Outcome, plan: Plan, state: JobState) {
    match outcome
    case CountSucceeded => state.Succeeded?
    case CountLeaseLost => state.Running?
    case CountCancelled => state.Cancelled?
    case CountFailed => plan.PlanFail? && (state.Queued? || state.DeadLetter?)
    case CountQueueError => false
  }

  /** An answered finishing call is counted as what its row has become, whatever the plan. */
  lemma OutcomeTellsRow(cfg: Config, w: World, e: Execution, plan: Plan, op: Op)
    requires WorldInv(w) && Timely(w, op) && Makes(e, plan, op) && Reply(cfg, w, op).Ok?
    requires e.job.id == RowId(op) && e.job.scope == Reply(cfg, w, op).value.scope
    ensures RowId(op) in Next(cfg, w, op).store.rows
    ensures Tells(OutcomeOf(plan, e.job, Reply(cfg, w, op)), plan, JobOf(Next(cfg, w, op).store.rows[RowId(op)]).state)
  {
    hide WorldInv, Timely, Next, RowTxn, Reply, JobOf, Inv, Follows, Makes, OutcomeOf, Tells, Live;
    MakesOwner(e, plan, op);
    OwnerHeldLease(cfg, w, op);
    var r := w.store.rows[RowId(op)];
    RowOf(w, RowId(op));
    Straight(w, op);
    ReplyIsCommit(cfg, w, op);
    RowTxnFollows(cfg, r, op, w.clock);
    SameId(r, w.clock, RowTxn(cfg, r, op).rec, EndOf(EMPTY, op));
    FinishedStates(cfg, r, plan, op, e, w.clock);
    NoYield(e, plan, op);
    OutcomeTells(plan, e.job, Reply(cfg, w, op).value);
  }

  lemma NoYield(e: Execution, plan: Plan, op: Op)
    requires Makes(e, plan, op)
    ensures !plan.PlanYield?
  {
  }

  lemma OutcomeTells(plan: Plan, job: Job, after: Job)
    requires after.id == job.id && after.scope == job.scope && !plan.PlanYield?
    requires plan.PlanAck? ==> after.state.Succeeded? || after.state.Running?
    requires plan.PlanCancel? ==> SettledState(after.state)
    requires plan.PlanFail? ==> SettledState(after.state) || after.state.Queued? || after.state.DeadLetter?
    ensures Tells(OutcomeOf(plan, job, Ok(after)), plan, after.state)
  {
  }

  /** The states each plan's call can leave. */
  lemma FinishedStates(cfg: Config, r: Record, plan: Plan, op: Op, e: Execution, c: Time)
    requires Inv(r) && Makes(e, plan, op) && c <= StartOf(EMPTY, op) <= EndOf(EMPTY, op)
    requires RowTxn(cfg, r, op).Commit?
    ensures var state := RowTxn(cfg, r, op).job.state;
            && (plan.PlanAck? ==> state.Succeeded? || state.Running?)
            && (plan.PlanCancel? ==> SettledState(state))
            && (plan.PlanFail? ==> SettledState(state) || state.Queued? || state.DeadLetter?)
  {
    hide Inv, Follows, JobOf, Acknowledge, Fail, CancelLease, Lost, Denies;
    if op.Ack? {
      AcknowledgeKeeps(r, op.lease, op.submitted, op.now, op.expected, op.deadline, op.answer, op.at, op.late, c);
      UntouchedRuns(r, RowTxn(cfg, r, op).rec);
    } else if op.FailAttempt? {
      FailKeeps(cfg, r, op.lease, op.failure, op.now, op.expected, op.answer, op.at, op.late, c);
    } else {
      CancelLeaseKeeps(r, op.lease, op.now, op.expected, op.port, op.answer, op.at, op.late, c);
    }
  }

  lemma UntouchedRuns(r: Record, r': Record)
    ensures Untouched(r, r') ==> JobOf(r').state == JobOf(r).state
  {
  }

  // ---------------------------------------------------------------- every move

  lemma ClientKeeps(cfg: Config, f: Workers, op: Op)
    requires FleetInv(f) && Timely(f.world, op)
    ensures FleetInv(f.(world := Next(cfg, f.world, op)))
  {
    hide WorldInv, Next, Timely, Won, MachineInv, Success;
    NextKeeps(cfg, f.world, op);
    forall id | Won(f.world, id) ensures Won(Next(cfg, f.world, op), id) {
      WonStays(cfg, f.world, op, id);
    }
  }

  /** Steps other than queue calls never add a success. */
  lemma LocalKeeps(f: Workers, i: nat, step: Step)
    requires FleetInv(f) && i < |f.machines| && !step.Call?
    ensures FleetInv(f.(machines := f.machines[i := Do(f.machines[i], step)]))
  {
    hide WorldInv, Won, MachineInv, Success, Do;
    StepKeeps(f.machines[i], step);
    if Success(Do(f.machines[i], step)) && !Success(f.machines[i]) {
      SuccessNeedsCall(f.machines[i], step);
    }
  }

  lemma AdmitKeeps(f: Workers, m: Machine)
    requires FleetInv(f) && MachineInv(m) && !Success(m)
    ensures FleetInv(f.(machines := f.machines + [m]))
  {
    hide WorldInv, Won, MachineInv, Success;
  }

  lemma FinishKeeps(cfg: Config, f: Workers, i: nat, tid: int, op: Op)
    requires FleetInv(f) && Enabled(f, Finish(i, tid, op))
    ensures FleetInv(Act(cfg, f, Finish(i, tid, op)))
  {
    hide WorldInv, Next, Timely, Won, MachineInv, Success, Do, Reply, Makes;
    var g := f.(world := Next(cfg, f.world, op));
    MakesOwner(f.machines[i].e, f.machines[i].threads[tid].plan, op);
    ClientKeeps(cfg, f, op);
    var m, reply := f.machines[i], Reply(cfg, f.world, op);
    var m' := Do(m, Call(tid, reply));
    StepKeeps(m, Call(tid, reply));
    if Success(m') && !Success(m) {
      SuccessNeedsCall(m, Call(tid, reply));
      WinIsNew(cfg, f.world, op);
    }
  }

  lemma MakesOwner(e: Execution, plan: Plan, op: Op)
    requires Makes(e, plan, op)
    ensures OwnerOp(op)
  {
  }

  lemma NewMachines(job: Job, lease: Lease, deadline: Time, code: Code)
    ensures !Success(Fresh(job, lease, deadline)) && !Success(Poisoned(job, lease, code))
  {
  }

  lemma ActKeeps(cfg: Config, f: Workers, a: Move)
    requires FleetInv(f) && Enabled(f, a)
    ensures FleetInv(Act(cfg, f, a))
  {
    hide FleetInv, Next, Timely, MachineInv, Success, Do, Reply, Makes;
    match a
    case Admit(job, lease, deadline) =>
      FreshInv(job, lease, deadline, InvalidJob);
      NewMachines(job, lease, deadline, InvalidJob);
      AdmitKeeps(f, Fresh(job, lease, deadline));
    case Poison(job, lease, code) =>
      FreshInv(job, lease, 0.0, code);
      NewMachines(job, lease, 0.0, code);
      AdmitKeeps(f, Poisoned(job, lease, code));
    case Client(op) => ClientKeeps(cfg, f, op);
    case Local(i, step) => LocalKeeps(f, i, step);
    case Finish(i, tid, op) => FinishKeeps(cfg, f, i, tid, op);
  }

  lemma {:induction false} HistoryKeeps(cfg: Config, states: seq<Workers>, moves: seq<Move>, n: nat)
    requires History(cfg, states, moves) && n <= |moves| && FleetInv(states[0])
    ensures FleetInv(states[n])
  {
    hide FleetInv, Act, Enabled;
    if n > 0 {
      HistoryKeeps(cfg, states, moves, n - 1);
      ActKeeps(cfg, states[n - 1], moves[n - 1]);
    }
  }

  /**
   End to end: with any number of runtimes on one queue, at every moment of every
   history at most one execution counts a given job as succeeded, and from the
   moment one does the durable row says SUCCEEDED.
   */
  lemma SucceededOnceAndForever(cfg: Config, states: seq<Workers>, moves: seq<Move>, n: nat, i: nat, k: nat)
    requires History(cfg, states, moves) && n <= |moves| && states[0] == Workers(EMPTY, [])
    requires i < |states[n].machines| && states[n].machines[i].e.outcome == Some(CountSucceeded)
    ensures forall later :: n <= later <= |moves| ==> Won(states[later].world, states[n].machines[i].e.job.id)
    ensures k < |states[n].machines| && k != i && states[n].machines[k].e.job.id == states[n].machines[i].e.job.id ==>
              states[n].machines[k].e.outcome != Some(CountSucceeded)
  {
    hide WorldInv, Won, MachineInv;
    EmptyFleet();
    HistoryKeeps(cfg, states, moves, n);
    assert Success(states[n].machines[i]);
    if k < |states[n].machines| && states[n].machines[k].e.outcome == Some(CountSucceeded) {
      assert Success(states[n].machines[k]);
    }
    forall later | n <= later <= |moves| ensures Won(states[later].world, states[n].machines[i].e.job.id) {
      WonLater(cfg, states, moves, n, later, states[n].machines[i].e.job.id);
    }
  }

  lemma EmptyFleet()
    ensures FleetInv(Workers(EMPTY, []))
  {
  }

  lemma {:induction false} WonLater(cfg: Config, states: seq<Workers>, moves: seq<Move>, n: nat, later: nat, id: string)
    requires History(cfg, states, moves) && FleetInv(states[0]) && n <= later <= |moves| && Won(states[n].world, id)
    ensures Won(states[later].world, id)
    decreases later - n
  {
    hide FleetInv, Won, Next, Timely, Do, Reply, Makes;
    if n < later {
      HistoryKeeps(cfg, states, moves, n);
      WorldOf(states[n]);
      if moves[n].Client? || moves[n].Finish? {
        WonStays(cfg, states[n].world, moves[n].op, id);
      }
      WonLater(cfg, states, moves, n + 1, later, id);
    }
  }

  lemma WorldOf(f: Workers)
    requires FleetInv(f)
    ensures WorldInv(f.world)
  {
    hide WorldInv, MachineInv, Honoured;
  }
}
