/**
 One claimed execution inside a worker runtime. Any number of monitor threads,
 the handler thread, callers and shutdown interleave freely; only the short
 blocks under the execution lock are atomic.
 */
module Runtime {
  import opened Common
  import opened Jobs
  import opened JobStore

  /** The five ways an execution is counted. */
  datatype Outcome = CountSucceeded | CountFailed | CountCancelled | CountLeaseLost | CountQueueError

  datatype Code = InvalidJob | InvalidResult | HandlerTimeout | PayloadTooLarge | UnknownOperation | HandlerCode(text: string)

  /** What the handler left behind when it ended. */
  datatype HandlerEnd =
    | Unfinished
    | Returned(result: JobResult)
    | ReturnedOther
    | RaisedCancel
    | RaisedRecovery
    | RaisedError(code: Code, retryable: bool)

  /** The queue call a finalizer has settled on; yielding makes none. */
  datatype Plan = PlanAck(result: JobResult) | PlanFail(code: Code, retryable: bool) | PlanCancel | PlanYield

  /** Where one monitoring thread is; a thread that is not listed is between monitoring passes. */
  datatype Phase = Beating | AtHandler | Overdue | Decided(plan: Plan) | Owning(plan: Plan) | Concluding(outcome: Outcome)

  datatype Execution = Execution(
    job: Job, lease: Lease, deadline: Time,
    launched: bool, launchFailed: bool, handlerDone: bool, end: HandlerEnd,
    cancelRequested: bool, tokenCancelled: bool, leaseLost: bool, timedOut: bool,
    finalizing: bool, outcome: Option<Outcome>, errorDetected: bool)

  /** `calls` and `records` count finishing queue calls made and outcomes written. */
  datatype Machine = Machine(e: Execution, threads: map<int, Phase>, calls: nat, records: nat)

  function Fresh(job: Job, lease: Lease, deadline: Time): Machine {
    Machine(Execution(job, lease, deadline, false, false, false, Unfinished,
                      false, false, false, false, false, None, false),
            map[], 0, 0)
  }

  /** A claim refused before it ran: its only thread already owns the failure call. */
  function Poisoned(job: Job, lease: Lease, code: Code): Machine {
    Machine(Execution(job, lease, 0.0, false, true, true, Unfinished,
                      false, false, false, false, true, None, false),
            map[0 := Owning(PlanFail(code, false))], 0, 0)
  }

  datatype Step =
    | ConfirmLaunch
    | LaunchFails
    | HandlerEnds(end: HandlerEnd)
    | RequestCancel
    | Monitor(tid: int, now: Time, beatDue: bool)
    | Beat(tid: int, renewed: Option<Lease>)
    | ReadHandler(tid: int, now: Time)
    | MarkTimeout(tid: int)
    | Begin(tid: int)
    | Call(tid: int, reply: Result<Job, QueueError>)
    | Skip(tid: int)
    | End(tid: int)

  /** How the answer to a finishing call is counted. */
  function OutcomeOf(plan: Plan, job: Job, reply: Result<Job, QueueError>): Outcome {
    match reply
    case Err(error) =>
      if error.LeaseError? then CountLeaseLost
      else if plan.PlanCancel? then CountCancelled
      else CountQueueError
    case Ok(after) =>
      if after.id != job.id || after.scope != job.scope then CountQueueError
      else if after.state.Succeeded? then CountSucceeded
      else if after.state.Running? then CountLeaseLost
      else if plan.PlanAck? || after.state.Pending? then CountQueueError
      else if plan.PlanCancel? || after.state.Cancelled? then CountCancelled
      else CountFailed
  }

  /** The first pass of a monitor over the flags, in the order the code tests them. */
  function Observe(e: Execution, now: Time, beatDue: bool): Option<Phase> {
    if e.outcome.Some? || e.finalizing then None
    else if e.leaseLost then Some(Decided(PlanYield))
    else if e.cancelRequested || e.tokenCancelled then Some(Decided(PlanCancel))
    else if e.deadline <= now then Some(Overdue)
    else if e.handlerDone then Some(AtHandler)
    else if beatDue then Some(Beating)
    else None
  }

  /** What a finished handler calls for; the flags are read before finalization begins. */
  function PlanFor(e: Execution, now: Time): Phase {
    if e.launchFailed then Decided(PlanFail(InvalidJob, false))
    else if e.leaseLost then Decided(PlanYield)
    else if e.cancelRequested || e.tokenCancelled || e.end.RaisedCancel? then Decided(PlanCancel)
    else if e.timedOut || e.deadline <= now then Overdue
    else match e.end
      case RaisedRecovery => Decided(PlanYield)
      case RaisedError(code, retryable) => Decided(PlanFail(code, retryable))
      case Returned(result) => Decided(PlanAck(result))
      case _ => Decided(PlanFail(InvalidResult, false))
  }

  function At(m: Machine, tid: int): Option<Phase> {
    if tid in m.threads then Some(m.threads[tid]) else None
  }

  function Move(m: Machine, tid: int, phase: Phase): Machine {
    m.(threads := m.threads[tid := phase])
  }

  function Leave(m: Machine, tid: int): Machine {
    m.(threads := m.threads - {tid})
  }

  /** A renewal may move the expiry of a lease and nothing else. */
  predicate SameLease(a: Lease, b: Lease) {
    a.jobId == b.jobId && a.scope == b.scope && a.worker == b.worker && a.token == b.token
  }

  function MarkLost(e: Execution): Execution {
    e.(leaseLost := true, tokenCancelled := true)
  }

  function MarkLate(e: Execution): Execution {
    e.(timedOut := true, tokenCancelled := true)
  }

  function Renewed(e: Execution, lease: Lease): Execution {
    if e.outcome.Some? then e else e.(lease := lease)
  }

  /** A finishing call never made: a fault before it, or a queue without the port. */
  function SkippedOutcome(plan: Plan): Outcome {
    match plan
    case PlanYield => CountLeaseLost
    case PlanCancel => CountCancelled
    case _ => CountQueueError
  }

  function Do(m: Machine, s: Step): Machine {
    match s
    case ConfirmLaunch => if m.e.launchFailed then m else m.(e := m.e.(launched := true))
    case LaunchFails => if m.e.launched then m else m.(e := m.e.(launchFailed := true, handlerDone := true))
    case HandlerEnds(end) => if m.e.handlerDone then m else m.(e := m.e.(handlerDone := true, end := end))
    case RequestCancel =>
      if m.e.outcome.Some? then m else m.(e := m.e.(cancelRequested := true, tokenCancelled := true))
    case Monitor(tid, now, beatDue) =>
      var next := Observe(m.e, now, beatDue);
      if tid in m.threads || next.None? then m else Move(m, tid, next.value)
    case Beat(tid, renewed) =>
      if At(m, tid) != Some(Beating) then m
      else if renewed.None? || !SameLease(renewed.value, m.e.lease) then
        Move(m.(e := MarkLost(m.e)), tid, Decided(PlanYield))
      else Leave(m.(e := Renewed(m.e, renewed.value)), tid)
    case ReadHandler(tid, now) =>
      if At(m, tid) != Some(AtHandler) then m else Move(m, tid, PlanFor(m.e, now))
    case MarkTimeout(tid) =>
      if At(m, tid) != Some(Overdue) then m
      else Move(m.(e := MarkLate(m.e)), tid, Decided(PlanFail(HandlerTimeout, true)))
    case Begin(tid) =>
      var at := At(m, tid);
      if at.None? || !at.value.Decided? then m
      else if m.e.outcome.Some? || m.e.finalizing then Leave(m, tid)
      else Move(m.(e := m.e.(finalizing := true)), tid, Owning(at.value.plan))
    case Call(tid, reply) =>
      var at := At(m, tid);
      if at.None? || !at.value.Owning? || at.value.plan.PlanYield? then m
      else
        var detected := at.value.plan.PlanCancel? && reply.Err? && !reply.error.LeaseError?;
        Move(m.(e := m.e.(errorDetected := m.e.errorDetected || detected), calls := m.calls + 1),
             tid, Concluding(OutcomeOf(at.value.plan, m.e.job, reply)))
    case Skip(tid) =>
      var at := At(m, tid);
      if at.None? || !at.value.Owning? then m else Move(m, tid, Concluding(SkippedOutcome(at.value.plan)))
    case End(tid) =>
      var at := At(m, tid);
      if at.None? || !at.value.Concluding? then m
      else if m.e.outcome.Some? then Leave(m.(e := m.e.(finalizing := false)), tid)
      else Leave(m.(e := m.e.(finalizing := false, outcome := Some(at.value.outcome)), records := m.records + 1), tid)
  }

  function DoAll(m: Machine, steps: seq<Step>): Machine {
    if steps == [] then m else Do(DoAll(m, steps[..|steps| - 1]), steps[|steps| - 1])
  }

  // ---------------------------------------------------------------- one finalizer

  /** Past winning finalization and before the outcome is written. */
  predicate Owns(phase: Phase) {
    phase.Owning? || phase.Concluding?
  }

  /** At most one thread owns the finalization, and it accounts for any call already made. */
  predicate OwnedBy(m: Machine, owner: Option<int>) {
    && m.e.finalizing == owner.Some?
    && (owner.Some? ==> owner.value in m.threads)
    && (forall t :: t in m.threads ==> (Owns(m.threads[t]) <==> owner == Some(t)))
    && m.records == (if m.e.outcome.Some? then 1 else 0)
    && (m.e.outcome.Some? ==> owner.None?)
    && m.calls <= 1
    && (m.calls == 1 ==> m.e.outcome.Some? || (owner.Some? && m.threads[owner.value].Concluding?))
    && !(m.e.launched && m.e.launchFailed)
  }

  ghost predicate MachineInv(m: Machine) {
    exists owner :: OwnedBy(m, owner)
  }

  /** Who owns the finalization after a step: it is won by Begin and given up by End. */
  function NextOwner(m: Machine, owner: Option<int>, s: Step): Option<int> {
    if s.Begin? && At(m, s.tid).Some? && At(m, s.tid).value.Decided? && owner.None? && m.e.outcome.None? then Some(s.tid)
    else if s.End? && owner == Some(s.tid) && At(m, s.tid).Some? && At(m, s.tid).value.Concluding? then None
    else owner
  }

  predicate Finishing(s: Step) {
    s.Begin? || s.Call? || s.Skip? || s.End?
  }

  predicate SameProgress(e: Execution, e': Execution) {
    && e'.finalizing == e.finalizing && e'.outcome == e.outcome && e'.job == e.job
    && !(e'.launched && e'.launchFailed)
  }

  lemma QuietMove(m: Machine, owner: Option<int>, e: Execution, tid: int, phase: Phase)
    requires OwnedBy(m, owner) && SameProgress(m.e, e) && !Owns(phase)
    ensures OwnedBy(m.(e := e), owner)
    ensures tid !in m.threads || !Owns(m.threads[tid]) ==>
              OwnedBy(Move(m.(e := e), tid, phase), owner) && OwnedBy(Leave(m.(e := e), tid), owner)
  {
  }

  predicate Flagging(s: Step) {
    s.ConfirmLaunch? || s.LaunchFails? || s.HandlerEnds? || s.RequestCancel?
  }

  lemma FlagStep(m: Machine, owner: Option<int>, s: Step)
    requires OwnedBy(m, owner) && Flagging(s)
    ensures OwnedBy(Do(m, s), owner) && SameProgress(m.e, Do(m, s).e) && Do(m, s).calls == m.calls
  {
    hide Owns;
  }

  /** A monitoring thread that reads flags, renews the lease or marks a timeout leaves ownership alone. */
  lemma ReadStep(m: Machine, owner: Option<int>, s: Step)
    requires OwnedBy(m, owner) && (s.Monitor? || s.ReadHandler?)
    ensures OwnedBy(Do(m, s), owner) && SameProgress(m.e, Do(m, s).e) && Do(m, s).calls == m.calls
  {
    hide OwnedBy, PlanFor, Observe;
    PhasesPlain(m.e);
    NeverBoth(m, owner);
    if s.Monitor? {
      var next := Observe(m.e, s.now, s.beatDue);
      QuietMove(m, owner, m.e, s.tid, if next.Some? then next.value else Beating);
    } else {
      QuietMove(m, owner, m.e, s.tid, PlanFor(m.e, s.now));
    }
  }

  lemma MarkStep(m: Machine, owner: Option<int>, s: Step)
    requires OwnedBy(m, owner) && (s.MarkTimeout? || s.Beat?)
    ensures OwnedBy(Do(m, s), owner) && SameProgress(m.e, Do(m, s).e) && Do(m, s).calls == m.calls
  {
    NeverBoth(m, owner);
    MarksKeep(m.e);
    hide OwnedBy, SameProgress, MarkLost, MarkLate, Renewed, Owns;
    PlainPhases();
    if s.MarkTimeout? {
      QuietMove(m, owner, MarkLate(m.e), s.tid, Decided(PlanFail(HandlerTimeout, true)));
    } else if s.renewed.None? || !SameLease(s.renewed.value, m.e.lease) {
      QuietMove(m, owner, MarkLost(m.e), s.tid, Decided(PlanYield));
    } else {
      QuietMove(m, owner, Renewed(m.e, s.renewed.value), s.tid, Beating);
    }
  }

  lemma MarksKeep(e: Execution)
    requires !(e.launched && e.launchFailed)
    ensures SameProgress(e, e) && SameProgress(e, MarkLost(e)) && SameProgress(e, MarkLate(e))
    ensures forall lease :: SameProgress(e, Renewed(e, lease))
  {
  }

  lemma PlainPhases()
    ensures !Owns(Beating) && !Owns(Overdue) && forall plan :: !Owns(Decided(plan))
  {
  }

  lemma NeverBoth(m: Machine, owner: Option<int>)
    requires OwnedBy(m, owner)
    ensures !(m.e.launched && m.e.launchFailed)
  {
  }

  lemma FinishingStep(m: Machine, owner: Option<int>, s: Step)
    requires OwnedBy(m, owner) && Finishing(s)
    ensures OwnedBy(Do(m, s), NextOwner(m, owner, s))
    ensures m.e.outcome.Some? ==> Do(m, s).e.outcome == m.e.outcome && Do(m, s).calls == m.calls
    ensures Do(m, s).e.job == m.e.job
  {
    hide OutcomeOf, SkippedOutcome;
  }

  lemma OwnedStep(m: Machine, owner: Option<int>, s: Step)
    requires OwnedBy(m, owner)
    ensures OwnedBy(Do(m, s), NextOwner(m, owner, s))
    ensures m.e.outcome.Some? ==> Do(m, s).e.outcome == m.e.outcome && Do(m, s).calls == m.calls
    ensures Do(m, s).e.job == m.e.job
  {
    hide Do, OwnedBy;
    if Finishing(s) {
      FinishingStep(m, owner, s);
    } else if Flagging(s) {
      FlagStep(m, owner, s);
    } else if s.Monitor? || s.ReadHandler? {
      ReadStep(m, owner, s);
    } else {
      MarkStep(m, owner, s);
    }
  }

  lemma StepKeeps(m: Machine, s: Step)
    requires MachineInv(m)
    ensures MachineInv(Do(m, s))
    ensures m.e.outcome.Some? ==> Do(m, s).e.outcome == m.e.outcome && Do(m, s).calls == m.calls
    ensures Do(m, s).e.job == m.e.job
  {
    hide OwnedBy, Do;
    var owner :| OwnedBy(m, owner);
    OwnedStep(m, owner, s);
  }

  /** Reading flags never makes a thread an owner. */
  lemma PhasesPlain(e: Execution)
    ensures forall now, due :: Observe(e, now, due).Some? ==> !Owns(Observe(e, now, due).value)
    ensures forall now :: !Owns(PlanFor(e, now))
  {
  }

  /**
   One finalizer: in every interleaving an execution makes at most one
   acknowledge, fail or cancel_lease call and its outcome is written at most once.
   */
  lemma {:induction false} OneFinalizer(m: Machine, steps: seq<Step>)
    requires MachineInv(m)
    ensures var m' := DoAll(m, steps);
            && MachineInv(m') && m'.calls <= 1 && m'.records <= 1 && m'.e.job == m.e.job
            && (m.e.outcome.Some? ==> m'.e.outcome == m.e.outcome && m'.calls == m.calls)
  {
    hide MachineInv, Do;
    if steps != [] {
      OneFinalizer(m, steps[..|steps| - 1]);
      StepKeeps(DoAll(m, steps[..|steps| - 1]), steps[|steps| - 1]);
    }
    Bounded(DoAll(m, steps));
  }

  lemma Bounded(m: Machine)
    requires MachineInv(m)
    ensures m.calls <= 1 && m.records <= 1
  {
  }

  lemma FreshInv(job: Job, lease: Lease, deadline: Time, code: Code)
    ensures MachineInv(Fresh(job, lease, deadline)) && MachineInv(Poisoned(job, lease, code))
  {
    assert OwnedBy(Fresh(job, lease, deadline), None);
    assert OwnedBy(Poisoned(job, lease, code), Some(0));
  }

  // ---------------------------------------------------------------- success

  /** The execution has counted its job as succeeded, or is about to. */
  ghost predicate Success(m: Machine) {
    m.e.outcome == Some(CountSucceeded) || exists t :: t in m.threads && m.threads[t] == Concluding(CountSucceeded)
  }

  /** Success can only come from a call that the queue answered with the succeeded job. */
  lemma SuccessNeedsCall(m: Machine, s: Step)
    requires MachineInv(m) && Success(Do(m, s)) && !Success(m)
    ensures s.Call? && s.reply.Ok? && s.reply.value.state.Succeeded? && s.reply.value.id == m.e.job.id
    ensures s.tid in m.threads && m.threads[s.tid].Owning? && !m.threads[s.tid].plan.PlanYield?
  {
    hide MachineInv;
    PhasesPlain(m.e);
    hide PlanFor, Observe;
    if !(s.ConfirmLaunch? || s.LaunchFails? || s.HandlerEnds? || s.RequestCancel?) {
      var m' := Do(m, s);
      if exists t :: t in m'.threads && m'.threads[t] == Concluding(CountSucceeded) {
        var t :| t in m'.threads && m'.threads[t] == Concluding(CountSucceeded);
        assert t == s.tid || t in m.threads;
      }
    }
  }
}
